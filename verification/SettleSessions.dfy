/** Settling a record in a database that other sessions use: the posting and the mark are one
    ledger transaction. */
module SettleSessions {
  import Ledger
  import LedgerTheorems
  import LedgerSessions
  import opened Settlements

  /** The transaction of Settle, amid any steps of other sessions: it commits the posting, and
      moves every account by it relative to what the account held at the commit, or it does
      not commit. Without interference it commits exactly when the checks pass. */
  method PostAndLink(db: LedgerSessions.Database, txn: nat, post: Ledger.Post,
                     others: nat -> seq<Ledger.Action>, linkFails: bool)
    returns (posted: bool, ghost atCommit: Ledger.State)
    requires db.Valid() && txn !in db.state.live && post.kind == Ledger.Settle
    requires forall n :: LedgerSessions.Foreign(txn, others(n))
    modifies db
    ensures db.Valid() && txn !in db.state.live
    ensures !posted ==> LedgerSessions.NoCommit(old(db.history), db.history, txn, others)
    ensures posted ==> LedgerSessions.CommittedBy(old(db.history), db.history, txn, others, post, atCommit)
    ensures posted ==> Ledger.Accepts(post)
    ensures posted ==> forall a :: LedgerTheorems.Balance(db.state.rows, a)
                                   == LedgerTheorems.Balance(atCommit.rows, a) + LedgerTheorems.Moved(post.deltas, a)
    ensures LedgerSessions.AllCalm(|old(db.history)|, db.history, txn, post, old(db.state).rows) ==>
              (posted <==> Ledger.Accepts(post) && !linkFails)
  {
    posted := LedgerSessions.PostLedger(db, txn, post, others);
    atCommit := db.state;
    ghost var ready := db.history;
    if posted && linkFails {
      LedgerSessions.NoCommitThen(old(db.history), db.history, txn, others, Ledger.Abort(txn));
      db.Perform(Ledger.Abort(txn));
      posted := false;
    }
    if posted {
      LedgerTheorems.EmptyInv();
      Ledger.RunKeepsInv(Ledger.EMPTY, db.history);
      LedgerTheorems.CommitMoves(db.state, txn);
      LedgerSessions.CommitNow(old(db.history), db.history, txn, others, post);
      db.Perform(Ledger.Commit(txn));
    }
    LedgerSessions.AllCalmPart(|old(db.history)|, ready, db.history, txn, post, old(db.state).rows);
  }

  /** Settle, amid any steps of other sessions. If it settles the record, the ledger commits the
      record's posting in the same transaction as the mark, and it moves every credits account
      by what the record says relative to what it held at the commit. If it does not, its
      ledger transaction does not commit, and the record is open to another attempt. */
  method SettleInSession(store: Store, db: LedgerSessions.Database, id: nat, txn: nat,
                         pointsPerConsumerCredit: int, pointsPerProviderCredit: int,
                         others: nat -> seq<Ledger.Action>, linkFails: bool, markFails: bool)
    returns (tx: Result<nat>, ghost atCommit: Ledger.State)
    requires store.Valid() && db.Valid() && txn !in db.state.live
    requires forall n :: LedgerSessions.Foreign(txn, others(n))
    modifies store, db
    ensures store.Valid() && db.Valid() && txn !in db.state.live
    ensures !Open(old(store.records), id) ==>
              tx == (if id < |old(store.records)| then Ok(old(store.records)[id].txId) else Err)
              && db.history == old(db.history) && store.records == old(store.records) && store.txs == old(store.txs)
    ensures Open(old(store.records), id) && tx.Err? ==>
              LedgerSessions.NoCommit(old(db.history), db.history, txn, others) && store.txs == old(store.txs)
              && store.records == if markFails then old(store.records)
                                  else old(store.records)[id := old(store.records)[id].(status := Failed)]
    ensures Open(old(store.records), id) && tx.Ok? ==>
              var r := old(store.records)[id].request;
              && Balances(r)
              && SettledBy(r, id, store.records, store.txs, pointsPerConsumerCredit, pointsPerProviderCredit)
              && |store.txs| == |old(store.txs)| + 1 && store.txs[..|old(store.txs)|] == old(store.txs)
              && LedgerSessions.CommittedBy(old(db.history), db.history, txn, others,
                                            store.txs[|store.txs| - 1].post, atCommit)
              && (forall a: Ledger.Account :: a.asset == Ledger.CREDITS ==>
                    LedgerTheorems.Balance(db.state.rows, a)
                    == LedgerTheorems.Balance(atCommit.rows, a) + SettleMoves(r, a))
              && (forall a: Ledger.Account :: a.asset != Ledger.CREDITS ==>
                    LedgerTheorems.Balance(db.state.rows, a)
                    == LedgerTheorems.Balance(atCommit.rows, a)
                       + PointsIssued(r, r.cost * pointsPerConsumerCredit, r.revenue * pointsPerProviderCredit, a))
    ensures Open(old(store.records), id) ==>
              var r := old(store.records)[id].request;
              var post := Ledger.Post(Ledger.Settle, Entries(r, r.cost * pointsPerConsumerCredit,
                                                             r.revenue * pointsPerProviderCredit));
              LedgerSessions.AllCalm(|old(db.history)|, db.history, txn, post, old(db.state).rows) ==>
                (tx.Ok? <==> Balances(r) && !linkFails)
  {
    atCommit := db.state;
    if !Open(store.records, id) {
      tx := if id < |store.records| then Ok(store.records[id].txId) else Err;
      return;
    }
    var r := store.records[id].request;
    var toConsumer := r.cost * pointsPerConsumerCredit;
    var toProvider := r.revenue * pointsPerProviderCredit;
    var entries := store.BuildEntries(r, toConsumer, toProvider);
    EntriesBalance(r, toConsumer, toProvider);
    var posted;
    posted, atCommit := PostAndLink(db, txn, Ledger.Post(Ledger.Settle, entries), others, linkFails);
    tx := store.Settle(id, pointsPerConsumerCredit, pointsPerProviderCredit, !posted, markFails);
  }

  /** When settling a balanced record can overdraw its consumer: exactly when what it takes is
      more than what it gives back, which it does when consumer and provider are one. */
  lemma ConsumerSparedIff(r: Request, toConsumer: int, toProvider: int)
    ensures var post := Ledger.Post(Ledger.Settle, Entries(r, toConsumer, toProvider));
            LedgerTheorems.Spares(post, User(r.consumer, Ledger.CREDITS))
            <==> r.cost <= if r.consumer == r.provider then r.revenue else 0
  {
    EntriesBalance(r, toConsumer, toProvider);
  }
}
