/** The posting procedures of the ledger, statement by statement, while other sessions run
    any steps of theirs between any two statements. */
module LedgerSessions {
  import opened Ledger
  import opened LedgerTheorems

  /** The steps are of other transactions. */
  ghost predicate Foreign(id: nat, acts: seq<Action>) {
    forall i :: 0 <= i < |acts| ==> acts[i].Ensure? || acts[i].id != id
  }

  lemma OtherStepLeavesAlone(s: State, id: nat, act: Action)
    requires act.Ensure? || act.id != id
    ensures (id in Next(s, act).live) == (id in s.live)
    ensures id in s.live ==> Next(s, act).live[id] == s.live[id]
  {
  }

  lemma {:induction false} ForeignLeavesAlone(s: State, id: nat, acts: seq<Action>)
    requires Foreign(id, acts)
    ensures (id in Run(s, acts).live) == (id in s.live)
    ensures id in s.live ==> Run(s, acts).live[id] == s.live[id]
  {
    if acts != [] {
      ForeignLeavesAlone(s, id, acts[..|acts| - 1]);
      OtherStepLeavesAlone(Run(s, acts[..|acts| - 1]), id, acts[|acts| - 1]);
    }
  }

  predicate Own(act: Action, id: nat) {
    !act.Ensure? && act.id == id
  }

  /** A step of transaction id, or one of the given ones. */
  ghost predicate Expected(act: Action, id: nat, others: nat -> seq<Action>) {
    Own(act, id) || exists n :: act in others(n)
  }

  /** The history went on by steps of transaction id and given ones, and in what was added the
      transaction did not commit. */
  ghost predicate NoCommit(before: seq<Action>, after: seq<Action>, id: nat, others: nat -> seq<Action>) {
    before <= after
    && forall k :: |before| <= k < |after| ==> after[k] != Commit(id) && Expected(after[k], id, others)
  }

  lemma NoCommitThen(before: seq<Action>, after: seq<Action>, id: nat, others: nat -> seq<Action>, act: Action)
    requires NoCommit(before, after, id, others) && act != Commit(id) && Own(act, id)
    ensures NoCommit(before, after + [act], id, others)
  {
  }

  lemma NoCommitOthers(before: seq<Action>, after: seq<Action>, id: nat, others: nat -> seq<Action>, n: nat)
    requires NoCommit(before, after, id, others) && Foreign(id, others(n))
    ensures NoCommit(before, after + others(n), id, others)
  {
    forall k | |after| <= k < |after + others(n)|
      ensures (after + others(n))[k] != Commit(id) && Expected((after + others(n))[k], id, others)
    {
      assert (after + others(n))[k] == others(n)[k - |after|];
    }
  }

  lemma NoCommitTrans(h0: seq<Action>, h1: seq<Action>, h2: seq<Action>, id: nat, others: nat -> seq<Action>)
    requires NoCommit(h0, h1, id, others) && NoCommit(h1, h2, id, others)
    ensures NoCommit(h0, h2, id, others)
  {
    forall k | |h0| <= k < |h2| ensures h2[k] != Commit(id) && Expected(h2[k], id, others) {
      if k < |h1| { assert h1[k] == h2[k]; }
    }
  }

  /** The newest step of the history is the commit of transaction id with the given posting, the
      only one since before, on the given state. */
  ghost predicate CommittedBy(before: seq<Action>, after: seq<Action>, id: nat, others: nat -> seq<Action>,
                              post: Post, atCommit: State)
  {
    && |after| > |before|
    && var n := |after| - 1;
       && NoCommit(before, after[..n], id, others) && after[n] == Commit(id)
       && atCommit == Run(EMPTY, after[..n])
       && Commits(atCommit, Commit(id)) && atCommit.live[id].post == post
  }

  lemma CommitNow(before: seq<Action>, now: seq<Action>, id: nat, others: nat -> seq<Action>, post: Post)
    requires NoCommit(before, now, id, others)
    requires Commits(Run(EMPTY, now), Commit(id)) && Run(EMPTY, now).live[id].post == post
    ensures CommittedBy(before, now + [Commit(id)], id, others, post, Run(EMPTY, now))
  {
    assert (now + [Commit(id)])[..|now|] == now;
  }

  // ---------------------------------------------------------------- interference

  ghost predicate SameRow(rows: map<Account, Row>, rows0: map<Account, Row>, a: Account) {
    if a in rows0 then a in rows && rows[a] == rows0[a] else a !in rows
  }

  /** The committed row of account a is the one in rows0, and no other transaction holds it. */
  ghost predicate Free(s: State, id: nat, a: Account, rows0: map<Account, Row>) {
    SameRow(s.rows, rows0, a) && !HeldByOther(s, id, a)
  }

  /** The account was free at every statement of transaction id since the given step. */
  ghost predicate Calm(from: nat, history: seq<Action>, id: nat, a: Account, rows0: map<Account, Row>) {
    from < |history| ==>
      var n := |history| - 1;
      && Calm(from, history[..n], id, a, rows0)
      && (history[n] == Advance(id) ==> Free(Run(EMPTY, history[..n]), id, a, rows0))
  }

  lemma {:induction false} CalmAt(from: nat, history: seq<Action>, id: nat, a: Account, rows0: map<Account, Row>,
                                  k: nat)
    requires Calm(from, history, id, a, rows0) && from <= k < |history| && history[k] == Advance(id)
    ensures Free(Run(EMPTY, history[..k]), id, a, rows0)
  {
    var n := |history| - 1;
    if k < n {
      CalmAt(from, history[..n], id, a, rows0, k);
      assert history[..n][..k] == history[..k];
    }
  }

  lemma {:induction false} CalmPart(from: nat, history: seq<Action>, from': nat, part: seq<Action>, id: nat, a: Account,
                                    rows0: map<Account, Row>)
    requires Calm(from, history, id, a, rows0) && from <= from' && part <= history
    ensures Calm(from', part, id, a, rows0)
    decreases |history|, |part|
  {
    if from' < |part| {
      var n := |history| - 1;
      if |part| <= n {
        CalmPart(from, history[..n], from', part, id, a, rows0);
      } else {
        assert part == history;
        CalmPart(from, history[..n], from', part[..n], id, a, rows0);
      }
    }
  }

  ghost predicate AllCalm(from: nat, history: seq<Action>, id: nat, post: Post, rows0: map<Account, Row>) {
    forall i :: 0 <= i < |post.deltas| ==> Calm(from, history, id, post.deltas[i].acct, rows0)
  }

  ghost predicate Names(p: Post, a: Account) {
    exists i :: 0 <= i < |p.deltas| && p.deltas[i].acct == a
  }

  /** No transaction but id has to do with the account. */
  ghost predicate Away(s: State, id: nat, a: Account) {
    forall j :: j in s.live && j != id ==> !Names(s.live[j].post, a) && a !in s.live[j].overlay
  }

  /** The step brings no transaction but id to the account. */
  ghost predicate KeepsAway(act: Action, id: nat, a: Account) {
    act != Ensure(a) && (act.Begin? && act.id != id ==> !Names(act.post, a))
  }

  lemma AwayStep(s: State, id: nat, a: Account, act: Action)
    requires Away(s, id, a) && KeepsAway(act, id, a) && act != Commit(id)
    ensures Away(Next(s, act), id, a) && SameRow(Next(s, act).rows, s.rows, a)
  {
    if act.Advance? && Runs(s, act.id) {
      StatementIsPrivate(s, act.id);
      if act.id != id { AwayStatement(s, act.id, a); }
      StatementKeepsOthers(s, act.id);
    }
  }

  lemma AwayStatement(s: State, j: nat, a: Account)
    requires Runs(s, j) && !Names(s.live[j].post, a) && a !in s.live[j].overlay
    ensures j in Statement(s, j).live ==>
              Statement(s, j).live[j].post == s.live[j].post && a !in Statement(s, j).live[j].overlay
  {
    assert s.live[j].post.deltas[s.live[j].next].acct != a;
  }

  lemma StatementKeepsOthers(s: State, j: nat)
    requires Runs(s, j)
    ensures forall i :: i in Statement(s, j).live && i != j ==> i in s.live && Statement(s, j).live[i] == s.live[i]
  {
  }

  /** What a caller can check: if no other live transaction names the account, and none that
      others begin does, there is no interference. */
  lemma {:induction false} AwayIsCalm(before: seq<Action>, after: seq<Action>, id: nat, a: Account)
    requires before <= after && Away(Run(EMPTY, before), id, a)
    requires forall k :: |before| <= k < |after| ==> KeepsAway(after[k], id, a) && after[k] != Commit(id)
    ensures Calm(|before|, after, id, a, Run(EMPTY, before).rows)
  {
    if |before| < |after| {
      var n := |after| - 1;
      AwayIsCalm(before, after[..n], id, a);
      AwayAt(before, after, id, a, n);
    }
  }

  lemma {:induction false} AwayAt(before: seq<Action>, after: seq<Action>, id: nat, a: Account, k: nat)
    requires before <= after && Away(Run(EMPTY, before), id, a) && |before| <= k <= |after|
    requires forall i :: |before| <= i < k ==> KeepsAway(after[i], id, a) && after[i] != Commit(id)
    ensures Away(Run(EMPTY, after[..k]), id, a) && SameRow(Run(EMPTY, after[..k]).rows, Run(EMPTY, before).rows, a)
  {
    if k == |before| {
      assert after[..k] == before;
    } else {
      AwayAt(before, after, id, a, k - 1);
      assert after[..k][..k - 1] == after[..k - 1];
      AwayStep(Run(EMPTY, after[..k - 1]), id, a, after[k - 1]);
    }
  }

  ghost predicate AllKeepAway(others: nat -> seq<Action>, id: nat, a: Account) {
    forall n: nat, i :: 0 <= i < |others(n)| ==> KeepsAway(others(n)[i], id, a)
  }

  lemma StepKeepsAway(act: Action, id: nat, others: nat -> seq<Action>, a: Account)
    requires Expected(act, id, others) && AllKeepAway(others, id, a)
    ensures KeepsAway(act, id, a)
  {
    if !Own(act, id) {
      var n: nat :| act in others(n);
      var i :| 0 <= i < |others(n)| && others(n)[i] == act;
    }
  }

  /** So a call that was begun with the account to itself, and whose others keep away from it,
      was not interfered with. */
  lemma OthersAwayIsCalm(before: seq<Action>, after: seq<Action>, id: nat, others: nat -> seq<Action>, a: Account)
    requires Away(Run(EMPTY, before), id, a) && AllKeepAway(others, id, a) && NoCommit(before, after, id, others)
    ensures Calm(|before|, after, id, a, Run(EMPTY, before).rows)
  {
    forall k | |before| <= k < |after| ensures KeepsAway(after[k], id, a) { StepKeepsAway(after[k], id, others, a); }
    AwayIsCalm(before, after, id, a);
  }

  lemma CalmUntilCommit(before: seq<Action>, ready: seq<Action>, id: nat, a: Account)
    requires before <= ready && Calm(|before|, ready, id, a, Run(EMPTY, before).rows)
    ensures Calm(|before|, ready + [Commit(id)], id, a, Run(EMPTY, before).rows)
  {
    assert (ready + [Commit(id)])[..|ready|] == ready;
  }

  lemma CommittedIsCalm(before: seq<Action>, after: seq<Action>, id: nat, others: nat -> seq<Action>, a: Account,
                        post: Post, atCommit: State)
    requires Away(Run(EMPTY, before), id, a) && AllKeepAway(others, id, a)
    requires CommittedBy(before, after, id, others, post, atCommit)
    ensures before <= after && Calm(|before|, after, id, a, Run(EMPTY, before).rows)
  {
    var ready := after[..|after| - 1];
    assert after == ready + [Commit(id)];
    assert Calm(|before|, ready + [Commit(id)], id, a, Run(EMPTY, before).rows) by {
      OthersAwayIsCalm(before, ready, id, others, a);
      CalmUntilCommit(before, ready, id, a);
    }
  }

  /** A statement that meets no interference goes through: a read always, an insert of the
      missing row, and an update of the row that is still there unless it is a debit that the
      balance does not cover. */
  lemma CalmStatement(s: State, id: nat, rows0: map<Account, Row>)
    requires Runs(s, id) && var t := s.live[id]; var d := t.post.deltas[t.next];
             && Free(s, id, d.acct, rows0)
             && Expects(t, rows0)
    ensures var t := s.live[id]; var d := t.post.deltas[t.next];
            var goes := id in Statement(s, id).live && Statement(s, id).live[id] != t;
            && (goes <==> !(t.pc.Update? && t.post.kind == Debit && t.pc.row.balance + d.amount < 0))
            && (goes && !t.pc.Update? ==>
                  Expects(Statement(s, id).live[id], rows0)
                  && Reads(Statement(s, id).live[id], rows0) == Reads(t, rows0))
  {
  }

  /** When a statement rolls its transaction back: an insert that came too late, an update
      whose row is not the one that was read, or a debit that what was read does not cover. Only
      a row that another transaction holds makes one wait. */
  lemma RolledBackIff(s: State, id: nat)
    requires Runs(s, id)
    ensures var t := s.live[id]; var d := t.post.deltas[t.next]; var held := HeldByOther(s, id, d.acct);
            var uncovered := t.pc.Update? && t.post.kind == Debit && t.pc.row.balance + d.amount < 0;
            && (id !in Statement(s, id).live <==>
                  || uncovered
                  || (!held && t.pc.Insert? && d.acct in s.rows)
                  || (!held && t.pc.Update? && d.acct in t.overlay && t.overlay[d.acct].version != t.pc.row.version)
                  || (!held && t.pc.Update? && d.acct !in t.overlay
                      && (d.acct in s.rows ==> s.rows[d.acct].version != t.pc.row.version)))
            && (held && !t.pc.Query? && !uncovered ==> Statement(s, id) == s)
            && (!held && id in Statement(s, id).live ==> Statement(s, id).live[id].pc != t.pc)
  {
  }

  /** The row a transaction is about to insert is missing, and the row it is about to update is
      its own or the committed one. */
  ghost predicate Expects(t: Txn, rows0: map<Account, Row>) {
    && t.next < |t.post.deltas|
    && var a := t.post.deltas[t.next].acct;
       match t.pc
       case Query => true
       case Insert => a !in t.overlay && a !in rows0
       case Update(row) => if a in t.overlay then t.overlay[a] == row else a in rows0 && rows0[a] == row
  }

  /** The balance a transaction goes by for its current entry. */
  ghost function Reads(t: Txn, rows0: map<Account, Row>): int
    requires t.next < |t.post.deltas|
  {
    var a := t.post.deltas[t.next].acct;
    if a in t.overlay then t.overlay[a].balance else Balance(rows0, a)
  }

  /** What one successful statement does to its transaction. */
  ghost predicate Progress(t: Txn, u: Txn) {
    && u.post == t.post
    && match t.pc
       case Query => u.next == t.next && (u.pc.Insert? || u.pc.Update?)
       case Insert => u.next == t.next && u.pc == Update(Row(0, 0))
       case Update(row) => u.next == t.next + 1 && u.pc == Query
  }

  lemma StatementProgress(s: State, id: nat)
    requires Runs(s, id)
    requires id in Statement(s, id).live && Statement(s, id).live[id] != s.live[id]
    ensures Progress(s.live[id], Statement(s, id).live[id])
  {
  }

  /** The database all sessions share. Its state is always one that a schedule reaches. */
  class Database {
    var state: State
    ghost var history: seq<Action>

    ghost predicate Valid()
      reads this
    {
      state == Run(EMPTY, history)
    }

    constructor ()
      ensures Valid() && state == EMPTY
    {
      state, history := EMPTY, [];
    }

    method Perform(act: Action)
      requires Valid()
      modifies this
      ensures Valid() && state == Next(old(state), act) && history == old(history) + [act]
    {
      RunSnoc(EMPTY, history, act);
      state, history := Next(state, act), history + [act];
    }

    method PerformAll(acts: seq<Action>)
      requires Valid()
      modifies this
      ensures Valid() && state == Run(old(state), acts) && history == old(history) + acts
    {
      for i := 0 to |acts|
        invariant Valid() && state == Run(old(state), acts[..i]) && history == old(history) + acts[..i]
      {
        RunSnoc(old(state), acts[..i], acts[i]);
        assert acts[..i + 1] == acts[..i] + [acts[i]];
        Perform(acts[i]);
      }
      assert acts[..|acts|] == acts;
    }

    /** One statement of transaction id, issued after others moved on. A statement that
        still has to wait then fails, and a failed statement rolls the transaction back. */
    method Issue(id: nat, others: nat -> seq<Action>, n: nat, ghost rows0: map<Account, Row>) returns (ok: bool)
      requires Valid() && Foreign(id, others(n)) && Runs(state, id)
      modifies this
      ensures Valid() && ok == (id in state.live)
      ensures ok ==> Progress(old(state).live[id], state.live[id])
      ensures NoCommit(old(history), history, id, others)
      ensures var t := old(state).live[id]; var d := t.post.deltas[t.next];
              Calm(|old(history)|, history, id, d.acct, rows0) && Expects(t, rows0) ==>
                && (ok <==> !(t.pc.Update? && t.post.kind == Debit && t.pc.row.balance + d.amount < 0))
                && (ok && !t.pc.Update? ==>
                      Expects(state.live[id], rows0) && Reads(state.live[id], rows0) == Reads(t, rows0))
    {
      NoCommitOthers(history, history, id, others, n);
      PerformAll(others(n));
      ForeignLeavesAlone(old(state), id, others(n));
      ghost var before, prior := state, history;
      var t := state.live[id];
      NoCommitThen(old(history), history, id, others, Advance(id));
      Perform(Advance(id));
      ok := id in state.live && state.live[id] != t;
      if ok {
        StatementProgress(before, id);
      } else {
        NoCommitThen(old(history), history, id, others, Abort(id));
        Perform(Abort(id));
      }
      ghost var a := t.post.deltas[t.next].acct;
      if Calm(|old(history)|, history, id, a, rows0) && Expects(t, rows0) {
        CalmAt(|old(history)|, history, id, a, rows0, |prior|);
        assert history[..|prior|] == prior;
        CalmStatement(before, id, rows0);
      }
    }
  }

  /** Runs the statements for one entry: read, create if missing, update under the version
      read. Between read and update a debit compares the balance it read with its amount.
      Without interference on the account, with rows0 what is committed of it, that is all
      that can stop the entry. */
  method PostEntry(db: Database, id: nat, others: nat -> seq<Action>, clock: nat, ghost rows0: map<Account, Row>)
    returns (ok: bool)
    requires db.Valid() && Runs(db.state, id) && db.state.live[id].pc == Query
    requires forall n :: Foreign(id, others(n))
    modifies db
    ensures db.Valid() && ok == (id in db.state.live)
    ensures ok ==> db.state.live[id].post == old(db.state).live[id].post
                   && db.state.live[id].next == old(db.state).live[id].next + 1 && db.state.live[id].pc == Query
    ensures NoCommit(old(db.history), db.history, id, others)
    ensures var t := old(db.state).live[id]; var d := t.post.deltas[t.next];
            Calm(|old(db.history)|, db.history, id, d.acct, rows0) ==>
              (ok <==> (t.post.kind == Debit ==> Reads(t, rows0) + d.amount >= 0))
  {
    var t := db.state.live[id];
    ghost var from, a := |db.history|, t.post.deltas[t.next].acct;
    ok := db.Issue(id, others, clock, rows0);
    if ok && db.state.live[id].pc.Insert? {
      ghost var before := db.history;
      ok := db.Issue(id, others, clock + 1, rows0);
      NoCommitTrans(old(db.history), before, db.history, id, others);
      CalmBoth(from, before, db.history, id, a, rows0);
    }
    ghost var read := db.history;
    if ok {
      var balance, delta := db.state.live[id].pc.row.balance, t.post.deltas[t.next].amount;
      if t.post.kind == Debit && balance < -delta {
        NoCommitThen(old(db.history), db.history, id, others, Abort(id));
        db.Perform(Abort(id));
        ok := false;
      } else {
        ok := db.Issue(id, others, clock + 2, rows0);
        NoCommitTrans(old(db.history), read, db.history, id, others);
      }
      CalmBoth(from, read, db.history, id, a, rows0);
    }
  }

  /** What is calm as a whole is calm before and after any point. */
  lemma CalmBoth(from: nat, middle: seq<Action>, history: seq<Action>, id: nat, a: Account, rows0: map<Account, Row>)
    requires middle <= history && from <= |middle|
    ensures Calm(from, history, id, a, rows0) ==>
              Calm(from, middle, id, a, rows0) && Calm(|middle|, history, id, a, rows0)
  {
    if Calm(from, history, id, a, rows0) {
      CalmPart(from, history, from, middle, id, a, rows0);
      CalmPart(from, history, |middle|, history, id, a, rows0);
    }
  }

  lemma AllCalmPart(from: nat, part: seq<Action>, history: seq<Action>, id: nat, post: Post, rows0: map<Account, Row>)
    requires part <= history
    ensures AllCalm(from, history, id, post, rows0) ==> AllCalm(from, part, id, post, rows0)
  {
    if AllCalm(from, history, id, post, rows0) {
      forall i | 0 <= i < |post.deltas| ensures Calm(from, part, id, post.deltas[i].acct, rows0) {
        CalmPart(from, history, from, part, id, post.deltas[i].acct, rows0);
      }
    }
  }

  /** postLedger: checks the entries, then posts them in turn. On success the transaction is
      ready to commit and holds exactly the requested entries; on failure it is gone. Without
      interference on the accounts it names, it succeeds exactly when the checks pass. */
  method PostLedger(db: Database, id: nat, post: Post, others: nat -> seq<Action>) returns (ok: bool)
    requires db.Valid() && id !in db.state.live && (post.kind == Settle || post.kind == Recharge)
    requires forall n :: Foreign(id, others(n))
    modifies db
    ensures db.Valid() && ok == (id in db.state.live)
    ensures ok ==> db.state.live[id].post == post && db.state.live[id].next == |post.deltas|
    ensures !Accepts(post) ==> !ok && db.state == old(db.state)
    ensures Accepts(post) <==> post.deltas != [] && (post.kind == Settle ==> CreditSum(post.deltas) == 0)
    ensures NoCommit(old(db.history), db.history, id, others)
    ensures AllCalm(|old(db.history)|, db.history, id, post, old(db.state).rows) ==> (ok <==> Accepts(post))
  {
    ok := PassesChecks(post);
    if !ok { return; }
    db.Perform(Begin(id, post));
    for n := 0 to |post.deltas|
      invariant NoCommit(old(db.history), db.history, id, others)
      invariant db.Valid() && id in db.state.live && db.state.live[id].post == post
      invariant db.state.live[id].next == n && db.state.live[id].pc == Query
    {
      ghost var before := db.history;
      ok := PostEntry(db, id, others, 3 * n, old(db.state).rows);
      NoCommitTrans(old(db.history), before, db.history, id, others);
      CalmBoth(|old(db.history)|, before, db.history, id, post.deltas[n].acct, old(db.state).rows);
      if !ok { return; }
    }
    ok := true;
  }

  /** The checks at the start of postLedger. */
  method PassesChecks(post: Post) returns (ok: bool)
    requires post.kind == Settle || post.kind == Recharge
    ensures ok <==> Accepts(post)
  {
    if |post.deltas| == 0 { return false; }
    if post.kind != Recharge {
      var creditsSum := 0;
      for i := 0 to |post.deltas|
        invariant creditsSum == CreditSum(post.deltas[..i])
      {
        assert post.deltas[..i + 1][..i] == post.deltas[..i];
        if post.deltas[i].acct.asset == CREDITS { creditsSum := creditsSum + post.deltas[i].amount; }
      }
      assert post.deltas[..|post.deltas|] == post.deltas;
      if creditsSum != 0 { return false; }
    }
    ok := true;
  }

  lemma CommitOne(acts: seq<Action>, id: nat, kind: Kind, d: Delta)
    requires var s := Run(EMPTY, acts); id in s.live && s.live[id].post == Post(kind, [d]) && s.live[id].next == 1
    ensures var s := Run(EMPTY, acts); var s' := Next(s, Commit(id));
            && id !in s'.live && s'.posts == s.posts + [Post(kind, [d])]
            && Balance(s'.rows, d.acct) == Balance(s.rows, d.acct) + d.amount
            && (forall a :: a != d.acct ==> Balance(s'.rows, a) == Balance(s.rows, a))
            && (kind == Debit ==> Balance(s'.rows, d.acct) >= 0)
  {
    EmptyInv();
    RunKeepsInv(EMPTY, acts);
    CommitMoves(Run(EMPTY, acts), id);
    forall a { MovedOne(d, a); }
    if kind == Debit { DebitAtCommit(Run(EMPTY, acts), id, d); }
  }

  /** The posting of a credit or a debit. */
  function OneSided(kind: Kind, acct: Account, amount: int): Post {
    Post(kind, [Delta(acct, if kind == Debit then -amount else amount)])
  }

  /** CreditAccount and DebitAccount: one entry in a transaction of its own. On success this
      call committed it, and moved the account by it relative to what the account held at that
      moment; a debit was covered by it. Without interference on the account, only a debit
      that its balance does not cover fails. */
  method ChangeAccount(db: Database, id: nat, kind: Kind, acct: Account, amount: int, others: nat -> seq<Action>)
    returns (ok: bool, ghost atCommit: State)
    requires db.Valid() && id !in db.state.live && (kind == Credit || kind == Debit)
    requires forall n :: Foreign(id, others(n))
    modifies db
    ensures db.Valid() && id !in db.state.live
    ensures ok ==> CommittedBy(old(db.history), db.history, id, others, OneSided(kind, acct, amount), atCommit)
    ensures ok ==> Balance(db.state.rows, acct)
                   == Balance(atCommit.rows, acct) + OneSided(kind, acct, amount).deltas[0].amount
                   && forall a :: a != acct ==> Balance(db.state.rows, a) == Balance(atCommit.rows, a)
    ensures ok && kind == Debit ==> Balance(atCommit.rows, acct) >= amount
    ensures !ok ==> NoCommit(old(db.history), db.history, id, others)
    ensures Calm(|old(db.history)|, db.history, id, acct, old(db.state).rows) ==>
              (ok <==> kind == Credit || Balance(old(db.state).rows, acct) >= amount)
  {
    var post := OneSided(kind, acct, amount);
    db.Perform(Begin(id, post));
    ghost var begun := db.history;
    ok := PostEntry(db, id, others, 0, old(db.state).rows);
    NoCommitTrans(old(db.history), begun, db.history, id, others);
    CalmBoth(|old(db.history)|, begun, db.history, id, acct, old(db.state).rows);
    atCommit := db.state;
    if ok {
      ghost var ready := db.history;
      CommitOne(db.history, id, kind, post.deltas[0]);
      CommitNow(old(db.history), db.history, id, others, post);
      db.Perform(Commit(id));
      CalmBoth(|old(db.history)|, ready, db.history, id, acct, old(db.state).rows);
    }
  }
}
