/** What the ledger protocol keeps over every schedule of every set of transactions. */
module LedgerTheorems {
  import opened Ledger

  /** No update is ever lost: in every reachable state each account row is the sum and the
      number of its committed entries, and each entry's balance_after is the running sum. */
  lemma NoLostUpdate(acts: seq<Action>, a: Account)
    ensures var s := Run(EMPTY, acts);
            && (if a in s.rows then s.rows[a] == Row(Sum(s.log, a), Count(s.log, a)) else Count(s.log, a) == 0)
            && (forall i :: 0 <= i < |s.log| ==> s.log[i].after == Sum(s.log[..i + 1], s.log[i].acct))
  {
    var s := Run(EMPTY, acts);
    EmptyInv();
    RunKeepsInv(EMPTY, acts);
    if a !in s.rows { AbsentRow(s.log, a); }
    forall i | 0 <= i < |s.log| ensures s.log[i].after == Sum(s.log[..i + 1], s.log[i].acct) {
      ChainedAt(s.log, i);
    }
  }

  lemma EmptyInv()
    ensures Inv(EMPTY)
  {
  }

  lemma {:induction false} LastEntryIsSum(es: seq<Entry>, i: nat)
    requires Chained(es) && i < |es| && forall j :: i < j < |es| ==> es[j].acct != es[i].acct
    ensures Sum(es, es[i].acct) == es[i].after
  {
    var n := |es| - 1;
    if i < n {
      assert es[n].acct != es[i].acct;
      LastEntryIsSum(es[..n], i);
    }
  }

  /** The newest entry of an account carries the account's balance. */
  lemma LastEntryIsBalance(acts: seq<Action>, i: nat)
    requires var log := Run(EMPTY, acts).log; i < |log| && forall j :: i < j < |log| ==> log[j].acct != log[i].acct
    ensures var s := Run(EMPTY, acts); var a := s.log[i].acct;
            a in s.rows && s.rows[a].balance == s.log[i].after
  {
    EmptyInv();
    RunKeepsInv(EMPTY, acts);
    LastEntryIsSum(Run(EMPTY, acts).log, i);
  }

  // ---------------------------------------------------------------- the log is the postings

  /** The deltas of the committed postings, in commit order. */
  function Requested(ps: seq<Post>): seq<(Kind, Delta)> {
    if ps == [] then [] else Requested(ps[..|ps| - 1]) + Tagged(ps[|ps| - 1])
  }

  function Tagged(p: Post): seq<(Kind, Delta)> {
    seq(|p.deltas|, i requires 0 <= i < |p.deltas| => (p.kind, p.deltas[i]))
  }

  function Recorded(es: seq<Entry>): seq<(Kind, Delta)> {
    seq(|es|, i requires 0 <= i < |es| => (es[i].kind, Delta(es[i].acct, es[i].delta)))
  }

  /** The entry log is the committed postings, and all of those passed the checks. */
  ghost predicate Booked(s: State) {
    Recorded(s.log) == Requested(s.posts) && forall i :: 0 <= i < |s.posts| ==> Accepts(s.posts[i])
  }

  lemma {:induction false} RequestedHas(ps: seq<Post>, i: nat, j: nat)
    requires i < |ps| && j < |ps[i].deltas|
    ensures (ps[i].kind, ps[i].deltas[j]) in Requested(ps)
  {
    var n := |ps| - 1;
    if i < n {
      RequestedHas(ps[..n], i, j);
    } else {
      assert Tagged(ps[n])[j] == (ps[i].kind, ps[i].deltas[j]);
    }
  }

  /** Committed postings stay. */
  lemma {:induction false} PostsGrow(s: State, acts: seq<Action>)
    ensures s.posts <= Run(s, acts).posts
  {
    if acts != [] {
      var before, act := Run(s, acts[..|acts| - 1]), acts[|acts| - 1];
      PostsGrow(s, acts[..|acts| - 1]);
      assert before.posts <= Next(before, act).posts;
    }
  }

  /** Rolled-back transactions leave no entry and committed ones leave every entry, once,
      in order, with the requested amount. */
  lemma {:induction false} LogIsPostings(acts: seq<Action>)
    ensures Booked(Run(EMPTY, acts))
  {
    if acts != [] {
      var before := acts[..|acts| - 1];
      LogIsPostings(before);
      EmptyInv();
      RunKeepsInv(EMPTY, before);
      NextKeepsBooked(Run(EMPTY, before), acts[|acts| - 1]);
    }
  }

  predicate Commits(s: State, act: Action) {
    act.Commit? && act.id in s.live && s.live[act.id].next == |s.live[act.id].post.deltas|
  }

  lemma NextKeepsBooked(s: State, act: Action)
    requires Inv(s) && Booked(s)
    ensures Booked(Next(s, act))
  {
    if Commits(s, act) { CommitRecords(s, act.id); } else { OnlyCommitRecords(s, act); }
  }

  lemma RecordedConcat(xs: seq<Entry>, ys: seq<Entry>)
    ensures Recorded(xs + ys) == Recorded(xs) + Recorded(ys)
  {
  }

  /** A transaction ready to commit has written its posting. */
  lemma WrittenIsTagged(t: Txn)
    requires Follows(t) && t.next == |t.post.deltas|
    ensures Recorded(t.written) == Tagged(t.post)
  {
    forall i | 0 <= i < |t.written| ensures Recorded(t.written)[i] == Tagged(t.post)[i] {
      assert Matches(t.written[i], t.post, i);
    }
  }

  lemma RequestedSnoc(ps: seq<Post>, p: Post)
    ensures Requested(ps + [p]) == Requested(ps) + Tagged(p)
  {
    assert (ps + [p])[..|ps + [p]| - 1] == ps;
  }

  lemma CommitRecords(s: State, id: nat)
    requires Inv(s) && Commits(s, Commit(id)) && Booked(s)
    ensures Booked(Next(s, Commit(id)))
  {
    var t := s.live[id];
    WrittenIsTagged(t);
    RecordedConcat(s.log, t.written);
    RequestedSnoc(s.posts, t.post);
  }

  lemma OnlyCommitRecords(s: State, act: Action)
    requires !Commits(s, act)
    ensures Next(s, act).log == s.log && Next(s, act).posts == s.posts
  {
  }

  // ---------------------------------------------------------------- debits

  function Balance(rows: map<Account, Row>, a: Account): int {
    if a in rows then rows[a].balance else 0
  }

  lemma DebitAtCommit(s: State, id: nat, d: Delta)
    requires Inv(s) && id in s.live && s.live[id].post == Post(Debit, [d]) && s.live[id].next == 1
    ensures Balance(Next(s, Commit(id)).rows, d.acct) == Balance(s.rows, d.acct) + d.amount >= 0
  {
    var t := s.live[id];
    var e := t.written[0];
    var w := s.log + [e];
    assert e == Written(t.post, 0, e.after) && t.written == [e];
    assert t.overlay[d.acct].balance == Sum(w, d.acct);
    RowSnoc(s.log, e, d.acct);
    assert e.after == Sum(w, d.acct) by { assert w[|w| - 1] == e; }
    if d.acct !in s.rows { AbsentRow(s.log, d.acct); }
  }

  /** A debit that commits finds, at its commit point, at least its amount in the account,
      whatever happened between its read and its commit. */
  lemma CommittedDebitWasCovered(acts: seq<Action>, id: nat, d: Delta)
    requires var s := Run(EMPTY, acts); id in s.live && s.live[id].post == Post(Debit, [d]) && s.live[id].next == 1
    ensures var s := Run(EMPTY, acts);
            && Balance(s.rows, d.acct) >= -d.amount
            && Balance(Next(s, Commit(id)).rows, d.acct) == Balance(s.rows, d.acct) + d.amount
  {
    EmptyInv();
    RunKeepsInv(EMPTY, acts);
    DebitAtCommit(Run(EMPTY, acts), id, d);
  }

  // ---------------------------------------------------------------- postings that meet no other

  /** What a posting does to one account, however many of its sides name that account. */
  function Moved(ds: seq<Delta>, a: Account): int {
    if ds == [] then 0
    else Moved(ds[..|ds| - 1], a) + if ds[|ds| - 1].acct == a then ds[|ds| - 1].amount else 0
  }

  /** Some schedule leads from one state to the other. */
  ghost predicate Reaches(s: State, s': State) {
    exists acts :: Run(s, acts) == s'
  }

  lemma RunSnoc(s: State, acts: seq<Action>, act: Action)
    ensures Run(s, acts + [act]) == Next(Run(s, acts), act)
  {
    assert (acts + [act])[..|acts|] == acts;
  }

  lemma ReachStep(s: State, act: Action)
    ensures Reaches(s, Next(s, act))
  {
    RunSnoc(s, [], act);
    assert Run(s, []) == s;
  }

  lemma ReachTrans(s: State, s1: State, s2: State)
    requires Reaches(s, s1) && Reaches(s1, s2)
    ensures Reaches(s, s2)
  {
    var xs :| Run(s, xs) == s1;
    var ys :| Run(s1, ys) == s2;
    RunConcat(s, xs, ys);
  }

  lemma ReachNext(s: State, s1: State, act: Action)
    requires Reaches(s, s1)
    ensures Reaches(s, Next(s1, act))
  {
    ReachStep(s1, act);
    ReachTrans(s, s1, Next(s1, act));
  }

  lemma {:induction false} RunConcat(s: State, xs: seq<Action>, ys: seq<Action>)
    ensures Run(s, xs + ys) == Run(Run(s, xs), ys)
  {
    if ys == [] {
      assert xs + ys == xs;
    } else {
      RunConcat(s, xs, ys[..|ys| - 1]);
      assert xs + ys == (xs + ys[..|ys| - 1]) + [ys[|ys| - 1]];
      RunSnoc(s, xs + ys[..|ys| - 1], ys[|ys| - 1]);
    }
  }

  function Alone(s: State, id: nat, t: Txn): State {
    s.(live := map[id := t])
  }

  /** Reading, alone: the account's row is its own or the committed one; if there is none the
      insert succeeds. */
  lemma ReadAlone(s: State, id: nat, t: Txn) returns (t': Txn)
    requires t.next < |t.post.deltas| && t.pc == Query
    ensures Reaches(Alone(s, id, t), Alone(s, id, t'))
    ensures var a := t.post.deltas[t.next].acct;
            var row := if a in t.overlay then t.overlay[a] else if a in s.rows then s.rows[a] else Row(0, 0);
            t' == t.(pc := Update(row),
                     overlay := if a in t.overlay || a in s.rows then t.overlay else t.overlay[a := row])
  {
    var s0 := Alone(s, id, t);
    var s1 := Next(s0, Advance(id));
    ReachStep(s0, Advance(id));
    t' := s1.live[id];
    assert s1 == Alone(s, id, t');
    if t'.pc.Insert? {
      var s2 := Next(s1, Advance(id));
      ReachNext(s0, s1, Advance(id));
      t' := s2.live[id];
      assert s2 == Alone(s, id, t');
    }
  }

  lemma UpdateAlone(s: State, id: nat, t: Txn)
    requires t.next < |t.post.deltas| && t.pc.Update?
    requires var d := t.post.deltas[t.next];
             && (if d.acct in t.overlay then t.overlay[d.acct] == t.pc.row
                 else d.acct in s.rows && s.rows[d.acct] == t.pc.row)
             && (t.post.kind == Debit ==> t.pc.row.balance + d.amount >= 0)
    ensures var d := t.post.deltas[t.next];
            Next(Alone(s, id, t), Advance(id))
            == Alone(s, id, Extended(t, Written(t.post, t.next, t.pc.row.balance + d.amount), t.pc.row.version + 1))
  {
    assert !HeldByOther(Alone(s, id, t), id, t.post.deltas[t.next].acct);
  }

  /** Alone, one entry goes through. */
  lemma EntryAlone(s: State, id: nat, t: Txn) returns (t': Txn)
    requires t.next < |t.post.deltas| && t.pc == Query
    requires t.post.kind == Debit ==>
               var d := t.post.deltas[t.next]; d.acct !in t.overlay && Balance(s.rows, d.acct) + d.amount >= 0
    ensures Reaches(Alone(s, id, t), Alone(s, id, t'))
    ensures t'.post == t.post && t'.next == t.next + 1 && t'.pc == Query
  {
    var u := ReadAlone(s, id, t);
    UpdateAlone(s, id, u);
    ReachNext(Alone(s, id, t), Alone(s, id, u), Advance(id));
    t' := Next(Alone(s, id, u), Advance(id)).live[id];
  }

  lemma {:induction false} EntriesAlone(s: State, id: nat, t: Txn) returns (t': Txn)
    requires t.next <= |t.post.deltas| && t.pc == Query
    requires t.post.kind == Debit ==> |t.post.deltas| == 1
    requires t.post.kind == Debit && t.next == 0 ==>
               var d := t.post.deltas[0]; d.acct !in t.overlay && Balance(s.rows, d.acct) + d.amount >= 0
    ensures Reaches(Alone(s, id, t), Alone(s, id, t'))
    ensures t'.post == t.post && t'.next == |t.post.deltas|
    decreases |t.post.deltas| - t.next
  {
    if t.next == |t.post.deltas| {
      t' := t;
      assert Run(Alone(s, id, t), []) == Alone(s, id, t);
    } else {
      var u := EntryAlone(s, id, t);
      t' := EntriesAlone(s, id, u);
      ReachTrans(Alone(s, id, t), Alone(s, id, u), Alone(s, id, t'));
    }
  }

  lemma {:induction false} MovedIsSum(p: Post, w: seq<Entry>, n: nat, a: Account)
    requires n <= |w| == |p.deltas| && forall i :: 0 <= i < |w| ==> Matches(w[i], p, i)
    ensures Sum(w[..n], a) == Moved(p.deltas[..n], a)
  {
    if n > 0 {
      MovedIsSum(p, w, n - 1, a);
      assert w[..n][..n - 1] == w[..n - 1] && p.deltas[..n][..n - 1] == p.deltas[..n - 1];
    }
  }

  /** A posting that passes the checks (a debit also the balance check) and meets no other
      commits, and moves every account by the sum of its sides for that account. */
  lemma PostingAlone(s: State, id: nat, p: Post) returns (s': State)
    requires Inv(s) && s.live == map[] && Accepts(p)
    requires p.kind == Debit ==> Balance(s.rows, p.deltas[0].acct) + p.deltas[0].amount >= 0
    ensures Reaches(s, s') && s'.live == map[] && s'.posts == s.posts + [p]
    ensures forall a :: Balance(s'.rows, a) == Balance(s.rows, a) + Moved(p.deltas, a)
  {
    var t := Txn(p, 0, Query, map[], []);
    ReachStep(s, Begin(id, p));
    assert Next(s, Begin(id, p)) == Alone(s, id, t);
    var u := EntriesAlone(s, id, t);
    ReachTrans(s, Alone(s, id, t), Alone(s, id, u));
    ReachKeepsInv(s, Alone(s, id, u));
    s' := Next(Alone(s, id, u), Commit(id));
    ReachNext(s, Alone(s, id, u), Commit(id));
    CommitMoves(Alone(s, id, u), id);
  }

  lemma MovedOne(d: Delta, a: Account)
    ensures Moved([d], a) == if d.acct == a then d.amount else 0
  {
    assert [d][..0] == [];
  }

  /** A posting made n times, alone. */
  lemma {:induction false} PostingRepeated(s: State, p: Post, n: nat, a: Account) returns (s': State)
    requires Inv(s) && s.live == map[] && Accepts(p) && p.kind != Debit
    ensures Reaches(s, s') && Inv(s') && s'.live == map[]
    ensures s.posts <= s'.posts && forall i :: |s.posts| <= i < |s'.posts| ==> s'.posts[i] == p
    ensures Balance(s'.rows, a) == Balance(s.rows, a) + n * Moved(p.deltas, a)
  {
    s' := s;
    if n == 0 {
      assert Run(s, []) == s;
    } else {
      var s1 := PostingRepeated(s, p, n - 1, a);
      s' := PostingAlone(s1, 0, p);
      ReachTrans(s, s1, s');
      ReachKeepsInv(s1, s');
      assert n * Moved(p.deltas, a) == (n - 1) * Moved(p.deltas, a) + Moved(p.deltas, a);
    }
  }

  lemma ReachKeepsInv(s: State, s': State)
    requires Inv(s) && Reaches(s, s')
    ensures Inv(s')
  {
    var acts :| Run(s, acts) == s';
    RunKeepsInv(s, acts);
  }

  lemma CommitMoves(s: State, id: nat)
    requires Inv(s) && Commits(s, Commit(id))
    ensures forall a :: Balance(Next(s, Commit(id)).rows, a) == Balance(s.rows, a) + Moved(s.live[id].post.deltas, a)
  {
    var t := s.live[id];
    var s' := Next(s, Commit(id));
    CommitKeepsInv(s, id);
    forall a ensures Balance(s'.rows, a) == Balance(s.rows, a) + Moved(t.post.deltas, a) {
      SumConcat(s.log, t.written, a);
      MovedIsSum(t.post, t.written, t.next, a);
      assert t.written[..t.next] == t.written && t.post.deltas[..t.next] == t.post.deltas;
      if a !in s.rows { AbsentRow(s.log, a); }
      if a !in s'.rows { AbsentRow(s'.log, a); }
    }
  }

  // ---------------------------------------------------------------- overdrafts

  /** A posting that takes nothing out of an account, all its sides together, or that checks
      the balance. */
  predicate Spares(p: Post, a: Account) {
    p.kind == Debit || Moved(p.deltas, a) >= 0
  }

  lemma UncommittedKeepsBalance(s: State, act: Action, a: Account)
    requires !Commits(s, act)
    ensures Balance(Next(s, act).rows, a) == Balance(s.rows, a)
  {
  }

  lemma SparingCommit(s: State, id: nat, a: Account)
    requires Inv(s) && Commits(s, Commit(id)) && Spares(s.live[id].post, a) && Balance(s.rows, a) >= 0
    ensures Balance(Next(s, Commit(id)).rows, a) >= 0
  {
    var p := s.live[id].post;
    CommitMoves(s, id);
    if p.kind == Debit {
      assert TxnOk(s.rows, s.log, s.live[id]);
      var d := p.deltas[0];
      assert p.deltas == [d] && p.deltas[..0] == [];
      assert Moved(p.deltas, a) == if d.acct == a then d.amount else 0;
      if d.acct == a { DebitAtCommit(s, id, d); }
    }
  }

  ghost predicate AllSpare(ps: seq<Post>, a: Account) {
    forall i :: 0 <= i < |ps| ==> Spares(ps[i], a)
  }

  lemma AllSpareInit(ps: seq<Post>, p: Post, a: Account)
    requires AllSpare(ps + [p], a)
    ensures AllSpare(ps, a) && Spares(p, a)
  {
    assert (ps + [p])[|ps|] == p;
    forall i | 0 <= i < |ps| ensures Spares(ps[i], a) { assert (ps + [p])[i] == ps[i]; }
  }

  /** An account that every committed posting spared is not overdrawn, in any reachable state;
      a side that takes something out does no harm when other sides of the posting make up
      for it. */
  lemma {:induction false} NeverNegative(acts: seq<Action>, a: Account)
    requires AllSpare(Run(EMPTY, acts).posts, a)
    ensures Balance(Run(EMPTY, acts).rows, a) >= 0
  {
    if acts != [] {
      var before, act := acts[..|acts| - 1], acts[|acts| - 1];
      var s := Run(EMPTY, before);
      EmptyInv();
      RunKeepsInv(EMPTY, before);
      if Commits(s, act) {
        AllSpareInit(s.posts, s.live[act.id].post, a);
        NeverNegative(before, a);
        SparingCommit(s, act.id, a);
      } else {
        OnlyCommitRecords(s, act);
        NeverNegative(before, a);
        UncommittedKeepsBalance(s, act, a);
      }
    }
  }

  /** Any other accepted posting overdraws the account when it is the first: only debits take
      balances into account. */
  lemma SettleCanOverdraw(p: Post, a: Account) returns (acts: seq<Action>)
    requires Accepts(p) && !Spares(p, a)
    ensures Run(EMPTY, acts).posts == [p] && Balance(Run(EMPTY, acts).rows, a) < 0
  {
    EmptyInv();
    var s := PostingAlone(EMPTY, 0, p);
    acts :| Run(EMPTY, acts) == s;
    assert Balance(EMPTY.rows, a) == 0 && s.posts == [p];
  }

  ghost predicate PostedFrom(ps: seq<Post>, allowed: iset<Post>) {
    forall i :: 0 <= i < |ps| ==> ps[i] in allowed
  }

  /** Which postings an account can be opened to: no run that commits only allowed postings
      overdraws it exactly when all of them that pass the checks spare it. */
  lemma NeverNegativeIffSpared(allowed: iset<Post>, a: Account)
    ensures (forall acts :: PostedFrom(Run(EMPTY, acts).posts, allowed) ==> Balance(Run(EMPTY, acts).rows, a) >= 0)
       <==> (forall p :: p in allowed && Accepts(p) ==> Spares(p, a))
  {
    if p :| p in allowed && Accepts(p) && !Spares(p, a) {
      var acts := SettleCanOverdraw(p, a);
      assert PostedFrom(Run(EMPTY, acts).posts, allowed);
    } else {
      forall acts | PostedFrom(Run(EMPTY, acts).posts, allowed) ensures Balance(Run(EMPTY, acts).rows, a) >= 0 {
        LogIsPostings(acts);
        NeverNegative(acts, a);
      }
    }
  }

  // ---------------------------------------------------------------- conservation

  function CreditsLogged(es: seq<Entry>): int {
    if es == [] then 0
    else CreditsLogged(es[..|es| - 1]) + if es[|es| - 1].acct.asset == CREDITS then es[|es| - 1].delta else 0
  }

  /** Credits that recharges and credit postings brought in. */
  function Granted(ps: seq<Post>): int {
    if ps == [] then 0
    else
      var p := ps[|ps| - 1];
      Granted(ps[..|ps| - 1]) + if p.kind == Recharge || p.kind == Credit then CreditSum(p.deltas) else 0
  }

  /** Credits that debit postings took out. */
  function Withdrawn(ps: seq<Post>): int {
    if ps == [] then 0
    else
      var p := ps[|ps| - 1];
      Withdrawn(ps[..|ps| - 1]) + if p.kind == Debit then -CreditSum(p.deltas) else 0
  }

  ghost function Pick(ks: set<Account>): (k: Account)
    requires ks != {}
    ensures k in ks
  {
    var k :| k in ks; k
  }

  ghost function SumOver(ks: set<Account>, es: seq<Entry>): int {
    if ks == {} then 0 else var k := Pick(ks); Sum(es, k) + SumOver(ks - {k}, es)
  }

  ghost function TotalBalance(ks: set<Account>, rows: map<Account, Row>): int
    requires ks <= rows.Keys
  {
    if ks == {} then 0 else var k := Pick(ks); rows[k].balance + TotalBalance(ks - {k}, rows)
  }

  ghost function CreditAccounts(rows: map<Account, Row>): (ks: set<Account>)
    ensures ks <= rows.Keys
  {
    set a | a in rows && a.asset == CREDITS
  }

  lemma {:induction false} SumOverSnoc(ks: set<Account>, es: seq<Entry>, e: Entry)
    ensures SumOver(ks, es + [e]) == SumOver(ks, es) + if e.acct in ks then e.delta else 0
    decreases ks
  {
    if ks != {} {
      var k := Pick(ks);
      RowSnoc(es, e, k);
      SumOverSnoc(ks - {k}, es, e);
    }
  }

  lemma {:induction false} SumOverEmpty(ks: set<Account>)
    ensures SumOver(ks, []) == 0
    decreases ks
  {
    if ks != {} {
      SumOverEmpty(ks - {Pick(ks)});
      assert Sum([], Pick(ks)) == 0;
    }
  }

  lemma {:induction false} SumOverIsLogged(ks: set<Account>, es: seq<Entry>)
    requires forall a :: a in ks ==> a.asset == CREDITS
    requires forall i :: 0 <= i < |es| && es[i].acct.asset == CREDITS ==> es[i].acct in ks
    ensures SumOver(ks, es) == CreditsLogged(es)
  {
    if es == [] {
      SumOverEmpty(ks);
    } else {
      var n := |es| - 1;
      assert es == es[..n] + [es[n]];
      SumOverIsLogged(ks, es[..n]);
      SumOverSnoc(ks, es[..n], es[n]);
    }
  }

  lemma {:induction false} TotalIsSumOver(ks: set<Account>, rows: map<Account, Row>, es: seq<Entry>)
    requires ks <= rows.Keys && forall a :: a in ks ==> rows[a].balance == Sum(es, a)
    ensures TotalBalance(ks, rows) == SumOver(ks, es)
    decreases ks
  {
    if ks != {} {
      TotalIsSumOver(ks - {Pick(ks)}, rows, es);
    }
  }

  lemma {:induction false} LoggedConcat(xs: seq<Entry>, ys: seq<Entry>)
    ensures CreditsLogged(xs + ys) == CreditsLogged(xs) + CreditsLogged(ys)
  {
    if ys == [] {
      assert xs + ys == xs;
    } else {
      assert (xs + ys)[..|xs + ys| - 1] == xs + ys[..|ys| - 1];
      LoggedConcat(xs, ys[..|ys| - 1]);
    }
  }

  lemma {:induction false} WrittenCredits(p: Post, w: seq<Entry>, n: nat)
    requires n <= |w| == |p.deltas| && forall i :: 0 <= i < |w| ==> Matches(w[i], p, i)
    ensures CreditsLogged(w[..n]) == CreditSum(p.deltas[..n])
  {
    if n > 0 {
      WrittenCredits(p, w, n - 1);
      assert w[..n][..n - 1] == w[..n - 1] && p.deltas[..n][..n - 1] == p.deltas[..n - 1];
    }
  }

  ghost predicate Net(s: State) {
    CreditsLogged(s.log) == Granted(s.posts) - Withdrawn(s.posts)
  }

  lemma WrittenIsPosted(t: Txn)
    requires Follows(t) && t.next == |t.post.deltas|
    ensures CreditsLogged(t.written) == CreditSum(t.post.deltas)
  {
    WrittenCredits(t.post, t.written, t.next);
    assert t.written[..t.next] == t.written && t.post.deltas[..t.next] == t.post.deltas;
  }

  lemma PostsSnoc(ps: seq<Post>, p: Post)
    requires Accepts(p)
    ensures Granted(ps + [p]) - Withdrawn(ps + [p]) == Granted(ps) - Withdrawn(ps) + CreditSum(p.deltas)
  {
    assert (ps + [p])[..|ps|] == ps;
  }

  lemma CommitIsNet(log: seq<Entry>, posts: seq<Post>, t: Txn)
    requires Follows(t) && t.next == |t.post.deltas|
    requires CreditsLogged(log) == Granted(posts) - Withdrawn(posts)
    ensures CreditsLogged(log + t.written) == Granted(posts + [t.post]) - Withdrawn(posts + [t.post])
  {
    LoggedConcat(log, t.written);
    WrittenIsPosted(t);
    PostsSnoc(posts, t.post);
  }

  lemma NextKeepsNet(s: State, act: Action)
    requires Inv(s) && Net(s)
    ensures Net(Next(s, act))
  {
    if Commits(s, act) {
      CommitIsNet(s.log, s.posts, s.live[act.id]);
    } else {
      OnlyCommitRecords(s, act);
    }
  }

  lemma {:induction false} LoggedIsNet(acts: seq<Action>)
    ensures Net(Run(EMPTY, acts))
  {
    if acts != [] {
      var before := acts[..|acts| - 1];
      LoggedIsNet(before);
      EmptyInv();
      RunKeepsInv(EMPTY, before);
      NextKeepsNet(Run(EMPTY, before), acts[|acts| - 1]);
    }
  }

  /** Money is conserved: over every run the credits in all accounts together are what
      recharges and credits brought in less what debits took out; settle postings, also
      when two of their sides are one account, add and remove nothing. */
  lemma CreditsConserved(acts: seq<Action>)
    ensures var s := Run(EMPTY, acts);
            TotalBalance(CreditAccounts(s.rows), s.rows) == Granted(s.posts) - Withdrawn(s.posts)
  {
    var s := Run(EMPTY, acts);
    EmptyInv();
    RunKeepsInv(EMPTY, acts);
    var ks := CreditAccounts(s.rows);
    TotalIsSumOver(ks, s.rows, s.log);
    SumOverIsLogged(ks, s.log);
    LoggedIsNet(acts);
  }
}
