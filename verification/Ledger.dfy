/** The double-entry ledger: accounts as a running summary of transaction_entries,
    kept by concurrent database transactions under optimistic version checks. */
module Ledger {

  datatype Account = Account(ownerType: string, ownerId: int, asset: string)

  const CREDITS := "credits"

  datatype Row = Row(balance: int, version: nat)

  datatype Kind = Settle | Recharge | Credit | Debit

  /** One requested side of a posting; a negative amount is a debit. */
  datatype Delta = Delta(acct: Account, amount: int)

  /** What one database transaction is asked to post. */
  datatype Post = Post(kind: Kind, deltas: seq<Delta>)

  /** A row of transaction_entries. */
  datatype Entry = Entry(kind: Kind, acct: Account, delta: int, after: int)

  // ---------------------------------------------------------------- reference

  /** Sum of the deltas the entries record for one account. */
  function Sum(es: seq<Entry>, a: Account): int {
    if es == [] then 0
    else Sum(es[..|es| - 1], a) + if es[|es| - 1].acct == a then es[|es| - 1].delta else 0
  }

  /** Number of entries recorded for one account. */
  function Count(es: seq<Entry>, a: Account): nat {
    if es == [] then 0
    else Count(es[..|es| - 1], a) + if es[|es| - 1].acct == a then 1 else 0
  }

  /** The account row that a list of entries calls for. */
  function RowOf(es: seq<Entry>, a: Account): Row {
    Row(Sum(es, a), Count(es, a))
  }

  /** Every entry's balance_after is the account's sum up to and including it. */
  ghost predicate Chained(es: seq<Entry>) {
    es != [] ==>
      var n := |es| - 1;
      Chained(es[..n]) && es[n].after == Sum(es, es[n].acct)
  }

  /** A debit never leaves a negative balance behind. */
  ghost predicate DebitsCovered(es: seq<Entry>) {
    forall i :: 0 <= i < |es| && es[i].kind == Debit ==> es[i].after >= 0
  }

  function CreditSum(ds: seq<Delta>): int {
    if ds == [] then 0
    else CreditSum(ds[..|ds| - 1]) + if ds[|ds| - 1].acct.asset == CREDITS then ds[|ds| - 1].amount else 0
  }

  /** The posting passes the checks made before anything is written. */
  predicate Accepts(p: Post) {
    match p.kind
    case Settle => p.deltas != [] && CreditSum(p.deltas) == 0
    case Recharge => p.deltas != []
    case Credit => |p.deltas| == 1
    case Debit => |p.deltas| == 1
  }

  // ---------------------------------------------------------------- protocol

  /** Next statement of a live transaction for its current entry: SELECT the account,
      INSERT it because it was missing, or UPDATE it on the row that was read. */
  datatype Pc = Query | Insert | Update(row: Row)

  /** A live transaction: its overlay holds the account rows it wrote, which stay
      locked and invisible to others until it ends. */
  datatype Txn = Txn(post: Post, next: nat, pc: Pc, overlay: map<Account, Row>, written: seq<Entry>)

  /** Committed tables plus the live transactions. */
  datatype State = State(rows: map<Account, Row>, log: seq<Entry>, posts: seq<Post>, live: map<nat, Txn>)

  datatype Action =
    | Begin(id: nat, post: Post)
    | Advance(id: nat)
    | Commit(id: nat)
    | Abort(id: nat)
    | Ensure(acct: Account)

  const EMPTY := State(map[], [], [], map[])

  predicate HeldByOther(s: State, id: nat, a: Account) {
    exists j :: j in s.live && j != id && a in s.live[j].overlay
  }

  function Keep(s: State, id: nat, t: Txn): State {
    s.(live := s.live[id := t])
  }

  function Drop(s: State, id: nat): State {
    s.(live := s.live - {id})
  }

  /** The entry that records delta i of a posting. */
  function Written(p: Post, i: nat, after: int): Entry
    requires i < |p.deltas|
  {
    Entry(p.kind, p.deltas[i].acct, p.deltas[i].amount, after)
  }

  /** The entry records delta i of a posting, with whatever balance after it. */
  predicate Matches(e: Entry, p: Post, i: nat)
    requires i < |p.deltas|
  {
    e.kind == p.kind && e.acct == p.deltas[i].acct && e.delta == p.deltas[i].amount
  }

  /** Transaction t after it updated the entry's account to the given version. */
  function Extended(t: Txn, e: Entry, version: nat): Txn {
    t.(next := t.next + 1, pc := Query,
       overlay := t.overlay[e.acct := Row(e.after, version)], written := t.written + [e])
  }

  predicate Runs(s: State, id: nat) {
    id in s.live && s.live[id].next < |s.live[id].post.deltas|
  }

  /** One statement of transaction id. A statement that needs a row another transaction
      holds waits; a failed insert, version check or balance check rolls back. */
  function Statement(s: State, id: nat): State
    requires Runs(s, id)
  {
    match s.live[id].pc
    case Query => Querying(s, id)
    case Insert => Inserting(s, id)
    case Update(row) => Updating(s, id, row)
  }

  function Querying(s: State, id: nat): State
    requires Runs(s, id)
  {
    var t := s.live[id];
    var a := t.post.deltas[t.next].acct;
    if a in t.overlay then Keep(s, id, t.(pc := Update(t.overlay[a])))
    else if a in s.rows then Keep(s, id, t.(pc := Update(s.rows[a])))
    else Keep(s, id, t.(pc := Insert))
  }

  function Inserting(s: State, id: nat): State
    requires Runs(s, id)
  {
    var t := s.live[id];
    var a := t.post.deltas[t.next].acct;
    if HeldByOther(s, id, a) then s
    else if a in s.rows then Drop(s, id)
    else Keep(s, id, t.(pc := Update(Row(0, 0)), overlay := t.overlay[a := Row(0, 0)]))
  }

  function Updating(s: State, id: nat, row: Row): State
    requires Runs(s, id)
  {
    var t := s.live[id];
    var d := t.post.deltas[t.next];
    if t.post.kind == Debit && row.balance + d.amount < 0 then Drop(s, id)
    else if HeldByOther(s, id, d.acct) then s
    else if d.acct !in t.overlay && d.acct !in s.rows then Drop(s, id)
    else
      var current := if d.acct in t.overlay then t.overlay[d.acct] else s.rows[d.acct];
      if current.version != row.version then Drop(s, id)
      else
        Keep(s, id, Extended(t, Written(t.post, t.next, row.balance + d.amount), current.version + 1))
  }

  function Next(s: State, act: Action): State {
    match act
    case Begin(id, post) =>
      if id in s.live || !Accepts(post) then s
      else Keep(s, id, Txn(post, 0, Query, map[], []))
    case Advance(id) =>
      if Runs(s, id) then Statement(s, id) else s
    case Commit(id) =>
      if id in s.live && s.live[id].next == |s.live[id].post.deltas| then
        var t := s.live[id];
        State(s.rows + t.overlay, s.log + t.written, s.posts + [t.post], s.live - {id})
      else s
    case Abort(id) => Drop(s, id)
    case Ensure(a) =>
      if a in s.rows || exists j :: j in s.live && a in s.live[j].overlay then s
      else s.(rows := s.rows[a := Row(0, 0)])
  }

  /** The state after a schedule of steps of any number of transactions. */
  function Run(s: State, acts: seq<Action>): State {
    if acts == [] then s else Next(Run(s, acts[..|acts| - 1]), acts[|acts| - 1])
  }

  // ---------------------------------------------------------------- invariant

  /** What a transaction wrote so far is its posting, entry by entry. */
  ghost predicate Follows(t: Txn) {
    && Accepts(t.post)
    && |t.written| == t.next <= |t.post.deltas|
    && (forall i :: 0 <= i < t.next ==> Matches(t.written[i], t.post, i))
    && (forall i :: 0 <= i < t.next ==> t.written[i].acct in t.overlay)
    && (t.pc != Query ==> t.next < |t.post.deltas|)
  }

  /** The rows a transaction holds continue the committed history with its own entries. */
  ghost predicate Continues(log: seq<Entry>, t: Txn) {
    && (forall a :: a in t.overlay ==> t.overlay[a] == RowOf(log + t.written, a))
    && Chained(log + t.written)
    && DebitsCovered(t.written)
  }

  /** The row a transaction read is its own, or was committed once and is still the
      committed one unless the version has grown. */
  ghost predicate ReadOk(rows: map<Account, Row>, t: Txn) {
    && (t.pc.Insert? ==> t.next < |t.post.deltas| && t.post.deltas[t.next].acct !in t.overlay)
    && (t.pc.Update? ==>
          && t.next < |t.post.deltas|
          && var a := t.post.deltas[t.next].acct;
             var row := t.pc.row;
             if a in t.overlay then row == t.overlay[a]
             else a in rows && row.version <= rows[a].version && (row.version == rows[a].version ==> row == rows[a]))
  }

  ghost predicate TxnOk(rows: map<Account, Row>, log: seq<Entry>, t: Txn) {
    Follows(t) && Continues(log, t) && ReadOk(rows, t)
  }

  ghost predicate TablesOk(rows: map<Account, Row>, log: seq<Entry>) {
    && (forall a :: a in rows ==> rows[a] == RowOf(log, a))
    && (forall i :: 0 <= i < |log| ==> log[i].acct in rows)
    && Chained(log)
    && DebitsCovered(log)
  }

  /** No two live transactions hold the same row. */
  ghost predicate Disjoint(live: map<nat, Txn>) {
    forall i, j :: i in live && j in live && i != j ==> live[i].overlay.Keys !! live[j].overlay.Keys
  }

  ghost predicate LiveOk(rows: map<Account, Row>, log: seq<Entry>, live: map<nat, Txn>) {
    forall id :: id in live ==> TxnOk(rows, log, live[id])
  }

  ghost predicate Inv(s: State) {
    TablesOk(s.rows, s.log) && LiveOk(s.rows, s.log, s.live) && Disjoint(s.live)
  }

  // ---------------------------------------------------------------- lemmas on entry lists

  lemma {:induction false} SumConcat(xs: seq<Entry>, ys: seq<Entry>, a: Account)
    ensures Sum(xs + ys, a) == Sum(xs, a) + Sum(ys, a)
    ensures Count(xs + ys, a) == Count(xs, a) + Count(ys, a)
  {
    if ys == [] {
      assert xs + ys == xs;
    } else {
      var n := |ys| - 1;
      assert (xs + ys)[..|xs + ys| - 1] == xs + ys[..n];
      SumConcat(xs, ys[..n], a);
    }
  }

  lemma {:induction false} AbsentRow(es: seq<Entry>, a: Account)
    requires forall i :: 0 <= i < |es| ==> es[i].acct != a
    ensures RowOf(es, a) == Row(0, 0)
  {
    if es != [] { AbsentRow(es[..|es| - 1], a); }
  }

  /** Entries for other accounts do not change the row of a. */
  lemma RowUnmoved(log: seq<Entry>, w: seq<Entry>, a: Account)
    requires forall i :: 0 <= i < |w| ==> w[i].acct != a
    ensures RowOf(log + w, a) == RowOf(log, a)
  {
    SumConcat(log, w, a);
    AbsentRow(w, a);
  }

  lemma ChainedSnoc(es: seq<Entry>, e: Entry)
    requires Chained(es) && e.after == Sum(es, e.acct) + e.delta
    ensures Chained(es + [e])
  {
    assert (es + [e])[..|es + [e]| - 1] == es;
  }

  lemma {:induction false} ChainedAt(es: seq<Entry>, i: nat)
    requires Chained(es) && i < |es|
    ensures es[i].after == Sum(es[..i + 1], es[i].acct)
  {
    var n := |es| - 1;
    if i < n {
      ChainedAt(es[..n], i);
      assert es[..n][..i + 1] == es[..i + 1];
    } else {
      assert es[..i + 1] == es;
    }
  }

  /** Two transactions that touch disjoint accounts can commit one after the other. */
  lemma {:induction false} ChainedMerge(log: seq<Entry>, w: seq<Entry>, v: seq<Entry>)
    requires Chained(log + w) && Chained(log + v)
    requires forall i, j :: 0 <= i < |w| && 0 <= j < |v| ==> w[i].acct != v[j].acct
    ensures Chained((log + w) + v)
  {
    if v == [] {
      assert (log + w) + v == log + w;
    } else {
      var m := |v| - 1;
      var a := v[m].acct;
      assert (log + v)[..|log + v| - 1] == log + v[..m];
      assert ((log + w) + v)[..|(log + w) + v| - 1] == (log + w) + v[..m];
      ChainedMerge(log, w, v[..m]);
      SumConcat(log + w, v, a);
      SumConcat(log, v, a);
      RowUnmoved(log, w, a);
    }
  }

  // ---------------------------------------------------------------- preservation

  lemma QueryKeepsOk(s: State, id: nat)
    requires Runs(s, id) && TxnOk(s.rows, s.log, s.live[id]) && s.live[id].pc.Query?
    ensures id in Querying(s, id).live && TxnOk(s.rows, s.log, Querying(s, id).live[id])
  {
    var t, t' := s.live[id], Querying(s, id).live[id];
    assert t' == t.(pc := t'.pc);
    assert Follows(t') && Continues(s.log, t');
  }

  lemma InsertKeepsOk(s: State, id: nat)
    requires TablesOk(s.rows, s.log) && Runs(s, id) && TxnOk(s.rows, s.log, s.live[id]) && s.live[id].pc.Insert?
    requires id in Inserting(s, id).live && Inserting(s, id) != s
    ensures TxnOk(s.rows, s.log, Inserting(s, id).live[id])
  {
    var t := s.live[id];
    var a := t.post.deltas[t.next].acct;
    var t' := Inserting(s, id).live[id];
    assert Follows(t');
    assert RowOf(s.log + t.written, a) == Row(0, 0) by {
      forall i | 0 <= i < |s.log + t.written| ensures (s.log + t.written)[i].acct != a {}
      AbsentRow(s.log + t.written, a);
    }
    assert t'.written == t.written;
    assert Continues(s.log, t');
  }

  /** What it takes for an update to go through, and what it then does. */
  lemma UpdateGoesThrough(s: State, id: nat, row: Row)
    requires Runs(s, id) && id in Updating(s, id, row).live && Updating(s, id, row) != s
    ensures var t := s.live[id]; var d := t.post.deltas[t.next];
            && (d.acct !in t.overlay ==> d.acct in s.rows && s.rows[d.acct].version == row.version)
            && (t.post.kind == Debit ==> row.balance + d.amount >= 0)
            && (d.acct in t.overlay ==> t.overlay[d.acct].version == row.version)
            && !HeldByOther(s, id, d.acct)
            && Updating(s, id, row).live
               == s.live[id := Extended(t, Written(t.post, t.next, row.balance + d.amount), row.version + 1)]
  {
  }

  /** The crux: a successful version check means that the balance read earlier is the
      current one, so it is the account's sum over everything recorded so far. */
  lemma CheckedRowIsCurrent(rows: map<Account, Row>, log: seq<Entry>, t: Txn)
    requires TablesOk(rows, log) && Follows(t) && Continues(log, t) && ReadOk(rows, t)
    requires t.next < |t.post.deltas| && t.pc.Update?
    requires var a := t.post.deltas[t.next].acct; a !in t.overlay ==> a in rows && rows[a].version == t.pc.row.version
    ensures t.pc.row == RowOf(log + t.written, t.post.deltas[t.next].acct)
  {
    var a := t.post.deltas[t.next].acct;
    if a !in t.overlay { RowUnmoved(log, t.written, a); }
  }

  lemma ExtendRows(es: seq<Entry>, held: map<Account, Row>, e: Entry)
    requires forall a :: a in held ==> held[a] == RowOf(es, a)
    requires e.after == Sum(es, e.acct) + e.delta
    ensures var held' := held[e.acct := Row(e.after, Count(es, e.acct) + 1)];
            forall a :: a in held' ==> held'[a] == RowOf(es + [e], a)
  {
    forall a { RowSnoc(es, e, a); }
  }

  lemma ExtendContinues(log: seq<Entry>, t: Txn, e: Entry)
    requires Continues(log, t)
    requires e.after == Sum(log + t.written, e.acct) + e.delta
    requires e.kind == Debit ==> e.after >= 0
    ensures Continues(log, Extended(t, e, Count(log + t.written, e.acct) + 1))
  {
    var w := log + t.written;
    assert log + (t.written + [e]) == w + [e];
    assert Chained(w + [e]) by { ChainedSnoc(w, e); }
    assert DebitsCovered(t.written + [e]);
    ExtendRows(w, t.overlay, e);
  }

  lemma RowSnoc(es: seq<Entry>, e: Entry, a: Account)
    ensures RowOf(es + [e], a) == if e.acct == a then Row(Sum(es, a) + e.delta, Count(es, a) + 1) else RowOf(es, a)
  {
    assert (es + [e])[..|es + [e]| - 1] == es;
  }

  lemma ExtendFollows(t: Txn, after: int, version: nat)
    requires Follows(t) && t.next < |t.post.deltas|
    ensures Follows(Extended(t, Written(t.post, t.next, after), version))
  {
  }

  lemma UpdatedOk(rows: map<Account, Row>, log: seq<Entry>, t: Txn, e: Entry)
    requires Follows(t) && Continues(log, t) && t.next < |t.post.deltas|
    requires var d := t.post.deltas[t.next]; e == Written(t.post, t.next, Sum(log + t.written, d.acct) + d.amount)
    requires e.kind == Debit ==> e.after >= 0
    ensures TxnOk(rows, log, Extended(t, e, Count(log + t.written, e.acct) + 1))
  {
    ExtendFollows(t, e.after, Count(log + t.written, e.acct) + 1);
    ExtendContinues(log, t, e);
  }

  lemma UpdateKeepsOk(rows: map<Account, Row>, log: seq<Entry>, t: Txn, e: Entry)
    requires TablesOk(rows, log) && TxnOk(rows, log, t) && t.next < |t.post.deltas| && t.pc.Update?
    requires var a := t.post.deltas[t.next].acct; a !in t.overlay ==> a in rows && rows[a].version == t.pc.row.version
    requires e == Written(t.post, t.next, t.pc.row.balance + t.post.deltas[t.next].amount)
    requires e.kind == Debit ==> e.after >= 0
    ensures TxnOk(rows, log, Extended(t, e, t.pc.row.version + 1))
  {
    CheckedRowIsCurrent(rows, log, t);
    UpdatedOk(rows, log, t, e);
  }

  /** A statement takes hold of at most the row of its entry, and of that one only if no other
      transaction holds it. */
  ghost predicate Takes(s: State, id: nat, held: set<Account>, held': set<Account>, a: Account) {
    held' == held || (held' == held + {a} && !HeldByOther(s, id, a))
  }

  lemma QueryTakes(s: State, id: nat)
    requires Runs(s, id)
    ensures Querying(s, id).live == s.live[id := Querying(s, id).live[id]]
    ensures Querying(s, id).live[id].overlay == s.live[id].overlay
  {
  }

  lemma InsertTakes(s: State, id: nat)
    requires Runs(s, id) && id in Inserting(s, id).live
    ensures Inserting(s, id).live == s.live[id := Inserting(s, id).live[id]]
    ensures Takes(s, id, s.live[id].overlay.Keys, Inserting(s, id).live[id].overlay.Keys,
                  s.live[id].post.deltas[s.live[id].next].acct)
  {
  }

  lemma UpdateTakes(s: State, id: nat, row: Row)
    requires Runs(s, id) && id in Updating(s, id, row).live
    ensures Updating(s, id, row).live == s.live[id := Updating(s, id, row).live[id]]
    ensures Takes(s, id, s.live[id].overlay.Keys, Updating(s, id, row).live[id].overlay.Keys,
                  s.live[id].post.deltas[s.live[id].next].acct)
  {
    if Updating(s, id, row) != s { UpdateGoesThrough(s, id, row); }
  }

  lemma TakingKeepsDisjoint(s: State, id: nat, t: Txn, a: Account)
    requires Disjoint(s.live) && id in s.live && Takes(s, id, s.live[id].overlay.Keys, t.overlay.Keys, a)
    ensures Disjoint(s.live[id := t])
  {
    forall j | j in s.live && j != id ensures t.overlay.Keys !! s.live[j].overlay.Keys {
      assert s.live[id].overlay.Keys !! s.live[j].overlay.Keys;
    }
  }

  lemma StatementKeepsDisjoint(s: State, id: nat)
    requires Disjoint(s.live) && Runs(s, id)
    ensures Disjoint(Statement(s, id).live)
  {
    if id !in Statement(s, id).live {
      StatementDrops(s, id);
    } else {
      match s.live[id].pc
      case Query => QueryTakes(s, id);
      case Insert => InsertTakes(s, id);
      case Update(row) => UpdateTakes(s, id, row);
      TakingKeepsDisjoint(s, id, Statement(s, id).live[id], s.live[id].post.deltas[s.live[id].next].acct);
    }
  }

  lemma StatementDrops(s: State, id: nat)
    requires Runs(s, id) && (id !in Statement(s, id).live || Statement(s, id) == s)
    ensures Statement(s, id) == s || Statement(s, id) == Drop(s, id)
  {
  }

  lemma OneKeepsLive(s: State, id: nat, t: Txn)
    requires LiveOk(s.rows, s.log, s.live) && TxnOk(s.rows, s.log, t)
    ensures LiveOk(s.rows, s.log, s.live[id := t])
  {
  }

  lemma QueryingKeepsLive(s: State, id: nat)
    requires LiveOk(s.rows, s.log, s.live) && Runs(s, id) && s.live[id].pc.Query?
    ensures LiveOk(s.rows, s.log, Querying(s, id).live)
  {
    QueryKeepsOk(s, id);
    QueryTakes(s, id);
    OneKeepsLive(s, id, Querying(s, id).live[id]);
  }

  lemma InsertingKeepsLive(s: State, id: nat)
    requires TablesOk(s.rows, s.log) && LiveOk(s.rows, s.log, s.live) && Runs(s, id) && s.live[id].pc.Insert?
    ensures LiveOk(s.rows, s.log, Inserting(s, id).live)
  {
    if id in Inserting(s, id).live && Inserting(s, id) != s {
      InsertKeepsOk(s, id);
      InsertTakes(s, id);
      OneKeepsLive(s, id, Inserting(s, id).live[id]);
    }
  }

  lemma UpdateKeepsLive(s: State, id: nat, e: Entry, version: nat)
    requires TablesOk(s.rows, s.log) && LiveOk(s.rows, s.log, s.live) && Runs(s, id) && s.live[id].pc.Update?
    requires var t := s.live[id]; var a := t.post.deltas[t.next].acct;
             && (a !in t.overlay ==> a in s.rows && s.rows[a].version == t.pc.row.version)
             && e == Written(t.post, t.next, t.pc.row.balance + t.post.deltas[t.next].amount)
             && version == t.pc.row.version + 1
    requires e.kind == Debit ==> e.after >= 0
    ensures LiveOk(s.rows, s.log, s.live[id := Extended(s.live[id], e, version)])
  {
    UpdateKeepsOk(s.rows, s.log, s.live[id], e);
    OneKeepsLive(s, id, Extended(s.live[id], e, version));
  }

  /** An update that waits or fails. */
  lemma UpdateStalls(s: State, id: nat, row: Row)
    requires Runs(s, id) && (id !in Updating(s, id, row).live || Updating(s, id, row) == s)
    ensures Updating(s, id, row).live == s.live || Updating(s, id, row).live == s.live - {id}
  {
  }

  lemma FewerKeepsLive(rows: map<Account, Row>, log: seq<Entry>, live: map<nat, Txn>, id: nat)
    requires LiveOk(rows, log, live)
    ensures LiveOk(rows, log, live - {id})
  {
  }

  lemma UpdatingKeepsLive(s: State, id: nat, row: Row, live': map<nat, Txn>)
    requires TablesOk(s.rows, s.log) && LiveOk(s.rows, s.log, s.live) && Runs(s, id) && s.live[id].pc == Update(row)
    requires live' == Updating(s, id, row).live
    ensures LiveOk(s.rows, s.log, live')
  {
    if id in live' && Updating(s, id, row) != s {
      var t := s.live[id];
      var e := Written(t.post, t.next, row.balance + t.post.deltas[t.next].amount);
      UpdateGoesThrough(s, id, row);
      UpdateKeepsLive(s, id, e, row.version + 1);
      assert live' == s.live[id := Extended(t, e, row.version + 1)];
    } else {
      UpdateStalls(s, id, row);
      FewerKeepsLive(s.rows, s.log, s.live, id);
    }
  }

  /** A statement changes no table. */
  lemma StatementIsPrivate(s: State, id: nat)
    requires Runs(s, id)
    ensures var s' := Statement(s, id); s'.rows == s.rows && s'.log == s.log && s'.posts == s.posts
  {
  }

  lemma StatementKeepsInv(s: State, id: nat)
    requires Inv(s) && Runs(s, id)
    ensures Inv(Statement(s, id))
  {
    StatementKeepsDisjoint(s, id);
    StatementIsPrivate(s, id);
    match s.live[id].pc
    case Query => QueryingKeepsLive(s, id);
    case Insert => InsertingKeepsLive(s, id);
    case Update(row) => UpdatingKeepsLive(s, id, row, Updating(s, id, row).live);
  }

  lemma CommitKeepsTables(rows: map<Account, Row>, log: seq<Entry>, t: Txn)
    requires TablesOk(rows, log) && TxnOk(rows, log, t)
    ensures TablesOk(rows + t.overlay, log + t.written)
  {
    forall a | a in rows && a !in t.overlay ensures rows[a] == RowOf(log + t.written, a) {
      RowUnmoved(log, t.written, a);
    }
  }

  /** A commit leaves the rows another transaction holds, and what it read, as they were
      or with a larger version. */
  lemma OtherContinues(log: seq<Entry>, t: Txn, u: Txn)
    requires Follows(t) && Continues(log, t) && Follows(u) && Continues(log, u)
    requires t.overlay.Keys !! u.overlay.Keys
    ensures Continues(log + t.written, u)
  {
    ChainedMerge(log, t.written, u.written);
    forall a | a in u.overlay ensures RowOf((log + t.written) + u.written, a) == RowOf(log + u.written, a) {
      SumConcat(log + t.written, u.written, a);
      SumConcat(log, u.written, a);
      RowUnmoved(log, t.written, a);
    }
  }

  lemma OtherReadOk(rows: map<Account, Row>, log: seq<Entry>, t: Txn, u: Txn)
    requires TablesOk(rows, log) && Continues(log, t) && ReadOk(rows, u)
    ensures ReadOk(rows + t.overlay, u)
  {
    if u.pc.Update? {
      var a := u.post.deltas[u.next].acct;
      if a !in u.overlay && a in t.overlay {
        SumConcat(log, t.written, a);
        if Count(t.written, a) == 0 { NoEntriesNoSum(t.written, a); }
      }
    }
  }

  lemma {:induction false} NoEntriesNoSum(es: seq<Entry>, a: Account)
    requires Count(es, a) == 0
    ensures Sum(es, a) == 0
  {
    if es != [] { NoEntriesNoSum(es[..|es| - 1], a); }
  }

  lemma CommitKeepsInv(s: State, id: nat)
    requires Inv(s) && id in s.live && s.live[id].next == |s.live[id].post.deltas|
    ensures Inv(Next(s, Commit(id)))
  {
    var t := s.live[id];
    var s' := Next(s, Commit(id));
    CommitKeepsTables(s.rows, s.log, t);
    forall j | j in s'.live ensures TxnOk(s'.rows, s'.log, s'.live[j]) {
      var u := s.live[j];
      assert s'.live[j] == u;
      OtherContinues(s.log, t, u);
      OtherReadOk(s.rows, s.log, t, u);
    }
  }

  lemma EnsureKeepsInv(s: State, a: Account)
    requires Inv(s)
    ensures Inv(Next(s, Ensure(a)))
  {
    var s' := Next(s, Ensure(a));
    if s' != s {
      AbsentRow(s.log, a);
      forall j | j in s'.live ensures TxnOk(s'.rows, s.log, s'.live[j]) { assert ReadOk(s'.rows, s.live[j]); }
    }
  }

  lemma BeginKeepsInv(s: State, id: nat, p: Post)
    requires Inv(s)
    ensures Inv(Next(s, Begin(id, p)))
  {
    var s' := Next(s, Begin(id, p));
    if s' != s {
      assert s.log + [] == s.log;
      assert TxnOk(s.rows, s.log, s'.live[id]);
      forall j | j in s'.live ensures TxnOk(s.rows, s.log, s'.live[j]) {
        if j != id { assert s'.live[j] == s.live[j]; }
      }
    }
  }

  lemma NextKeepsInv(s: State, act: Action)
    requires Inv(s)
    ensures Inv(Next(s, act))
  {
    match act
    case Begin(id, post) => BeginKeepsInv(s, id, post);
    case Advance(id) =>
      if id in s.live && s.live[id].next < |s.live[id].post.deltas| { StatementKeepsInv(s, id); }
    case Commit(id) =>
      if id in s.live && s.live[id].next == |s.live[id].post.deltas| { CommitKeepsInv(s, id); }
    case Abort(id) =>
      forall j | j in s.live && j != id ensures TxnOk(s.rows, s.log, Drop(s, id).live[j]) {
        assert Drop(s, id).live[j] == s.live[j];
      }
    case Ensure(a) => EnsureKeepsInv(s, a);
  }

  lemma {:induction false} RunKeepsInv(s: State, acts: seq<Action>)
    requires Inv(s)
    ensures Inv(Run(s, acts))
  {
    if acts != [] {
      RunKeepsInv(s, acts[..|acts| - 1]);
      NextKeepsInv(Run(s, acts[..|acts| - 1]), acts[|acts| - 1]);
    }
  }
}
