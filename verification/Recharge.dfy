/** Confirming payment orders: concurrent notifications for the same order, each marking it
    paid, recharging the user's credits once per reference, and marking it credited. */
module Recharge {

  /** The (ref_type, ref_id) of a settlement record. Order confirmation uses the payment
      references; other recharges may name any reference. */
  datatype Ref = Payment(channel: string, orderId: nat) | Other(refType: string, refId: int)

  datatype Status = Pending | Paid | Credited

  datatype Order = Order(user: int, amount: int, status: Status)

  /** A committed settlement record; txId 0 stands for no transaction. */
  datatype Record = Record(ref: Ref, user: int, amount: int, txId: nat)

  /** A committed ledger transaction of type recharge. */
  datatype Posting = Posting(recordId: nat, user: int, amount: int)

  /** A call of confirmOrder, or of RechargeCredits from elsewhere. */
  datatype Job = Confirm(orderId: nat, channel: string) | Direct(ref: Ref, user: int, amount: int)

  datatype Pc =
    | Load
    | MarkPaid
    | Lookup
    | InsertRecord
    | PostEntry(recordId: nat)              // the uncommitted record holds its reference
    | Link(recordId: nat, txId: nat)
    | CommitTx(recordId: nat, txId: nat)
    | MarkCredited
    | Finished(ok: bool)

  datatype Proc = Proc(job: Job, user: int, amount: int, pc: Pc)

  datatype State = State(
    orders: map<nat, Order>,
    records: map<nat, Record>,
    postings: map<nat, Posting>,
    procs: map<nat, Proc>,
    nextRecord: nat,
    nextTx: nat)

  datatype Action =
    | NewOrder(orderId: nat, user: int, amount: int)
    | Begin(pid: nat, job: Job)
    | Step(pid: nat, succeeds: bool)
    | Submit(ref: Ref)                       // a record without a transaction, from another path

  const EMPTY := State(map[], map[], map[], map[], 1, 1)

  function RefOf(job: Job): Ref {
    match job
    case Confirm(o, c) => Payment(c, o)
    case Direct(ref, _, _) => ref
  }

  predicate Holds(p: Proc) {
    p.pc.PostEntry? || p.pc.Link? || p.pc.CommitTx?
  }

  predicate Held(procs: map<nat, Proc>, ref: Ref) {
    exists q :: q in procs && Holds(procs[q]) && RefOf(procs[q].job) == ref
  }

  predicate Recorded(records: map<nat, Record>, ref: Ref) {
    exists r :: r in records && records[r].ref == ref
  }

  /** There is a record for the reference and it has its transaction. */
  predicate Posted(records: map<nat, Record>, ref: Ref) {
    exists r :: r in records && records[r].ref == ref && records[r].txId != 0
  }

  function At(s: State, pid: nat, pc: Pc): State
    requires pid in s.procs
  {
    s.(procs := s.procs[pid := s.procs[pid].(pc := pc)])
  }

  /** Where a call goes once its recharge is known to be posted. */
  function AfterRecharge(job: Job): Pc {
    if job.Confirm? then MarkCredited else Finished(true)
  }

  /** RechargeCredits rejects amounts that are not positive. */
  function IntoRecharge(amount: int): Pc {
    if amount <= 0 then Finished(false) else Lookup
  }

  function SetStatus(orders: map<nat, Order>, id: nat, status: Status): map<nat, Order> {
    if id in orders then orders[id := orders[id].(status := status)] else orders
  }

  /** One statement of process pid. A failing statement ends the call, and its transaction. */
  function Perform(s: State, pid: nat, succeeds: bool): State
    requires pid in s.procs
  {
    var p := s.procs[pid];
    var ref := RefOf(p.job);
    if p.pc.Finished? then s
    else if !succeeds then At(s, pid, Finished(false))
    else match p.pc
      case Load =>
        if p.job.Confirm? && p.job.orderId in s.orders then
          var o := s.orders[p.job.orderId];
          if o.status == Pending then s.(procs := s.procs[pid := Proc(p.job, o.user, o.amount, MarkPaid)])
          else At(s, pid, Finished(true))
        else At(s, pid, Finished(false))
      case MarkPaid =>
        if p.job.Confirm? then
          At(s.(orders := SetStatus(s.orders, p.job.orderId, Paid)), pid, IntoRecharge(p.amount))
        else At(s, pid, Finished(false))
      case Lookup =>
        if Posted(s.records, ref) then At(s, pid, AfterRecharge(p.job))
        else if Recorded(s.records, ref) then At(s, pid, Finished(false))
        else At(s, pid, InsertRecord)
      case InsertRecord =>
        if Held(s.procs, ref) then s
        else if Posted(s.records, ref) then At(s, pid, AfterRecharge(p.job))
        else if Recorded(s.records, ref) then At(s, pid, Finished(false))
        else At(s.(nextRecord := s.nextRecord + 1), pid, PostEntry(s.nextRecord))
      case PostEntry(r) => At(s.(nextTx := s.nextTx + 1), pid, Link(r, s.nextTx))
      case Link(r, t) => At(s, pid, CommitTx(r, t))
      case CommitTx(r, t) =>
        At(s.(records := s.records[r := Record(ref, p.user, p.amount, t)],
              postings := s.postings[t := Posting(r, p.user, p.amount)]), pid, AfterRecharge(p.job))
      case MarkCredited =>
        if p.job.Confirm? then At(s.(orders := SetStatus(s.orders, p.job.orderId, Credited)), pid, Finished(true))
        else At(s, pid, Finished(true))
  }

  function Started(job: Job): Proc {
    match job
    case Confirm(_, _) => Proc(job, 0, 0, Load)
    case Direct(_, user, amount) => Proc(job, user, amount, IntoRecharge(amount))
  }

  function Next(s: State, act: Action): State {
    match act
    case NewOrder(id, user, amount) =>
      if id in s.orders then s else s.(orders := s.orders[id := Order(user, amount, Pending)])
    case Begin(pid, job) =>
      if pid in s.procs then s
      else s.(procs := s.procs[pid := Started(job)])
    case Step(pid, ok) => if pid in s.procs then Perform(s, pid, ok) else s
    case Submit(ref) => if Held(s.procs, ref) || Recorded(s.records, ref) then s else Submitted(s, ref)
  }

  /** The state with a new record that has no transaction. */
  function Submitted(s: State, ref: Ref): State {
    s.(records := s.records[s.nextRecord := Record(ref, 0, 0, 0)], nextRecord := s.nextRecord + 1)
  }

  function Run(s: State, acts: seq<Action>): State {
    if acts == [] then s else Next(Run(s, acts[..|acts| - 1]), acts[|acts| - 1])
  }

  // ---------------------------------------------------------------- invariant

  /** UNIQUE(ref_type, ref_id), and ids below the sequences. */
  ghost predicate Tables(records: map<nat, Record>, postings: map<nat, Posting>, nextRecord: nat, nextTx: nat) {
    && (forall r, q :: r in records && q in records && records[r].ref == records[q].ref ==> r == q)
    && (forall r :: r in records ==> r < nextRecord)
    && (forall t :: t in postings ==> 0 < t < nextTx)
    && nextTx > 0
  }

  /** Records with a transaction and recharge postings are the same thing. */
  ghost predicate Linked(records: map<nat, Record>, postings: map<nat, Posting>) {
    && (forall r :: r in records && records[r].txId != 0 ==>
          records[r].txId in postings && postings[records[r].txId] == Posting(r, records[r].user, records[r].amount))
    && (forall t :: t in postings ==> postings[t].recordId in records && records[postings[t].recordId].txId == t)
    && (forall t :: t in postings ==> postings[t].amount > 0)
  }

  /** An uncommitted record holds its reference and ids of its own. */
  ghost predicate HolderOk(s: State, p: Proc) {
    Holds(p) ==>
      && !Recorded(s.records, RefOf(p.job))
      && p.pc.recordId < s.nextRecord && p.pc.recordId !in s.records
      && (!p.pc.PostEntry? ==> 0 < p.pc.txId < s.nextTx && p.pc.txId !in s.postings)
  }

  ghost predicate ProcOk(s: State, p: Proc) {
    && HolderOk(s, p)
    && (p.pc == MarkCredited ==> Posted(s.records, RefOf(p.job)))
    && ((p.pc == Load || p.pc == MarkPaid) ==> p.job.Confirm?)
    && (p.pc == Lookup || p.pc == InsertRecord || Holds(p) ==> p.amount > 0)
  }

  /** Different processes hold different references and ids. */
  ghost predicate Apart(p: Proc, q: Proc) {
    Holds(p) && Holds(q) ==>
      && RefOf(p.job) != RefOf(q.job) && p.pc.recordId != q.pc.recordId
      && (!p.pc.PostEntry? && !q.pc.PostEntry? ==> p.pc.txId != q.pc.txId)
  }

  ghost predicate OrdersOk(orders: map<nat, Order>, records: map<nat, Record>) {
    forall o :: o in orders && orders[o].status == Credited ==> exists c :: Posted(records, Payment(c, o))
  }

  ghost predicate Inv(s: State) {
    && Tables(s.records, s.postings, s.nextRecord, s.nextTx)
    && Linked(s.records, s.postings)
    && OrdersOk(s.orders, s.records)
    && (forall p :: p in s.procs ==> ProcOk(s, s.procs[p]))
    && (forall p, q :: p in s.procs && q in s.procs && p != q ==> Apart(s.procs[p], s.procs[q]))
  }

  // ---------------------------------------------------------------- preservation

  /** A process that only moves on, leaving the tables alone. */
  lemma MoveKeepsInv(s: State, pid: nat, p: Proc)
    requires Inv(s) && pid in s.procs && !Holds(p) && ProcOk(s, p)
    ensures Inv(s.(procs := s.procs[pid := p]))
  {
    var s' := s.(procs := s.procs[pid := p]);
    forall q | q in s'.procs ensures ProcOk(s', s'.procs[q]) {
      if q != pid { assert ProcOk(s, s.procs[q]); }
    }
  }

  lemma StatusKeepsInv(s: State, id: nat, status: Status)
    requires Inv(s) && (status == Credited ==> exists c :: Posted(s.records, Payment(c, id)))
    ensures Inv(s.(orders := SetStatus(s.orders, id, status)))
  {
    var s' := s.(orders := SetStatus(s.orders, id, status));
    forall q | q in s'.procs ensures ProcOk(s', s'.procs[q]) { assert ProcOk(s, s.procs[q]); }
  }

  lemma InsertKeepsInv(s: State, pid: nat)
    requires Inv(s) && pid in s.procs && s.procs[pid].pc == InsertRecord
    requires !Held(s.procs, RefOf(s.procs[pid].job)) && !Recorded(s.records, RefOf(s.procs[pid].job))
    ensures Inv(At(s.(nextRecord := s.nextRecord + 1), pid, PostEntry(s.nextRecord)))
  {
    var s' := At(s.(nextRecord := s.nextRecord + 1), pid, PostEntry(s.nextRecord));
    assert ProcOk(s, s.procs[pid]);
    forall q | q in s'.procs ensures ProcOk(s', s'.procs[q]) { assert ProcOk(s, s.procs[q]); }
    forall q | q in s'.procs && q != pid
      ensures Apart(s'.procs[pid], s'.procs[q]) && Apart(s'.procs[q], s'.procs[pid])
    {
      assert ProcOk(s, s.procs[q]);
    }
    forall q, r | q in s'.procs && r in s'.procs && q != r ensures Apart(s'.procs[q], s'.procs[r]) {
      if q != pid && r != pid { assert Apart(s.procs[q], s.procs[r]); }
    }
  }

  /** From posting the entry to linking it, on a new transaction id; from linking to commit. */
  lemma AdvanceHolderKeepsOk(s: State, pid: nat)
    requires Inv(s) && pid in s.procs && (s.procs[pid].pc.PostEntry? || s.procs[pid].pc.Link?)
    ensures var s' := Perform(s, pid, true); forall q :: q in s'.procs ==> ProcOk(s', s'.procs[q])
  {
    var s' := Perform(s, pid, true);
    assert HolderOk(s', s'.procs[pid]) by { assert ProcOk(s, s.procs[pid]); }
    forall q | q in s'.procs ensures ProcOk(s', s'.procs[q]) { assert ProcOk(s, s.procs[q]); }
  }

  lemma AdvanceHolderKeepsApart(s: State, pid: nat, q: nat)
    requires Inv(s) && pid in s.procs && (s.procs[pid].pc.PostEntry? || s.procs[pid].pc.Link?)
    requires q in s.procs && q != pid
    ensures var s' := Perform(s, pid, true); Apart(s'.procs[pid], s'.procs[q]) && Apart(s'.procs[q], s'.procs[pid])
  {
    assert Apart(s.procs[pid], s.procs[q]) && Apart(s.procs[q], s.procs[pid]) && ProcOk(s, s.procs[q]);
  }

  lemma AdvanceHolderKeepsInv(s: State, pid: nat)
    requires Inv(s) && pid in s.procs && (s.procs[pid].pc.PostEntry? || s.procs[pid].pc.Link?)
    ensures Inv(Perform(s, pid, true))
  {
    var s' := Perform(s, pid, true);
    AdvanceHolderKeepsOk(s, pid);
    forall q, r | q in s'.procs && r in s'.procs && q != r ensures Apart(s'.procs[q], s'.procs[r]) {
      if q == pid {
        AdvanceHolderKeepsApart(s, pid, r);
      } else if r == pid {
        AdvanceHolderKeepsApart(s, pid, q);
      } else {
        assert Apart(s.procs[q], s.procs[r]);
      }
    }
  }

  lemma CommitKeepsTables(s: State, pid: nat)
    requires Inv(s) && pid in s.procs && s.procs[pid].pc.CommitTx?
    ensures var s' := Perform(s, pid, true);
            Tables(s'.records, s'.postings, s'.nextRecord, s'.nextTx) && Linked(s'.records, s'.postings)
  {
    assert ProcOk(s, s.procs[pid]);
  }

  lemma CommitKeepsOrders(s: State, pid: nat)
    requires Inv(s) && pid in s.procs && s.procs[pid].pc.CommitTx?
    ensures var s' := Perform(s, pid, true); OrdersOk(s'.orders, s'.records)
  {
    var s' := Perform(s, pid, true);
    assert ProcOk(s, s.procs[pid]);
    forall o | o in s'.orders && s'.orders[o].status == Credited ensures exists c :: Posted(s'.records, Payment(c, o)) {
      var c :| Posted(s.records, Payment(c, o));
      PostedStays(s, pid, Payment(c, o));
    }
  }

  lemma PostedStays(s: State, pid: nat, ref: Ref)
    requires pid in s.procs && s.procs[pid].pc.CommitTx? && s.procs[pid].pc.recordId !in s.records
    requires Posted(s.records, ref)
    ensures Posted(Perform(s, pid, true).records, ref)
  {
    var r :| r in s.records && s.records[r].ref == ref && s.records[r].txId != 0;
    assert Perform(s, pid, true).records[r] == s.records[r];
  }

  lemma CommitKeepsInv(s: State, pid: nat)
    requires Inv(s) && pid in s.procs && s.procs[pid].pc.CommitTx?
    ensures Inv(Perform(s, pid, true))
  {
    var p := s.procs[pid];
    var s' := Perform(s, pid, true);
    CommitKeepsTables(s, pid);
    CommitKeepsOrders(s, pid);
    assert ProcOk(s, p);
    assert s'.records[p.pc.recordId].ref == RefOf(p.job);
    forall q | q in s'.procs ensures ProcOk(s', s'.procs[q]) {
      if q != pid {
        assert ProcOk(s, s.procs[q]) && Apart(s.procs[q], p);
        if s.procs[q].pc == MarkCredited { PostedStays(s, pid, RefOf(s.procs[q].job)); }
      }
    }
  }

  lemma FinishKeepsInv(s: State, pid: nat, ok: bool)
    requires Inv(s) && pid in s.procs
    ensures Inv(At(s, pid, Finished(ok)))
  {
    MoveKeepsInv(s, pid, s.procs[pid].(pc := Finished(ok)));
  }

  lemma LoadKeepsInv(s: State, pid: nat)
    requires Inv(s) && pid in s.procs && s.procs[pid].pc == Load
    ensures Inv(Perform(s, pid, true))
  {
    var job := s.procs[pid].job;
    if job.Confirm? && job.orderId in s.orders && s.orders[job.orderId].status == Pending {
      var o := s.orders[job.orderId];
      MoveKeepsInv(s, pid, Proc(job, o.user, o.amount, MarkPaid));
    } else {
      FinishKeepsInv(s, pid, job.Confirm? && job.orderId in s.orders);
    }
  }

  lemma LookupKeepsInv(s: State, pid: nat)
    requires Inv(s) && pid in s.procs && s.procs[pid].pc == Lookup
    ensures Inv(Perform(s, pid, true))
  {
    var p' := Perform(s, pid, true).procs[pid];
    assert ProcOk(s, s.procs[pid]);
    assert ProcOk(s, p');
    MoveKeepsInv(s, pid, p');
  }

  lemma MarkKeepsInv(s: State, pid: nat)
    requires Inv(s) && pid in s.procs && (s.procs[pid].pc == MarkPaid || s.procs[pid].pc == MarkCredited)
    ensures Inv(Perform(s, pid, true))
  {
    var p := s.procs[pid];
    var s' := Perform(s, pid, true);
    assert ProcOk(s, p);
    if p.job.Confirm? { StatusKeepsInv(s, p.job.orderId, if p.pc == MarkPaid then Paid else Credited); }
    MoveKeepsInv(s.(orders := s'.orders), pid, s'.procs[pid]);
  }

  lemma TryInsertKeepsInv(s: State, pid: nat)
    requires Inv(s) && pid in s.procs && s.procs[pid].pc == InsertRecord
    ensures Inv(Perform(s, pid, true))
  {
    var p, ref := s.procs[pid], RefOf(s.procs[pid].job);
    if !Held(s.procs, ref) {
      if Posted(s.records, ref) {
        assert ProcOk(s, p);
        MoveKeepsInv(s, pid, p.(pc := AfterRecharge(p.job)));
      } else if Recorded(s.records, ref) {
        FinishKeepsInv(s, pid, false);
      } else {
        InsertKeepsInv(s, pid);
      }
    }
  }

  lemma PerformKeepsInv(s: State, pid: nat, succeeds: bool)
    requires Inv(s) && pid in s.procs
    ensures Inv(Perform(s, pid, succeeds))
  {
    var pc := s.procs[pid].pc;
    if !succeeds {
      FinishKeepsInv(s, pid, false);
    } else {
      match pc
      case Load => LoadKeepsInv(s, pid);
      case Lookup => LookupKeepsInv(s, pid);
      case InsertRecord => TryInsertKeepsInv(s, pid);
      case PostEntry(_) => AdvanceHolderKeepsInv(s, pid);
      case Link(_, _) => AdvanceHolderKeepsInv(s, pid);
      case CommitTx(_, _) => CommitKeepsInv(s, pid);
      case Finished(_) =>
      case _ => MarkKeepsInv(s, pid);
    }
  }

  lemma NewOrderKeepsInv(s: State, id: nat, user: int, amount: int)
    requires Inv(s) && id !in s.orders
    ensures Inv(Next(s, NewOrder(id, user, amount)))
  {
    var s' := Next(s, NewOrder(id, user, amount));
    forall q | q in s'.procs ensures ProcOk(s', s'.procs[q]) { assert ProcOk(s, s.procs[q]); }
  }

  lemma SubmitKeepsTables(s: State, ref: Ref)
    requires Inv(s) && !Recorded(s.records, ref)
    ensures var s' := Submitted(s, ref);
            Tables(s'.records, s'.postings, s'.nextRecord, s'.nextTx) && Linked(s'.records, s'.postings)
  {
  }

  lemma SubmitKeepsOrders(s: State, ref: Ref)
    requires Inv(s)
    ensures OrdersOk(s.orders, Submitted(s, ref).records)
  {
    var s' := Submitted(s, ref);
    forall o | o in s.orders && s.orders[o].status == Credited ensures exists c :: Posted(s'.records, Payment(c, o)) {
      var c :| Posted(s.records, Payment(c, o));
      KeepsPosted(s.records, s'.records, Payment(c, o));
    }
  }

  lemma SubmitKeepsInv(s: State, ref: Ref)
    requires Inv(s) && !Held(s.procs, ref) && !Recorded(s.records, ref)
    ensures Inv(Submitted(s, ref))
  {
    var s' := Submitted(s, ref);
    SubmitKeepsTables(s, ref);
    SubmitKeepsOrders(s, ref);
    forall q | q in s'.procs ensures ProcOk(s', s'.procs[q]) {
      assert ProcOk(s, s.procs[q]);
      if s.procs[q].pc == MarkCredited { KeepsPosted(s.records, s'.records, RefOf(s.procs[q].job)); }
    }
  }

  lemma KeepsPosted(before: map<nat, Record>, after: map<nat, Record>, ref: Ref)
    requires forall r :: r in before ==> r in after && after[r] == before[r]
    requires Posted(before, ref)
    ensures Posted(after, ref)
  {
    var r :| r in before && before[r].ref == ref && before[r].txId != 0;
    assert after[r] == before[r];
  }

  lemma BeginKeepsInv(s: State, pid: nat, job: Job)
    requires Inv(s)
    ensures Inv(Next(s, Begin(pid, job)))
  {
    var s' := Next(s, Begin(pid, job));
    if s' != s {
      assert ProcOk(s', s'.procs[pid]);
      forall q | q in s'.procs && q != pid ensures ProcOk(s', s'.procs[q]) { assert ProcOk(s, s.procs[q]); }
    }
  }

  lemma NextKeepsInv(s: State, act: Action)
    requires Inv(s)
    ensures Inv(Next(s, act))
  {
    match act
    case NewOrder(id, user, amount) => if id !in s.orders { NewOrderKeepsInv(s, id, user, amount); }
    case Begin(pid, job) => BeginKeepsInv(s, pid, job);
    case Step(pid, ok) => if pid in s.procs { PerformKeepsInv(s, pid, ok); }
    case Submit(ref) => if Next(s, act) != s { SubmitKeepsInv(s, ref); }
  }

  lemma {:induction false} RunKeepsInv(acts: seq<Action>)
    ensures Inv(Run(EMPTY, acts))
  {
    if acts != [] {
      RunKeepsInv(acts[..|acts| - 1]);
      NextKeepsInv(Run(EMPTY, acts[..|acts| - 1]), acts[|acts| - 1]);
    }
  }

  // ---------------------------------------------------------------- theorems

  /** The reference a recharge posting was made for. */
  function PostedRef(s: State, t: nat): Ref
    requires t in s.postings && s.postings[t].recordId in s.records
  {
    s.records[s.postings[t].recordId].ref
  }

  ghost predicate IsPostingFor(s: State, t: nat, ref: Ref) {
    t in s.postings && s.postings[t].recordId in s.records && PostedRef(s, t) == ref
  }

  /** However confirmations and other recharges interleave and fail, no reference is ever
      posted twice, and every posting is of a positive amount. */
  lemma AtMostOncePerRef(acts: seq<Action>, t: nat, u: nat, ref: Ref)
    requires var s := Run(EMPTY, acts); IsPostingFor(s, t, ref) && IsPostingFor(s, u, ref)
    ensures t == u && Run(EMPTY, acts).postings[t].amount > 0
  {
    RunKeepsInv(acts);
  }

  predicate OfOrder(ref: Ref, o: nat) {
    ref.Payment? && ref.orderId == o
  }

  /** The step does not begin a recharge from elsewhere on a reference of order o. */
  predicate Reserves(act: Action, o: nat) {
    act.Begin? && act.job.Direct? && OfOrder(act.job.ref, o) ==> act.job.amount <= 0
  }

  /** A user and an amount are those of order o. */
  ghost predicate Matches(orders: map<nat, Order>, o: nat, user: int, amount: int) {
    o in orders && user == orders[o].user && amount == orders[o].amount
  }

  /** A call on a reference of order o that knows its user and amount and has not ended. */
  predicate AtWork(p: Proc, o: nat) {
    OfOrder(RefOf(p.job), o) && p.pc != Load && !p.pc.Finished?
  }

  /** Whoever is at work on order o's references, and whatever was posted on them, is for its
      user and amount. */
  ghost predicate OwnProcs(s: State, o: nat) {
    forall p :: p in s.procs && AtWork(s.procs[p], o) ==>
      Matches(s.orders, o, s.procs[p].user, s.procs[p].amount)
  }

  ghost predicate OwnRecords(s: State, o: nat) {
    forall r :: r in s.records && OfOrder(s.records[r].ref, o) && s.records[r].txId != 0 ==>
      Matches(s.orders, o, s.records[r].user, s.records[r].amount)
  }

  lemma PerformKeepsOrders(s: State, pid: nat, succeeds: bool, o: nat, user: int, amount: int)
    requires pid in s.procs
    ensures Matches(Perform(s, pid, succeeds).orders, o, user, amount) <==> Matches(s.orders, o, user, amount)
  {
  }

  lemma PerformKeepsOwnRecords(s: State, pid: nat, succeeds: bool, o: nat)
    requires pid in s.procs && OwnProcs(s, o) && OwnRecords(s, o)
    ensures OwnRecords(Perform(s, pid, succeeds), o)
  {
    var s' := Perform(s, pid, succeeds);
    forall r | r in s'.records && OfOrder(s'.records[r].ref, o) && s'.records[r].txId != 0
      ensures Matches(s'.orders, o, s'.records[r].user, s'.records[r].amount)
    {
      PerformKeepsOrders(s, pid, succeeds, o, s'.records[r].user, s'.records[r].amount);
    }
  }

  lemma PerformKeepsOwnProcs(s: State, pid: nat, succeeds: bool, o: nat)
    requires pid in s.procs && OwnProcs(s, o)
    ensures OwnProcs(Perform(s, pid, succeeds), o)
  {
    var s' := Perform(s, pid, succeeds);
    PerformMovesOne(s, pid, succeeds);
    forall p | p in s'.procs && AtWork(s'.procs[p], o)
      ensures Matches(s'.orders, o, s'.procs[p].user, s'.procs[p].amount)
    {
      PerformKeepsOrders(s, pid, succeeds, o, s'.procs[p].user, s'.procs[p].amount);
      if p == pid { PerformKeepsFor(s, pid, succeeds, o); }
    }
  }

  /** A call keeps its user and amount, once it has loaded them from its order. */
  lemma PerformKeepsFor(s: State, pid: nat, succeeds: bool, o: nat)
    requires pid in s.procs && OwnProcs(s, o) && OfOrder(RefOf(s.procs[pid].job), o)
    requires pid in Perform(s, pid, succeeds).procs
    ensures var p' := Perform(s, pid, succeeds).procs[pid];
            AtWork(p', o) ==> Matches(s.orders, o, p'.user, p'.amount)
  {
    var p := s.procs[pid];
    if succeeds && p.pc != Load {
      LaterKeepsFor(s, pid);
    }
  }

  lemma LaterKeepsFor(s: State, pid: nat)
    requires pid in s.procs && s.procs[pid].pc != Load
    ensures pid in Perform(s, pid, true).procs
    ensures var p, p' := s.procs[pid], Perform(s, pid, true).procs[pid];
            p'.job == p.job && p'.user == p.user && p'.amount == p.amount && (p.pc.Finished? ==> p'.pc.Finished?)
  {
  }

  lemma NextKeepsOwn(s: State, act: Action, o: nat)
    requires OwnProcs(s, o) && OwnRecords(s, o) && Reserves(act, o)
    ensures OwnProcs(Next(s, act), o) && OwnRecords(Next(s, act), o)
  {
    if act.Step? && act.pid in s.procs {
      PerformKeepsOwnProcs(s, act.pid, act.succeeds, o);
      PerformKeepsOwnRecords(s, act.pid, act.succeeds, o);
    }
  }

  ghost predicate Reserved(acts: seq<Action>, o: nat) {
    forall i :: 0 <= i < |acts| ==> Reserves(acts[i], o)
  }

  lemma {:induction false} RunKeepsOwn(acts: seq<Action>, o: nat)
    requires Reserved(acts, o)
    ensures OwnProcs(Run(EMPTY, acts), o) && OwnRecords(Run(EMPTY, acts), o)
  {
    if acts != [] {
      RunKeepsOwn(acts[..|acts| - 1], o);
      NextKeepsOwn(Run(EMPTY, acts[..|acts| - 1]), acts[|acts| - 1], o);
    }
  }

  /** A credited order has, on a channel, exactly one posting; and if no recharge from elsewhere
      used the order's references, it is for the order's user and amount. */
  lemma CreditedIsPostedOnce(acts: seq<Action>, o: nat) returns (c: string, t: nat)
    requires var s := Run(EMPTY, acts); o in s.orders && s.orders[o].status == Credited
    ensures var s := Run(EMPTY, acts);
            && IsPostingFor(s, t, Payment(c, o))
            && (Reserved(acts, o) ==> Matches(s.orders, o, s.postings[t].user, s.postings[t].amount))
            && (forall u :: IsPostingFor(s, u, Payment(c, o)) ==> u == t)
  {
    var s := Run(EMPTY, acts);
    RunKeepsInv(acts);
    c :| Posted(s.records, Payment(c, o));
    var r :| r in s.records && s.records[r].ref == Payment(c, o) && s.records[r].txId != 0;
    t := s.records[r].txId;
    if Reserved(acts, o) { RunKeepsOwn(acts, o); }
  }

  /** Recharges from elsewhere that the schedule begins are allowed ones. */
  ghost predicate Allowed(acts: seq<Action>, jobs: iset<Job>) {
    forall i :: 0 <= i < |acts| && acts[i].Begin? && acts[i].job.Direct? ==> acts[i].job in jobs
  }

  /** If the order is credited, all postings on its references are for its user and amount. */
  ghost predicate TrueToOrder(s: State, o: nat) {
    o in s.orders && s.orders[o].status == Credited ==>
      forall t :: t in PostingsOf(s, o) ==> Matches(s.orders, o, s.postings[t].user, s.postings[t].amount)
  }

  /** What recharges from elsewhere may be allowed: a credited order is posted for its own user
      and amount in every run exactly when no allowed recharge of a positive amount names one
      of its references. */
  lemma TrueToOrderIffReserved(o: nat, jobs: iset<Job>)
    ensures (forall acts :: Allowed(acts, jobs) ==> TrueToOrder(Run(EMPTY, acts), o))
       <==> (forall j :: j in jobs && j.Direct? && OfOrder(j.ref, o) ==> j.amount <= 0)
  {
    if j :| j in jobs && j.Direct? && OfOrder(j.ref, o) && j.amount > 0 {
      var acts := PostedForAnother(o, j);
      assert Allowed(acts, jobs);
      assert !TrueToOrder(Run(EMPTY, acts), o);
    } else {
      forall acts | Allowed(acts, jobs) ensures TrueToOrder(Run(EMPTY, acts), o) {
        assert Reserved(acts, o);
        RunKeepsOwn(acts, o);
        RunKeepsInv(acts);
      }
    }
  }

  /** A recharge from elsewhere on the order's reference comes first; the confirmation finds it
      and marks the order credited. */
  lemma PostedForAnother(o: nat, j: Job) returns (acts: seq<Action>)
    requires j.Direct? && OfOrder(j.ref, o) && j.amount > 0
    ensures !TrueToOrder(Run(EMPTY, acts), o)
    ensures forall i :: 0 <= i < |acts| && acts[i].Begin? && acts[i].job.Direct? ==> acts[i].job == j
  {
    acts := PaidAfterwards(o, j);
    assert Run(EMPTY, acts).records[1].ref == j.ref && Run(EMPTY, acts).records[1].txId != 0;
    acts := Extend(acts, Step(1, true));
    acts := Extend(acts, Step(1, true));
    var s := Run(EMPTY, acts);
    assert s.orders[o] == Order(j.user + 1, 1, Credited);
    assert PostedRef(s, 1) == j.ref && 1 in PostingsOf(s, o);
  }

  lemma PaidAfterwards(o: nat, j: Job) returns (acts: seq<Action>)
    requires j.Direct? && OfOrder(j.ref, o) && j.amount > 0
    ensures var s := Run(EMPTY, acts);
            && s.orders == map[o := Order(j.user + 1, 1, Paid)]
            && s.records == map[1 := Record(j.ref, j.user, j.amount, 1)]
            && s.postings == map[1 := Posting(1, j.user, j.amount)]
            && 1 in s.procs && s.procs[1] == Proc(Confirm(o, j.ref.channel), j.user + 1, 1, Lookup)
    ensures forall i :: 0 <= i < |acts| && acts[i].Begin? && acts[i].job.Direct? ==> acts[i].job == j
  {
    acts := RechargedFirst(o, j);
    acts := Extend(acts, Begin(1, Confirm(o, j.ref.channel)));
    acts := Extend(acts, Step(1, true));
    assert Run(EMPTY, acts).procs[1] == Proc(Confirm(o, j.ref.channel), j.user + 1, 1, MarkPaid);
    acts := Extend(acts, Step(1, true));
  }

  lemma RechargedFirst(o: nat, j: Job) returns (acts: seq<Action>)
    requires j.Direct? && OfOrder(j.ref, o) && j.amount > 0
    ensures var s := Run(EMPTY, acts);
            && s.orders == map[o := Order(j.user + 1, 1, Pending)]
            && s.records == map[1 := Record(j.ref, j.user, j.amount, 1)]
            && s.postings == map[1 := Posting(1, j.user, j.amount)]
            && s.procs == map[0 := Proc(j, j.user, j.amount, Finished(true))]
    ensures forall i :: 0 <= i < |acts| && acts[i].Begin? && acts[i].job.Direct? ==> acts[i].job == j
  {
    acts := Extend([], NewOrder(o, j.user + 1, 1));
    acts := Extend(acts, Begin(0, j));
    acts := PostsAlone(acts, 0, Proc(j, j.user, j.amount, Lookup));
  }

  /** The step begins a call that recharges on a reference of order o, such as a confirmation. */
  predicate CallsFor(act: Action, o: nat) {
    act.Begin? && OfOrder(RefOf(act.job), o)
  }

  /** Every call on order o's references in the schedule comes through channel c. */
  ghost predicate OnlyVia(acts: seq<Action>, o: nat, c: string) {
    forall i :: 0 <= i < |acts| && CallsFor(acts[i], o) ==> RefOf(acts[i].job).channel == c
  }

  ghost predicate Via(s: State, o: nat, c: string) {
    && (forall p :: p in s.procs && OfOrder(RefOf(s.procs[p].job), o) ==> RefOf(s.procs[p].job).channel == c)
    && (forall r :: r in s.records && OfOrder(s.records[r].ref, o) && s.records[r].txId != 0 ==>
          s.records[r].ref.channel == c)
  }

  lemma {:induction false} RunKeepsVia(acts: seq<Action>, o: nat, c: string)
    requires OnlyVia(acts, o, c)
    ensures Via(Run(EMPTY, acts), o, c)
  {
    if acts != [] {
      var n := |acts| - 1;
      RunKeepsVia(acts[..n], o, c);
      NextKeepsVia(Run(EMPTY, acts[..n]), acts[n], o, c);
    }
  }

  /** A step of a process moves at most that process, and keeps its job. */
  lemma PerformMovesOne(s: State, pid: nat, succeeds: bool)
    requires pid in s.procs
    ensures var procs' := Perform(s, pid, succeeds).procs;
            pid in procs' && procs' == s.procs[pid := procs'[pid]] && procs'[pid].job == s.procs[pid].job
  {
    assert s.procs == s.procs[pid := s.procs[pid]];
  }

  lemma PerformKeepsJobs(s: State, pid: nat, succeeds: bool)
    requires pid in s.procs
    ensures var s' := Perform(s, pid, succeeds);
            pid in s'.procs && forall q :: q in s'.procs ==> q in s.procs && s'.procs[q].job == s.procs[q].job
  {
    PerformMovesOne(s, pid, succeeds);
  }

  /** A step of a process adds at most a record for its own reference. */
  lemma PerformAddsOwnRecord(s: State, pid: nat, succeeds: bool)
    requires pid in s.procs
    ensures var s' := Perform(s, pid, succeeds);
            forall r :: r in s'.records && (r !in s.records || s'.records[r] != s.records[r]) ==>
              s'.records[r].ref == RefOf(s.procs[pid].job)
  {
  }

  lemma NextKeepsVia(s: State, act: Action, o: nat, c: string)
    requires Via(s, o, c)
    requires CallsFor(act, o) ==> RefOf(act.job).channel == c
    ensures Via(Next(s, act), o, c)
  {
    if act.Step? {
      if act.pid in s.procs {
        PerformKeepsJobs(s, act.pid, act.succeeds);
        PerformAddsOwnRecord(s, act.pid, act.succeeds);
      }
    }
  }

  /** The ledger transactions that recharged for order o, on any channel. */
  function PostingsOf(s: State, o: nat): set<nat> {
    set t | t in s.postings && s.postings[t].recordId in s.records
            && OfOrder(PostedRef(s, t), o)
  }

  /** An order whose references are used through one channel only, by any number of concurrent
      notifications with any failures, is recharged at most once, and exactly once when it is
      credited. */
  lemma OneChannelPaysOnce(acts: seq<Action>, o: nat, c: string)
    requires OnlyVia(acts, o, c)
    ensures var s := Run(EMPTY, acts);
            && |PostingsOf(s, o)| <= 1
            && (o in s.orders && s.orders[o].status == Credited ==> |PostingsOf(s, o)| == 1)
  {
    var s := Run(EMPTY, acts);
    var ts := PostingsOf(s, o);
    RunKeepsVia(acts, o, c);
    RunKeepsInv(acts);
    forall t, u | t in ts && u in ts ensures t == u {
      assert PostedRef(s, t) == Payment(c, o) == PostedRef(s, u);
      AtMostOncePerRef(acts, t, u, Payment(c, o));
    }
    if ts != {} {
      var t :| t in ts;
      assert ts == {t};
    }
    if o in s.orders && s.orders[o].status == Credited {
      var d, t := CreditedIsPostedOnce(acts, o);
      assert t in ts;
    }
  }

  /** Every call on order o's references in the schedule comes through one of the channels. */
  ghost predicate Through(acts: seq<Action>, o: nat, channels: set<string>) {
    forall i :: 0 <= i < |acts| && CallsFor(acts[i], o) ==> RefOf(acts[i].job).channel in channels
  }

  /** An order is safe from a second recharge exactly when all its notifications come through
      one channel: the reference of a recharge names the channel, and two notifications that
      both read the order while it is pending both go on to recharge. */
  lemma PaysOnceIffOneChannel(o: nat, channels: set<string>)
    ensures (forall acts :: Through(acts, o, channels) ==> |PostingsOf(Run(EMPTY, acts), o)| <= 1)
       <==> (forall c, d :: c in channels && d in channels ==> c == d)
  {
    if c, d :| c in channels && d in channels && c != d {
      var acts := TwoChannelsPayTwice(o, c, d);
      assert Through(acts, o, channels);
      assert |PostingsOf(Run(EMPTY, acts), o)| == 2;
    } else {
      forall acts | Through(acts, o, channels) ensures |PostingsOf(Run(EMPTY, acts), o)| <= 1 {
        var c := if c :| c in channels then c else "";
        assert OnlyVia(acts, o, c);
        OneChannelPaysOnce(acts, o, c);
      }
    }
  }

  lemma Extend(acts: seq<Action>, act: Action) returns (more: seq<Action>)
    ensures more == acts + [act] && Run(EMPTY, more) == Next(Run(EMPTY, acts), act)
  {
    more := acts + [act];
    assert more[..|more| - 1] == acts;
  }

  /** More steps of calls that the schedule began. */
  ghost predicate OnlySteps(acts: seq<Action>, more: seq<Action>) {
    acts <= more && forall i :: |acts| <= i < |more| ==> more[i].Step?
  }

  /** A call past its lookup, undisturbed, posts the recharge. */
  lemma PostsAlone(acts: seq<Action>, pid: nat, p: Proc) returns (more: seq<Action>)
    requires var s := Run(EMPTY, acts);
             && pid in s.procs && s.procs[pid] == p && p.pc == Lookup
             && !Recorded(s.records, RefOf(p.job)) && !Held(s.procs, RefOf(p.job))
    ensures var s, s' := Run(EMPTY, acts), Run(EMPTY, more);
            && s'.records == s.records[s.nextRecord := Record(RefOf(p.job), p.user, p.amount, s.nextTx)]
            && s'.postings == s.postings[s.nextTx := Posting(s.nextRecord, p.user, p.amount)]
            && s'.procs == s.procs[pid := p.(pc := AfterRecharge(p.job))]
            && s'.nextRecord == s.nextRecord + 1 && s'.nextTx == s.nextTx + 1 && s'.orders == s.orders
    ensures OnlySteps(acts, more)
  {
    var s := Run(EMPTY, acts);
    more := Advance(acts, acts, pid);
    more := Advance(acts, more, pid);
    ClaimsAlone(s, pid);
    more := Advance(acts, more, pid);
    more := Advance(acts, more, pid);
    more := Advance(acts, more, pid);
    CommitsAlone(At(s.(nextRecord := s.nextRecord + 1), pid, PostEntry(s.nextRecord)), pid);
  }

  lemma Advance(first: seq<Action>, acts: seq<Action>, pid: nat) returns (more: seq<Action>)
    requires pid in Run(EMPTY, acts).procs && OnlySteps(first, acts)
    ensures Run(EMPTY, more) == Perform(Run(EMPTY, acts), pid, true) && OnlySteps(first, more)
    ensures pid in Run(EMPTY, more).procs
  {
    more := Extend(acts, Step(pid, true));
    PerformKeepsJobs(Run(EMPTY, acts), pid, true);
  }

  lemma ClaimsAlone(s: State, pid: nat)
    requires pid in s.procs && s.procs[pid].pc == Lookup
    requires !Recorded(s.records, RefOf(s.procs[pid].job)) && !Held(s.procs, RefOf(s.procs[pid].job))
    ensures pid in Perform(s, pid, true).procs
    ensures Perform(Perform(s, pid, true), pid, true)
         == At(s.(nextRecord := s.nextRecord + 1), pid, PostEntry(s.nextRecord))
  {
    var t := At(s, pid, InsertRecord);
    assert Perform(s, pid, true) == t;
    forall q | q in t.procs && Holds(t.procs[q]) ensures t.procs[q] == s.procs[q] {}
    assert t.procs[pid := t.procs[pid].(pc := PostEntry(s.nextRecord))]
        == s.procs[pid := s.procs[pid].(pc := PostEntry(s.nextRecord))];
  }

  lemma CommitsAlone(s: State, pid: nat)
    requires pid in s.procs && s.procs[pid].pc.PostEntry?
    ensures pid in Perform(s, pid, true).procs && pid in Perform(Perform(s, pid, true), pid, true).procs
    ensures var p := s.procs[pid]; var r := p.pc.recordId;
            var s' := Perform(Perform(Perform(s, pid, true), pid, true), pid, true);
            && s'.records == s.records[r := Record(RefOf(p.job), p.user, p.amount, s.nextTx)]
            && s'.postings == s.postings[s.nextTx := Posting(r, p.user, p.amount)]
            && s'.procs == s.procs[pid := p.(pc := AfterRecharge(p.job))]
            && s'.nextRecord == s.nextRecord && s'.nextTx == s.nextTx + 1 && s'.orders == s.orders
  {
    var r := s.procs[pid].pc.recordId;
    var t := At(s.(nextTx := s.nextTx + 1), pid, Link(r, s.nextTx));
    assert Perform(s, pid, true) == t;
    assert Perform(t, pid, true) == At(t, pid, CommitTx(r, s.nextTx));
  }

  /** Two notifications of order o through different channels. */
  lemma TwoChannelsPayTwice(o: nat, c: string, d: string) returns (acts: seq<Action>)
    requires c != d
    ensures Through(acts, o, {c, d}) && |PostingsOf(Run(EMPTY, acts), o)| == 2
  {
    acts := BothMarkPaid(o, c, d);
    var p, q := Proc(Confirm(o, c), 7, 5, Lookup), Proc(Confirm(o, d), 7, 5, Lookup);
    acts := PostsAlone(acts, 0, p);
    acts := PostsAlone(acts, 1, q);
    var s := Run(EMPTY, acts);
    assert PostedRef(s, 1) == Payment(c, o) && PostedRef(s, 2) == Payment(d, o);
    assert PostingsOf(s, o) == {1, 2};
  }

  lemma BothMarkPaid(o: nat, c: string, d: string) returns (acts: seq<Action>)
    requires c != d
    ensures Through(acts, o, {c, d})
    ensures Run(EMPTY, acts) == State(map[o := Order(7, 5, Paid)], map[], map[],
              map[0 := Proc(Confirm(o, c), 7, 5, Lookup), 1 := Proc(Confirm(o, d), 7, 5, Lookup)], 1, 1)
  {
    acts := Extend([], NewOrder(o, 7, 5));
    acts := Extend(acts, Begin(0, Confirm(o, c)));
    acts := Extend(acts, Begin(1, Confirm(o, d)));
    acts := Extend(acts, Step(0, true));
    acts := Extend(acts, Step(1, true));
    var orders := map[o := Order(7, 5, Pending)];
    assert Run(EMPTY, acts) == State(orders, map[], map[],
      map[0 := Proc(Confirm(o, c), 7, 5, MarkPaid), 1 := Proc(Confirm(o, d), 7, 5, MarkPaid)], 1, 1);
    acts := Extend(acts, Step(0, true));
    acts := Extend(acts, Step(1, true));
  }

  // ---------------------------------------------------------------- what confirmations do

  /** No confirmation of the order is about to mark it paid. */
  predicate NoneMarksPaid(s: State, o: nat) {
    forall p :: p in s.procs && s.procs[p].job.Confirm? && s.procs[p].job.orderId == o ==> s.procs[p].pc != MarkPaid
  }

  predicate IsCredited(s: State, o: nat) {
    o in s.orders && s.orders[o].status == Credited
  }

  lemma PerformKeepsCredited(s: State, pid: nat, succeeds: bool, o: nat)
    requires pid in s.procs && IsCredited(s, o) && NoneMarksPaid(s, o)
    ensures IsCredited(Perform(s, pid, succeeds), o)
  {
  }

  lemma PerformMarksNone(s: State, pid: nat, succeeds: bool, o: nat)
    requires pid in s.procs && IsCredited(s, o) && NoneMarksPaid(s, o)
    ensures NoneMarksPaid(Perform(s, pid, succeeds), o)
  {
    PerformMovesOne(s, pid, succeeds);
    MarksPaidAfterLoad(s, pid, succeeds);
  }

  /** Only a confirmation that loads a pending order goes on to mark it paid. */
  lemma MarksPaidAfterLoad(s: State, pid: nat, succeeds: bool)
    requires pid in s.procs && pid in Perform(s, pid, succeeds).procs
    ensures var p := s.procs[pid];
            Perform(s, pid, succeeds).procs[pid].pc == MarkPaid ==>
              p.pc == Load && p.job.Confirm? && p.job.orderId in s.orders && s.orders[p.job.orderId].status == Pending
  {
  }

  lemma {:induction false} CreditedStays(s: State, more: seq<Action>, o: nat)
    requires IsCredited(s, o) && NoneMarksPaid(s, o)
    ensures IsCredited(Run(s, more), o) && NoneMarksPaid(Run(s, more), o)
  {
    if more != [] {
      var u, act := Run(s, more[..|more| - 1]), more[|more| - 1];
      CreditedStays(s, more[..|more| - 1], o);
      if act.Step? && act.pid in u.procs {
        PerformKeepsCredited(u, act.pid, act.succeeds, o);
        PerformMarksNone(u, act.pid, act.succeeds, o);
      }
    }
  }

  /** A credited order stays credited in every continuation exactly when no confirmation of it
      is about to mark it paid; later notifications, in particular, change nothing. */
  lemma CreditedStaysIff(s: State, o: nat)
    requires IsCredited(s, o)
    ensures (forall more :: IsCredited(Run(s, more), o)) <==> NoneMarksPaid(s, o)
  {
    if NoneMarksPaid(s, o) {
      forall more ensures IsCredited(Run(s, more), o) { CreditedStays(s, more, o); }
    } else {
      var more := PaidAgain(s, o);
      assert !IsCredited(Run(s, more), o);
    }
  }

  lemma PaidAgain(s: State, o: nat) returns (more: seq<Action>)
    requires IsCredited(s, o) && !NoneMarksPaid(s, o)
    ensures !IsCredited(Run(s, more), o)
  {
    var p :| p in s.procs && s.procs[p].job.Confirm? && s.procs[p].job.orderId == o && s.procs[p].pc == MarkPaid;
    more := [Step(p, true)];
    assert more[..0] == [] && Run(s, []) == s;
    assert Run(s, more) == Perform(s, p, true);
  }

  /** A confirmation that loads an order which is not pending ends, with success, and leaves
      everything as it was. */
  lemma NotPendingIsDone(s: State, pid: nat)
    requires pid in s.procs && s.procs[pid].pc == Load && s.procs[pid].job.Confirm?
    requires var o := s.procs[pid].job.orderId; o in s.orders && s.orders[o].status != Pending
    ensures Perform(s, pid, true) == s.(procs := s.procs[pid := s.procs[pid].(pc := Finished(true))])
  {
  }

  /** Repeats succeed: a call that comes to a posted reference, by its lookup or, when another
      call was faster, by its insert, goes on as if it had posted it, and changes nothing. */
  lemma PostedIsFound(acts: seq<Action>, pid: nat)
    requires var s := Run(EMPTY, acts);
             && pid in s.procs && (s.procs[pid].pc == Lookup || s.procs[pid].pc == InsertRecord)
             && Posted(s.records, RefOf(s.procs[pid].job))
    ensures var s := Run(EMPTY, acts); var p := s.procs[pid];
            Perform(s, pid, true)
            == s.(procs := s.procs[pid := p.(pc := if p.job.Confirm? then MarkCredited else Finished(true))])
  {
    var s := Run(EMPTY, acts);
    var ref := RefOf(s.procs[pid].job);
    RunKeepsInv(acts);
    var r :| r in s.records && s.records[r].ref == ref && s.records[r].txId != 0;
    forall q | q in s.procs && Holds(s.procs[q]) ensures RefOf(s.procs[q].job) != ref { assert ProcOk(s, s.procs[q]); }
    assert !Held(s.procs, ref);
  }

  /** What a call that is past its first steps, or that ended with success, can rely on. */
  ghost predicate Grounded(s: State, p: Proc) {
    match p.job
    case Confirm(o, _) =>
      p.pc == Finished(true) || (p.pc != Load && p.pc != MarkPaid && !p.pc.Finished?) ==>
        o in s.orders && s.orders[o].status != Pending
    case Direct(ref, _, _) => p.pc == Finished(true) ==> Posted(s.records, ref)
  }

  ghost predicate AllGrounded(s: State) {
    forall p :: p in s.procs ==> Grounded(s, s.procs[p])
  }

  /** Orders that are not pending stay so, and posted references stay posted. */
  ghost predicate Ahead(s: State, s': State) {
    && (forall o :: o in s.orders && s.orders[o].status != Pending ==> o in s'.orders && s'.orders[o].status != Pending)
    && (forall ref :: Posted(s.records, ref) ==> Posted(s'.records, ref))
  }

  lemma AheadKeepsGrounded(s: State, s': State, p: Proc)
    requires Grounded(s, p) && Ahead(s, s')
    ensures Grounded(s', p)
  {
  }

  lemma KeepsAllPosted(before: map<nat, Record>, after: map<nat, Record>)
    requires forall r :: r in before ==> r in after && after[r] == before[r]
    ensures forall ref :: Posted(before, ref) ==> Posted(after, ref)
  {
    forall ref | Posted(before, ref) ensures Posted(after, ref) { KeepsPosted(before, after, ref); }
  }

  lemma PerformKeepsRecords(s: State, pid: nat, succeeds: bool)
    requires pid in s.procs && HolderOk(s, s.procs[pid])
    ensures var after := Perform(s, pid, succeeds).records;
            forall r :: r in s.records ==> r in after && after[r] == s.records[r]
  {
  }

  lemma PerformMovesOrders(s: State, pid: nat, succeeds: bool)
    requires pid in s.procs
    ensures var orders := Perform(s, pid, succeeds).orders;
            forall o :: o in s.orders && s.orders[o].status != Pending ==> o in orders && orders[o].status != Pending
  {
  }

  lemma PerformGrounds(s: State, pid: nat, succeeds: bool)
    requires pid in s.procs && ProcOk(s, s.procs[pid]) && Grounded(s, s.procs[pid])
    requires s.procs[pid].job.Confirm? && s.procs[pid].pc == MarkPaid ==> s.procs[pid].job.orderId in s.orders
    requires pid in Perform(s, pid, succeeds).procs
    ensures Grounded(Perform(s, pid, succeeds), Perform(s, pid, succeeds).procs[pid])
  {
    if succeeds && s.procs[pid].pc.CommitTx? { CommitPosts(s, pid); }
  }

  lemma CommitPosts(s: State, pid: nat)
    requires pid in s.procs && s.procs[pid].pc.CommitTx? && s.procs[pid].pc.txId != 0
    ensures Posted(Perform(s, pid, true).records, RefOf(s.procs[pid].job))
  {
    var r := s.procs[pid].pc.recordId;
    assert Perform(s, pid, true).records[r].txId != 0;
  }

  /** A confirmation marks paid only an order that exists. */
  ghost predicate KnowsOrder(s: State, p: Proc) {
    p.job.Confirm? && p.pc == MarkPaid ==> p.job.orderId in s.orders
  }

  lemma PerformKeepsKnown(s: State, pid: nat, succeeds: bool)
    requires pid in s.procs && forall p :: p in s.procs ==> KnowsOrder(s, s.procs[p])
    ensures var s' := Perform(s, pid, succeeds); forall p :: p in s'.procs ==> KnowsOrder(s', s'.procs[p])
  {
    var s' := Perform(s, pid, succeeds);
    PerformMovesOne(s, pid, succeeds);
    MarksPaidAfterLoad(s, pid, succeeds);
    assert forall o :: o in s.orders ==> o in s'.orders;
  }

  lemma {:induction false} RunGrounds(acts: seq<Action>)
    ensures var s := Run(EMPTY, acts); AllGrounded(s) && forall p :: p in s.procs ==> KnowsOrder(s, s.procs[p])
  {
    if acts != [] {
      var s, act := Run(EMPTY, acts[..|acts| - 1]), acts[|acts| - 1];
      RunGrounds(acts[..|acts| - 1]);
      RunKeepsInv(acts[..|acts| - 1]);
      NextGrounds(s, act);
    }
  }

  lemma NextGrounds(s: State, act: Action)
    requires Inv(s) && AllGrounded(s) && forall p :: p in s.procs ==> KnowsOrder(s, s.procs[p])
    ensures var s' := Next(s, act); AllGrounded(s') && forall p :: p in s'.procs ==> KnowsOrder(s', s'.procs[p])
  {
    match act
    case Step(pid, succeeds) =>
      if pid in s.procs {
        StepGrounds(s, pid, succeeds);
        PerformKeepsKnown(s, pid, succeeds);
      }
    case _ => OtherGrounds(s, act);
  }

  lemma OtherGrounds(s: State, act: Action)
    requires Inv(s) && AllGrounded(s) && !act.Step? && forall p :: p in s.procs ==> KnowsOrder(s, s.procs[p])
    ensures var s' := Next(s, act); AllGrounded(s') && forall p :: p in s'.procs ==> KnowsOrder(s', s'.procs[p])
  {
    var s' := Next(s, act);
    OtherKeepsRecords(s, act);
    forall p | p in s'.procs ensures Grounded(s', s'.procs[p]) && KnowsOrder(s', s'.procs[p]) {
      if p in s.procs { AheadKeepsGrounded(s, s', s.procs[p]); }
    }
  }

  lemma OtherKeepsRecords(s: State, act: Action)
    requires Inv(s) && !act.Step?
    ensures Ahead(s, Next(s, act)) && forall o :: o in s.orders ==> o in Next(s, act).orders
    ensures forall p :: p in s.procs ==> p in Next(s, act).procs && Next(s, act).procs[p] == s.procs[p]
  {
    KeepsAllPosted(s.records, Next(s, act).records);
  }

  lemma StepGrounds(s: State, pid: nat, succeeds: bool)
    requires Inv(s) && AllGrounded(s) && pid in s.procs && KnowsOrder(s, s.procs[pid])
    ensures AllGrounded(Perform(s, pid, succeeds))
  {
    var s' := Perform(s, pid, succeeds);
    assert ProcOk(s, s.procs[pid]);
    PerformMovesOne(s, pid, succeeds);
    PerformKeepsRecords(s, pid, succeeds);
    PerformMovesOrders(s, pid, succeeds);
    KeepsAllPosted(s.records, s'.records);
    PerformGrounds(s, pid, succeeds);
    forall p | p in s'.procs ensures Grounded(s', s'.procs[p]) {
      if p != pid { AheadKeepsGrounded(s, s', s.procs[p]); }
    }
  }

  /** Success is never claimed for nothing: a recharge that ended with success is posted on its
      reference, and a confirmation that did, or that has begun to recharge, has its order
      past pending. */
  lemma SuccessIsGrounded(acts: seq<Action>, pid: nat)
    requires pid in Run(EMPTY, acts).procs
    ensures var s := Run(EMPTY, acts); var p := s.procs[pid];
            && (p.job.Direct? && p.pc == Finished(true) ==> Posted(s.records, p.job.ref))
            && (p.job.Confirm? && (p.pc == Finished(true) || p.pc == Lookup || Holds(p) || p.pc == MarkCredited) ==>
                  p.job.orderId in s.orders && s.orders[p.job.orderId].status != Pending)
  {
    RunGrounds(acts);
    assert Grounded(Run(EMPTY, acts), Run(EMPTY, acts).procs[pid]);
  }

  /** An undisturbed confirmation of a pending order of positive amount, on a reference nobody
      has used, posts the recharge and marks the order credited. */
  lemma ConfirmAlone(acts: seq<Action>, pid: nat, o: nat, c: string) returns (more: seq<Action>)
    requires var s := Run(EMPTY, acts);
             && pid !in s.procs && o in s.orders && s.orders[o].status == Pending && s.orders[o].amount > 0
             && !Recorded(s.records, Payment(c, o)) && !Held(s.procs, Payment(c, o))
    ensures var s, s' := Run(EMPTY, acts), Run(EMPTY, more);
            && s'.orders == s.orders[o := s.orders[o].(status := Credited)]
            && s'.postings == s.postings[s.nextTx := Posting(s.nextRecord, s.orders[o].user, s.orders[o].amount)]
            && pid in s'.procs && s'.procs[pid].pc == Finished(true)
  {
    var s := Run(EMPTY, acts);
    var order := s.orders[o];
    var p := Proc(Confirm(o, c), order.user, order.amount, Lookup);
    more := BeginPaying(acts, pid, o, c);
    HeldByOthers(s, pid, p, Payment(c, o));
    more := PostsAlone(more, pid, p);
    var u := Run(EMPTY, more);
    more := Extend(more, Step(pid, true));
    assert Run(EMPTY, more) == At(u.(orders := SetStatus(u.orders, o, Credited)), pid, Finished(true));
  }

  lemma BeginPaying(acts: seq<Action>, pid: nat, o: nat, c: string) returns (more: seq<Action>)
    requires var s := Run(EMPTY, acts);
             pid !in s.procs && o in s.orders && s.orders[o].status == Pending && s.orders[o].amount > 0
    ensures var s := Run(EMPTY, acts); var order := s.orders[o];
            Run(EMPTY, more) == s.(orders := s.orders[o := order.(status := Paid)],
                                   procs := s.procs[pid := Proc(Confirm(o, c), order.user, order.amount, Lookup)])
  {
    var s := Run(EMPTY, acts);
    var order := s.orders[o];
    more := Extend(acts, Begin(pid, Confirm(o, c)));
    more := Extend(more, Step(pid, true));
    assert Run(EMPTY, more) == s.(procs := s.procs[pid := Proc(Confirm(o, c), order.user, order.amount, MarkPaid)]);
    more := Extend(more, Step(pid, true));
    assert Run(EMPTY, more).procs == s.procs[pid := Proc(Confirm(o, c), order.user, order.amount, Lookup)];
  }

  lemma HeldByOthers(s: State, pid: nat, p: Proc, ref: Ref)
    requires pid !in s.procs && !Holds(p) && !Held(s.procs, ref)
    ensures !Held(s.procs[pid := p], ref)
  {
  }

  /** The posting and the record it is for are in both states, and the same. */
  ghost predicate Kept(s: State, s': State, t: nat) {
    && t in s.postings && t in s'.postings && s'.postings[t] == s.postings[t]
    && var r := s.postings[t].recordId;
       r in s.records && r in s'.records && s'.records[r] == s.records[r]
  }

  /** A posting and its record never change, whatever happens afterwards. */
  lemma {:induction false} PostingIsFinal(acts: seq<Action>, more: seq<Action>, t: nat)
    requires t in Run(EMPTY, acts).postings
    ensures Kept(Run(EMPTY, acts), Run(EMPTY, acts + more), t)
    decreases |more|
  {
    if more == [] {
      assert acts + more == acts;
      RunKeepsPosting(acts, NewOrder(0, 0, 0), t);
    } else {
      var n := |more| - 1;
      PostingIsFinal(acts, more[..n], t);
      assert (acts + more)[..|acts + more| - 1] == acts + more[..n];
      RunKeepsPosting(acts + more[..n], more[n], t);
    }
  }

  lemma RunKeepsPosting(acts: seq<Action>, act: Action, t: nat)
    requires t in Run(EMPTY, acts).postings
    ensures Kept(Run(EMPTY, acts), Next(Run(EMPTY, acts), act), t)
  {
    var s := Run(EMPTY, acts);
    RunKeepsInv(acts);
    if act.Step? && act.pid in s.procs {
      assert ProcOk(s, s.procs[act.pid]);
      PerformKeepsPosting(s, act.pid, act.succeeds, t);
    }
  }

  lemma PerformKeepsPosting(s: State, pid: nat, succeeds: bool, t: nat)
    requires pid in s.procs && HolderOk(s, s.procs[pid]) && Linked(s.records, s.postings) && t in s.postings
    ensures Kept(s, Perform(s, pid, succeeds), t)
  {
  }
}
