/** Settlement records and the ledger transactions that settle them, one call at a time with
    any failures of the database. */
module Settlements {
  import opened Ledger
  import opened LedgerTheorems

  datatype Result<T> = Ok(value: T) | Err

  datatype Status = Pending | Settled | Failed

  datatype Ref = Ref(refType: string, refId: int)

  datatype Request = Request(ref: Ref, consumer: int, provider: int, cost: int, revenue: int, commission: int)

  /** A row of settlement_records; its id is its index. txId 0 stands for no transaction,
      other values number the ledger transactions from 1. */
  datatype Record = Record(request: Request, status: Status, txId: nat, pointsToConsumer: int, pointsToProvider: int)

  datatype Transaction = Transaction(recordId: nat, post: Post)

  // ---------------------------------------------------------------- entries

  function User(id: int, asset: string): Account {
    Account("user", id, asset)
  }

  const PLATFORM := Account("platform", 0, CREDITS)

  function CreditSides(r: Request): seq<Delta> {
    [Delta(User(r.consumer, CREDITS), -r.cost),
     Delta(User(r.provider, CREDITS), r.revenue),
     Delta(PLATFORM, r.commission)]
  }

  /** What settling a record moves on a credits account, also when consumer and provider are
      one. */
  function SettleMoves(r: Request, a: Account): int {
    (if a == User(r.consumer, CREDITS) then -r.cost else 0)
    + (if a == User(r.provider, CREDITS) then r.revenue else 0)
    + (if a == PLATFORM then r.commission else 0)
  }

  /** What settling a record issues on a points account. */
  function PointsIssued(r: Request, toConsumer: int, toProvider: int, a: Account): int {
    (if a == User(r.consumer, "points") then toConsumer else 0)
    + (if a == User(r.provider, "points") then toProvider else 0)
  }

  /** Consumer pays the cost; provider and platform get revenue and commission; points are
      issued on top. */
  function Entries(r: Request, toConsumer: int, toProvider: int): seq<Delta> {
    CreditSides(r)
    + (if toConsumer != 0 then [Delta(User(r.consumer, "points"), toConsumer)] else [])
    + (if toProvider != 0 then [Delta(User(r.provider, "points"), toProvider)] else [])
  }

  lemma CreditSumSnoc(ds: seq<Delta>, d: Delta)
    ensures CreditSum(ds + [d]) == CreditSum(ds) + if d.acct.asset == CREDITS then d.amount else 0
    ensures forall a :: Moved(ds + [d], a) == Moved(ds, a) + if d.acct == a then d.amount else 0
  {
    assert (ds + [d])[..|ds|] == ds;
  }

  lemma ThreeSides(r: Request)
    ensures CreditSum(CreditSides(r)) == r.revenue + r.commission - r.cost
    ensures forall a :: Moved(CreditSides(r), a) == SettleMoves(r, a)
  {
    var ds := CreditSides(r);
    var d0, d1, d2 := ds[0], ds[1], ds[2];
    CreditSumSnoc([], d0);
    CreditSumSnoc([d0], d1);
    CreditSumSnoc([d0, d1], d2);
    assert [] + [d0] == [d0] && [d0] + [d1] == [d0, d1] && [d0, d1] + [d2] == [d0, d1, d2];
  }

  /** The posting for a record passes the zero-sum check exactly when revenue and commission
      make up the cost, whatever points are issued; and of credits it moves the cost out of
      the consumer, the revenue into the provider and the commission into the platform, also
      when consumer and provider are one. */
  lemma EntriesBalance(r: Request, toConsumer: int, toProvider: int)
    ensures Accepts(Post(Settle, Entries(r, toConsumer, toProvider))) <==> r.cost == r.revenue + r.commission
    ensures forall a: Account :: a.asset == CREDITS ==>
              Moved(Entries(r, toConsumer, toProvider), a) == SettleMoves(r, a)
    ensures forall a: Account :: a.asset != CREDITS ==>
              Moved(Entries(r, toConsumer, toProvider), a) == PointsIssued(r, toConsumer, toProvider, a)
  {
    ThreeSides(r);
    var ds := CreditSides(r);
    var d, e := Delta(User(r.consumer, "points"), toConsumer), Delta(User(r.provider, "points"), toProvider);
    assert ds + [] == ds && (ds + [d]) + [] == ds + [d];
    CreditSumSnoc(ds, d);
    CreditSumSnoc(ds, e);
    CreditSumSnoc(ds + [d], e);
  }

  // ---------------------------------------------------------------- invariant

  ghost predicate DistinctRefs(records: seq<Record>) {
    forall i, j :: 0 <= i < j < |records| ==> records[i].request.ref != records[j].request.ref
  }

  /** The transaction with the given id, if it is one, refers to the record. */
  predicate PointsBack(txs: seq<Transaction>, txId: nat, id: nat) {
    txId != 0 ==> txId <= |txs| && txs[txId - 1].recordId == id
  }

  /** References are unique, and settled records and transactions point at each other. */
  ghost predicate Consistent(records: seq<Record>, txs: seq<Transaction>) {
    && DistinctRefs(records)
    && (forall i :: 0 <= i < |records| ==> (records[i].status == Settled <==> records[i].txId != 0))
    && (forall i {:trigger PointsBack(txs, records[i].txId, i)} :: 0 <= i < |records| ==>
          PointsBack(txs, records[i].txId, i))
    && (forall t :: 0 <= t < |txs| ==> txs[t].recordId < |records| && records[txs[t].recordId].txId == t + 1)
    && (forall t :: 0 <= t < |txs| ==> Accepts(txs[t].post))
  }

  /** The number of ledger transactions that refer to a record. */
  function References(txs: seq<Transaction>, id: nat): nat {
    if txs == [] then 0 else References(txs[..|txs| - 1], id) + if txs[|txs| - 1].recordId == id then 1 else 0
  }

  lemma {:induction false} ReferencesUpTo(records: seq<Record>, txs: seq<Transaction>, n: nat, id: nat)
    requires Consistent(records, txs) && n <= |txs| && id < |records|
    ensures References(txs[..n], id) == if 0 < records[id].txId <= n then 1 else 0
  {
    if n > 0 {
      ReferencesUpTo(records, txs, n - 1, id);
      assert txs[..n][..n - 1] == txs[..n - 1];
      assert PointsBack(txs, records[id].txId, id);
    }
  }

  /** A record is settled exactly when one ledger transaction refers to it; otherwise none
      does. */
  lemma SettledIffOneTransaction(records: seq<Record>, txs: seq<Transaction>, id: nat)
    requires Consistent(records, txs) && id < |records|
    ensures References(txs, id) == if records[id].status == Settled then 1 else 0
  {
    ReferencesUpTo(records, txs, |txs|, id);
    assert txs[..|txs|] == txs;
    assert PointsBack(txs, records[id].txId, id);
  }

  lemma AppendPending(records: seq<Record>, txs: seq<Transaction>, r: Request)
    requires Consistent(records, txs) && forall i :: 0 <= i < |records| ==> records[i].request.ref != r.ref
    ensures Consistent(records + [Record(r, Pending, 0, 0, 0)], txs)
  {
    var records' := records + [Record(r, Pending, 0, 0, 0)];
    forall i | 0 <= i < |records'| ensures PointsBack(txs, records'[i].txId, i) {
      if i < |records| { assert PointsBack(txs, records[i].txId, i); }
    }
  }

  lemma SettleOne(records: seq<Record>, txs: seq<Transaction>, id: nat, r: Record, post: Post)
    requires Consistent(records, txs) && id < |records| && records[id].txId == 0 && Accepts(post)
    requires r.request == records[id].request && r.status == Settled && r.txId == |txs| + 1
    ensures Consistent(records[id := r], txs + [Transaction(id, post)])
  {
    var records', txs' := records[id := r], txs + [Transaction(id, post)];
    forall i | 0 <= i < |records'| ensures PointsBack(txs', records'[i].txId, i) {
      assert PointsBack(txs, records[i].txId, i);
    }
  }

  lemma AppendSettled(records: seq<Record>, txs: seq<Transaction>, r: Record, post: Post)
    requires Consistent(records, txs) && Accepts(post)
    requires forall i :: 0 <= i < |records| ==> records[i].request.ref != r.request.ref
    requires r.status == Settled && r.txId == |txs| + 1
    ensures Consistent(records + [r], txs + [Transaction(|records|, post)])
  {
    var pending := Record(r.request, Pending, 0, 0, 0);
    AppendPending(records, txs, r.request);
    SettleOne(records + [pending], txs, |records|, r, post);
    assert (records + [pending])[|records| := r] == records + [r];
  }

  lemma FailOne(records: seq<Record>, txs: seq<Transaction>, id: nat)
    requires Consistent(records, txs) && id < |records| && records[id].status != Settled
    ensures Consistent(records[id := records[id].(status := Failed)], txs)
  {
    SameLinks(records, records[id := records[id].(status := Failed)], txs);
  }

  /** Consistency is about references, transactions and what is settled only. */
  lemma SameLinks(records: seq<Record>, records': seq<Record>, txs: seq<Transaction>)
    requires Consistent(records, txs) && |records'| == |records|
    requires forall i {:trigger records'[i]} :: 0 <= i < |records| ==>
               records'[i].request == records[i].request && records'[i].txId == records[i].txId
               && (records'[i].status == Settled <==> records[i].status == Settled)
    ensures Consistent(records', txs)
  {
    forall i | 0 <= i < |records| ensures PointsBack(txs, records'[i].txId, i) {
      assert PointsBack(txs, records[i].txId, i);
    }
  }

  /** The record with a reference, if there is one. */
  function RecordOf(records: seq<Record>, ref: Ref): (found: Result<nat>)
    ensures found.Ok? ==> found.value < |records| && records[found.value].request.ref == ref
    ensures found.Err? ==> forall i :: 0 <= i < |records| ==> records[i].request.ref != ref
  {
    if records == [] then Err
    else if records[|records| - 1].request.ref == ref then Ok(|records| - 1)
    else RecordOf(records[..|records| - 1], ref)
  }

  lemma RecordOfIsUnique(records: seq<Record>, i: nat)
    requires DistinctRefs(records) && i < |records|
    ensures RecordOf(records, records[i].request.ref) == Ok(i)
  {
    var found := RecordOf(records, records[i].request.ref);
    assert found.Ok?;
  }

  class Store {
    var records: seq<Record>
    var txs: seq<Transaction>

    ghost predicate Valid()
      reads this
    {
      Consistent(records, txs)
    }

    constructor ()
      ensures Valid() && records == [] && txs == []
    {
      records, txs := [], [];
    }

    /** getRecordByRef. */
    method FindByRef(ref: Ref) returns (found: Result<nat>)
      requires Valid()
      ensures found == RecordOf(records, ref)
    {
      for i := 0 to |records|
        invariant forall j :: 0 <= j < i ==> records[j].request.ref != ref
      {
        if records[i].request.ref == ref {
          RecordOfIsUnique(records, i);
          return Ok(i);
        }
      }
      return Err;
    }

    /** Submit: a new pending record, or the existing one with the same reference. */
    method Submit(r: Request, insertFails: bool) returns (id: Result<nat>)
      requires Valid()
      modifies this`records
      ensures Valid()
      ensures RecordOf(old(records), r.ref).Ok? ==> id == RecordOf(old(records), r.ref) && records == old(records)
      ensures RecordOf(old(records), r.ref).Err? && insertFails ==> id.Err? && records == old(records)
      ensures RecordOf(old(records), r.ref).Err? && !insertFails ==>
                id == Ok(|old(records)|) && records == old(records) + [Record(r, Pending, 0, 0, 0)]
    {
      id := FindByRef(r.ref);
      if insertFails || id.Ok? { return; }
      AppendPending(records, txs, r);
      id := Ok(|records|);
      records := records + [Record(r, Pending, 0, 0, 0)];
    }

    /** Settle: a settled record returns its transaction and moves nothing; another is posted
        and marked in one transaction, which can succeed exactly when its amounts balance; a
        failure leaves the ledger alone and the record open to another attempt. */
    method Settle(id: nat, pointsPerConsumerCredit: int, pointsPerProviderCredit: int, postFails: bool, markFails: bool)
      returns (tx: Result<nat>)
      requires Valid()
      modifies this
      ensures Valid()
      ensures id >= |old(records)| ==> tx.Err? && records == old(records) && txs == old(txs)
      ensures id < |old(records)| && old(records)[id].status == Settled ==>
                tx == Ok(old(records)[id].txId) && records == old(records) && txs == old(txs)
      ensures Open(old(records), id) && (postFails || !Balances(old(records)[id].request)) ==>
                tx.Err? && txs == old(txs)
                && records == if markFails then old(records)
                              else old(records)[id := old(records)[id].(status := Failed)]
      ensures Open(old(records), id) && !postFails && Balances(old(records)[id].request) ==>
                tx == Ok(|txs|) && |txs| == |old(txs)| + 1 && txs[..|old(txs)|] == old(txs)
                && SettledBy(old(records)[id].request, id, records, txs,
                             pointsPerConsumerCredit, pointsPerProviderCredit)
                && records[id].pointsToConsumer == old(records)[id].request.cost * pointsPerConsumerCredit
                && records[id].pointsToProvider == old(records)[id].request.revenue * pointsPerProviderCredit
                && records == old(records)[id := records[id]]
    {
      if id >= |records| { return Err; }
      var rec := records[id];
      if rec.status == Settled { return Ok(rec.txId); }
      var toConsumer := rec.request.cost * pointsPerConsumerCredit;
      var toProvider := rec.request.revenue * pointsPerProviderCredit;
      var entries := BuildEntries(rec.request, toConsumer, toProvider);
      var post := Post(Ledger.Settle, entries);
      EntriesBalance(rec.request, toConsumer, toProvider);
      if !Accepts(post) || postFails {
        if !markFails {
          FailOne(records, txs, id);
          records := records[id := rec.(status := Failed)];
        }
        return Err;
      }
      var settled := Record(rec.request, Settled, |txs| + 1, toConsumer, toProvider);
      SettleOne(records, txs, id, settled, post);
      txs := txs + [Transaction(id, post)];
      records := records[id := settled];
      tx := Ok(|txs|);
    }

    method BuildEntries(r: Request, toConsumer: int, toProvider: int) returns (entries: seq<Delta>)
      ensures entries == Entries(r, toConsumer, toProvider)
    {
      entries := [Delta(User(r.consumer, CREDITS), -r.cost),
                  Delta(User(r.provider, CREDITS), r.revenue),
                  Delta(PLATFORM, r.commission)];
      if toConsumer != 0 {
        entries := entries + [Delta(User(r.consumer, "points"), toConsumer)];
      }
      if toProvider != 0 {
        entries := entries + [Delta(User(r.provider, "points"), toProvider)];
      }
    }

    /** SubmitAndSettle: repeating it for a settled reference returns the stored transaction
        and changes nothing. */
    method SubmitAndSettle(r: Request, pointsPerConsumerCredit: int, pointsPerProviderCredit: int,
                           insertFails: bool, postFails: bool, markFails: bool)
      returns (tx: Result<nat>)
      requires Valid()
      modifies this
      ensures Valid()
      ensures var found := RecordOf(old(records), r.ref);
              var id := if found.Ok? then found.value else |old(records)|;
              var request := if found.Ok? then old(records)[found.value].request else r;
              var settled := found.Ok? && old(records)[found.value].status == Settled;
              && (tx.Ok? <==> settled || ((found.Ok? || !insertFails) && !postFails && Balances(request)))
              && (tx.Err? ==> txs == old(txs))
              && (tx.Ok? && !settled ==>
                    tx.value == |txs| == |old(txs)| + 1 && txs[..|old(txs)|] == old(txs)
                    && SettledBy(request, id, records, txs, pointsPerConsumerCredit, pointsPerProviderCredit))
      ensures var found := RecordOf(old(records), r.ref);
              found.Ok? && old(records)[found.value].status == Settled ==>
                tx == Ok(old(records)[found.value].txId) && records == old(records) && txs == old(txs)
    {
      var id := Submit(r, insertFails);
      if id.Err? { return Err; }
      tx := Settle(id.value, pointsPerConsumerCredit, pointsPerProviderCredit, postFails, markFails);
    }

    /** CreateRecharge: inserts a settled record and its posting together, once per reference. */
    method CreateRecharge(ref: Ref, user: int, amount: int, insertFails: bool, postFails: bool)
      returns (tx: Result<nat>)
      requires Valid()
      modifies this
      ensures Valid()
      ensures var found := RecordOf(old(records), ref);
              if found.Ok? then
                records == old(records) && txs == old(txs)
                && tx == if old(records)[found.value].txId != 0 then Ok(old(records)[found.value].txId) else Err
              else if insertFails || postFails then
                records == old(records) && txs == old(txs) && tx.Err?
              else
                && tx == Ok(|txs|)
                && txs == old(txs) + [Transaction(|old(records)|, RechargePost(user, amount))]
                && records == old(records) + [Record(Request(ref, user, 0, 0, 0, 0), Settled, |old(txs)| + 1, 0, 0)]
    {
      var existing := FindByRef(ref);
      if existing.Ok? {
        var rec := records[existing.value];
        if rec.txId != 0 { return Ok(rec.txId); }
        return Err;
      }
      if insertFails || postFails { return Err; }
      var settled := Record(Request(ref, user, 0, 0, 0, 0), Settled, |txs| + 1, 0, 0);
      AppendSettled(records, txs, settled, RechargePost(user, amount));
      txs := txs + [Transaction(|records|, RechargePost(user, amount))];
      records := records + [settled];
      tx := Ok(|txs|);
    }
  }

  /** There is a record and it is not settled. */
  predicate Open(records: seq<Record>, id: nat) {
    id < |records| && records[id].status != Settled
  }

  predicate Balances(r: Request) {
    r.cost == r.revenue + r.commission
  }

  function RechargePost(user: int, amount: int): Post {
    Post(Recharge, [Delta(User(user, CREDITS), amount)])
  }

  /** The record is settled by the newest transaction, which posts its amounts and points. */
  ghost predicate SettledBy(r: Request, id: nat, records: seq<Record>, txs: seq<Transaction>,
                            perConsumer: int, perProvider: int)
  {
    var pc, pp := r.cost * perConsumer, r.revenue * perProvider;
    && id < |records| && txs != []
    && records[id] == Record(r, Settled, |txs|, pc, pp)
    && txs[|txs| - 1] == Transaction(id, Post(Ledger.Settle, Entries(r, pc, pp)))
  }
}
