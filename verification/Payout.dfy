/** Delayed provider payout: scans that credit and mark expired pending settlement records. */
module Payout {

  const SETTLEMENT_CYCLE_DAYS := 7

  datatype Status = Pending | Settled

  /** A settlement record; its id is its index in the table. Times are in days. */
  datatype Record = Record(provider: int, revenue: int, settleAt: int, status: Status)

  /** An earnings credit made for a settlement record. */
  datatype Credit = Credit(recordId: nat, provider: int, amount: int)

  /** What the database does with the credit and the mark of one row in one scan. */
  datatype Fault = Fault(creditFails: bool, markFails: bool)

  predicate Expired(r: Record, now: int) {
    r.status == Pending && r.settleAt <= now
  }

  predicate Credited(r: Record, f: Fault) {
    r.revenue > 0 && !f.creditFails
  }

  /** A pending record after its row of a scan: settled unless the credit or the mark failed. */
  function Outcome(r: Record, f: Fault): Record {
    if (r.revenue > 0 && f.creditFails) || f.markFails then r else r.(status := Settled)
  }

  /** A row is settled exactly when it is marked, after its credit if it has revenue; nothing
      else of it changes. */
  lemma OutcomeSettlesIff(r: Record, f: Fault)
    ensures var o := Outcome(r, f);
            && o == r.(status := o.status)
            && (o.status == Settled <==> r.status == Settled || (!f.markFails && (r.revenue > 0 ==> !f.creditFails)))
  {
  }

  /** The marks that fail in a pending record's row of a scan. */
  function FailedMarks(r: Record, f: Fault): nat {
    if !(r.revenue > 0 && f.creditFails) && f.markFails then 1 else 0
  }

  // ---------------------------------------------------------------- reference

  /** How many times a record has been credited. */
  function TimesPaid(cs: seq<Credit>, id: nat): nat {
    if cs == [] then 0 else TimesPaid(cs[..|cs| - 1], id) + if cs[|cs| - 1].recordId == id then 1 else 0
  }

  function PaidTo(cs: seq<Credit>, provider: int): int {
    if cs == [] then 0
    else PaidTo(cs[..|cs| - 1], provider) + if cs[|cs| - 1].provider == provider then cs[|cs| - 1].amount else 0
  }

  /** Payments a record has caused: one if settled, and one for every mark that failed. */
  function Payments(r: Record, failedMarks: nat): nat {
    failedMarks + if r.status == Settled then 1 else 0
  }

  function Owed(r: Record, failedMarks: nat, provider: int): int {
    if r.provider == provider && r.revenue > 0 then r.revenue * Payments(r, failedMarks) else 0
  }

  /** The sum of revenue times payments over the provider's records. */
  function TotalOwed(rs: seq<Record>, fails: seq<nat>, provider: int): int
    requires |rs| == |fails|
  {
    if rs == [] then 0
    else TotalOwed(rs[..|rs| - 1], fails[..|rs| - 1], provider) + Owed(rs[|rs| - 1], fails[|rs| - 1], provider)
  }

  lemma {:induction false} TotalOwedUpdate(rs: seq<Record>, fails: seq<nat>, i: nat, r: Record, f: nat, provider: int)
    requires i < |rs| == |fails|
    ensures TotalOwed(rs[i := r], fails[i := f], provider)
         == TotalOwed(rs, fails, provider) - Owed(rs[i], fails[i], provider) + Owed(r, f, provider)
  {
    var n := |rs| - 1;
    if i < n {
      TotalOwedUpdate(rs[..n], fails[..n], i, r, f, provider);
      assert rs[i := r][..n] == rs[..n][i := r] && fails[i := f][..n] == fails[..n][i := f];
    } else {
      assert rs[i := r][..n] == rs[..n] && fails[i := f][..n] == fails[..n];
    }
  }

  lemma CreditSnoc(cs: seq<Credit>, c: Credit)
    ensures forall id: nat :: TimesPaid(cs + [c], id) == TimesPaid(cs, id) + if c.recordId == id then 1 else 0
    ensures forall p: int :: PaidTo(cs + [c], p) == PaidTo(cs, p) + if c.provider == p then c.amount else 0
  {
    assert (cs + [c])[..|cs|] == cs;
  }

  lemma OwedOnce(r: Record, f: nat, r': Record, f': nat, p: int)
    requires r'.provider == r.provider && r'.revenue == r.revenue && Payments(r', f') == Payments(r, f) + 1
    ensures Owed(r', f', p) == Owed(r, f, p) + if r.provider == p && r.revenue > 0 then r.revenue else 0
  {
    assert r.revenue * (Payments(r, f) + 1) == r.revenue * Payments(r, f) + r.revenue;
  }

  // ---------------------------------------------------------------- the table and its scans

  ghost predicate RecordsPaid(rs: seq<Record>, fails: seq<nat>, cs: seq<Credit>)
    requires |rs| == |fails|
  {
    && (forall id :: 0 <= id < |rs| ==>
          TimesPaid(cs, id) == if rs[id].revenue > 0 then Payments(rs[id], fails[id]) else 0)
    && (forall id: nat :: id >= |rs| ==> TimesPaid(cs, id) == 0)
  }

  ghost predicate ProvidersPaid(rs: seq<Record>, fails: seq<nat>, cs: seq<Credit>)
    requires |rs| == |fails|
  {
    forall p :: PaidTo(cs, p) == TotalOwed(rs, fails, p)
  }

  /** A pending row that is credited, if it has revenue, and then counts one more payment. */
  lemma OneMorePayment(rs: seq<Record>, fails: seq<nat>, cs: seq<Credit>, id: nat, r: Record, f: nat)
    requires |rs| == |fails| && id < |rs| && RecordsPaid(rs, fails, cs) && ProvidersPaid(rs, fails, cs)
    requires r.provider == rs[id].provider && r.revenue == rs[id].revenue
    requires Payments(r, f) == Payments(rs[id], fails[id]) + 1
    ensures var cs' := if r.revenue > 0 then cs + [Credit(id, r.provider, r.revenue)] else cs;
            RecordsPaid(rs[id := r], fails[id := f], cs') && ProvidersPaid(rs[id := r], fails[id := f], cs')
  {
    var c := Credit(id, r.provider, r.revenue);
    var cs' := if r.revenue > 0 then cs + [c] else cs;
    CreditSnoc(cs, c);
    forall p ensures PaidTo(cs', p) == TotalOwed(rs[id := r], fails[id := f], p) {
      TotalOwedUpdate(rs, fails, id, r, f, p);
      OwedOnce(rs[id], fails[id], r, f, p);
    }
  }

  class Settlements {
    var records: seq<Record>
    var credits: seq<Credit>
    ghost var fails: seq<nat>     // for each record, the marks that failed

    /** Every record was paid once for being settled and once for every failed mark, if it has
        revenue to pay, and so was every provider. */
    ghost predicate Valid()
      reads this
    {
      |fails| == |records| && RecordsPaid(records, fails, credits) && ProvidersPaid(records, fails, credits)
    }

    constructor ()
      ensures Valid() && records == [] && credits == [] && fails == []
    {
      records, credits, fails := [], [], [];
    }

    /** The record of a request settled at the given day. */
    method Insert(provider: int, revenue: int, today: int)
      requires Valid()
      modifies this
      ensures Valid() && credits == old(credits) && fails == old(fails) + [0]
      ensures records == old(records) + [Record(provider, revenue, today + 7, Pending)]
    {
      records := records + [Record(provider, revenue, today + SETTLEMENT_CYCLE_DAYS, Pending)];
      fails := fails + [0];
      assert records[..|records| - 1] == old(records) && fails[..|records| - 1] == old(fails);
    }

    /** One row of a scan: credit, then mark. */
    method PayRow(id: nat, fault: Fault) returns (settled: bool)
      requires Valid() && id < |records| && records[id].status == Pending
      modifies this
      ensures Valid()
      ensures records == old(records)[id := Outcome(old(records)[id], fault)]
      ensures settled == (records[id].status == Settled)
      ensures credits == old(credits)
                + if Credited(old(records)[id], fault) then
                    [Credit(id, records[id].provider, records[id].revenue)]
                  else []
      ensures fails == old(fails)[id := old(fails)[id] + FailedMarks(old(records)[id], fault)]
      ensures forall k: nat :: k != id ==> TimesPaid(credits, k) == TimesPaid(old(credits), k)
    {
      var row := records[id];
      settled := false;
      if row.revenue > 0 && fault.creditFails { return; }
      ghost var cs := credits;
      if row.revenue > 0 {
        CreditSnoc(credits, Credit(id, row.provider, row.revenue));
        credits := credits + [Credit(id, row.provider, row.revenue)];
      }
      if fault.markFails {
        OneMorePayment(records, fails, cs, id, row, fails[id] + 1);
        assert records[id := row] == records;
        fails := fails[id := fails[id] + 1];
        return;
      }
      OneMorePayment(records, fails, cs, id, row.(status := Settled), fails[id]);
      assert fails[id := fails[id]] == fails;
      records := records[id := row.(status := Settled)];
      settled := true;
    }

    /** ProcessSettlements: rows is what the query for expired pending records returns, in
        whatever order. Only those are touched: no record before its time, none that is
        settled. A record leaves the scan settled or as it was. */
    method ProcessSettlements(now: int, rows: seq<nat>, faults: nat -> Fault) returns (settled: nat)
      requires Valid()
      requires forall i, j :: 0 <= i < j < |rows| ==> rows[i] != rows[j]
      requires forall id: nat :: id in rows <==> id < |records| && Expired(records[id], now)
      modifies this
      ensures Valid() && |records| == |old(records)|
      ensures settled == |set id | id in rows && records[id].status == Settled|
      ensures forall id: nat :: id < |records| ==>
                if old(records)[id].status == Pending && old(records)[id].settleAt <= now then
                  Scanned(old(records)[id], old(fails)[id], faults(id), records[id], fails[id])
                else
                  records[id] == old(records)[id] && fails[id] == old(fails)[id]
                  && TimesPaid(credits, id) == TimesPaid(old(credits), id)
    {
      settled := 0;
      ghost var done: set<nat> := {};
      for i := 0 to |rows|
        invariant Valid() && |records| == |old(records)|
        invariant done == set k | 0 <= k < i :: rows[k]
        invariant settled == |Marked(done, records)|
        invariant forall id: nat :: id < |records| && id in done ==>
                    Scanned(old(records)[id], old(fails)[id], faults(id), records[id], fails[id])
        invariant forall id: nat :: id < |records| && id !in done ==>
                    records[id] == old(records)[id] && fails[id] == old(fails)[id]
                    && TimesPaid(credits, id) == TimesPaid(old(credits), id)
      {
        var id := rows[i];
        assert id in rows && id !in done;
        ghost var before := records;
        var paid := PayRow(id, faults(id));
        MarkedGrows(done, id, before, records);
        done := done + {id};
        if paid { settled := settled + 1; }
      }
      AllMarked(rows, records);
    }
  }

  /** What one row of a scan makes of a record and its count of failed marks. */
  ghost predicate Scanned(r: Record, f: nat, fault: Fault, r': Record, f': nat) {
    r' == Outcome(r, fault) && f' == f + FailedMarks(r, fault)
  }

  lemma AllMarked(rows: seq<nat>, rs: seq<Record>)
    requires forall id :: id in rows ==> id < |rs|
    ensures Marked(set k | 0 <= k < |rows| :: rows[k], rs) == set id | id in rows && rs[id].status == Settled
  {
    var done := set k | 0 <= k < |rows| :: rows[k];
    assert forall id :: id in rows <==> id in done;
  }

  /** The records among the given ones that are settled. */
  function Marked(ids: set<nat>, rs: seq<Record>): set<nat> {
    set id | id in ids && id < |rs| && rs[id].status == Settled
  }

  lemma MarkedGrows(ids: set<nat>, id: nat, before: seq<Record>, after: seq<Record>)
    requires id !in ids && id < |before| == |after|
    requires forall k :: 0 <= k < |before| && k != id ==> after[k] == before[k]
    ensures |Marked(ids + {id}, after)| == |Marked(ids, before)| + if after[id].status == Settled then 1 else 0
  {
    assert Marked(ids + {id}, after) == Marked(ids, before) + if after[id].status == Settled then {id} else {};
  }

  /** n scans that credit the row and fail to mark it, then one that succeeds: the record is
      paid n times too often. */
  method RescanRow(table: Settlements, id: nat, n: nat)
    requires table.Valid() && id < |table.records|
    requires table.records[id].status == Pending && table.records[id].revenue > 0
    modifies table
    ensures table.Valid() && table.records == old(table.records)[id := old(table.records)[id].(status := Settled)]
    ensures TimesPaid(table.credits, id) == old(TimesPaid(table.credits, id)) + n + 1
    ensures table.fails == old(table.fails)[id := old(table.fails)[id] + n]
  {
    for i := 0 to n
      invariant table.Valid() && table.records == old(table.records)
      invariant table.fails == old(table.fails)[id := old(table.fails)[id] + i]
    {
      var settled := table.PayRow(id, Fault(false, true));
      assert table.records == old(table.records);
    }
    var settled := table.PayRow(id, Fault(false, false));
  }

  lemma {:induction false} OwedAtLeastSettled(rs: seq<Record>, fails: seq<nat>, provider: int)
    requires |rs| == |fails|
    ensures TotalOwed(rs, fails, provider) >= SettledRevenue(rs, provider)
    ensures TotalOwed(rs, fails, provider) == SettledRevenue(rs, provider) <==> MarksSucceeded(rs, fails, provider)
  {
    if rs != [] {
      var n := |rs| - 1;
      var r, f := rs[n], fails[n];
      OwedAtLeastSettled(rs[..n], fails[..n], provider);
      if r.provider == provider && r.revenue > 0 {
        assert r.revenue * Payments(r, f) == r.revenue * f + if r.status == Settled then r.revenue else 0;
        assert r.revenue * f >= 0 && (r.revenue * f == 0 <==> f == 0);
      }
      assert MarksSucceeded(rs, fails, provider) <==>
        MarksSucceeded(rs[..n], fails[..n], provider) && (r.provider == provider && r.revenue > 0 ==> f == 0);
    }
  }

  /** No mark failed on a record the provider has revenue from. */
  ghost predicate MarksSucceeded(rs: seq<Record>, fails: seq<nat>, provider: int)
    requires |rs| == |fails|
  {
    forall i :: 0 <= i < |rs| && rs[i].provider == provider && rs[i].revenue > 0 ==> fails[i] == 0
  }

  /** A provider's credits are exactly the revenue of its settled records when, and only when,
      no mark ever failed on a record it has revenue from; otherwise they are more. */
  lemma PaidExactlyWhenMarksSucceed(rs: seq<Record>, fails: seq<nat>, cs: seq<Credit>, provider: int)
    requires |rs| == |fails| && ProvidersPaid(rs, fails, cs)
    ensures PaidTo(cs, provider) >= SettledRevenue(rs, provider)
    ensures PaidTo(cs, provider) == SettledRevenue(rs, provider) <==> MarksSucceeded(rs, fails, provider)
  {
    OwedAtLeastSettled(rs, fails, provider);
  }

  function SettledRevenue(rs: seq<Record>, provider: int): int {
    if rs == [] then 0
    else
      var r := rs[|rs| - 1];
      SettledRevenue(rs[..|rs| - 1], provider)
      + if r.provider == provider && r.status == Settled && r.revenue > 0 then r.revenue else 0
  }
}
