/** Two-level quota counters: every charge conditionally updates the model key and then the
    binding, and charges of different requests interleave between the two updates. */
module Quota {
  import opened Common

  /** limit 0 stands for no limit. */
  datatype Counter = Counter(used: int, limit: int)

  /** A binding belongs to the model key with the given index. */
  datatype Binding = Binding(key: nat, counter: Counter)

  /** A charge whose key update was issued; applied says whether it took effect. */
  datatype Charge = Charge(binding: nat, cost: int, applied: bool)

  datatype State = State(
    keys: seq<Counter>,
    bindings: seq<Binding>,
    open: seq<Charge>,        // charges between their two updates
    ahead: seq<int>,          // per key, cost the key counted and the binding did not
    behind: seq<int>,         // per key, cost the binding counted and the key did not
    refusals: nat)            // updates that were refused or failed

  datatype Action = ChargeKey(binding: nat, cost: int, fails: bool) | ChargeBinding(i: nat, fails: bool)

  /** The condition of the UPDATE statement. */
  predicate Admits(c: Counter, cost: int) {
    c.limit == 0 || c.used + cost <= c.limit
  }

  function Add(c: Counter, cost: int): Counter {
    c.(used := c.used + cost)
  }

  ghost predicate WellFormed(s: State) {
    && |s.ahead| == |s.behind| == |s.keys|
    && (forall b :: 0 <= b < |s.bindings| ==> s.bindings[b].key < |s.keys|)
    && (forall i :: 0 <= i < |s.open| ==> s.open[i].binding < |s.bindings|)
  }

  function Next(s: State, act: Action): State {
    match act
    case ChargeKey(b, cost, fails) =>
      if b >= |s.bindings| || cost <= 0 || s.bindings[b].key >= |s.keys| then s
      else
        var k := s.bindings[b].key;
        if !fails && Admits(s.keys[k], cost) then
          s.(keys := s.keys[k := Add(s.keys[k], cost)], open := s.open + [Charge(b, cost, true)])
        else s.(open := s.open + [Charge(b, cost, false)], refusals := s.refusals + 1)
    case ChargeBinding(i, fails) =>
      if i >= |s.open| || s.open[i].binding >= |s.bindings| then s
      else if s.bindings[s.open[i].binding].key >= |s.ahead| || |s.ahead| != |s.behind| then s
      else
        var c := s.open[i];
        var b := s.bindings[c.binding];
        var t := s.(open := Without(s.open, i));
        if !fails && Admits(b.counter, c.cost) then
          t.(bindings := s.bindings[c.binding := b.(counter := Add(b.counter, c.cost))],
             behind := if c.applied then s.behind else s.behind[b.key := s.behind[b.key] + c.cost])
        else
          t.(ahead := if c.applied then s.ahead[b.key := s.ahead[b.key] + c.cost] else s.ahead,
             refusals := s.refusals + 1)
  }

  // ---------------------------------------------------------------- reference

  function UsedByBindings(bs: seq<Binding>, k: nat): int {
    if bs == [] then 0
    else UsedByBindings(bs[..|bs| - 1], k) + if bs[|bs| - 1].key == k then bs[|bs| - 1].counter.used else 0
  }

  /** Cost of open charges that the key counted already. */
  function HalfDone(cs: seq<Charge>, bs: seq<Binding>, k: nat): int
    requires forall i :: 0 <= i < |cs| ==> cs[i].binding < |bs|
  {
    if cs == [] then 0
    else
      var c := cs[|cs| - 1];
      HalfDone(cs[..|cs| - 1], bs, k) + if c.applied && bs[c.binding].key == k then c.cost else 0
  }

  lemma {:induction false} UsedUpdate(bs: seq<Binding>, b: nat, cost: int, k: nat)
    requires b < |bs|
    ensures UsedByBindings(bs[b := bs[b].(counter := Add(bs[b].counter, cost))], k)
         == UsedByBindings(bs, k) + if bs[b].key == k then cost else 0
  {
    var bs' := bs[b := bs[b].(counter := Add(bs[b].counter, cost))];
    var n := |bs| - 1;
    if b < n {
      UsedUpdate(bs[..n], b, cost, k);
      assert bs'[..n] == bs[..n][b := bs[..n][b].(counter := Add(bs[b].counter, cost))];
    } else {
      assert bs'[..n] == bs[..n];
    }
  }

  lemma {:induction false} HalfDoneConcat(xs: seq<Charge>, ys: seq<Charge>, bs: seq<Binding>, k: nat)
    requires forall i :: 0 <= i < |xs| ==> xs[i].binding < |bs|
    requires forall i :: 0 <= i < |ys| ==> ys[i].binding < |bs|
    ensures HalfDone(xs + ys, bs, k) == HalfDone(xs, bs, k) + HalfDone(ys, bs, k)
  {
    if ys == [] {
      assert xs + ys == xs;
    } else {
      assert (xs + ys)[..|xs + ys| - 1] == xs + ys[..|ys| - 1];
      HalfDoneConcat(xs, ys[..|ys| - 1], bs, k);
    }
  }

  lemma HalfDoneWithout(cs: seq<Charge>, i: nat, bs: seq<Binding>, k: nat)
    requires i < |cs| && forall j :: 0 <= j < |cs| ==> cs[j].binding < |bs|
    ensures forall j :: 0 <= j < |Without(cs, i)| ==> Without(cs, i)[j].binding < |bs|
    ensures HalfDone(Without(cs, i), bs, k)
         == HalfDone(cs, bs, k) - if cs[i].applied && bs[cs[i].binding].key == k then cs[i].cost else 0
  {
    assert cs == cs[..i] + ([cs[i]] + cs[i + 1..]);
    HalfDoneConcat(cs[..i], [cs[i]] + cs[i + 1..], bs, k);
    HalfDoneConcat([cs[i]], cs[i + 1..], bs, k);
    HalfDoneConcat(cs[..i], cs[i + 1..], bs, k);
    assert [cs[i]][..0] == [];
  }

  lemma {:induction false} HalfDoneFrame(cs: seq<Charge>, bs: seq<Binding>, bs': seq<Binding>, k: nat)
    requires forall i :: 0 <= i < |cs| ==> cs[i].binding < |bs|
    requires |bs'| == |bs| && forall b :: 0 <= b < |bs| ==> bs'[b].key == bs[b].key
    ensures HalfDone(cs, bs', k) == HalfDone(cs, bs, k)
  {
    if cs != [] { HalfDoneFrame(cs[..|cs| - 1], bs, bs', k); }
  }

  // ---------------------------------------------------------------- invariant

  predicate Within(c: Counter) {
    c.limit > 0 ==> c.used <= c.limit
  }

  ghost predicate WithinLimits(s: State) {
    && (forall k :: 0 <= k < |s.keys| ==> Within(s.keys[k]))
    && (forall b :: 0 <= b < |s.bindings| ==> Within(s.bindings[b].counter))
  }

  ghost predicate Balanced(s: State, k: nat)
    requires WellFormed(s) && k < |s.keys|
  {
    s.keys[k].used == UsedByBindings(s.bindings, k) + HalfDone(s.open, s.bindings, k) + s.ahead[k] - s.behind[k]
  }

  /** Only refusals and failures make the levels differ. */
  ghost predicate OnlyRefusalsSkew(s: State)
    requires WellFormed(s)
  {
    s.refusals == 0 ==>
      && (forall k :: 0 <= k < |s.keys| ==> s.ahead[k] == 0 && s.behind[k] == 0)
      && (forall i :: 0 <= i < |s.open| ==> s.open[i].applied)
  }

  ghost predicate Inv(s: State) {
    WellFormed(s) && WithinLimits(s) && OnlyRefusalsSkew(s) && forall k :: 0 <= k < |s.keys| ==> Balanced(s, k)
  }

  lemma ChargeKeyKeepsInv(s: State, b: nat, cost: int, fails: bool)
    requires Inv(s)
    ensures Inv(Next(s, ChargeKey(b, cost, fails)))
  {
    var s' := Next(s, ChargeKey(b, cost, fails));
    if s' != s {
      var c := s'.open[|s.open|];
      forall k | 0 <= k < |s.keys| ensures Balanced(s', k) {
        assert Balanced(s, k);
        HalfDoneConcat(s.open, [c], s.bindings, k);
        assert [c][..0] == [];
      }
    }
  }

  lemma ChargeBindingKeepsInv(s: State, i: nat, fails: bool)
    requires Inv(s) && i < |s.open|
    ensures Inv(Next(s, ChargeBinding(i, fails)))
  {
    var c := s.open[i];
    var s' := Next(s, ChargeBinding(i, fails));
    assert WellFormed(s') && WithinLimits(s');
    forall k | 0 <= k < |s.keys| ensures Balanced(s', k) {
      assert Balanced(s, k);
      HalfDoneWithout(s.open, i, s.bindings, k);
      HalfDoneFrame(s'.open, s.bindings, s'.bindings, k);
      UsedUpdate(s.bindings, c.binding, c.cost, k);
    }
  }

  lemma NextKeepsInv(s: State, act: Action)
    requires Inv(s)
    ensures Inv(Next(s, act))
  {
    match act
    case ChargeKey(b, cost, fails) => ChargeKeyKeepsInv(s, b, cost, fails);
    case ChargeBinding(i, fails) => if i < |s.open| { ChargeBindingKeepsInv(s, i, fails); }
  }

  function Run(s: State, acts: seq<Action>): State {
    if acts == [] then s else Next(Run(s, acts[..|acts| - 1]), acts[|acts| - 1])
  }

  /** Tables with counters within their limits that agree across the levels, nothing open. */
  ghost predicate Fresh(s: State) {
    && WellFormed(s) && WithinLimits(s) && s.open == [] && s.refusals == 0
    && forall k :: 0 <= k < |s.keys| ==>
         s.ahead[k] == 0 && s.behind[k] == 0 && s.keys[k].used == UsedByBindings(s.bindings, k)
  }

  lemma {:induction false} RunKeepsInv(s: State, acts: seq<Action>)
    requires Fresh(s)
    ensures Inv(Run(s, acts)) && |Run(s, acts).keys| == |s.keys|
  {
    if acts == [] {
      forall k | 0 <= k < |s.keys| ensures Balanced(s, k) {}
    } else {
      RunKeepsInv(s, acts[..|acts| - 1]);
      NextKeepsInv(Run(s, acts[..|acts| - 1]), acts[|acts| - 1]);
    }
  }

  // ---------------------------------------------------------------- theorems

  /** No interleaving of charges ever takes a counter past its limit, at either level. */
  lemma LimitsHold(s: State, acts: seq<Action>)
    requires Fresh(s)
    ensures var t := Run(s, acts);
            && (forall k :: 0 <= k < |t.keys| && t.keys[k].limit > 0 ==> t.keys[k].used <= t.keys[k].limit)
            && (forall b :: 0 <= b < |t.bindings| && t.bindings[b].counter.limit > 0 ==>
                  t.bindings[b].counter.used <= t.bindings[b].counter.limit)
  {
    RunKeepsInv(s, acts);
  }

  /** A key's counter differs from the sum of its bindings' by exactly the half-done charges
      and by what one level refused and the other did not; so, when nothing was refused or
      failed, by the half-done charges alone. */
  lemma KeyIsSumOfBindings(s: State, acts: seq<Action>, k: nat)
    requires Fresh(s) && k < |s.keys|
    ensures var t := Run(s, acts);
            && WellFormed(t) && k < |t.keys|
            && t.keys[k].used - UsedByBindings(t.bindings, k)
               == HalfDone(t.open, t.bindings, k) + t.ahead[k] - t.behind[k]
            && (t.refusals == 0 ==> t.keys[k].used == UsedByBindings(t.bindings, k) + HalfDone(t.open, t.bindings, k))
            && (t.refusals == 0 && t.open == [] ==> t.keys[k].used == UsedByBindings(t.bindings, k))
  {
    RunKeepsInv(s, acts);
    assert Balanced(Run(s, acts), k);
  }

  // ---------------------------------------------------------------- the procedure

  /** A counter after one conditional update. */
  function Charged(c: Counter, cost: int, fails: bool): (r: Counter)
    ensures r.limit == c.limit && (r.used == c.used || r.used == c.used + cost)
    ensures Within(c) ==> Within(r)
    ensures r.used != c.used && c.limit != 0 ==> r.used <= c.limit
  {
    if !fails && Admits(c, cost) then Add(c, cost) else c
  }

  /** A counter that a charge of the cost fits, in its own terms. */
  predicate Fits(c: Counter, cost: int) {
    c.limit > 0 ==> c.used + cost <= c.limit
  }

  /** A charge is applied exactly when its update goes through and leaves the counter within
      its limit; always, when it has none. */
  lemma AppliedIffFits(c: Counter, cost: int, fails: bool)
    requires c.limit >= 0 && cost > 0
    ensures Charged(c, cost, fails).used == c.used + cost <==> !fails && Fits(c, cost)
    ensures Charged(c, cost, fails).used != c.used + cost ==> Charged(c, cost, fails) == c
  {
  }

  /** Undisturbed, the two steps of a charge update both counters, each on its own condition. */
  lemma UndisturbedCharge(s: State, b: nat, cost: int, keyFails: bool, bindingFails: bool)
    requires WellFormed(s) && s.open == [] && b < |s.bindings| && cost > 0
    ensures var t := Next(Next(s, ChargeKey(b, cost, keyFails)), ChargeBinding(0, bindingFails));
            var k := s.bindings[b].key;
            && t.keys == s.keys[k := Charged(s.keys[k], cost, keyFails)]
            && t.bindings == s.bindings[b := s.bindings[b].(
                               counter := Charged(s.bindings[b].counter, cost, bindingFails))]
            && t.open == []
  {
    var u := Next(s, ChargeKey(b, cost, keyFails));
    assert u.bindings == s.bindings && |u.open| == 1;
    assert Without(u.open, 0) == [];
  }

  class Tables {
    var keys: seq<Counter>
    var bindings: seq<Binding>

    /** updateQuotaSync: both updates are issued, the second whatever became of the first; one
        that finds no row changes nothing. */
    method UpdateQuotaSync(keyId: nat, bindingId: nat, cost: int, keyFails: bool, bindingFails: bool)
      modifies this
      ensures keys == if cost > 0 && keyId < |old(keys)| then
                        old(keys)[keyId := Charged(old(keys)[keyId], cost, keyFails)]
                      else old(keys)
      ensures bindings == if cost > 0 && bindingId < |old(bindings)| then
                            old(bindings)[bindingId := old(bindings)[bindingId].(
                              counter := Charged(old(bindings)[bindingId].counter, cost, bindingFails))]
                          else old(bindings)
      ensures cost > 0 && keyId < |old(keys)| && old(keys)[keyId].limit >= 0 ==>
                keys[keyId].used == old(keys)[keyId].used
                  + if !keyFails && Fits(old(keys)[keyId], cost) then cost else 0
      ensures cost > 0 && bindingId < |old(bindings)| && old(bindings)[bindingId].counter.limit >= 0 ==>
                bindings[bindingId].counter.used == old(bindings)[bindingId].counter.used
                  + if !bindingFails && Fits(old(bindings)[bindingId].counter, cost) then cost else 0
    {
      if cost <= 0 { return; }
      if keyId < |keys| && !keyFails && (keys[keyId].limit == 0 || keys[keyId].used + cost <= keys[keyId].limit) {
        keys := keys[keyId := keys[keyId].(used := keys[keyId].used + cost)];
      }
      if bindingId < |bindings| {
        var c := bindings[bindingId].counter;
        if !bindingFails && (c.limit == 0 || c.used + cost <= c.limit) {
          bindings := bindings[bindingId := bindings[bindingId].(counter := c.(used := c.used + cost))];
        }
      }
    }
  }
}
