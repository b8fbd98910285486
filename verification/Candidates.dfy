/** From key-model rows to the channel that serves a request. */
module Candidates {
  import opened Common
  import opened Scheduler
  import Quota

  /** A joined row of active key model, key and channel. protocol is what protocol matching
      yields for the request's format, absent when nothing matches. */
  datatype Row = Row(
    keyModelId: int, channelId: int, priority: int, weight: int, failures: int,
    keyUsed: int, keyLimit: int, bindingUsed: int, bindingLimit: int,
    protocolsJson: string, protocol: Option<string>)

  /** Neither quota is exhausted, and the channel declares protocols. */
  predicate Available(r: Row) {
    && !(r.keyLimit > 0 && r.keyUsed >= r.keyLimit)
    && !(r.bindingLimit > 0 && r.bindingUsed >= r.bindingLimit)
    && r.protocolsJson != ""
  }

  /** With limits that are not negative a row is available exactly when it declares protocols
      and the smallest charge would still be admitted at both levels. */
  lemma AvailableIffCharges(r: Row)
    requires r.keyLimit >= 0 && r.bindingLimit >= 0
    ensures Available(r) <==>
              && r.protocolsJson != ""
              && Quota.Admits(Quota.Counter(r.keyUsed, r.keyLimit), 1)
              && Quota.Admits(Quota.Counter(r.bindingUsed, r.bindingLimit), 1)
  {
  }

  predicate Servable(r: Row) {
    Available(r) && r.protocol.Some?
  }

  function HealthScore(failures: int): (h: real)
    ensures h >= 20.0 <==> 0 <= failures <= 4
    ensures h >= 50.0 <==> 0 <= failures <= 2
    ensures h >= 80.0 <==> 0 <= failures <= 1
    ensures h == if 0 <= failures <= 4 then 100.0 - 20.0 * failures as real else 10.0
  {
    match failures
    case 0 => 100.0
    case 1 => 80.0
    case 2 => 60.0
    case 3 => 40.0
    case 4 => 20.0
    case _ => 10.0
  }

  function CandidateOf(r: Row): (c: Candidate)
    ensures c.keyModelId == r.keyModelId && c.channelId == r.channelId
    ensures c.priority == r.priority && c.weight == r.weight
    ensures c.health == HealthScore(r.failures)
  {
    Candidate(r.keyModelId, r.channelId, r.priority, r.weight, HealthScore(r.failures))
  }

  /** loadActiveCandidates: the rows with quota left, in order. */
  method LoadActiveCandidates(rows: seq<Row>) returns (out: seq<Row>)
    ensures out == Kept(rows)
  {
    out := [];
    for i := 0 to |rows|
      invariant out == Kept(rows[..i])
    {
      assert rows[..i + 1][..i] == rows[..i];
      var r := rows[i];
      if r.keyLimit > 0 && r.keyUsed >= r.keyLimit { continue; }
      if r.bindingLimit > 0 && r.bindingUsed >= r.bindingLimit { continue; }
      if r.protocolsJson == "" { continue; }
      out := out + [r];
    }
    assert rows[..|rows|] == rows;
  }

  function Kept(rows: seq<Row>): (out: seq<Row>)
    ensures forall r :: r in out <==> r in rows && Available(r)
    ensures |out| <= |rows|
  {
    if rows == [] then []
    else
      var r := rows[|rows| - 1];
      assert rows == rows[..|rows| - 1] + [r];
      Kept(rows[..|rows| - 1]) + if Available(r) then [r] else []
  }

  /** The available rows are kept in order, each as often as it is there. */
  lemma {:induction false} KeptConcat(xs: seq<Row>, ys: seq<Row>)
    ensures Kept(xs + ys) == Kept(xs) + Kept(ys)
  {
    if ys == [] {
      assert xs + ys == xs;
    } else {
      assert (xs + ys)[..|xs + ys| - 1] == xs + ys[..|ys| - 1];
      KeptConcat(xs, ys[..|ys| - 1]);
    }
  }

  lemma KeptOne(r: Row)
    ensures Kept([r]) == if Available(r) then [r] else []
  {
    assert [r][..0] == [];
  }

  /** buildChannelCandidates: one candidate for each row with a matching protocol, in order. */
  method BuildChannelCandidates(rows: seq<Row>) returns (out: seq<Candidate>)
    ensures out == Built(rows)
  {
    out := [];
    for i := 0 to |rows|
      invariant out == Built(rows[..i])
    {
      assert rows[..i + 1][..i] == rows[..i];
      var r := rows[i];
      var score := HealthScore(r.failures);
      if r.protocol.None? { continue; }
      out := out + [Candidate(r.keyModelId, r.channelId, r.priority, r.weight, score)];
    }
    assert rows[..|rows|] == rows;
  }

  function Built(rows: seq<Row>): (out: seq<Candidate>)
    ensures forall r :: r in rows && r.protocol.Some? ==> CandidateOf(r) in out
    ensures forall c :: c in out ==> exists r :: r in rows && r.protocol.Some? && CandidateOf(r) == c
  {
    if rows == [] then []
    else
      var r := rows[|rows| - 1];
      assert rows == rows[..|rows| - 1] + [r];
      Built(rows[..|rows| - 1]) + if r.protocol.Some? then [CandidateOf(r)] else []
  }

  /** So is the order of the candidates, one for each row that matches. */
  lemma {:induction false} BuiltConcat(xs: seq<Row>, ys: seq<Row>)
    ensures Built(xs + ys) == Built(xs) + Built(ys)
  {
    if ys == [] {
      assert xs + ys == xs;
    } else {
      assert (xs + ys)[..|xs + ys| - 1] == xs + ys[..|ys| - 1];
      BuiltConcat(xs, ys[..|ys| - 1]);
    }
  }

  lemma BuiltOne(r: Row)
    ensures Built([r]) == if r.protocol.Some? then [CandidateOf(r)] else []
  {
    assert [r][..0] == [];
  }

  /** The candidates of the preferred channel, or all when it has none. */
  function Preferred(cs: seq<Candidate>, affinity: Option<int>): (out: seq<Candidate>)
    ensures forall c :: c in out ==> c in cs
    ensures out == [] <==> cs == []
    ensures affinity.Some? && (exists c :: c in cs && c.channelId == affinity.value) ==>
              forall c :: c in out <==> c in cs && c.channelId == affinity.value
    ensures !(affinity.Some? && exists c :: c in cs && c.channelId == affinity.value) ==> out == cs
  {
    if affinity.None? then cs
    else
      var own := OnChannel(cs, affinity.value);
      if own == [] then
        assert forall c :: c in cs && c.channelId == affinity.value ==> c in own;
        cs
      else
        assert own[0] in own;
        own
  }

  function OnChannel(cs: seq<Candidate>, channel: int): (out: seq<Candidate>)
    ensures forall c :: c in out <==> c in cs && c.channelId == channel
  {
    if cs == [] then []
    else
      assert cs == cs[..|cs| - 1] + [cs[|cs| - 1]];
      OnChannel(cs[..|cs| - 1], channel) + if cs[|cs| - 1].channelId == channel then [cs[|cs| - 1]] else []
  }

  lemma {:induction false} OnChannelConcat(xs: seq<Candidate>, ys: seq<Candidate>, channel: int)
    ensures OnChannel(xs + ys, channel) == OnChannel(xs, channel) + OnChannel(ys, channel)
  {
    if ys == [] {
      assert xs + ys == xs;
    } else {
      assert (xs + ys)[..|xs + ys| - 1] == xs + ys[..|ys| - 1];
      OnChannelConcat(xs, ys[..|ys| - 1], channel);
    }
  }

  lemma OnChannelOne(c: Candidate, channel: int)
    ensures OnChannel([c], channel) == if c.channelId == channel then [c] else []
  {
    assert [c][..0] == [];
  }

  /** Candidate c comes from a row with quota left at both levels and a usable protocol. */
  ghost predicate Serves(rows: seq<Row>, c: Candidate) {
    exists r :: r in rows && Servable(r) && CandidateOf(r) == c
  }

  /** Steps 5 to 7 of handling a request. Something is picked exactly when some row can serve.
      The pick has quota left at both levels; it is on the preferred channel if that one can
      serve; and no row that competes with it has a higher priority, unless that row has
      failed five times in a row or more and the pick has not. */
  method PickChannel(rows: seq<Row>, affinity: Option<int>, sort: seq<Candidate> -> seq<Candidate>, draw: int -> int)
    returns (picked: Option<Candidate>)
    requires forall s :: IsSortOf(sort(s), s)
    requires forall n: int {:trigger draw(n)} :: n > 0 ==> 0 <= draw(n) < n
    ensures picked.Some? <==> exists r :: r in rows && Servable(r)
    ensures picked.Some? ==> Serves(rows, picked.value)
    ensures picked.Some? && affinity.Some?
            && (exists r :: r in rows && Servable(r) && r.channelId == affinity.value) ==>
              picked.value.channelId == affinity.value
    ensures picked.Some? ==> forall r ::
              r in rows && Servable(r) && r.priority > picked.value.priority
              && (affinity.None? || r.channelId == picked.value.channelId) ==>
                !(0 <= r.failures <= 4) && Healthy(picked.value)
  {
    var active := LoadActiveCandidates(rows);
    var all := BuildChannelCandidates(active);
    forall r | r in rows && Servable(r) ensures CandidateOf(r) in all { assert r in active; }
    forall c | c in all ensures Serves(rows, c) {
      var r :| r in active && r.protocol.Some? && CandidateOf(r) == c;
      assert r in rows && Servable(r);
    }
    if all != [] { assert all[0] in all; }
    var cs := Preferred(all, affinity);
    picked := Select(cs, sort, draw);
    if picked.Some? {
      forall r | r in rows && Servable(r) && r.priority > picked.value.priority && CandidateOf(r) in cs
        ensures !(0 <= r.failures <= 4) && Healthy(picked.value)
      {
        assert !InPlay(cs, CandidateOf(r));
      }
    }
  }
}
