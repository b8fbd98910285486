/** Channel selection: health filter, highest priority, weighted random choice. */
module Scheduler {
  import opened Common

  datatype Candidate = Candidate(keyModelId: int, channelId: int, priority: int, weight: int, health: real)

  // ---------------------------------------------------------------- weights

  /** The weight a candidate is drawn with: at least 1, halved below health 80 and quartered
      below 50, rounding down. */
  function DegradedWeight(c: Candidate): (w: nat) {
    var base := if c.weight <= 0 then 1 else c.weight;
    if c.health >= 80.0 then base else if c.health >= 50.0 then base / 2 else base / 4
  }

  /** Of candidates of one configured weight a healthier one is never drawn less often; health
      80 keeps the weight, 50 half of it, less a quarter, and no weight counts as 1. */
  lemma HealthKeepsWeight(c: Candidate, d: Candidate)
    requires c.weight == d.weight
    ensures c.health <= d.health ==> DegradedWeight(c) <= DegradedWeight(d)
    ensures var w: nat := if c.weight <= 0 then 1 else c.weight;
            && (c.health >= 80.0 ==> DegradedWeight(c) == w)
            && (50.0 <= c.health < 80.0 ==> w - 1 <= 2 * DegradedWeight(c) <= w)
            && (c.health < 50.0 ==> w - 3 <= 4 * DegradedWeight(c) <= w)
  {
  }

  function Weights(cs: seq<Candidate>): (ws: seq<nat>)
    ensures |ws| == |cs| && forall i :: 0 <= i < |cs| ==> ws[i] == DegradedWeight(cs[i])
  {
    seq(|cs|, i requires 0 <= i < |cs| => DegradedWeight(cs[i]))
  }

  function Sum(ws: seq<nat>): nat {
    if ws == [] then 0 else Sum(ws[..|ws| - 1]) + ws[|ws| - 1]
  }

  /** Draw r falls on index i: the weights before i make up at most r, those up to i more. */
  predicate Lands(ws: seq<nat>, r: int, i: nat)
    requires i < |ws|
  {
    Sum(ws[..i]) <= r < Sum(ws[..i + 1])
  }

  lemma {:induction false} SumMonotone(ws: seq<nat>, i: nat, j: nat)
    requires i <= j <= |ws|
    ensures Sum(ws[..i]) <= Sum(ws[..j])
  {
    if i < j {
      SumMonotone(ws, i, j - 1);
      assert ws[..j][..j - 1] == ws[..j - 1];
    }
  }

  lemma LandsOnce(ws: seq<nat>, r: int, i: nat, j: nat)
    requires i < |ws| && j < |ws| && Lands(ws, r, i) && Lands(ws, r, j)
    ensures i == j
  {
    if i < j { SumMonotone(ws, i + 1, j); }
    if j < i { SumMonotone(ws, j + 1, i); }
  }

  function Range(lo: int, hi: int): (rs: set<int>)
    requires lo <= hi
    ensures forall r :: r in rs <==> lo <= r < hi
    ensures |rs| == hi - lo
    decreases hi - lo
  {
    if lo == hi then {} else Range(lo, hi - 1) + {hi - 1}
  }

  /** The first loop of weightedRandomSelect. */
  method DegradeWeights(cs: seq<Candidate>) returns (weights: seq<nat>, total: nat)
    ensures weights == Weights(cs) && total == Sum(weights)
  {
    weights, total := [], 0;
    for k := 0 to |cs|
      invariant weights == Weights(cs)[..k] && total == Sum(weights)
    {
      var w := cs[k].weight;
      if w <= 0 { w := 1; }
      if cs[k].health < 80.0 {
        if cs[k].health >= 50.0 { w := w / 2; } else { w := w / 4; }
      }
      assert (weights + [w])[..k] == weights;
      assert Weights(cs)[..k + 1] == Weights(cs)[..k] + [w];
      weights := weights + [w];
      total := total + w;
    }
  }

  /** The second loop of weightedRandomSelect, which always returns. */
  method FirstAbove(weights: seq<nat>, r: int) returns (i: nat)
    requires weights != [] && 0 <= r < Sum(weights)
    ensures i < |weights| && Lands(weights, r, i)
  {
    assert weights[..|weights|] == weights;
    var cum := 0;
    for k := 0 to |weights|
      invariant cum == Sum(weights[..k]) <= r
    {
      assert weights[..k + 1][..k] == weights[..k];
      cum := cum + weights[k];
      if r < cum { return k; }
    }
    assert false;
  }

  /** weightedRandomSelect, with r the number drawn. */
  method WeightedRandomSelect(cs: seq<Candidate>, draw: int -> int) returns (i: nat)
    requires cs != [] && forall n: int {:trigger draw(n)} :: n > 0 ==> 0 <= draw(n) < n
    ensures i < |cs|
    ensures var total := Sum(Weights(cs)); if total > 0 then Lands(Weights(cs), draw(total), i) else i == 0
    ensures i == Landing(Weights(cs), draw(Sum(Weights(cs))))
  {
    var weights, total := DegradeWeights(cs);
    if total <= 0 { return 0; }
    var r := draw(total);
    i := FirstAbove(weights, r);
    LandsOnce(weights, r, i, Landing(weights, r));
  }

  /** The draws below the total that select index i. */
  function Draws(ws: seq<nat>, i: nat): set<int>
    requires i < |ws|
  {
    set r | r in Range(0, Sum(ws)) && Lands(ws, r, i)
  }

  /** The choice realises the weights exactly: of the total numbers that can be drawn, as many
      select a candidate as its degraded weight says; none selects a candidate of weight 0. */
  lemma DrawsMatchWeight(ws: seq<nat>, i: nat)
    requires i < |ws|
    ensures |Draws(ws, i)| == ws[i]
  {
    assert ws[..i + 1][..i] == ws[..i];
    SumMonotone(ws, i + 1, |ws|);
    assert ws[..|ws|] == ws;
    assert Draws(ws, i) == Range(Sum(ws[..i]), Sum(ws[..i + 1]));
  }

  /** Every draw selects exactly one candidate. */
  lemma {:induction false} EveryDrawLands(ws: seq<nat>, r: int) returns (i: nat)
    requires 0 <= r < Sum(ws)
    ensures i < |ws| && Lands(ws, r, i) && forall j :: 0 <= j < |ws| && Lands(ws, r, j) ==> j == i
  {
    var n := |ws| - 1;
    if r < Sum(ws[..n]) {
      i := EveryDrawLands(ws[..n], r);
      assert ws[..n][..i] == ws[..i] && ws[..n][..i + 1] == ws[..i + 1];
    } else {
      i := n;
      assert ws[..n + 1] == ws;
    }
    forall j | 0 <= j < |ws| && Lands(ws, r, j) ensures j == i { LandsOnce(ws, r, i, j); }
  }

  /** The index a draw selects; the first when there is nothing to weigh by. */
  function Landing(ws: seq<nat>, r: int): (i: nat)
    requires ws != [] && (Sum(ws) > 0 ==> 0 <= r < Sum(ws))
    ensures i < |ws|
    ensures Sum(ws) > 0 ==> Lands(ws, r, i)
    ensures Sum(ws) == 0 ==> i == 0
  {
    var n := |ws| - 1;
    if Sum(ws) == 0 then 0
    else if r < Sum(ws[..n]) then
      var i := Landing(ws[..n], r);
      assert ws[..n][..i] == ws[..i] && ws[..n][..i + 1] == ws[..i + 1];
      i
    else
      assert ws[..n + 1] == ws;
      n
  }

  // ---------------------------------------------------------------- priority groups

  ghost predicate Ascending(cs: seq<Candidate>) {
    forall i, j :: 0 <= i < j < |cs| ==> cs[i].priority <= cs[j].priority
  }

  /** What sort.Slice, which need not be stable, may return. */
  ghost predicate IsSortOf(sorted: seq<Candidate>, cs: seq<Candidate>) {
    multiset(sorted) == multiset(cs) && Ascending(sorted)
  }

  lemma AscendingSnoc(cs: seq<Candidate>, c: Candidate)
    requires Ascending(cs) && (cs != [] ==> cs[|cs| - 1].priority <= c.priority)
    ensures Ascending(cs + [c])
  {
  }

  /** There is always such an order. */
  function SortedByPriority(cs: seq<Candidate>): (sorted: seq<Candidate>)
    ensures IsSortOf(sorted, cs)
  {
    if cs == [] then []
    else
      var rest, c := cs[..|cs| - 1], cs[|cs| - 1];
      assert cs == rest + [c];
      var sorted := SortedByPriority(rest);
      InsertedKeepsAll(sorted, c);
      InsertedAscends(sorted, c);
      Inserted(sorted, c)
  }

  function Inserted(sorted: seq<Candidate>, c: Candidate): seq<Candidate> {
    if sorted == [] || sorted[|sorted| - 1].priority <= c.priority then sorted + [c]
    else Inserted(sorted[..|sorted| - 1], c) + [sorted[|sorted| - 1]]
  }

  lemma {:induction false} InsertedKeepsAll(sorted: seq<Candidate>, c: Candidate)
    ensures multiset(Inserted(sorted, c)) == multiset(sorted) + multiset{c}
  {
    if sorted != [] && sorted[|sorted| - 1].priority > c.priority {
      InsertedKeepsAll(sorted[..|sorted| - 1], c);
      assert sorted == sorted[..|sorted| - 1] + [sorted[|sorted| - 1]];
    }
  }

  lemma {:induction false} InsertedAscends(sorted: seq<Candidate>, c: Candidate)
    requires Ascending(sorted)
    ensures var r := Inserted(sorted, c);
            Ascending(r) && r != [] && (r[|r| - 1] == c || (sorted != [] && r[|r| - 1] == sorted[|sorted| - 1]))
  {
    if sorted == [] || sorted[|sorted| - 1].priority <= c.priority {
      AscendingSnoc(sorted, c);
    } else {
      InsertedAscends(sorted[..|sorted| - 1], c);
      AscendingSnoc(Inserted(sorted[..|sorted| - 1], c), sorted[|sorted| - 1]);
    }
  }

  function Flatten(groups: seq<seq<Candidate>>): seq<Candidate> {
    if groups == [] then [] else Flatten(groups[..|groups| - 1]) + groups[|groups| - 1]
  }

  predicate Uniform(g: seq<Candidate>) {
    g != [] && forall i :: 0 <= i < |g| ==> g[i].priority == g[0].priority
  }

  /** The priority of a group's members. */
  function Level(g: seq<Candidate>): int {
    if g == [] then 0 else g[0].priority
  }

  /** Non-empty groups of one priority each, in strictly increasing order. */
  predicate Layered(groups: seq<seq<Candidate>>) {
    groups != [] ==>
      var n := |groups| - 1;
      Uniform(groups[n]) && Layered(groups[..n]) && (n > 0 ==> Level(groups[n - 1]) < Level(groups[n]))
  }

  lemma {:induction false} LayersIncrease(groups: seq<seq<Candidate>>, i: nat, j: nat)
    requires Layered(groups) && i <= j < |groups|
    ensures Uniform(groups[i]) && (i < j ==> Level(groups[i]) < Level(groups[j]))
  {
    var n := |groups| - 1;
    if i < n { LayersIncrease(groups[..n], i, if j < n then j else n - 1); }
  }

  lemma LayeredSnoc(groups: seq<seq<Candidate>>, g: seq<Candidate>)
    requires Layered(groups) && Uniform(g)
    requires groups != [] ==> Level(groups[|groups| - 1]) < Level(g)
    ensures Layered(groups + [g]) && Flatten(groups + [g]) == Flatten(groups) + g
  {
    assert (groups + [g])[..|groups|] == groups;
  }

  /** The state of the grouping loop: groups closed, the group being built, candidates seen. */
  ghost predicate Grouped(groups: seq<seq<Candidate>>, cur: seq<Candidate>, seen: seq<Candidate>) {
    && Flatten(groups) + cur == seen && Layered(groups) && Uniform(cur)
    && (groups != [] ==> Level(groups[|groups| - 1]) < Level(cur))
  }

  lemma GroupGrows(groups: seq<seq<Candidate>>, cur: seq<Candidate>, seen: seq<Candidate>, c: Candidate)
    requires Grouped(groups, cur, seen) && c.priority == Level(cur)
    ensures Grouped(groups, cur + [c], seen + [c])
  {
    assert Flatten(groups) + (cur + [c]) == (Flatten(groups) + cur) + [c];
  }

  lemma GroupCloses(groups: seq<seq<Candidate>>, cur: seq<Candidate>, seen: seq<Candidate>)
    requires Grouped(groups, cur, seen)
    ensures Layered(groups + [cur]) && Flatten(groups + [cur]) == seen
  {
    LayeredSnoc(groups, cur);
  }

  /** The last run of equal priorities of a sorted list. */
  function Top(sorted: seq<Candidate>): (top: seq<Candidate>)
    ensures sorted != [] ==> top != []
  {
    var n := |sorted| - 1;
    if sorted == [] then []
    else if n > 0 && sorted[n - 1].priority == sorted[n].priority then Top(sorted[..n]) + [sorted[n]]
    else [sorted[n]]
  }

  lemma {:induction false} TopOfConcat(front: seq<Candidate>, g: seq<Candidate>)
    requires Uniform(g) && (front != [] ==> front[|front| - 1].priority != Level(g))
    ensures Top(front + g) == g
  {
    var n := |g| - 1;
    var all := front + g;
    assert all[..|all| - 1] == front + g[..n];
    if n > 0 {
      TopOfConcat(front, g[..n]);
      assert g == g[..n] + [g[n]];
    } else {
      assert g == [g[0]] && front + [] == front;
    }
  }

  /** The last layer is the top of the list that was grouped. */
  lemma LastLayerIsTop(groups: seq<seq<Candidate>>)
    requires Layered(groups) && groups != []
    ensures Top(Flatten(groups)) == groups[|groups| - 1]
  {
    var n := |groups| - 1;
    if n > 0 {
      var before := groups[..n];
      var last := before[n - 1];
      assert Uniform(last) && Flatten(before) == Flatten(before[..n - 1]) + last;
      assert Flatten(before)[|Flatten(before)| - 1] == last[|last| - 1];
    }
    TopOfConcat(Flatten(groups[..n]), groups[n]);
  }

  /** The loop over the sorted copy. */
  method CutIntoGroups(sorted: seq<Candidate>) returns (groups: seq<seq<Candidate>>)
    requires sorted != [] && Ascending(sorted)
    ensures Flatten(groups) == sorted && Layered(groups) && groups != []
  {
    groups := [];
    var curPrio := sorted[0].priority;
    var curGroup := [sorted[0]];
    for i := 1 to |sorted|
      invariant Grouped(groups, curGroup, sorted[..i])
      invariant Level(curGroup) == curPrio == sorted[i - 1].priority
    {
      assert sorted[..i + 1] == sorted[..i] + [sorted[i]];
      if sorted[i].priority == curPrio {
        GroupGrows(groups, curGroup, sorted[..i], sorted[i]);
        curGroup := curGroup + [sorted[i]];
      } else {
        GroupCloses(groups, curGroup, sorted[..i]);
        groups := groups + [curGroup];
        curPrio := sorted[i].priority;
        curGroup := [sorted[i]];
      }
    }
    GroupCloses(groups, curGroup, sorted[..|sorted|]);
    groups := groups + [curGroup];
    assert sorted[..|sorted|] == sorted;
  }

  /** groupByPriority: a partition of the candidates into layers, lowest priority first. */
  method GroupByPriority(cs: seq<Candidate>, sort: seq<Candidate> -> seq<Candidate>)
    returns (groups: seq<seq<Candidate>>)
    requires forall s :: IsSortOf(sort(s), s)
    ensures multiset(Flatten(groups)) == multiset(cs)
    ensures Layered(groups)
    ensures cs != [] ==> groups != [] && groups[|groups| - 1] == Top(sort(cs))
  {
    if cs == [] { return []; }
    var sorted := sort(cs);
    assert cs[0] in multiset(sorted);
    groups := CutIntoGroups(sorted);
    LastLayerIsTop(groups);
  }

  /** The last layer holds exactly the candidates of the highest priority. */
  lemma {:induction false} LastLayerIsHighest(groups: seq<seq<Candidate>>, c: Candidate)
    requires Layered(groups) && groups != []
    ensures c in Flatten(groups) ==> c.priority <= Level(groups[|groups| - 1])
    ensures c in Flatten(groups) && c.priority == Level(groups[|groups| - 1]) <==> c in groups[|groups| - 1]
  {
    var n := |groups| - 1;
    if c in Flatten(groups[..n]) {
      assert groups[..n] != [];
      LastLayerIsHighest(groups[..n], c);
    }
    if c in groups[n] {
      var i :| 0 <= i < |groups[n]| && groups[n][i] == c;
    }
  }

  // ---------------------------------------------------------------- selection

  predicate Healthy(c: Candidate) {
    c.health >= 20.0
  }

  /** The candidates in play: the healthy ones, or all when none is. */
  ghost predicate InPlay(cs: seq<Candidate>, c: Candidate) {
    c in cs && (Healthy(c) || forall d :: d in cs ==> !Healthy(d))
  }

  /** The candidates in play, in order. */
  function Playing(cs: seq<Candidate>): (r: seq<Candidate>)
    ensures forall c :: c in r <==> InPlay(cs, c)
    ensures r == [] <==> cs == []
  {
    AreInPlay(cs, HealthyOnes(cs));
    if HealthyOnes(cs) == [] then cs else HealthyOnes(cs)
  }

  function HealthyOnes(cs: seq<Candidate>): (r: seq<Candidate>)
    ensures forall c :: c in r <==> c in cs && Healthy(c)
  {
    if cs == [] then []
    else
      assert cs == cs[..|cs| - 1] + [cs[|cs| - 1]];
      HealthyOnes(cs[..|cs| - 1]) + if Healthy(cs[|cs| - 1]) then [cs[|cs| - 1]] else []
  }

  /** The healthy candidates are kept in order, each as often as it is there. */
  lemma {:induction false} HealthyConcat(xs: seq<Candidate>, ys: seq<Candidate>)
    ensures HealthyOnes(xs + ys) == HealthyOnes(xs) + HealthyOnes(ys)
  {
    if ys == [] {
      assert xs + ys == xs;
    } else {
      assert (xs + ys)[..|xs + ys| - 1] == xs + ys[..|ys| - 1];
      HealthyConcat(xs, ys[..|ys| - 1]);
    }
  }

  lemma HealthyOne(c: Candidate)
    ensures HealthyOnes([c]) == if c.health >= 20.0 then [c] else []
  {
    assert [c][..0] == [];
  }

  /** The candidates the draw is between. */
  function Drawn(cs: seq<Candidate>, sort: seq<Candidate> -> seq<Candidate>): seq<Candidate> {
    Top(sort(Playing(cs)))
  }

  /** Select: a candidate in play of the highest priority there is in play, the one the draw
      lands on; one of weight 0 only when all of that priority have weight 0; none only from
      nothing. */
  method Select(cs: seq<Candidate>, sort: seq<Candidate> -> seq<Candidate>, draw: int -> int)
    returns (picked: Option<Candidate>)
    requires forall s :: IsSortOf(sort(s), s)
    requires forall n: int {:trigger draw(n)} :: n > 0 ==> 0 <= draw(n) < n
    ensures picked.None? <==> cs == []
    ensures picked.Some? ==> InPlay(cs, picked.value)
    ensures picked.Some? ==> forall d :: InPlay(cs, d) ==> d.priority <= picked.value.priority
    ensures picked.Some? && DegradedWeight(picked.value) == 0 ==>
              forall d :: InPlay(cs, d) && d.priority == picked.value.priority ==> DegradedWeight(d) == 0
    ensures picked.Some? ==>
              var top := Drawn(cs, sort);
              top != [] && picked.value == top[Landing(Weights(top), draw(Sum(Weights(top))))]
  {
    if cs == [] { return None; }
    var healthy := [];
    for i := 0 to |cs|
      invariant healthy == HealthyOnes(cs[..i])
    {
      assert cs[..i + 1][..i] == cs[..i];
      if cs[i].health >= 20.0 { healthy := healthy + [cs[i]]; }
    }
    assert cs[..|cs|] == cs;
    if |healthy| == 0 { healthy := cs; }
    assert healthy == Playing(cs);
    var groups := GroupByPriority(healthy, sort);
    var highest := groups[|groups| - 1];
    ghost var r := draw(Sum(Weights(highest)));
    DrawnIsBest(cs, sort, r);
    if |highest| == 1 {
      return Some(highest[0]);
    }
    var k := WeightedRandomSelect(highest, draw);
    picked := Some(highest[k]);
  }

  /** Whatever the draw, the candidate it lands on is in play and of the highest priority, and
      has no weight only if none of its rivals has. */
  lemma DrawnIsBest(cs: seq<Candidate>, sort: seq<Candidate> -> seq<Candidate>, r: int)
    requires cs != [] && IsSortOf(sort(Playing(cs)), Playing(cs))
    requires var total := Sum(Weights(Drawn(cs, sort))); total > 0 ==> 0 <= r < total
    ensures var top := Drawn(cs, sort);
            && top != []
            && var c := top[Landing(Weights(top), r)];
               && InPlay(cs, c)
               && (forall d :: InPlay(cs, d) ==> d.priority <= c.priority)
               && (DegradedWeight(c) == 0 ==>
                     forall d :: InPlay(cs, d) && d.priority == c.priority ==> DegradedWeight(d) == 0)
  {
    var playing := Playing(cs);
    var sorted := sort(playing);
    assert playing[0] in multiset(sorted);
    TopIsHighest(sorted);
    var top := Top(sorted);
    var k := Landing(Weights(top), r);
    assert top[k] in top;
    forall d ensures d in sorted <==> InPlay(cs, d) { assert d in sorted <==> d in multiset(playing); }
    ZeroOnlyIfAllZero(Weights(top), k, r);
    ZeroWeights(top, k);
  }

  /** The top of a sorted list holds exactly its members of the highest priority. */
  lemma {:induction false} TopIsHighest(sorted: seq<Candidate>)
    requires sorted != [] && Ascending(sorted)
    ensures forall c :: c in sorted ==> c.priority <= sorted[|sorted| - 1].priority
    ensures forall c :: c in Top(sorted) <==> c in sorted && c.priority == sorted[|sorted| - 1].priority
  {
    var n := |sorted| - 1;
    assert sorted == sorted[..n] + [sorted[n]];
    if n > 0 {
      TopIsHighest(sorted[..n]);
      assert sorted[n - 1].priority <= sorted[n].priority;
    }
  }

  /** The draws with which Select returns the candidate at an index of the top layer. */
  function SelectingDraws(cs: seq<Candidate>, sort: seq<Candidate> -> seq<Candidate>, i: nat): set<int>
    requires i < |Drawn(cs, sort)|
  {
    var ws := Weights(Drawn(cs, sort));
    set r | r in Range(0, Sum(ws)) && Landing(ws, r) == i
  }

  /** Select realises the weights exactly: when the top layer has any weight, as many of the
      numbers that can be drawn return its member at an index as that one's degraded weight
      says. */
  lemma SelectMatchesWeight(cs: seq<Candidate>, sort: seq<Candidate> -> seq<Candidate>, i: nat)
    requires cs != [] && (forall s :: IsSortOf(sort(s), s)) && i < |Drawn(cs, sort)|
    ensures |SelectingDraws(cs, sort, i)| == DegradedWeight(Drawn(cs, sort)[i])
    ensures var c := Drawn(cs, sort)[i];
            var w: nat := if c.weight <= 0 then 1 else c.weight;
            && (c.health >= 80.0 ==> |SelectingDraws(cs, sort, i)| == w)
            && (50.0 <= c.health < 80.0 ==> w - 1 <= 2 * |SelectingDraws(cs, sort, i)| <= w)
            && (c.health < 50.0 ==> w - 3 <= 4 * |SelectingDraws(cs, sort, i)| <= w)
  {
    HealthKeepsWeight(Drawn(cs, sort)[i], Drawn(cs, sort)[i]);
    var ws := Weights(Drawn(cs, sort));
    DrawsMatchWeight(ws, i);
    forall r | r in Range(0, Sum(ws)) ensures Landing(ws, r) == i <==> Lands(ws, r, i) {
      if Lands(ws, r, i) { LandsOnce(ws, r, i, Landing(ws, r)); }
    }
    assert SelectingDraws(cs, sort, i) == Draws(ws, i);
  }

  lemma ZeroWeights(cs: seq<Candidate>, k: nat)
    requires k < |cs| && (Weights(cs)[k] == 0 ==> forall j :: 0 <= j < |cs| ==> Weights(cs)[j] == 0)
    ensures DegradedWeight(cs[k]) == 0 ==> forall d :: d in cs ==> DegradedWeight(d) == 0
  {
    forall d | d in cs && DegradedWeight(cs[k]) == 0 ensures DegradedWeight(d) == 0 {
      var j :| 0 <= j < |cs| && cs[j] == d;
    }
  }

  lemma AreInPlay(cs: seq<Candidate>, healthy: seq<Candidate>)
    requires forall c :: c in healthy <==> c in cs && Healthy(c)
    ensures forall c :: c in (if healthy == [] then cs else healthy) <==> InPlay(cs, c)
  {
    if healthy != [] {
      assert healthy[0] in healthy;
    } else {
      forall c | c in cs ensures !Healthy(c) { assert c !in healthy; }
    }
  }

  lemma ZeroOnlyIfAllZero(ws: seq<nat>, k: nat, r: int)
    requires k < |ws| && if Sum(ws) > 0 then Lands(ws, r, k) else k == 0
    ensures ws[k] == 0 ==> forall j :: 0 <= j < |ws| ==> ws[j] == 0
  {
    assert ws[..k + 1][..k] == ws[..k];
    if Sum(ws) == 0 {
      forall j | 0 <= j < |ws| ensures ws[j] == 0 {
        assert ws[..j + 1][..j] == ws[..j];
        SumMonotone(ws, j + 1, |ws|);
        assert ws[..|ws|] == ws;
      }
    }
  }
}
