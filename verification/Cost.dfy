/** Cost of a request from its token counts and the provider's share of it. All amounts are
    micro-credits and every division rounds down, as int64 division does on the
    non-negative operands its guards leave. */
module Cost {
  import opened Common

  /** Token counts as reported upstream; cached is absent when there are no prompt details. */
  datatype Usage = Usage(prompt: int, completion: int, total: int, cached: Option<int>)

  /** Prices per 1000 tokens. */
  datatype Prices = Prices(hit: int, miss: int, output: int)

  /** The token columns of a usage record. */
  datatype Columns = Columns(prompt: int, hit: int, miss: int, completion: int, total: int)

  predicate NonNegative(u: Usage) {
    u.prompt >= 0 && u.completion >= 0 && u.total >= 0 && (u.cached.Some? ==> u.cached.value >= 0)
  }

  predicate Sellable(p: Prices) {
    p.hit >= 0 && p.miss >= 0 && p.output >= 0
  }

  function Part(price: int, tokens: int): int {
    if price > 0 && tokens > 0 then price * tokens / 1000 else 0
  }

  function CostOf(p: Prices, hit: int, miss: int, output: int): int {
    Part(p.hit, hit) + Part(p.miss, miss) + Part(p.output, output)
  }

  function CachedTokens(u: Usage): int {
    if u.cached.Some? && u.cached.value > 0 then u.cached.value else 0
  }

  /** Prompt tokens served from the cache; none when more are claimed than there were. */
  function Hit(prompt: int, cached: int): int {
    if prompt < cached then 0 else cached
  }

  /** The cost of a usage: cached and other prompt tokens and output at their own prices. */
  function UsageCost(u: Usage, p: Prices): int {
    var hit := Hit(u.prompt, CachedTokens(u));
    CostOf(p, hit, u.prompt - hit, u.completion)
  }

  method ComputeCost(usage: Option<Usage>, p: Prices) returns (cost: int)
    ensures cost == if usage.Some? then UsageCost(usage.value, p) else 0
  {
    if usage.None? { return 0; }
    var u := usage.value;
    if p.hit == 0 && p.miss == 0 && p.output == 0 { return 0; }
    var hit := 0;
    if u.cached.Some? && u.cached.value > 0 {
      hit := u.cached.value;
    }
    var miss := u.prompt - hit;
    if miss < 0 {
      miss := u.prompt;
      hit := 0;
    }
    cost := 0;
    if p.hit > 0 && hit > 0 { cost := cost + p.hit * hit / 1000; }
    if p.miss > 0 && miss > 0 { cost := cost + p.miss * miss / 1000; }
    if p.output > 0 && u.completion > 0 { cost := cost + p.output * u.completion / 1000; }
  }

  /** The columns the worker records. */
  method UsageColumns(usage: Option<Usage>) returns (c: Columns)
    ensures c.hit + c.miss == c.prompt
    ensures usage.None? ==> c == Columns(0, 0, 0, 0, 0)
    ensures usage.Some? ==> c == ColumnsOf(usage.value)
    ensures usage.Some? && NonNegative(usage.value) ==> 0 <= c.hit && 0 <= c.miss
    ensures usage.Some? ==>
              var u := usage.value;
              && c.prompt == u.prompt && c.completion == u.completion && c.total == u.total
              && (u.cached.Some? && u.cached.value <= u.prompt ==> c.hit == u.cached.value)
              && (u.cached.None? && u.prompt >= 0 ==> c.hit == 0)
              && (u.cached.Some? && u.cached.value > u.prompt ==> c.hit == 0)
  {
    c := Columns(0, 0, 0, 0, 0);
    if usage.Some? {
      var u := usage.value;
      var hit := 0;
      if u.cached.Some? { hit := u.cached.value; }
      var miss := u.prompt - hit;
      if miss < 0 {
        miss := u.prompt;
        hit := 0;
      }
      c := Columns(u.prompt, hit, miss, u.completion, u.total);
    }
  }

  function ColumnsOf(u: Usage): Columns {
    var hit := Hit(u.prompt, if u.cached.Some? then u.cached.value else 0);
    Columns(u.prompt, hit, u.prompt - hit, u.completion, u.total)
  }

  /** The cost can be recomputed from the recorded columns, at any prices, exactly when the
      usage does not claim a negative number of cached tokens below its prompt tokens. */
  lemma CostFromColumns(u: Usage)
    ensures (forall p :: UsageCost(u, p) == CostOf(p, ColumnsOf(u).hit, ColumnsOf(u).miss, ColumnsOf(u).completion))
       <==> !(u.cached.Some? && u.cached.value < 0 && u.cached.value < u.prompt)
  {
    var p, c := Prices(0, 1000, 0), ColumnsOf(u);
    if u.cached.Some? && u.cached.value < 0 && u.cached.value < u.prompt {
      assert CostOf(p, c.hit, c.miss, c.completion) == u.prompt - u.cached.value;
      assert UsageCost(u, p) == if u.prompt > 0 then u.prompt else 0;
    }
  }

  /** Usage made up for a response whose tokens the worker counted. */
  function CountedUsage(tokens: nat): Usage {
    Usage(0, tokens, tokens, None)
  }

  /** The worker's own formula for a counted response agrees with the general one. */
  lemma CountedCost(tokens: nat, p: Prices)
    requires Sellable(p)
    ensures p.output * tokens / 1000 == UsageCost(CountedUsage(tokens), p) >= 0
  {
    if p.output == 0 || tokens == 0 { assert p.output * tokens == 0; }
  }

  // ---------------------------------------------------------------- rounding

  /** A thousand times the unrounded cost, from the usage's own counts: cached tokens at their
      price, unless more are claimed than the prompt had. */
  function Exact(u: Usage, p: Prices): int {
    if u.cached.Some? && 0 < u.cached.value <= u.prompt then
      p.hit * u.cached.value + p.miss * (u.prompt - u.cached.value) + p.output * u.completion
    else
      p.miss * u.prompt + p.output * u.completion
  }

  lemma PartRounds(price: nat, tokens: nat)
    ensures 0 <= 1000 * Part(price, tokens) <= price * tokens <= 1000 * Part(price, tokens) + 999
  {
    if price == 0 || tokens == 0 { assert price * tokens == 0; }
  }

  /** The three floors together lose less than three micro-credits, and never overcharge. */
  lemma CostRounds(u: Usage, p: Prices)
    requires NonNegative(u) && Sellable(p)
    ensures 0 <= 1000 * UsageCost(u, p) <= Exact(u, p) <= 1000 * UsageCost(u, p) + 2997
  {
    var hit := Hit(u.prompt, CachedTokens(u));
    PartRounds(p.hit, hit);
    PartRounds(p.miss, u.prompt - hit);
    PartRounds(p.output, u.completion);
  }

  // ---------------------------------------------------------------- caching

  function CostWith(p: Prices, prompt: nat, cached: nat, output: nat): int {
    UsageCost(Usage(prompt, output, prompt + output, Some(cached)), p)
  }

  lemma PartSplits(low: nat, high: nat, cached: nat, rest: nat)
    requires low <= high
    ensures Part(low, cached) + Part(high, rest) <= Part(high, cached + rest)
  {
    PartRounds(low, cached);
    PartRounds(high, rest);
    PartRounds(high, cached + rest);
    assert low * cached <= high * cached;
    assert high * cached + high * rest == high * (cached + rest);
  }

  lemma CachingSaves(p: Prices, prompt: nat, cached: nat, output: nat)
    requires Sellable(p) && p.hit <= p.miss
    ensures CostWith(p, prompt, cached, output) <= CostWith(p, prompt, 0, output)
  {
    if cached <= prompt { PartSplits(p.hit, p.miss, cached, prompt - cached); }
  }

  /** A cached prompt never costs more than the same prompt uncached, exactly when the price
      of cached tokens is at most that of the others. */
  lemma CachingNeverRaisesCost(p: Prices)
    requires Sellable(p)
    ensures p.hit <= p.miss <==>
            forall prompt: nat, cached: nat, output: nat ::
              CostWith(p, prompt, cached, output) <= CostWith(p, prompt, 0, output)
  {
    if p.hit <= p.miss {
      forall prompt: nat, cached: nat, output: nat
        ensures CostWith(p, prompt, cached, output) <= CostWith(p, prompt, 0, output)
      {
        CachingSaves(p, prompt, cached, output);
      }
    } else {
      assert CostWith(p, 1000, 1000, 0) == p.hit > p.miss == CostWith(p, 1000, 0, 0);
    }
  }

  // ---------------------------------------------------------------- revenue

  /** The provider's share in basis points; a share that is not positive means 80%. */
  function Share(bps: int): int {
    if bps <= 0 then 8000 else bps
  }

  function CalcRevenue(cost: int, bps: int): (revenue: int)
    ensures cost >= 0 && bps <= 10000 ==> 0 <= revenue <= cost
    ensures cost >= 0 ==> 10000 * revenue <= cost * Share(bps) < 10000 * (revenue + 1)
    ensures cost >= 0 && bps <= 0 ==> revenue == cost * 4 / 5
    ensures bps > 0 ==> Share(bps) == bps
  {
    RevenueBound(cost, Share(bps));
    if bps <= 0 then cost * 8000 / 10000 else cost * bps / 10000
  }

  lemma RevenueBound(cost: int, share: int)
    ensures cost >= 0 && 0 <= share <= 10000 ==> 0 <= cost * share <= cost * 10000
  {
    if cost >= 0 && 0 <= share <= 10000 { assert cost * (10000 - share) >= 0; }
  }

  /** A share leaves the platform a commission that is not negative, for every cost, exactly
      when it is at most 10000 basis points. */
  lemma RevenueWithinCostIff(bps: int)
    ensures (forall cost: nat :: 0 <= CalcRevenue(cost, bps) <= cost) <==> bps <= 10000
  {
    if bps > 10000 { assert CalcRevenue(10000, bps) == bps; }
  }

  function TotalCost(costs: seq<nat>): nat {
    if costs == [] then 0 else costs[0] + TotalCost(costs[1..])
  }

  function TotalRevenue(costs: seq<nat>, bps: int): int {
    if costs == [] then 0 else CalcRevenue(costs[0], bps) + TotalRevenue(costs[1..], bps)
  }

  lemma FloorsOfSum(x: nat, y: nat)
    ensures x / 10000 + y / 10000 <= (x + y) / 10000 <= x / 10000 + y / 10000 + 1
  {
  }

  /** Splitting n costs one by one costs the provider at most n - 1 micro-credits against
      its share of the total, and never pays more. */
  lemma {:induction false} RoundingFavoursPlatform(costs: seq<nat>, bps: int)
    requires costs != []
    ensures 0 <= CalcRevenue(TotalCost(costs), bps) - TotalRevenue(costs, bps) <= |costs| - 1
  {
    if |costs| == 1 {
      assert costs[1..] == [];
    } else {
      RoundingFavoursPlatform(costs[1..], bps);
      RevenueOfSum(costs[0], TotalCost(costs[1..]), bps);
    }
  }

  lemma RevenueOfSum(x: nat, y: nat, bps: int)
    ensures var split := CalcRevenue(x, bps) + CalcRevenue(y, bps);
            split <= CalcRevenue(x + y, bps) <= split + 1
  {
    var share: nat := Share(bps);
    FloorsOfSum(x * share, y * share);
    assert (x + y) * share == x * share + y * share;
  }
}
