/** The local node's key router: one ordered list of key hashes for each model. */
module Router {
  import opened Common

  // ---------------------------------------------------------------- reference

  /** The list after k rotations. */
  function Rotated<T>(list: seq<T>, k: nat): (r: seq<T>)
    requires list != []
    ensures |r| == |list|
  {
    var n := k % |list|;
    list[n..] + list[..n]
  }

  lemma RotateNext<T>(list: seq<T>, k: nat)
    requires list != []
    ensures Rotated(list, k)[0] == list[k % |list|]
    ensures Rotated(list, k)[1..] + [Rotated(list, k)[0]] == Rotated(list, k + 1)
  {
    var n := k % |list|;
    SuccMod(k, |list|);
    if n == |list| - 1 {
      assert Rotated(list, k)[1..] + [Rotated(list, k)[0]] == list[..n] + [list[n]];
      assert Rotated(list, k + 1) == list;
    }
  }

  lemma SuccMod(k: nat, n: nat)
    requires n > 0
    ensures (k + 1) % n == if k % n == n - 1 then 0 else k % n + 1
  {
    var q, r := k / n, k % n;
    assert k == q * n + r;
    if r == n - 1 {
      assert k + 1 == (q + 1) * n;
      ModOf(q + 1, n, 0);
    } else {
      assert k + 1 == q * n + (r + 1);
      ModOf(q, n, r + 1);
    }
  }

  lemma MulGrows(d: int, n: int)
    requires n >= 0
    ensures d >= 1 ==> d * n >= n
    ensures d <= -1 ==> d * n <= -n
  {
    if d >= 1 { assert (d - 1) * n >= 0; }
    if d <= -1 { assert (-1 - d) * n >= 0; }
  }

  lemma ModOf(q: nat, n: nat, r: nat)
    requires r < n
    ensures (q * n + r) % n == r
  {
    var x := q * n + r;
    var d := q - x / n;
    assert d * n == x % n - r;
    MulGrows(d, n);
    assert d == 0;
  }

  lemma RotationKeepsElements<T>(list: seq<T>, k: nat)
    requires list != []
    ensures multiset(Rotated(list, k)) == multiset(list)
  {
    var n := k % |list|;
    assert list == list[..n] + list[n..];
  }

  // ---------------------------------------------------------------- the router

  /** after is before without the first occurrence of x, in the same order. */
  ghost predicate FirstRemoved(before: seq<string>, x: string, after: seq<string>) {
    exists i :: 0 <= i < |before| && before[i] == x && x !in before[..i] && after == before[..i] + before[i + 1..]
  }

  lemma FirstRemovedCounts(list: seq<string>, i: nat)
    requires i < |list| && list[i] !in list[..i]
    ensures multiset(list[..i] + list[i + 1..]) == multiset(list) - multiset{list[i]}
    ensures FirstRemoved(list, list[i], list[..i] + list[i + 1..])
  {
    assert list == list[..i] + [list[i]] + list[i + 1..];
  }

  /** Methods hold the router's lock; calls are taken one at a time. */
  class Pool {
    var keys: map<string, seq<string>>

    constructor ()
      ensures keys == map[]
    {
      keys := map[];
    }

    function List(model: string): seq<string>
      reads this
    {
      if model in keys then keys[model] else []
    }

    method Register(model: string, keyHash: string)
      modifies this
      ensures List(model) == old(List(model)) + [keyHash]
      ensures forall m :: m != model ==> List(m) == old(List(m))
    {
      var list := if model in keys then keys[model] else [];
      keys := keys[model := list + [keyHash]];
    }

    /** Removes the first occurrence of the key, if any; the others keep their order. */
    method Unregister(model: string, keyHash: string)
      modifies this
      ensures multiset(List(model)) == multiset(old(List(model))) - multiset{keyHash}
      ensures keyHash !in old(List(model)) ==> List(model) == old(List(model))
      ensures keyHash in old(List(model)) ==> FirstRemoved(old(List(model)), keyHash, List(model))
      ensures forall m :: m != model ==> List(m) == old(List(m))
    {
      var list := if model in keys then keys[model] else [];
      for i := 0 to |list|
        invariant keys == old(keys) && keyHash !in list[..i]
      {
        if list[i] == keyHash {
          FirstRemovedCounts(list, i);
          keys := keys[model := list[..i] + list[i + 1..]];
          return;
        }
      }
      assert list[..|list|] == list;
      assert multiset(list) - multiset{keyHash} == multiset(list);
    }

    /** The first key, which moves to the end; an error when there is none. */
    method Pick(model: string) returns (r: Option<string>)
      modifies this
      ensures old(List(model)) == [] ==> r == None && keys == old(keys)
      ensures old(List(model)) != [] ==>
                r == Some(old(List(model))[0]) && List(model) == old(List(model))[1..] + [old(List(model))[0]]
      ensures forall m :: m != model ==> List(m) == old(List(m))
    {
      var list := if model in keys then keys[model] else [];
      if |list| == 0 { return None; }
      var first := list[0];
      keys := keys[model := list[1..] + [first]];
      r := Some(first);
    }
  }

  // ---------------------------------------------------------------- picks in a row

  /** The keys that n picks in a row serve. */
  function Served(list: seq<string>, n: nat): (served: seq<string>)
    requires list != []
    ensures |served| == n
    decreases n
  {
    if n == 0 then [] else [list[0]] + Served(list[1..] + [list[0]], n - 1)
  }

  lemma {:induction false} ServedFrom(list: seq<string>, start: nat, n: nat, k: nat)
    requires list != [] && k < n
    ensures Served(Rotated(list, start), n)[k] == Rotated(list, start + k)[0]
    decreases n
  {
    RotateNext(list, start);
    if k > 0 {
      ServedFrom(list, start + 1, n - 1, k - 1);
      assert start + 1 + (k - 1) == start + k;
    }
  }

  /** Since the list last changed, the k-th pick serves element k mod its length. */
  lemma ServedAt(list: seq<string>, n: nat, k: nat)
    requires list != [] && k < n
    ensures Served(list, n)[k] == list[k % |list|]
  {
    ServedFrom(list, 0, n, k);
    assert Rotated(list, 0) == list by { ModOf(0, |list|, 0); }
    RotateNext(list, k);
  }

  /** Any window of as many picks as there are keys serves each registered key exactly as
      often as it is registered. */
  lemma WindowServesAll(list: seq<string>, n: nat, i: nat)
    requires list != [] && i + |list| <= n
    ensures multiset(Served(list, n)[i..i + |list|]) == multiset(list)
  {
    forall k | 0 <= k < n ensures Served(list, n)[k] == list[k % |list|] { ServedAt(list, n, k); }
    WindowIsRotation(list, Served(list, n), i);
    RotationKeepsElements(list, i);
  }

  lemma WindowIsRotation(list: seq<string>, served: seq<string>, i: nat)
    requires list != [] && i + |list| <= |served|
    requires forall j :: 0 <= j < |served| ==> served[j] == list[j % |list|]
    ensures served[i..i + |list|] == Rotated(list, i)
  {
    forall j | 0 <= j < |list| ensures served[i + j] == Rotated(list, i)[j] { RotatedAt(list, i, j); }
  }

  lemma RotatedAt<T>(list: seq<T>, i: nat, j: nat)
    requires list != [] && j < |list|
    ensures Rotated(list, i)[j] == list[(i + j) % |list|]
  {
    var n, q, r := |list|, i / |list|, i % |list|;
    assert i == q * n + r;
    if r + j < n {
      assert i + j == q * n + (r + j);
      ModOf(q, n, r + j);
    } else {
      assert i + j == (q + 1) * n + (r + j - n);
      ModOf(q + 1, n, r + j - n);
    }
  }

  // ---------------------------------------------------------------- picks among other calls

  datatype Call =
    | RegisterKey(model: string, key: string)
    | UnregisterKey(model: string, key: string)
    | PickKey(model: string)

  method Perform(pool: Pool, call: Call)
    modifies pool
    ensures forall m :: m != call.model ==> pool.List(m) == old(pool.List(m))
  {
    match call {
      case RegisterKey(m, key) => pool.Register(m, key);
      case UnregisterKey(m, key) => pool.Unregister(m, key);
      case PickKey(m) => var r := pool.Pick(m);
    }
  }

  method PerformAll(pool: Pool, calls: seq<Call>, model: string)
    requires forall i :: 0 <= i < |calls| ==> calls[i].model != model
    modifies pool
    ensures pool.List(model) == old(pool.List(model))
  {
    for i := 0 to |calls|
      invariant pool.List(model) == old(pool.List(model))
    {
      Perform(pool, calls[i]);
    }
  }

  lemma NextServed(list: seq<string>, n: nat, k: nat)
    requires list != [] && k < n
    ensures Served(list, n)[..k + 1] == Served(list, n)[..k] + [Rotated(list, k)[0]]
    ensures Rotated(list, k)[1..] + [Rotated(list, k)[0]] == Rotated(list, k + 1)
  {
    ServedAt(list, n, k);
    RotateNext(list, k);
  }

  /** n picks for a model, with any calls for other models before each: they serve the keys in
      turn, and leave the list rotated n times. */
  method PickInTurn(pool: Pool, model: string, n: nat, between: nat -> seq<Call>) returns (served: seq<string>)
    requires pool.List(model) != []
    requires forall k: nat, i :: 0 <= i < |between(k)| ==> between(k)[i].model != model
    modifies pool
    ensures served == Served(old(pool.List(model)), n)
    ensures pool.List(model) == Rotated(old(pool.List(model)), n)
  {
    served := [];
    ghost var list := pool.List(model);
    assert Rotated(list, 0) == list by { ModOf(0, |list|, 0); }
    for k := 0 to n
      invariant pool.List(model) == Rotated(list, k)
      invariant served == Served(list, n)[..k]
    {
      PerformAll(pool, between(k), model);
      NextServed(list, n, k);
      var r := pool.Pick(model);
      served := served + [r.value];
    }
  }
}
