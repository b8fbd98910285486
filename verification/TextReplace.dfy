/** The override engine's own substring search and replace-all, over byte strings. */
module TextReplace {

  newtype byte = b: int | 0 <= b < 256

  type Str = seq<byte>

  predicate OccursAt(s: Str, sub: Str, i: nat) {
    i + |sub| <= |s| && s[i..i + |sub|] == sub
  }

  ghost predicate Occurs(s: Str, sub: Str) {
    exists i: nat :: OccursAt(s, sub, i)
  }

  /** indexOfStr: the first occurrence, or -1. */
  method IndexOfStr(s: Str, sub: Str) returns (idx: int)
    ensures idx == -1 <==> !Occurs(s, sub)
    ensures idx != -1 ==> idx >= 0 && OccursAt(s, sub, idx) && forall i: nat :: i < idx ==> !OccursAt(s, sub, i)
  {
    var i := 0;
    while i <= |s| - |sub|
      invariant 0 <= i
      invariant forall j: nat :: j < i ==> !OccursAt(s, sub, j)
    {
      if s[i..i + |sub|] == sub {
        assert OccursAt(s, sub, i);
        return i;
      }
      i := i + 1;
    }
    idx := -1;
  }

  /** containsStr: agrees with the search. */
  method ContainsStr(s: Str, sub: Str) returns (found: bool)
    ensures found <==> Occurs(s, sub)
  {
    if |s| < |sub| { return false; }
    if |sub| == 0 {
      assert OccursAt(s, sub, 0);
      return true;
    }
    var i := 0;
    while i <= |s| - |sub|
      invariant 0 <= i
      invariant forall j: nat :: j < i ==> !OccursAt(s, sub, j)
    {
      if s[i..i + |sub|] == sub {
        assert OccursAt(s, sub, i);
        return true;
      }
      i := i + 1;
    }
    found := false;
  }

  // ---------------------------------------------------------------- reference

  /** The pieces with the separator between them. */
  function Join(pieces: seq<Str>, sep: Str): Str
    requires pieces != []
  {
    if |pieces| == 1 then pieces[0] else pieces[0] + sep + Join(pieces[1..], sep)
  }

  /** The pieces are s cut at the leftmost occurrences of old that do not overlap: each but
      the last ends right before the first occurrence in what is left. */
  ghost predicate LeftmostCut(pieces: seq<Str>, s: Str, old_: Str) {
    && pieces != []
    && if |pieces| == 1 then pieces[0] == s && !Occurs(s, old_)
       else
         && OccursAt(s, old_, |pieces[0]|) && pieces[0] == s[..|pieces[0]|]
         && (forall i: nat :: i < |pieces[0]| ==> !OccursAt(s, old_, i))
         && LeftmostCut(pieces[1..], s[|pieces[0]| + |old_|..], old_)
  }

  /** There is only one such cut, and joining it with old gives s back. */
  lemma {:induction false} CutIsUnique(ps: seq<Str>, qs: seq<Str>, s: Str, old_: Str)
    requires LeftmostCut(ps, s, old_) && LeftmostCut(qs, s, old_)
    ensures ps == qs && Join(ps, old_) == s
  {
    if |ps| > 1 {
      assert OccursAt(s, old_, |ps[0]|) && OccursAt(s, old_, |qs[0]|);
      assert |qs| > 1 && |ps[0]| == |qs[0]|;
      CutIsUnique(ps[1..], qs[1..], s[|ps[0]| + |old_|..], old_);
      assert ps == [ps[0]] + ps[1..] && qs == [qs[0]] + qs[1..];
      assert s == ps[0] + old_ + s[|ps[0]| + |old_|..];
    }
  }

  // ---------------------------------------------------------------- replace

  /** Pieces already cut off, before those of the rest. */
  lemma {:induction false} JoinConcat(xs: seq<Str>, ys: seq<Str>, sep: Str)
    requires ys != []
    ensures Join(xs + ys, sep) == Prefixed(xs, sep) + Join(ys, sep)
  {
    if xs == [] {
      assert xs + ys == ys && [] + Join(ys, sep) == Join(ys, sep);
    } else {
      assert (xs + ys)[1..] == xs[1..] + ys;
      JoinConcat(xs[1..], ys, sep);
      assert xs[0] + sep + (Prefixed(xs[1..], sep) + Join(ys, sep))
          == (xs[0] + sep + Prefixed(xs[1..], sep)) + Join(ys, sep);
    }
  }

  function Prefixed(xs: seq<Str>, sep: Str): Str {
    if xs == [] then [] else xs[0] + sep + Prefixed(xs[1..], sep)
  }

  lemma {:induction false} PrefixedSnoc(xs: seq<Str>, x: Str, sep: Str)
    ensures Prefixed(xs + [x], sep) == Prefixed(xs, sep) + x + sep
  {
    if xs == [] {
      assert [x][1..] == [];
      assert x + sep + [] == [] + x + sep;
    } else {
      assert (xs + [x])[1..] == xs[1..] + [x];
      PrefixedSnoc(xs[1..], x, sep);
      assert xs[0] + sep + (Prefixed(xs[1..], sep) + x + sep) == (xs[0] + sep + Prefixed(xs[1..], sep)) + x + sep;
    }
  }

  /** xs cuts the front of s and leaves rest to be cut. */
  ghost predicate CutsTo(xs: seq<Str>, s: Str, old_: Str, rest: Str) {
    if xs == [] then rest == s
    else
      && OccursAt(s, old_, |xs[0]|) && xs[0] == s[..|xs[0]|]
      && (forall i: nat :: i < |xs[0]| ==> !OccursAt(s, old_, i))
      && CutsTo(xs[1..], s[|xs[0]| + |old_|..], old_, rest)
  }

  lemma {:induction false} CutsToSnoc(xs: seq<Str>, s: Str, old_: Str, rest: Str, n: nat)
    requires CutsTo(xs, s, old_, rest) && OccursAt(rest, old_, n) && forall i: nat :: i < n ==> !OccursAt(rest, old_, i)
    ensures CutsTo(xs + [rest[..n]], s, old_, rest[n + |old_|..])
  {
    if xs == [] {
      assert (xs + [rest[..n]])[1..] == [];
    } else {
      CutsToSnoc(xs[1..], s[|xs[0]| + |old_|..], old_, rest, n);
      assert (xs + [rest[..n]])[1..] == xs[1..] + [rest[..n]];
    }
  }

  lemma {:induction false} CutsToEnd(xs: seq<Str>, s: Str, old_: Str, rest: Str)
    requires CutsTo(xs, s, old_, rest) && !Occurs(rest, old_)
    ensures LeftmostCut(xs + [rest], s, old_)
  {
    if xs != [] {
      CutsToEnd(xs[1..], s[|xs[0]| + |old_|..], old_, rest);
      assert (xs + [rest])[1..] == xs[1..] + [rest];
    }
  }

  /** replaceAllStr: the leftmost cut of s around old, joined with new. Its callers never pass
      an empty old, on which the loop would not end. */
  method ReplaceAllStr(s0: Str, old_: Str, new_: Str) returns (result: Str)
    requires old_ != []
    ensures exists pieces :: LeftmostCut(pieces, s0, old_) && result == Join(pieces, new_)
  {
    result := [];
    var s := s0;
    ghost var cut: seq<Str> := [];
    while true
      invariant CutsTo(cut, s0, old_, s) && result == Prefixed(cut, new_)
      decreases |s|
    {
      var idx := IndexOfStr(s, old_);
      if idx == -1 {
        CutsToEnd(cut, s0, old_, s);
        JoinConcat(cut, [s], new_);
        result := result + s;
        assert result == Join(cut + [s], new_);
        return;
      }
      CutsToSnoc(cut, s0, old_, s, idx);
      PrefixedSnoc(cut, s[..idx], new_);
      cut := cut + [s[..idx]];
      result := result + s[..idx];
      result := result + new_;
      s := s[idx + |old_|..];
    }
  }

  // ---------------------------------------------------------------- consequences

  /** The length changes by the same amount for every occurrence replaced. */
  lemma {:induction false} JoinLength(pieces: seq<Str>, old_: Str, new_: Str)
    requires pieces != []
    ensures |Join(pieces, new_)| == |Join(pieces, old_)| + (|pieces| - 1) * (|new_| - |old_|)
  {
    if |pieces| > 1 {
      JoinLength(pieces[1..], old_, new_);
      assert (|pieces| - 1) * (|new_| - |old_|) == (|pieces[1..]| - 1) * (|new_| - |old_|) + (|new_| - |old_|);
    }
  }

  /** Replacing changes nothing when old does not occur or equals new, and otherwise the
      length tells how many occurrences there were. */
  lemma ReplaceEffects(pieces: seq<Str>, s: Str, old_: Str, new_: Str)
    requires LeftmostCut(pieces, s, old_)
    ensures !Occurs(s, old_) ==> pieces == [s] && Join(pieces, new_) == s
    ensures new_ == old_ ==> Join(pieces, new_) == s
    ensures |Join(pieces, new_)| == |s| + (|pieces| - 1) * (|new_| - |old_|)
  {
    CutIsUnique(pieces, pieces, s, old_);
    JoinLength(pieces, old_, new_);
  }

  /** Replacing old by a byte that is foreign to s can be undone by replacing it back. */
  lemma {:induction false} ForeignByteRoundTrip(pieces: seq<Str>, s: Str, old_: Str, b: byte)
    requires LeftmostCut(pieces, s, old_) && b !in s
    ensures LeftmostCut(pieces, Join(pieces, [b]), [b])
  {
    var t := Join(pieces, [b]);
    var p := pieces[0];
    if |pieces| == 1 {
      forall i: nat ensures !OccursAt(t, [b], i) {
        if i + 1 <= |t| { assert t[i] in s; }
      }
    } else {
      var rest := Join(pieces[1..], [b]);
      ForeignByteRoundTrip(pieces[1..], s[|p| + |old_|..], old_, b);
      assert t == p + [b] + rest && t[|p| + 1..] == rest;
      assert t[|p|..|p| + 1] == [b];
      forall i: nat | i < |p| ensures !OccursAt(t, [b], i) {
        assert t[i] == p[i] == s[i];
      }
      assert t[..|p|] == p;
    }
  }
}
