/** No splice between two arrays is cheaper than the one that leaves their longest common prefix and suffix. */
module Splices {
  import opened Bytes
  import opened Values
  import opened ValueCodec
  import opened UpdateCodec
  import opened Sameness
  import opened Diffs

  /** The `i`-th items from the back are equal. */
  predicate SameBack(a: seq<Value>, b: seq<Value>, i: int) {
    1 <= i <= |a| && i <= |b| && Same(a[|a| - i], b[|b| - i])
  }

  /** A splice that keeps `n` items in front and `m` at the back is good for turning `was` into `now`. */
  predicate Cuts(was: seq<Value>, now: seq<Value>, n: nat, m: nat) {
    && n + m <= |was| && n + m <= |now| && (forall i :: 0 <= i < n ==> Same(was[i], now[i]))
    && (forall i :: 1 <= i <= m ==> SameBack(was, now, i))
  }

  function SpliceAt(property: bytes, path: seq<Step>, was: seq<Value>, now: seq<Value>, n: nat, m: nat): Patch
    requires n + m <= |was| && n + m <= |now|
  {
    Splice(property, path, n, |was| - n - m, now[n..|now| - m])
  }

  lemma {:induction false} PrefixLongest(a: seq<Value>, b: seq<Value>, n: nat)
    requires n <= |a| && n <= |b| && forall i :: 0 <= i < n ==> Same(a[i], b[i])
    ensures n <= Prefix(a, b)
    decreases n
  {
    hide Same;
    if n > 0 {
      forall i | 0 <= i < n - 1 ensures Same(a[1..][i], b[1..][i]) { assert a[1..][i] == a[i + 1]; }
      PrefixLongest(a[1..], b[1..], n - 1);
    }
  }

  lemma {:induction false} SuffixLongest(a: seq<Value>, b: seq<Value>, m: nat)
    requires m <= |a| && m <= |b| && forall i :: 1 <= i <= m ==> SameBack(a, b, i)
    ensures m <= Suffix(a, b)
    decreases m
  {
    hide Same;
    if m > 0 {
      var c, d := a[..|a| - 1], b[..|b| - 1];
      assert SameBack(a, b, 1);
      forall i | 1 <= i <= m - 1 ensures SameBack(c, d, i) {
        assert SameBack(a, b, i + 1);
        assert c[|c| - i] == a[|a| - (i + 1)] && d[|d| - i] == b[|b| - (i + 1)];
      }
      SuffixLongest(c, d, m - 1);
    }
  }

  lemma {:induction false} SizeConcat(a: seq<Value>, b: seq<Value>)
    ensures ItemsSize(a + b) == ItemsSize(a) + ItemsSize(b)
    decreases a
  {
    hide Size;
    if a == [] {
      assert a + b == b;
    } else {
      assert (a + b)[1..] == a[1..] + b;
      SizeConcat(a[1..], b);
    }
  }

  /** A stretch inside a stretch is no larger. */
  lemma SliceInside(xs: seq<Value>, a: nat, b: nat, c: nat, d: nat)
    requires a <= b <= c <= d <= |xs|
    ensures ItemsSize(xs[b..c]) <= ItemsSize(xs[a..d])
  {
    hide ItemsSize;
    assert xs[a..d] == xs[a..b] + xs[b..c] + xs[c..d];
    SizeConcat(xs[a..b] + xs[b..c], xs[c..d]);
    SizeConcat(xs[a..b], xs[b..c]);
  }

  /** Moving a window over items that repeat at its length leaves its size. */
  lemma {:induction false} WindowMoves(xs: seq<Value>, a: nat, b: nat, length: nat)
    requires a <= b && b + length <= |xs| && forall i :: a <= i < b ==> Size(xs[i]) == Size(xs[i + length])
    ensures ItemsSize(xs[a..a + length]) == ItemsSize(xs[b..b + length])
    decreases b - a
  {
    hide Size;
    if a < b {
      WindowMoves(xs, a + 1, b, length);
      SizeConcat([xs[a]], xs[a + 1..a + 1 + length]);
      SizeConcat(xs[a..a + length], [xs[a + length]]);
      var all := xs[a..a + length + 1];
      assert all == [xs[a]] + xs[a + 1..a + 1 + length];
      assert all == xs[a..a + length] + [xs[a + length]];
      OneSize(xs[a]);
      OneSize(xs[a + length]);
    }
  }

  lemma OneSize(v: Value)
    ensures ItemsSize([v]) == Size(v)
  {
    hide Size;
    assert [v][1..] == [];
  }

  /** No splice that turns one array into the other is cheaper than the one between prefix and suffix. */
  lemma SpliceLeast(property: bytes, path: seq<Step>, was: seq<Value>, now: seq<Value>, n: nat, m: nat)
    requires Cuts(was, now, n, m)
    ensures PatchSize(SpliceOf(property, path, was, now), true) <= PatchSize(SpliceAt(property, path, was, now, n, m),
                                                                             true)
  {
    hide Same, ItemsSize, Prefix, Suffix, PathSize;
    var p := Prefix(was, now);
    var q := Suffix(was[p..], now[p..]);
    PrefixLongest(was, now, n);
    if m <= q {
      SliceInside(now, n, p, |now| - q, |now| - m);
    } else {
      SuffixMeets(was, now, m);
      if |was| < |now| {
        OverlapMoves(was, now, m);
        SliceInside(now, n, |was| - m, |now| - m, |now| - m);
      } else {
        assert now[p..|now| - q] == [];
        NoItems();
      }
    }
  }

  lemma NoItems()
    ensures ItemsSize([]) == 0
  {
  }

  /** A common suffix longer than the one behind the prefix overlaps the prefix. */
  lemma SuffixMeets(was: seq<Value>, now: seq<Value>, m: nat)
    requires m <= |was| && m <= |now| && forall i :: 1 <= i <= m ==> SameBack(was, now, i)
    requires var p := Prefix(was, now); m > Suffix(was[p..], now[p..])
    ensures var p := Prefix(was, now); var q := Suffix(was[p..], now[p..]); p + q == |was| || p + q == |now|
  {
    hide Same, Prefix, Suffix;
    var p := Prefix(was, now);
    var q := Suffix(was[p..], now[p..]);
    if p + q < |was| && p + q < |now| {
      hide SameBack;
      var a, b := was[p..], now[p..];
      forall i | 1 <= i <= q + 1 ensures SameBack(a, b, i) {
        assert SameBack(was, now, i);
        BackBehind(was, now, p, i);
      }
      SuffixLongest(a, b, q + 1);
    }
  }

  lemma BackBehind(was: seq<Value>, now: seq<Value>, p: nat, i: nat)
    requires p + i <= |was| && p + i <= |now| && SameBack(was, now, i)
    ensures SameBack(was[p..], now[p..], i)
  {
    hide Same;
  }

  lemma Repeats(was: seq<Value>, now: seq<Value>, i: nat)
    requires i < |was| < |now| && Same(was[i], now[i]) && SameBack(was, now, |was| - i)
    ensures Size(now[i]) == Size(now[i + |now| - |was|])
  {
    hide Same, Size, Nodes, Height, Shape, Typed;
    SameAlike(was[i], now[i]);
    SameAlike(was[i], now[i + |now| - |was|]);
  }

  /** Where prefix and suffix overlap, the inserted items repeat and the place of the insertion does not matter. */
  lemma OverlapMoves(was: seq<Value>, now: seq<Value>, m: nat)
    requires m <= |was| < |now| && forall i :: 1 <= i <= m ==> SameBack(was, now, i)
    requires var p := Prefix(was, now); m > Suffix(was[p..], now[p..])
    ensures var p := Prefix(was, now); var q := Suffix(was[p..], now[p..]);
      ItemsSize(now[p..|now| - q]) == ItemsSize(now[|was| - m..|now| - m])
  {
    hide Same, Prefix, Suffix, ItemsSize, SameBack, Size;
    var p := Prefix(was, now);
    SuffixMeets(was, now, m);
    var length := |now| - |was|;
    forall i | |was| - m <= i < p ensures Size(now[i]) == Size(now[i + length]) {
      assert SameBack(was, now, |was| - i);
      Repeats(was, now, i);
    }
    WindowMoves(now, |was| - m, p, length);
  }
}
