/** Values that compare equal cost the same on the wire and meet the same limits. */
module Sameness {
  import opened Bytes
  import opened Values
  import opened ValueCodec

  lemma {:induction false} SameReflexive(v: Value)
    requires Shape(v)
    ensures Same(v, v)
  {
    match v {
      case Struct(fs) => forall i | 0 <= i < |fs| ensures Same(fs[i].value, fs[i].value) { SameReflexive(fs[i].value); }
      case Array(xs) => forall i | 0 <= i < |xs| ensures Same(xs[i], xs[i]) { SameReflexive(xs[i]); }
      case Map(es) => forall i | 0 <= i < |es| ensures Same(es[i].value, es[i].value) { SameReflexive(es[i].value); }
      case _ =>
    }
  }

  /** Equal measures, and limits that carry over. */
  predicate Alike(a: Value, b: Value) {
    && Size(a) == Size(b) && Nodes(a) == Nodes(b) && Height(a) == Height(b)
    && (Shape(b) ==> Shape(a)) && (Typed(b) ==> Typed(a))
  }

  lemma {:induction false} SameAlike(a: Value, b: Value)
    requires Same(a, b)
    ensures Alike(a, b)
    decreases a, 1
  {
    match a {
      case Struct(fs) => SameFieldsAlike(fs, b.fields);
      case Array(xs) => SameItemsAlike(xs, b.items);
      case Map(es) => SameFieldsAlike(es, b.entries);
      case _ =>
    }
  }

  lemma {:induction false} SameFieldsAlike(a: seq<Field>, b: seq<Field>)
    requires SameFields(a, b)
    ensures FieldsSize(a) == FieldsSize(b) && FieldsNodes(a) == FieldsNodes(b) && FieldsHeight(a) == FieldsHeight(b)
    ensures forall names :: FieldShapes(b, names) ==> FieldShapes(a, names)
    ensures forall i :: 0 <= i < |a| ==>
      (Shape(b[i].value) ==> Shape(a[i].value)) && (Typed(b[i].value) ==> Typed(a[i].value))
    ensures TypedFields(b) ==> TypedFields(a)
    decreases a, 0
  {
    hide Same, Shape, Typed, Size, Nodes, Height, Less;
    if a != [] {
      SameAlike(a[0].value, b[0].value);
      SameFieldsAlike(a[1..], b[1..]);
      forall i | 0 <= i < |a|
        ensures (Shape(b[i].value) ==> Shape(a[i].value)) && (Typed(b[i].value) ==> Typed(a[i].value))
      {
        if i > 0 { assert a[i] == a[1..][i - 1] && b[i] == b[1..][i - 1]; }
      }
    }
  }

  lemma {:induction false} SameItemsAlike(a: seq<Value>, b: seq<Value>)
    requires SameItems(a, b)
    ensures ItemsSize(a) == ItemsSize(b) && ItemsNodes(a) == ItemsNodes(b) && ItemsHeight(a) == ItemsHeight(b)
    ensures forall i :: 0 <= i < |a| ==> (Shape(b[i]) ==> Shape(a[i])) && (Typed(b[i]) ==> Typed(a[i]))
    decreases a, 0
  {
    hide Same, Shape, Typed, Size, Nodes, Height;
    if a != [] {
      SameAlike(a[0], b[0]);
      SameItemsAlike(a[1..], b[1..]);
      forall i | 0 <= i < |a|
        ensures (Shape(b[i]) ==> Shape(a[i])) && (Typed(b[i]) ==> Typed(a[i]))
      {
        if i > 0 { assert a[i] == a[1..][i - 1] && b[i] == b[1..][i - 1]; }
      }
    }
  }

  // ---- what a part contributes to its whole ----

  lemma {:induction false} FieldPart(fs: seq<Field>, i: nat)
    requires i < |fs|
    ensures 1 + |fs[i].name| + Size(fs[i].value) <= FieldsSize(fs)
    ensures Nodes(fs[i].value) <= FieldsNodes(fs) && 1 + Height(fs[i].value) <= FieldsHeight(fs)
    decreases fs
  {
    hide Size, Nodes, Height;
    if i > 0 {
      assert fs[1..][i - 1] == fs[i];
      FieldPart(fs[1..], i - 1);
    }
  }

  lemma {:induction false} ItemPart(xs: seq<Value>, i: nat)
    requires i < |xs|
    ensures Size(xs[i]) <= ItemsSize(xs) && Nodes(xs[i]) <= ItemsNodes(xs) && 1 + Height(xs[i]) <= ItemsHeight(xs)
    decreases xs
  {
    hide Size, Nodes, Height;
    if i > 0 {
      assert xs[1..][i - 1] == xs[i];
      ItemPart(xs[1..], i - 1);
    }
  }

  /** A stretch of an array costs no more than the array. */
  lemma {:induction false} ItemSlice(xs: seq<Value>, lo: nat, hi: nat)
    requires lo <= hi <= |xs|
    ensures ItemsSize(xs[lo..hi]) <= ItemsSize(xs) && ItemsNodes(xs[lo..hi]) <= ItemsNodes(xs)
    ensures ItemsHeight(xs[lo..hi]) <= ItemsHeight(xs)
    decreases xs, lo
  {
    hide Size, Nodes, Height;
    if lo < hi {
      if lo == 0 {
        ItemSlice(xs[1..], 0, hi - 1);
        assert xs[0..hi][1..] == xs[1..][0..hi - 1];
      } else {
        ItemSlice(xs[1..], lo - 1, hi - 1);
        assert xs[1..][lo - 1..hi - 1] == xs[lo..hi];
      }
    }
  }

  // ---- counting keys ----

  /** A sorted map whose keys all occur in another has no more entries. */
  lemma {:induction false} FewerKeys(a: seq<Field>, b: seq<Field>)
    requires Sorted(a) && Sorted(b) && forall i :: 0 <= i < |a| ==> Has(b, a[i].name)
    ensures |a| <= |b|
    decreases |b|
  {
    if a != [] {
      var p := LookupFinds(b, a[0].name);
      EraseSorted(b, a[0].name);
      assert a == [a[0]] + a[1..];
      SortedCons(a[0], a[1..]);
      forall i | 0 <= i < |a[1..]|
        ensures Has(Erase(b, a[0].name), a[1..][i].name)
      {
        assert a[1..][i] == a[i + 1];
        EraseLookup(b, a[0].name, a[i + 1].name);
        LessIrreflexive(a[0].name);
        assert Less(a[0].name, a[i + 1].name);
      }
      FewerKeys(a[1..], Erase(b, a[0].name));
    }
  }

  /** Sorted maps of one size, one containing the keys of the other, list the same keys. */
  lemma {:induction false} SameKeys(a: seq<Field>, b: seq<Field>)
    requires Sorted(a) && Sorted(b) && |a| == |b| && forall i :: 0 <= i < |a| ==> Has(b, a[i].name)
    ensures forall i :: 0 <= i < |a| ==> a[i].name == b[i].name
    decreases a
  {
    if a != [] {
      assert a == [a[0]] + a[1..] && b == [b[0]] + b[1..];
      SortedCons(a[0], a[1..]);
      SortedCons(b[0], b[1..]);
      var p := LookupFinds(b, a[0].name);
      forall i | 0 <= i < |a| && (p > 0 || i > 0)
        ensures Has(b[1..], a[i].name)
      {
        var q := LookupFinds(b, a[i].name);
        LessIrreflexive(b[0].name);
        if q == 0 {
          if i > 0 { assert Less(a[0].name, a[i].name); }
          if p > 0 { assert Less(b[0].name, b[p].name); if i > 0 { LessTransitive(b[0].name, a[0].name, b[0].name); } }
        }
        assert b[1..] != [];
      }
      if p > 0 {
        FewerKeys(a, b[1..]);
      }
      forall i | 0 <= i < |a[1..]| ensures Has(b[1..], a[1..][i].name) { assert a[1..][i] == a[i + 1]; }
      SameKeys(a[1..], b[1..]);
      forall i | 0 <= i < |a| ensures a[i].name == b[i].name {
        if i > 0 { assert a[i] == a[1..][i - 1] && b[i] == b[1..][i - 1]; }
      }
    }
  }
}
