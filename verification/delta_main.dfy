/** The central law: a replica holding the old image and given the delta ends with the new one. */
module DeltaTheorem {
  import opened Bytes
  import opened Values
  import opened ValueCodec
  import opened UpdateCodec
  import opened Sameness
  import opened Patches
  import opened Diffs
  import opened DiffSoundness
  import opened DiffTotality
  import opened Deltas
  import opened DeltaSoundness
  import opened Applying
  import opened Overlays

  // ---- parts of an image ----

  lemma {:induction false} ErasedMeasures(fs: seq<Field>, k: bytes)
    requires Has(fs, k)
    ensures FieldsSize(fs) == FieldsSize(Erase(fs, k)) + 1 + |k| + Size(Lookup(fs, k).value)
    ensures FieldsNodes(fs) == FieldsNodes(Erase(fs, k)) + Nodes(Lookup(fs, k).value)
    ensures FieldsHeight(fs) == Max(1 + Height(Lookup(fs, k).value), FieldsHeight(Erase(fs, k)))
    decreases fs
  {
    hide Size, Nodes, Height;
    if fs[0].name != k {
      ErasedMeasures(fs[1..], k);
      assert Erase(fs, k)[1..] == Erase(fs[1..], k);
    }
  }

  /** Every field of `part` is a field of `whole`. */
  predicate Within(part: seq<Field>, whole: seq<Field>) {
    forall i :: 0 <= i < |part| ==> Lookup(whole, part[i].name) == Some(part[i].value)
  }

  /** Some of the fields of a map cost no more than the map. */
  lemma {:induction false} PartMeasures(part: seq<Field>, whole: seq<Field>)
    requires Sorted(part) && Sorted(whole) && Within(part, whole)
    ensures FieldsSize(part) <= FieldsSize(whole) && FieldsNodes(part) <= FieldsNodes(whole)
    ensures FieldsHeight(part) <= FieldsHeight(whole) && |part| <= |whole|
    decreases part
  {
    hide Size, Nodes, Height;
    if part != [] {
      var f := part[0];
      assert part == [f] + part[1..];
      SortedCons(f, part[1..]);
      ErasedMeasures(whole, f.name);
      EraseSorted(whole, f.name);
      forall i | 0 <= i < |part[1..]|
        ensures Lookup(Erase(whole, f.name), part[1..][i].name) == Some(part[1..][i].value)
      {
        assert part[1..][i] == part[i + 1];
        EraseLookup(whole, f.name, part[i + 1].name);
        LessIrreflexive(f.name);
      }
      PartMeasures(part[1..], Erase(whole, f.name));
    }
  }

  lemma PartShapes(part: seq<Field>, whole: seq<Field>)
    requires Within(part, whole) && FieldShapes(whole, true)
    ensures FieldShapes(part, true)
  {
    hide FieldShape;
    forall i | 0 <= i < |part| ensures FieldShape(part[i], true) {
      var j := LookupFinds(whole, part[i].name);
    }
  }

  lemma {:induction false} ValuesOfSorted(roots: seq<Field>, cs: seq<Choice>, key: bytes)
    requires |roots| == |cs| && Sorted(roots)
    ensures Sorted(ValuesOf(roots, cs)) && (Below(key, roots) ==> Below(key, ValuesOf(roots, cs)))
    ensures forall f :: f in ValuesOf(roots, cs) ==> f in roots
    decreases roots
  {
    if roots != [] {
      assert roots == [roots[0]] + roots[1..];
      SortedCons(roots[0], roots[1..]);
      ValuesOfSorted(roots[1..], cs[1..], roots[0].name);
      ValuesOfSorted(roots[1..], cs[1..], key);
      SortedCons(roots[0], ValuesOf(roots[1..], cs[1..]));
      if Below(key, roots) { assert Below(key, roots[1..]); }
    }
  }

  lemma ValuesWithin(roots: seq<Field>, cs: seq<Choice>)
    requires |roots| == |cs| && Sorted(roots)
    ensures Sorted(ValuesOf(roots, cs)) && Within(ValuesOf(roots, cs), roots)
  {
    ValuesOfSorted(roots, cs, []);
    var vs := ValuesOf(roots, cs);
    forall i | 0 <= i < |vs| ensures Lookup(roots, vs[i].name) == Some(vs[i].value) {
      assert vs[i] in roots;
      var j :| 0 <= j < |roots| && roots[j] == vs[i];
      LookupAt(roots, j);
    }
  }

  /** An update carrying whole roots of a valid image can be sent. */
  lemma PartEncodable(next: Update, base: nat, part: seq<Field>)
    requires ValidImage(next) && base <= next.revision && Sorted(part) && Within(part, next.values)
    ensures Encodable(Update(base, next.revision, false, part, []))
    ensures UpdateSize(Update(base, next.revision, false, part, [])) <= UpdateSize(next)
  {
    hide Within, FieldsSize, FieldsNodes, FieldsHeight, FieldShapes, Sorted, Has;
    PartMeasures(part, next.values);
    PartShapes(part, next.values);
    NoPatches(Update(base, next.revision, false, part, []));
  }

  // ---- sparse updates have the right shape ----

  lemma {:induction false} AllPatchesCosted(prev: seq<Field>, roots: seq<Field>, cs: seq<Choice>)
    requires ChoicesOk(prev, roots, cs)
    ensures AllCosted(PatchesOf(cs))
    decreases cs
  {
    hide Costed, Placed, TurnsAll, Unchanged;
    if cs != [] {
      AllPatchesCosted(prev, roots[1..], cs[1..]);
    }
  }

  lemma {:induction false} OnHas(ps: seq<Patch>, i: nat)
    requires i < |ps|
    ensures On(ps, ps[i].property) != []
    decreases ps
  {
    if i > 0 {
      assert ps[1..][i - 1] == ps[i];
      OnHas(ps[1..], i - 1);
    }
  }

  lemma SparseShape(prev: seq<Field>, base: nat, next: Update, cs: seq<Choice>)
    requires ValidImage(next) && base <= next.revision && ChoicesOk(prev, next.values, cs) && |PatchesOf(cs)| <= 256
    ensures UpdateShape(Sparse(base, next, cs))
  {
    hide ValuesOf, PatchesOf, Shape, PatchShape, FieldShapes, Within, ChoiceOk, Lookup;
    var u := Sparse(base, next, cs);
    ValuesWithin(next.values, cs);
    PartShapes(u.values, next.values);
    PartMeasures(u.values, next.values);
    AllPatchesCosted(prev, next.values, cs);
    forall i | 0 <= i < |u.patches|
      ensures PatchShape(u.patches[i]) && !Has(u.values, u.patches[i].property)
    {
      assert Costed(u.patches[i]);
      AssembledValue(next.values, cs, u.patches[i].property);
      AssembledEdits(prev, next.values, cs, u.patches[i].property);
      OnHas(u.patches, i);
    }
  }

  lemma {:induction false} UsedBound(prev: seq<Field>, roots: seq<Field>, used: nat)
    requires FieldChoices(prev, roots, used).Ok? && FieldChoices(prev, roots, used).value.Some? && used <= 256
    ensures used + |PatchesOf(FieldChoices(prev, roots, used).value.value)| <= 256
    decreases roots
  {
    hide FieldChoice;
    if roots != [] {
      var c := FieldChoice(prev, roots[0]).value;
      var total := used + (if c.Edits? then |c.ps| else 0);
      UsedBound(prev, roots[1..], total);
      var cs := FieldChoices(prev, roots, used).value.value;
      assert cs[1..] == FieldChoices(prev, roots[1..], total).value.value;
    }
  }

  /** The old image provides good values for all its roots. */
  predicate GoodHeld(prev: seq<Field>) { forall k :: k in Names(prev) ==> Good(Lookup(prev, k).value) }

  function Names(fs: seq<Field>): (s: set<bytes>)
    ensures forall k :: k in s <==> Has(fs, k)
  {
    if fs == [] then {} else {fs[0].name} + Names(fs[1..])
  }

  lemma ImageGoodHeld(u: Update)
    requires ValidImage(u)
    ensures GoodHeld(u.values)
  {
    hide Good, Lookup;
    forall k | k in Names(u.values) ensures Good(Lookup(u.values, k).value) {
      var i := LookupFinds(u.values, k);
      ImageRoots(u, i);
    }
  }

  lemma {:induction false} FieldChoicesOk(prev: seq<Field>, roots: seq<Field>, used: nat)
    requires GoodHeld(prev) && forall i :: 0 <= i < |roots| ==> GoodRoot(roots[i])
    ensures FieldChoices(prev, roots, used).Ok?
    ensures FieldChoices(prev, roots, used).value.Some? ==>
      ChoicesOk(prev, roots, FieldChoices(prev, roots, used).value.value)
    decreases roots
  {
    hide FieldChoice, ChoiceOk, GoodRoot, Good, Lookup;
    if roots != [] {
      FieldOk(prev, roots[0]);
      var c := FieldChoice(prev, roots[0]).value;
      var total := used + (if c.Edits? then |c.ps| else 0);
      FieldChoicesOk(prev, roots[1..], total);
      var r := FieldChoices(prev, roots, used).value;
      if r.Some? {
        forall i | 0 <= i < |roots| ensures ChoiceOk(prev, roots[i], r.value[i]) {
          if i > 0 { assert roots[i] == roots[1..][i - 1] && r.value[i] == r.value[1..][i - 1]; }
        }
      }
    }
  }

  // ---- the delta exists, is no larger than plain replacement, and delivers the new image ----

  lemma SmallerGood(candidate: Update, best: Update)
    requires UpdateShape(candidate) && Encodable(best)
    ensures Smaller(candidate, best).Ok?
    ensures var u := Smaller(candidate, best).value;
      u == best || (u == candidate && Encodable(candidate) && UpdateSize(candidate) < UpdateSize(best))
  {
    hide WireLength, Encodable, UpdateShape, UpdateSize;
    WireLengthExact(candidate);
    WireLengthExact(best);
  }

  ghost predicate GoodDelta(u: Update, prev: Update, next: Update) {
    if u.snapshot then u == next
    else
      && u.base == prev.revision && u.revision == next.revision && Sorted(u.values) && Within(u.values, next.values)
      && TypedPatches(u.patches) && Encodable(u) && Delivers(u, prev.values, next.values)
      && UpdateSize(u) <= UpdateSize(Full(prev, next))
  }

  lemma SparseDelivers(prev: Update, next: Update, cs: seq<Choice>)
    requires ValidImage(next) && prev.revision <= next.revision && ChoicesOk(prev.values, next.values, cs)
    requires forall i :: 0 <= i < |prev.values| ==> Has(next.values, prev.values[i].name)
    ensures var u := Sparse(prev.revision, next, cs);
      && !u.snapshot && Sorted(u.values) && Within(u.values, next.values) && Delivers(u, prev.values, next.values)
      && TypedPatches(u.patches)
      && (|u.patches| <= 256 ==> UpdateShape(u))
  {
    hide ChoicesOk, Within, Delivers, Encodable, UpdateShape, ValuesOf, PatchesOf, Lookup;
    assert |cs| == |next.values| by { ChoicesLength(prev.values, next.values, cs); }
    AssembledDelivers(prev.values, prev.revision, next, cs);
    ValuesWithin(next.values, cs);
    AllPatchesCosted(prev.values, next.values, cs);
    if |PatchesOf(cs)| <= 256 { SparseShape(prev.values, prev.revision, next, cs); }
  }

  lemma ChoicesLength(prev: seq<Field>, roots: seq<Field>, cs: seq<Choice>)
    requires ChoicesOk(prev, roots, cs)
    ensures |cs| == |roots|
  {
  }

  lemma NoEdits(cs: seq<Choice>)
    requires forall i :: 0 <= i < |cs| ==> !cs[i].Edits?
    ensures PatchesOf(cs) == []
  {
  }

  lemma FullGood(prev: Update, next: Update)
    requires ValidImage(next) && prev.revision <= next.revision
    requires forall i :: 0 <= i < |prev.values| ==> Has(next.values, prev.values[i].name)
    ensures GoodDelta(Full(prev, next), prev, next) && Full(prev, next).patches == []
  {
    hide Within, Delivers, Encodable, UpdateShape, ValuesOf, PatchesOf, Lookup, ChoiceOk, WholeChoices;
    var cs := WholeChoices(prev.values, next.values);
    forall i | 0 <= i < |cs| ensures ChoiceOk(prev.values, next.values[i], cs[i]) {
      WholeOk(prev.values, next.values[i]);
    }
    SparseDelivers(prev, next, cs);
    NoEdits(cs);
    PartEncodable(next, prev.revision, ValuesOf(next.values, cs));
  }

  lemma ContainerDeltaGood(prev: Update, next: Update)
    requires ValidImage(prev) && ValidImage(next) && prev.revision <= next.revision
    ensures ContainerDelta(prev, next).Ok? && GoodDelta(ContainerDelta(prev, next).value, prev, next)
    ensures !ContainerDelta(prev, next).value.snapshot ==>
              forall i :: 0 <= i < |prev.values| ==> Has(next.values, prev.values[i].name)
  {
    hide Within, Delivers, Encodable, UpdateShape, UpdateSize, ValuesOf, PatchesOf, Lookup, ChoiceOk, ContainerChoices,
         WholeChoices, WireLength, Smaller, TypedFields;
    if forall i :: 0 <= i < |prev.values| ==> Has(next.values, prev.values[i].name) {
      FullGood(prev, next);
      WireLengthExact(Full(prev, next));
      var cs := ContainerChoices(prev.values, next.values);
      ImageGoodHeld(prev);
      forall i | 0 <= i < |cs| ensures ChoiceOk(prev.values, next.values[i], cs[i]) {
        ImageRoots(next, i);
        ContainerOk(prev.values, next.values[i]);
      }
      SparseDelivers(prev, next, cs);
      var sparse := Sparse(prev.revision, next, cs);
      if |sparse.patches| <= 256 { SmallerGood(sparse, Full(prev, next)); }
    }
  }

  /** On valid images `attribute_delta` always succeeds, never beats plain replacement by being larger, and delivers the
      new image. */
  lemma DeltaGood(prev: Update, next: Update)
    requires ValidImage(prev) && ValidImage(next) && prev.revision <= next.revision
    ensures Delta(prev, next).Ok? && GoodDelta(Delta(prev, next).value, prev, next)
  {
    hide Within, Delivers, Encodable, UpdateShape, UpdateSize, ValuesOf, PatchesOf, Lookup, ContainerDelta,
         FieldChoices, ChoicesOk, Smaller, Full, GoodRoot, GoodHeld;
    ContainerDeltaGood(prev, next);
    var best := ContainerDelta(prev, next).value;
    if !best.snapshot {
      ImageGoodHeld(prev);
      forall i | 0 <= i < |next.values| ensures GoodRoot(next.values[i]) { ImageRoots(next, i); }
      FieldChoicesOk(prev.values, next.values, 0);
      var r := FieldChoices(prev.values, next.values, 0).value;
      if r.Some? {
        UsedBound(prev.values, next.values, 0);
        SparseDelivers(prev, next, r.value);
        SmallerGood(Sparse(prev.revision, next, r.value), best);
      }
    }
  }

  /** Whether every root of the old image is in the new one; otherwise only a snapshot can say what is gone. */
  predicate KeepsRoots(prev: Update, next: Update) {
    forall i :: 0 <= i < |prev.values| ==> Has(next.values, prev.values[i].name)
  }

  /** A form that was tried: it has patches, no more than 256 of them, and can be encoded. */
  predicate Tried(u: Update) { 0 < |u.patches| <= 256 && Encodable(u) }

  function ContainerForm(prev: Update, next: Update): Update {
    Sparse(prev.revision, next, ContainerChoices(prev.values, next.values))
  }

  /** The field-by-field form, unless it was given up past 256 patches. */
  function FieldForm(prev: Update, next: Update): Option<Update> {
    match FieldChoices(prev.values, next.values, 0)
    case Ok(Some(cs)) => Some(Sparse(prev.revision, next, cs))
    case _ => None
  }

  lemma ContainerSmallest(prev: Update, next: Update)
    requires ValidImage(prev) && ValidImage(next) && prev.revision <= next.revision && KeepsRoots(prev, next)
    ensures var r := ContainerDelta(prev, next); var full, sparse := Full(prev, next), ContainerForm(prev, next);
      && r.Ok? && !r.value.snapshot && UpdateSize(r.value) <= UpdateSize(full) && Encodable(r.value)
      && (Tried(sparse) ==> UpdateSize(r.value) <= UpdateSize(sparse))
      && (r.value == full || (r.value == sparse && Tried(sparse) && UpdateSize(sparse) < UpdateSize(full)))
  {
    hide Within, Delivers, Encodable, UpdateShape, UpdateSize, ValuesOf, PatchesOf, Lookup, ChoiceOk, ContainerChoices,
         WholeChoices, WireLength, TypedFields;
    FullGood(prev, next);
    ContainerDeltaGood(prev, next);
    WireLengthExact(Full(prev, next));
    WireLengthExact(ContainerForm(prev, next));
  }

  /** The delta is the smallest of the three forms; a tie goes to the plainer one. */
  lemma DeltaSmallest(prev: Update, next: Update)
    requires ValidImage(prev) && ValidImage(next) && prev.revision <= next.revision
    ensures Delta(prev, next).Ok? && (Delta(prev, next).value.snapshot <==> !KeepsRoots(prev, next))
    ensures var u := Delta(prev, next).value; var full, sparse := Full(prev, next), ContainerForm(prev, next);
      var fields := FieldForm(prev, next);
      KeepsRoots(prev, next) ==>
        && UpdateSize(u) <= UpdateSize(full) && (Tried(sparse) ==> UpdateSize(u) <= UpdateSize(sparse))
        && (fields.Some? && Tried(fields.value) ==> UpdateSize(u) <= UpdateSize(fields.value))
        && (|| u == full || (u == sparse && Tried(sparse) && UpdateSize(u) < UpdateSize(full))
            || (&& fields == Some(u) && Tried(u) && UpdateSize(u) < UpdateSize(full)
                && (Tried(sparse) ==> UpdateSize(u) < UpdateSize(sparse))))
  {
    hide Within, Delivers, Encodable, UpdateShape, UpdateSize, ValuesOf, PatchesOf, Lookup, ContainerDelta, Sparse,
         FieldChoices, ChoicesOk, Full, GoodRoot, GoodHeld, ContainerForm, WireLength, KeepsRoots;
    DeltaGood(prev, next);
    if KeepsRoots(prev, next) {
      ContainerSmallest(prev, next);
      FieldsShort(prev, next);
      WireLengthExact(ContainerDelta(prev, next).value);
      if FieldForm(prev, next).Some? { WireLengthExact(FieldForm(prev, next).value); }
    } else {
      LostRoot(prev, next);
    }
  }

  lemma LostRoot(prev: Update, next: Update)
    requires ValidImage(prev) && ValidImage(next) && !KeepsRoots(prev, next)
    ensures ContainerDelta(prev, next) == Ok(next) && next.snapshot
  {
  }

  lemma FieldsShort(prev: Update, next: Update)
    requires ValidImage(prev) && ValidImage(next)
    ensures FieldForm(prev, next).Some? ==> |FieldForm(prev, next).value.patches| <= 256
  {
    hide FieldChoices;
    if FieldForm(prev, next).Some? { UsedBound(prev.values, next.values, 0); }
  }
}
