/** Applying a delta to any replica whose image equals the old one. */
module DeltaApplication {
  import opened Bytes
  import opened Values
  import opened ValueCodec
  import opened UpdateCodec
  import opened Sameness
  import opened Patches
  import opened DiffSoundness
  import opened Deltas
  import opened DeltaSoundness
  import opened Applying
  import opened Overlays
  import opened DeltaTheorem

  /** The copy of root `k` the patches start from. */
  function Root(held: seq<Field>, roots: seq<Field>, k: bytes): Option<Value> {
    if Has(roots, k) then Lookup(roots, k) else Lookup(held, k)
  }

  ghost predicate Editable(held: seq<Field>, roots: seq<Field>, ps: seq<Patch>) {
    forall k :: EditableAt(held, roots, ps, k)
  }

  predicate EditableAt(held: seq<Field>, roots: seq<Field>, ps: seq<Patch>, k: bytes) {
    On(ps, k) != [] ==> Root(held, roots, k).Some? && ApplyAll(Root(held, roots, k).value, On(ps, k), 0).Ok?
  }

  /** What root `k` becomes. */
  function Edited(held: seq<Field>, roots: seq<Field>, ps: seq<Patch>, k: bytes): Option<Value>
    requires EditableAt(held, roots, ps, k)
  {
    if On(ps, k) == [] then Lookup(roots, k) else Some(ApplyAll(Root(held, roots, k).value, On(ps, k), 0).value)
  }

  /** Patches on different properties do not disturb each other. */
  lemma {:induction false} MaterializeRoots(held: seq<Field>, roots: seq<Field>, ps: seq<Patch>)
    requires Sorted(roots) && Editable(held, roots, ps)
    ensures Materialize(held, roots, ps).Ok? && Sorted(Materialize(held, roots, ps).value)
    ensures forall k ::
      EditableAt(held, roots, ps, k) && Lookup(Materialize(held, roots, ps).value, k) == Edited(held, roots, ps, k)
    decreases ps
  {
    hide ApplyAt, Assign;
    if ps != [] {
      var p := ps[0];
      var mine := p.property;
      assert EditableAt(held, roots, ps, mine);
      assert On(ps, mine) == [p] + On(ps[1..], mine);
      assert p.path[0..] == p.path && On(ps, mine)[1..] == On(ps[1..], mine);
      var v := ApplyAt(Root(held, roots, mine).value, p.path, p).value;
      assert ApplyAll(Root(held, roots, mine).value, On(ps, mine), 0) == ApplyAll(v, On(ps[1..], mine), 0);
      var next := Assign(roots, mine, v);
      AssignSorted(roots, mine, v);
      forall k
        ensures EditableAt(held, next, ps[1..], k) && Edited(held, next, ps[1..], k) == Edited(held, roots, ps, k)
      {
        AssignLookup(roots, mine, v, k);
        assert EditableAt(held, roots, ps, k);
        if k != mine {
          assert On(ps, k) == On(ps[1..], k);
        } else if On(ps[1..], k) == [] {
          assert ApplyAll(v, On(ps[1..], k), 0) == Ok(v);
        }
      }
      MaterializeRoots(held, next, ps[1..]);
    }
  }

  /** Root by root, the materialized delta laid over an equal image equals the new one. */
  lemma DeliveredRoots(u: Update, prev: seq<Field>, next: seq<Field>, held: seq<Field>)
    requires Sorted(prev) && Sorted(next) && Sorted(u.values) && SameFields(held, prev) && FieldShapes(next, true)
    requires Delivers(u, prev, next) && Within(u.values, next)
    ensures Sorted(held) && Editable(held, u.values, u.patches)
    ensures Materialize(held, u.values, u.patches).Ok? && Sorted(Materialize(held, u.values, u.patches).value)
    ensures SameFields(Overlay(held, Materialize(held, u.values, u.patches).value), next)
  {
    hide ApplyAll, Materialize, Overlay, On, Within, FieldShapes, Same;
    assert Sorted(held);
    forall k ensures EditableAt(held, u.values, u.patches, k) {
      assert RootOk(u, prev, next, k);
      SameFieldsLookup(held, prev, k);
    }
    MaterializeRoots(held, u.values, u.patches);
    var m := Materialize(held, u.values, u.patches).value;
    var out := Overlay(held, m);
    forall k ensures SameOption(Lookup(out, k), Lookup(next, k)) {
      assert RootOk(u, prev, next, k);
      OverlayLookup(held, m, k);
      SameFieldsLookup(held, prev, k);
      assert EditableAt(held, u.values, u.patches, k) && Lookup(m, k) == Edited(held, u.values, u.patches, k);
      if Has(u.values, k) { RootReflexive(next, k, u.values); }
      if !Has(u.values, k) && On(u.patches, k) == [] && Has(prev, k) {
        SameTransitive(Lookup(held, k).value, Lookup(prev, k).value, Lookup(next, k).value);
      }
    }
    OverlayLookup(held, m, []);
    LookupsSameFields(out, next);
  }

  lemma RootReflexive(next: seq<Field>, k: bytes, values: seq<Field>)
    requires FieldShapes(next, true) && Has(values, k) && Lookup(values, k) == Lookup(next, k)
    ensures Same(Lookup(next, k).value, Lookup(next, k).value)
  {
    var i := LookupFinds(next, k);
    SameReflexive(next[i].value);
  }

  // ---- charges ----

  lemma {:induction false} SameImageBytes(a: seq<Field>, b: seq<Field>)
    requires SameFields(a, b)
    ensures ImageBytes(a) == ImageBytes(b)
    decreases a, 0
  {
    if a != [] {
      SameEntryBytes(a[0].value, b[0].value);
      SameImageBytes(a[1..], b[1..]);
    }
  }

  lemma {:induction false} SameEntryBytes(a: Value, b: Value)
    requires Same(a, b)
    ensures forall name :: EntryBytes(name, a) == EntryBytes(name, b)
    ensures ItemBytes(a) == ItemBytes(b)
    decreases a, 1
  {
    match a {
      case Struct(fs) => SameImageBytes(fs, b.fields);
      case Map(es) => SameImageBytes(es, b.entries);
      case Array(xs) => SameItemsBytes(xs, b.items);
      case _ =>
    }
  }

  lemma {:induction false} SameItemsBytes(a: seq<Value>, b: seq<Value>)
    requires SameItems(a, b)
    ensures ItemsBytes(a) == ItemsBytes(b)
    decreases a, 0
  {
    if a != [] {
      SameEntryBytes(a[0], b[0]);
      SameItemsBytes(a[1..], b[1..]);
    }
  }

  /** Full wire size plus native charge of an image, from scratch. */
  function Charge(values: seq<Field>): nat { UpdateSize(Snapshot(0, values)) + ImageBytes(values) }

  /** An image that equals a valid one is valid and costs the same. */
  lemma SameImage(out: seq<Field>, next: Update)
    requires ValidImage(next) && SameFields(out, next.values)
    ensures ValidImage(Snapshot(next.revision, out)) && Encodable(Snapshot(0, out))
    ensures Charge(out) == Charge(next.values)
  {
    hide FieldShapes, FieldsSize, FieldsNodes, FieldsHeight, ImageBytes, Sorted, Same, Typed;
    SameFieldsAlike(out, next.values);
    SameImageBytes(out, next.values);
    NoPatches(Snapshot(0, out));
    NoPatches(Snapshot(next.revision, out));
  }

  // ---- the central law ----

  /** What a successful application leaves: the new revision, the new values up to `==`, the exact charge. */
  predicate Arrives(r: Result<Outcome>, next: Update, budget: nat) {
    if Charge(next.values) > budget then r == Err(OverBudget)
    else
      && r.Ok? && r.value.Applied? && r.value.image.revision == next.revision
      && SameFields(r.value.image.values, next.values) && r.value.charge == Charge(next.values)
  }

  lemma SnapshotArrives(image: Option<Image>, next: Update, budget: nat)
    requires ValidImage(next) && (image.Some? ==> image.value.revision <= next.revision)
    ensures Arrives(Apply(image, next, budget), next, budget)
  {
    hide WireLength, Encodable, UpdateSize, ImageBytes, FieldShapes;
    WireLengthExact(next);
    assert UpdateSize(next) == UpdateSize(Snapshot(0, next.values)) by { SnapshotSize(next); }
    ValuesReflexive(next);
  }

  lemma SnapshotSize(next: Update)
    requires FullImage(next)
    ensures UpdateSize(next) == UpdateSize(Snapshot(0, next.values))
  {
  }

  lemma ValuesReflexive(next: Update)
    requires ValidImage(next)
    ensures SameFields(next.values, next.values)
  {
    forall i | 0 <= i < |next.values| ensures Same(next.values[i].value, next.values[i].value) {
      SameReflexive(next.values[i].value);
    }
  }

  /** Installing plain roots that complete an equal image. */
  lemma InstallArrives(held: Image, next: Update, roots: seq<Field>, budget: nat)
    requires ValidImage(next) && held.revision <= next.revision && Sorted(held.values) && Sorted(roots)
    requires SameFields(Overlay(held.values, roots), next.values)
    ensures Arrives(Apply(Some(held), Update(held.revision, next.revision, false, roots, []), budget), next, budget)
  {
    hide WireLength, Encodable, UpdateSize, ImageBytes, ValidateOverlay, Overlay, Lookup, ValidImage, Within, Sorted,
         SameFields;
    var out := Overlay(held.values, roots);
    SameImage(out, next);
    OverlayCharge(held.values, roots);
    RootsWithin(held.values, roots);
    PartEncodable(Snapshot(next.revision, out), held.revision, roots);
    WireLengthExact(Update(held.revision, next.revision, false, roots, []));
  }

  lemma RootsWithin(held: seq<Field>, roots: seq<Field>)
    requires Sorted(held) && Sorted(roots)
    ensures Sorted(Overlay(held, roots)) && Within(roots, Overlay(held, roots))
  {
    OverlayLookup(held, roots, []);
    forall i | 0 <= i < |roots| ensures Lookup(Overlay(held, roots), roots[i].name) == Some(roots[i].value) {
      LookupAt(roots, i);
      OverlayLookup(held, roots, roots[i].name);
    }
  }

  /** For all valid images: the delta exists, and every replica whose image equals `prev` applies it and ends with
      `next`'s revision and values, whatever mix of snapshot, replacement, path, map and splice edits was chosen. */
  lemma DeltaArrives(prev: Update, next: Update, held: Image, budget: nat)
    requires ValidImage(prev) && ValidImage(next) && prev.revision <= next.revision
    requires held.revision == prev.revision && SameFields(held.values, prev.values)
    ensures Delta(prev, next).Ok?
    ensures Arrives(Apply(Some(held), Delta(prev, next).value, budget), next, budget)
  {
    hide Delta, Full, Delivers, Arrives, UpdateSize, Encodable, Overlay, Materialize, WireLength, Within, SameFields,
         Sorted, FieldShapes;
    DeltaGood(prev, next);
    var u := Delta(prev, next).value;
    if u.snapshot {
      SnapshotArrives(Some(held), next, budget);
    } else {
      ImageParts(prev);
      ImageParts(next);
      DeliveredRoots(u, prev.values, next.values, held.values);
      var roots := Materialize(held.values, u.values, u.patches).value;
      InstallArrives(held, next, roots, budget);
      WireLengthExact(u);
      ApplyMaterialized(held, u, roots, budget);
    }
  }

  /** A delta is good for one revision only: no replica at another one takes it, and nor does an empty one. */
  lemma DeltaElsewhere(prev: Update, next: Update, image: Option<Image>, budget: nat)
    requires ValidImage(prev) && ValidImage(next) && prev.revision <= next.revision
    requires image.None? || image.value.revision != prev.revision
    ensures Delta(prev, next).Ok?
    ensures !Delta(prev, next).value.snapshot ==> Apply(image, Delta(prev, next).value, budget) == Ok(Rejected)
  {
    hide Delta, Full, Delivers, UpdateSize, Encodable, WireLength, Within, Sorted, TypedPatches;
    DeltaGood(prev, next);
    WireLengthExact(Delta(prev, next).value);
  }

  lemma ImageParts(u: Update)
    requires ValidImage(u)
    ensures Sorted(u.values) && FieldShapes(u.values, true)
  {
  }

  lemma ApplyMaterialized(held: Image, u: Update, roots: seq<Field>, budget: nat)
    requires WireLength(u).Ok? && !u.snapshot && u.base == held.revision <= u.revision
    requires Materialize(held.values, u.values, u.patches) == Ok(roots)
    ensures Apply(Some(held), u, budget) == Apply(Some(held), Update(u.base, u.revision, false, roots, []), budget)
  {
    hide WireLength, Install;
    if u.patches == [] { assert u == Update(u.base, u.revision, false, roots, []); }
  }
}
