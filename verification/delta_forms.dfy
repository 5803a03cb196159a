/** What each form of a delta says about one root, and about one key of a map root. */
module DeltaForms {
  import opened Bytes
  import opened Values
  import opened ValueCodec
  import opened UpdateCodec
  import opened Diffs
  import opened DiffSoundness
  import opened DiffTotality
  import opened DiffChoice
  import opened Deltas
  import opened DeltaSoundness
  import opened DeltaTheorem

  /** The root is in the new image and was not there before, or differs. */
  predicate Changed(prev: seq<Field>, next: seq<Field>, k: bytes) {
    Has(next, k) && (Has(prev, k) ==> !Same(Lookup(prev, k).value, Lookup(next, k).value))
  }

  lemma {:induction false} ChoiceAt(roots: seq<Field>, cs: seq<Choice>, i: nat)
    requires Sorted(roots) && |cs| == |roots| && i < |roots|
    ensures ChoiceFor(roots, cs, roots[i].name) == cs[i]
    decreases roots
  {
    if i > 0 {
      assert Less(roots[0].name, roots[i].name);
      LessIrreflexive(roots[0].name);
      assert roots[1..][i - 1] == roots[i] && cs[1..][i - 1] == cs[i];
      ChoiceAt(roots[1..], cs[1..], i - 1);
    }
  }

  /** Plain replacement sends exactly the changed roots. */
  lemma FullRoots(prev: Update, next: Update, k: bytes)
    requires Sorted(next.values)
    ensures Full(prev, next).patches == []
    ensures Lookup(Full(prev, next).values, k) ==
      if Changed(prev.values, next.values, k) then Lookup(next.values, k) else None
  {
    hide Lookup, ValuesOf, PatchesOf, WholeChoices, Same, Sorted;
    var cs := WholeChoices(prev.values, next.values);
    NoEdits(cs);
    AssembledValue(next.values, cs, k);
    if Has(next.values, k) {
      var i := LookupFinds(next.values, k);
      ChoiceAt(next.values, cs, i);
    }
  }

  // ---- container edits ----

  /** The map edits on one key, in order. */
  function At(ps: seq<Patch>, key: bytes): seq<Patch> {
    if ps == [] then [] else (if ps[0].key == key then [ps[0]] else []) + At(ps[1..], key)
  }

  lemma {:induction false} AtConcat(a: seq<Patch>, b: seq<Patch>, key: bytes)
    ensures At(a + b, key) == At(a, key) + At(b, key)
    decreases a
  {
    if a == [] {
      assert a + b == b;
    } else {
      var head := if a[0].key == key then [a[0]] else [];
      assert (a + b)[0] == a[0] && (a + b)[1..] == a[1..] + b;
      AtConcat(a[1..], b, key);
      assert head + (At(a[1..], key) + At(b, key)) == head + At(a[1..], key) + At(b, key);
    }
  }

  lemma AtOne(p: Patch, key: bytes)
    ensures At([p], key) == if p.key == key then [p] else []
  {
    assert [p][1..] == [];
  }

  lemma {:induction false} ErasuresAt(property: bytes, was: seq<Field>, now: seq<Field>, key: bytes)
    requires Sorted(was)
    ensures At(Erasures(property, [], was, now), key) ==
      if Has(was, key) && !Has(now, key) then [MapEdit(property, [], key, None)] else []
    decreases was
  {
    hide At, Less;
    if was == [] {
      NoneAt(key);
    } else {
      assert was == [was[0]] + was[1..];
      SortedCons(was[0], was[1..]);
      ErasuresAt(property, was[1..], now, key);
      if was[0].name == key { BelowLookup(key, was[1..]); }
      AtOne(MapEdit(property, [], was[0].name, None), key);
      NoneAt(key);
      AtConcat(if Has(now, was[0].name) then [] else [MapEdit(property, [], was[0].name, None)],
               Erasures(property, [], was[1..], now), key);
    }
  }

  lemma NoneAt(key: bytes)
    ensures At([], key) == []
  {
  }

  lemma {:induction false} ChangesAt(property: bytes, was: seq<Field>, now: seq<Field>, key: bytes)
    requires Sorted(now)
    ensures At(Changes(property, was, now), key) ==
      if Changed(was, now, key) then [MapEdit(property, [], key, Lookup(now, key))] else []
    decreases now
  {
    hide At, Less, Same;
    if now == [] {
      NoneAt(key);
    } else {
      assert now == [now[0]] + now[1..];
      SortedCons(now[0], now[1..]);
      ChangesAt(property, was, now[1..], key);
      if now[0].name == key { BelowLookup(key, now[1..]); }
      var p := MapEdit(property, [], now[0].name, Some(now[0].value));
      AtOne(p, key);
      NoneAt(key);
      AtConcat(if Unchanged(was, now[0]) then [] else [p], Changes(property, was, now[1..]), key);
    }
  }

  /** The container form sends one splice for a changed array, one erasure or assignment for each lost or changed key
      of a changed map, and every other changed root whole. */
  lemma ContainerRoots(prev: Update, next: Update, k: bytes, key: bytes)
    requires ValidImage(prev) && ValidImage(next)
    ensures var u := ContainerForm(prev, next); var was, now := Lookup(prev.values, k), Lookup(next.values, k);
      if !Changed(prev.values, next.values, k) then !Has(u.values, k) && On(u.patches, k) == []
      else if was.Some? && was.value.Array? && now.value.Array? then
        !Has(u.values, k) && On(u.patches, k) == [SpliceOf(k, [], was.value.items, now.value.items)]
      else if was.Some? && was.value.Map? && now.value.Map? then
        && !Has(u.values, k)
        && At(On(u.patches, k), key) ==
           (if Changed(was.value.entries, now.value.entries, key) then
              [MapEdit(k, [], key, Lookup(now.value.entries, key))]
            else if Has(was.value.entries, key) && !Has(now.value.entries, key) then [MapEdit(k, [], key, None)]
            else [])
      else Lookup(u.values, k) == now && On(u.patches, k) == []
  {
    hide Lookup, ValuesOf, PatchesOf, ContainerChoices, Same, Sorted, SpliceOf, Erasures, Changes, At, ChoiceOk,
         ValidImage;
    var cs := ContainerChoices(prev.values, next.values);
    SortedImage(next);
    ContainerGood(prev, next);
    AssembledValue(next.values, cs, k);
    AssembledEdits(prev.values, next.values, cs, k);
    if Has(next.values, k) {
      var i := LookupFinds(next.values, k);
      ChoiceAt(next.values, cs, i);
      var was, now := Lookup(prev.values, k), Lookup(next.values, k);
      if was.Some? && was.value.Map? && now.value.Map? {
        MapEditsAt(prev, next, k, key);
      }
    } else {
      ChoiceForMissing(next.values, cs, k);
    }
  }

  lemma SortedImage(u: Update)
    requires ValidImage(u)
    ensures Sorted(u.values)
  {
  }

  lemma ContainerGood(prev: Update, next: Update)
    requires ValidImage(prev) && ValidImage(next)
    ensures ChoicesOk(prev.values, next.values, ContainerChoices(prev.values, next.values))
  {
    hide ChoiceOk, Lookup, ContainerChoice, ValidImage, GoodRoot, Good;
    ImageGoodHeld(prev);
    var cs := ContainerChoices(prev.values, next.values);
    forall i | 0 <= i < |cs| ensures ChoiceOk(prev.values, next.values[i], cs[i]) {
      ImageRoots(next, i);
      ContainerOk(prev.values, next.values[i]);
    }
  }

  lemma MapEditsAt(prev: Update, next: Update, k: bytes, key: bytes)
    requires ValidImage(prev) && ValidImage(next)
    requires Has(prev.values, k) && Has(next.values, k)
    requires Lookup(prev.values, k).value.Map? && Lookup(next.values, k).value.Map?
    ensures var was, now := Lookup(prev.values, k).value.entries, Lookup(next.values, k).value.entries;
      At(Erasures(k, [], was, now) + Changes(k, was, now), key) ==
        if Changed(was, now, key) then [MapEdit(k, [], key, Lookup(now, key))]
        else if Has(was, key) && !Has(now, key) then [MapEdit(k, [], key, None)]
        else []
  {
    hide Lookup, Erasures, Changes, At, Same, Sorted;
    var was, now := Lookup(prev.values, k).value.entries, Lookup(next.values, k).value.entries;
    RootSorted(prev, k);
    RootSorted(next, k);
    ErasuresAt(k, was, now, key);
    ChangesAt(k, was, now, key);
    AtConcat(Erasures(k, [], was, now), Changes(k, was, now), key);
  }

  lemma RootSorted(u: Update, k: bytes)
    requires ValidImage(u) && Has(u.values, k) && Lookup(u.values, k).value.Map?
    ensures Sorted(Lookup(u.values, k).value.entries)
  {
    hide Lookup;
    var i := LookupFinds(u.values, k);
    assert Typed(u.values[i].value);
  }

  // ---- field edits ----

  lemma {:induction false} FieldChoiceAt(prev: seq<Field>, roots: seq<Field>, used: nat, i: nat)
    requires FieldChoices(prev, roots, used).Ok? && FieldChoices(prev, roots, used).value.Some? && i < |roots|
    ensures FieldChoice(prev, roots[i]) == Ok(FieldChoices(prev, roots, used).value.value[i])
    decreases roots
  {
    hide FieldChoice;
    if i > 0 {
      var c := FieldChoice(prev, roots[0]).value;
      var total := used + (if c.Edits? then |c.ps| else 0);
      FieldChoiceAt(prev, roots[1..], total, i - 1);
    }
  }

  /** The field form sends a new root whole, and of a changed one its diff, unless that replaces the root anyway. */
  lemma FieldRoots(prev: Update, next: Update, k: bytes)
    requires ValidImage(prev) && ValidImage(next) && FieldForm(prev, next).Some?
    ensures var u := FieldForm(prev, next).value; var was, now := Lookup(prev.values, k), Lookup(next.values, k);
      if !Changed(prev.values, next.values, k) then !Has(u.values, k) && On(u.patches, k) == []
      else if was.None? then Lookup(u.values, k) == now && On(u.patches, k) == []
      else
        var edits := Diff(k, [], was.value, now.value);
        && edits.Ok?
        && if edits.value == [Replacement(k, [], now.value)] then Lookup(u.values, k) == now && On(u.patches, k) == []
           else !Has(u.values, k) && On(u.patches, k) == edits.value
  {
    hide Lookup, ValuesOf, PatchesOf, FieldChoices, Same, Sorted, Diff, ChoiceOk, ValidImage;
    var cs := FieldChoices(prev.values, next.values, 0).value.value;
    SortedImage(next);
    FieldGood(prev, next);
    AssembledValue(next.values, cs, k);
    AssembledEdits(prev.values, next.values, cs, k);
    if Has(next.values, k) {
      var i := LookupFinds(next.values, k);
      ChoiceAt(next.values, cs, i);
      FieldChoiceAt(prev.values, next.values, 0, i);
      if Changed(prev.values, next.values, k) && Has(prev.values, k) {
        ImageRoots(next, i);
        ImageGoodHeld(prev);
        RootReplaced(next.values[i], Lookup(prev.values, k).value);
      }
    } else {
      ChoiceForMissing(next.values, cs, k);
    }
  }

  lemma FieldGood(prev: Update, next: Update)
    requires ValidImage(prev) && ValidImage(next) && FieldForm(prev, next).Some?
    ensures ChoicesOk(prev.values, next.values, FieldChoices(prev.values, next.values, 0).value.value)
  {
    hide FieldChoices, ChoicesOk, GoodRoot, Lookup, Good, ValidImage;
    ImageGoodHeld(prev);
    forall i | 0 <= i < |next.values| ensures GoodRoot(next.values[i]) { ImageRoots(next, i); }
    FieldChoicesOk(prev.values, next.values, 0);
  }

  /** Whatever replaces something does so below `path`. */
  predicate Deeper(ps: seq<Patch>, path: seq<Step>) {
    forall i :: 0 <= i < |ps| ==> !ps[i].replace || |ps[i].path| > |path|
  }

  lemma DiffDeeper(property: bytes, path: seq<Step>, s: Step, before: Value, after: Value)
    requires Good(before) && Good(after)
    ensures Deeper(DiffOf(property, path + [s], before, after), path)
  {
    hide Diff, Good, Turns;
    if Diff(property, path + [s], before, after).Ok? {
      SameReflexiveGood(before);
      DiffSound(property, path + [s], before, after, before);
    }
  }

  lemma DeeperConcat(a: seq<Patch>, b: seq<Patch>, path: seq<Step>)
    requires Deeper(a, path) && Deeper(b, path)
    ensures Deeper(a + b, path)
  {
  }

  lemma {:induction false} EntriesDeeper(property: bytes, path: seq<Step>, was: seq<Field>, now: seq<Field>)
    requires GoodFields(was) && GoodFields(now)
    ensures Deeper(EntryDiffs(property, path, was, now), path)
    decreases now
  {
    hide DiffOf, Good, Lookup;
    if now != [] {
      assert now == [now[0]] + now[1..];
      SortedCons(now[0], now[1..]);
      EntriesDeeper(property, path, was, now[1..]);
      if Has(was, now[0].name) {
        var i := LookupFinds(was, now[0].name);
        DiffDeeper(property, path, Key(now[0].name), was[i].value, now[0].value);
      }
      DeeperConcat(EntryDiff(property, path, was, now[0]), EntryDiffs(property, path, was, now[1..]), path);
    }
  }

  lemma {:induction false} ItemsDeeper(property: bytes, path: seq<Step>, was: seq<Value>, now: seq<Value>, i: nat)
    requires GoodItems(was) && GoodItems(now) && |was| == |now| && i <= |now|
    ensures Deeper(ItemDiffs(property, path, was, now, i), path)
    decreases |now| - i
  {
    hide DiffOf, Good;
    if i < |now| {
      ItemsDeeper(property, path, was, now, i + 1);
      DiffDeeper(property, path, Index(i), was[i], now[i]);
      DeeperConcat(DiffOf(property, path + [Index(i)], was[i], now[i]),
                   ItemDiffs(property, path, was, now, i + 1), path);
    }
  }

  lemma {:induction false} ErasuresDeeper(property: bytes, path: seq<Step>, was: seq<Field>, now: seq<Field>)
    ensures Deeper(Erasures(property, path, was, now), path)
    decreases was
  {
    hide Lookup;
    if was != [] { ErasuresDeeper(property, path, was[1..], now); }
  }

  lemma ChildrenDeeper(property: bytes, path: seq<Step>, before: Value, after: Value)
    requires Good(before) && Good(after) && Children(property, path, before, after).Some?
    ensures Deeper(Children(property, path, before, after).value, path)
  {
    hide EntryDiffs, ItemDiffs, Erasures, Good, Deeper, Lookup;
    GoodParts(before);
    GoodParts(after);
    match (before, after) {
      case (Struct(was), Struct(now)) => EntriesDeeper(property, path, was, now);
      case (Map(was), Map(now)) =>
        EntriesDeeper(property, path, was, now);
        ErasuresDeeper(property, path, was, now);
        DeeperConcat(Erasures(property, path, was, now), EntryDiffs(property, path, was, now), path);
      case (Array(was), Array(now)) => ItemsDeeper(property, path, was, now, 0);
    }
  }

  /** The only replacement at a root's own place is the replacement of the root. */
  lemma RootReplaced(f: Field, before: Value)
    requires GoodRoot(f) && Good(before) && !Same(before, f.value)
    ensures Diff(f.name, [], before, f.value).Ok?
    ensures var ps := Diff(f.name, [], before, f.value).value;
      |ps| == 1 && ps[0].replace && ps[0].path == [] <==> ps == [Replacement(f.name, [], f.value)]
  {
    hide Good, Roomy, Same, Diff, Children;
    DiffCheapest(f.name, [], before, f.value);
    if Children(f.name, [], before, f.value).Some? { ChildrenDeeper(f.name, [], before, f.value); }
  }

  // ---- giving up ----

  /** How many patches the field form needs for one root. */
  function RootEdits(prev: seq<Field>, f: Field): nat {
    match Lookup(prev, f.name)
    case None => 0
    case Some(v) =>
      var ps := DiffOf(f.name, [], v, f.value); if ps == [Replacement(f.name, [], f.value)] then 0 else |ps|
  }

  function TotalEdits(prev: seq<Field>, roots: seq<Field>): nat {
    if roots == [] then 0 else RootEdits(prev, roots[0]) + TotalEdits(prev, roots[1..])
  }

  lemma RootEditsExact(prev: seq<Field>, f: Field)
    requires GoodRoot(f) && (Has(prev, f.name) ==> Good(Lookup(prev, f.name).value))
    ensures var c := FieldChoice(prev, f);
      c.Ok? && RootEdits(prev, f) == if c.value.Edits? then |c.value.ps| else 0
  {
    hide Good, Roomy, Same, Diff, Lookup;
    if Has(prev, f.name) {
      if Same(Lookup(prev, f.name).value, f.value) {
        EqualDiff(f.name, [], Lookup(prev, f.name).value, f.value);
      } else {
        RootReplaced(f, Lookup(prev, f.name).value);
      }
    }
  }

  lemma {:induction false} FieldsGivenUp(prev: seq<Field>, roots: seq<Field>, used: nat)
    requires GoodHeld(prev) && (forall i :: 0 <= i < |roots| ==> GoodRoot(roots[i])) && used <= 256
    ensures FieldChoices(prev, roots, used).Ok?
    ensures FieldChoices(prev, roots, used).value.None? <==> used + TotalEdits(prev, roots) > 256
    decreases roots
  {
    hide FieldChoice, GoodRoot, RootEdits, Good, Lookup;
    if roots != [] {
      RootEditsExact(prev, roots[0]);
      var total := used + RootEdits(prev, roots[0]);
      if total <= 256 { FieldsGivenUp(prev, roots[1..], total); }
    }
  }

  /** The field form is given up exactly when all its patches together are more than 256. */
  lemma FieldFormExists(prev: Update, next: Update)
    requires ValidImage(prev) && ValidImage(next)
    ensures FieldForm(prev, next).Some? <==> TotalEdits(prev.values, next.values) <= 256
  {
    hide FieldChoices, TotalEdits, GoodRoot, Good, Lookup, ValidImage;
    ImageGoodHeld(prev);
    forall i | 0 <= i < |next.values| ensures GoodRoot(next.values[i]) { ImageRoots(next, i); }
    FieldsGivenUp(prev.values, next.values, 0);
  }
}
