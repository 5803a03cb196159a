/** The diff is as cheap as it gets: no mix of replacements, splices and edits of the children, chosen freely at every
    subtree, is cheaper. */
module DiffOptimality {
  import opened Bytes
  import opened Values
  import opened ValueCodec
  import opened UpdateCodec
  import opened Sameness
  import opened Diffs
  import opened DiffSoundness
  import opened DiffTotality
  import opened DiffChoice
  import opened Splices

  /** A way of turning one value into another: leave it, replace it, cut out the middle of an array, or go through its
      children one by one (added entries need no form, lost ones are erased). */
  datatype Form = Keep | Replace | Cut(front: nat, back: nat) | Parts(parts: seq<Form>)

  predicate Fits(f: Form, before: Value, after: Value)
    decreases f
  {
    match f
    case Keep => Same(before, after)
    case Replace => true
    case Cut(n, m) => before.Array? && after.Array? && Cuts(before.items, after.items, n, m)
    case Parts(fs) =>
      match (before, after)
      case (Struct(was), Struct(now)) => SameNames(was, now) && FitsEntries(fs, was, now)
      case (Map(was), Map(now)) => FitsEntries(fs, was, now)
      case (Array(was), Array(now)) =>
        |fs| == |was| == |now| && forall i :: 0 <= i < |now| ==> Fits(fs[i], was[i], now[i])
      case _ => false
  }

  predicate FitsEntries(fs: seq<Form>, was: seq<Field>, now: seq<Field>)
    decreases fs
  {
    |fs| == |now|
    && forall i :: 0 <= i < |now| && Has(was, now[i].name) ==> Fits(fs[i], Lookup(was, now[i].name).value, now[i].value)
  }

  function Script(f: Form, property: bytes, path: seq<Step>, before: Value, after: Value): seq<Patch>
    requires Fits(f, before, after)
    decreases f, 1
  {
    match f
    case Keep => []
    case Replace => [Replacement(property, path, after)]
    case Cut(n, m) => [SpliceAt(property, path, before.items, after.items, n, m)]
    case Parts(fs) =>
      if after.Struct? then EntryScripts(fs, property, path, before.fields, after.fields, 0)
      else if after.Map? then
        Erasures(property, path, before.entries, after.entries)
        + EntryScripts(fs, property, path, before.entries, after.entries, 0)
      else ItemScripts(fs, property, path, before.items, after.items, 0)
  }

  function EntryScripts(fs: seq<Form>, property: bytes, path: seq<Step>, was: seq<Field>, now: seq<Field>,
                        i: nat): seq<Patch>
    requires i <= |now| && FitsEntries(fs, was, now)
    decreases fs, 0, |now| - i
  {
    if i == |now| then []
    else
      (match Lookup(was, now[i].name)
       case Some(v) => Script(fs[i], property, path + [Key(now[i].name)], v, now[i].value)
       case None => [MapEdit(property, path, now[i].name, Some(now[i].value))])
      + EntryScripts(fs, property, path, was, now, i + 1)
  }

  function ItemScripts(fs: seq<Form>, property: bytes, path: seq<Step>, was: seq<Value>, now: seq<Value>,
                       i: nat): seq<Patch>
    requires |fs| == |was| == |now| && i <= |now| && forall t :: 0 <= t < |now| ==> Fits(fs[t], was[t], now[t])
    decreases fs, 0, |now| - i
  {
    if i == |now| then []
    else
      Script(fs[i], property, path + [Index(i)], was[i], now[i]) + ItemScripts(fs, property, path, was, now, i + 1)
  }

  /** How many places have changed: no diff has more edits. */
  function Spread(before: Value, after: Value): nat
    decreases after, 1
  {
    if Same(before, after) then 0
    else match (before, after)
      case (Struct(was), Struct(now)) => if SameNames(was, now) then SpreadEntries(was, now) else 1
      case (Map(was), Map(now)) => |Erasures([], [], was, now)| + SpreadEntries(was, now)
      case (Array(was), Array(now)) => if |was| == |now| then SpreadItems(was, now, 0) else 1
      case _ => 1
  }

  function SpreadEntries(was: seq<Field>, now: seq<Field>): nat
    decreases now, 0
  {
    if now == [] then 0
    else
      (match Lookup(was, now[0].name) case Some(v) => Spread(v, now[0].value) case None => 1)
      + SpreadEntries(was, now[1..])
  }

  function SpreadItems(was: seq<Value>, now: seq<Value>, i: nat): nat
    requires |was| == |now| && i <= |now|
    decreases now, 0, |now| - i
  {
    if i == |now| then 0 else Spread(was[i], now[i]) + SpreadItems(was, now, i + 1)
  }

  /** A container of which an entry may be edited. */
  predicate Entries(after: Value, now: seq<Field>) { after == Struct(now) || after == Map(now) }

  lemma EntryRoomy(property: bytes, path: seq<Step>, after: Value, was: seq<Field>, now: seq<Field>, j: nat)
    requires Entries(after, now) && GoodFields(was) && Good(after) && Roomy(property, path, after) && |path| < 8
    requires j < |now|
    ensures Good(now[j].value) && Roomy(property, path + [Key(now[j].name)], now[j].value)
    ensures Has(was, now[j].name) ==> Good(Lookup(was, now[j].name).value)
  {
    hide Roomy, Good, Lookup;
    RoomyField(property, path, after, now, j);
    GoodParts(after);
    if Has(was, now[j].name) { var i := LookupFinds(was, now[j].name); }
  }

  lemma ItemRoomy(property: bytes, path: seq<Step>, was: seq<Value>, now: seq<Value>, i: nat)
    requires GoodItems(was) && Good(Array(now)) && Roomy(property, path, Array(now)) && |path| < 8
    requires i < |was| == |now|
    ensures Good(was[i]) && Good(now[i]) && Roomy(property, path + [Index(i)], now[i])
  {
    hide Roomy, Good;
    RoomyItem(property, path, now, i);
    GoodParts(Array(now));
  }

  // ---- a container that differs has edits ----

  lemma NoDiffSame(property: bytes, path: seq<Step>, before: Value, after: Value)
    requires Good(before) && Good(after) && Roomy(property, path, after) && DiffOf(property, path, before, after) == []
    ensures Same(before, after)
  {
    hide Good, Roomy, Same, Rivals;
    if !Same(before, after) { DiffChooses(property, path, before, after); }
  }

  lemma {:induction false} NoEntryDiffs(property: bytes, path: seq<Step>, after: Value, was: seq<Field>,
                                        now: seq<Field>, j: nat)
    requires Entries(after, now) && GoodFields(was) && Good(after) && Roomy(property, path, after) && |path| < 8
    requires j <= |now| && EntryDiffs(property, path, was, now[j..]) == []
    ensures forall i :: j <= i < |now| ==>
      Has(was, now[i].name) && Same(Lookup(was, now[i].name).value, now[i].value)
    decreases |now| - j
  {
    hide DiffOf, Roomy, Lookup, Good, Same;
    if j < |now| {
      assert now[j..][0] == now[j] && now[j..][1..] == now[j + 1..];
      EntryRoomy(property, path, after, was, now, j);
      assert EntryDiff(property, path, was, now[j]) == [];
      NoDiffSame(property, path + [Key(now[j].name)], Lookup(was, now[j].name).value, now[j].value);
      NoEntryDiffs(property, path, after, was, now, j + 1);
    }
  }

  /** Fields that match one by one under their names match in place. */
  lemma MatchedFields(was: seq<Field>, now: seq<Field>)
    requires Sorted(was) && Sorted(now) && |was| == |now|
    requires forall i :: 0 <= i < |now| ==> Has(was, now[i].name) && Same(Lookup(was, now[i].name).value, now[i].value)
    ensures SameFields(was, now)
  {
    hide Same, Lookup, Sorted;
    SameKeys(now, was);
    forall i | 0 <= i < |now| ensures was[i].name == now[i].name && Same(was[i].value, now[i].value) {
      LookupAt(was, i);
    }
  }

  lemma {:induction false} NoErasures(property: bytes, path: seq<Step>, was: seq<Field>, now: seq<Field>)
    requires Erasures(property, path, was, now) == []
    ensures forall i :: 0 <= i < |was| ==> Has(now, was[i].name)
    decreases was
  {
    hide Lookup;
    if was != [] {
      NoErasures(property, path, was[1..], now);
      forall i | 0 <= i < |was| ensures Has(now, was[i].name) {
        if i > 0 { assert was[i] == was[1..][i - 1]; }
      }
    }
  }

  lemma {:induction false} NoItemDiffs(property: bytes, path: seq<Step>, was: seq<Value>, now: seq<Value>, i: nat)
    requires GoodItems(was) && Good(Array(now)) && Roomy(property, path, Array(now)) && |path| < 8
    requires |was| == |now| && i <= |now| && ItemDiffs(property, path, was, now, i) == []
    ensures forall t :: i <= t < |now| ==> Same(was[t], now[t])
    decreases |now| - i
  {
    hide DiffOf, Roomy, Good, Same;
    if i < |now| {
      ItemRoomy(property, path, was, now, i);
      NoDiffSame(property, path + [Index(i)], was[i], now[i]);
      NoItemDiffs(property, path, was, now, i + 1);
    }
  }

  lemma ChildrenNeeded(property: bytes, path: seq<Step>, before: Value, after: Value)
    requires Good(before) && Good(after) && Roomy(property, path, after) && |path| < 8 && !Same(before, after)
    ensures Children(property, path, before, after) != Some([])
  {
    hide EntryDiffs, ItemDiffs, Erasures, Roomy, Good, Lookup;
    if Children(property, path, before, after) == Some([]) {
      GoodParts(before);
      GoodParts(after);
      match (before, after) {
        case (Struct(was), Struct(now)) =>
          assert now[0..] == now;
          NoEntryDiffs(property, path, after, was, now, 0);
          MatchedFields(was, now);
        case (Map(was), Map(now)) =>
          assert now[0..] == now;
          NoEntryDiffs(property, path, after, was, now, 0);
          NoErasures(property, path, was, now);
          FewerKeys(was, now);
          FewerKeys(now, was);
          MatchedFields(was, now);
        case (Array(was), Array(now)) => NoItemDiffs(property, path, was, now, 0);
      }
    }
  }

  // ---- how many edits there are ----

  lemma {:induction false} ErasuresAlike(property: bytes, path: seq<Step>, was: seq<Field>, now: seq<Field>)
    ensures |Erasures(property, path, was, now)| == |Erasures([], [], was, now)|
    decreases was
  {
    hide Lookup;
    if was != [] { ErasuresAlike(property, path, was[1..], now); }
  }

  lemma {:induction false} SpreadNone(before: Value, after: Value)
    requires Good(before) && Good(after) && Spread(before, after) == 0
    ensures Same(before, after)
    decreases after, 1
  {
    hide Good, Erasures, SpreadEntries, SpreadItems, Lookup;
    if !Same(before, after) {
      GoodParts(before);
      GoodParts(after);
      match (before, after) {
        case (Struct(was), Struct(now)) =>
          assert now[0..] == now;
          NoEntrySpread(was, now, 0);
          MatchedFields(was, now);
        case (Map(was), Map(now)) =>
          assert now[0..] == now;
          NoEntrySpread(was, now, 0);
          NoErasures([], [], was, now);
          FewerKeys(was, now);
          FewerKeys(now, was);
          MatchedFields(was, now);
        case (Array(was), Array(now)) => NoItemSpread(was, now, 0);
      }
    }
  }

  lemma {:induction false} NoEntrySpread(was: seq<Field>, now: seq<Field>, j: nat)
    requires GoodFields(was) && GoodFields(now) && j <= |now| && SpreadEntries(was, now[j..]) == 0
    ensures forall i :: j <= i < |now| ==>
      Has(was, now[i].name) && Same(Lookup(was, now[i].name).value, now[i].value)
    decreases now, 0, |now| - j
  {
    hide Good, Lookup, Same, Spread;
    if j < |now| {
      assert now[j..][0] == now[j] && now[j..][1..] == now[j + 1..];
      var i := LookupFinds(was, now[j].name);
      SpreadNone(was[i].value, now[j].value);
      NoEntrySpread(was, now, j + 1);
    }
  }

  lemma {:induction false} NoItemSpread(was: seq<Value>, now: seq<Value>, i: nat)
    requires GoodItems(was) && GoodItems(now) && |was| == |now| && i <= |now| && SpreadItems(was, now, i) == 0
    ensures forall t :: i <= t < |now| ==> Same(was[t], now[t])
    decreases now, 0, |now| - i
  {
    hide Good, Same, Spread;
    if i < |now| {
      SpreadNone(was[i], now[i]);
      NoItemSpread(was, now, i + 1);
    }
  }

  lemma {:induction false} DiffCount(property: bytes, path: seq<Step>, before: Value, after: Value)
    requires Good(before) && Good(after) && Roomy(property, path, after)
    ensures |DiffOf(property, path, before, after)| <= Spread(before, after)
    decreases after, 2
  {
    hide Good, Roomy, Same, Diff, ArrayEdits, EntryDiffs, ItemDiffs, Erasures, Spread, PatchSize, PatchesSize, SpliceOf;
    if Same(before, after) {
      EqualDiff(property, path, before, after);
    } else {
      DiffChooses(property, path, before, after);
      if Spread(before, after) == 0 { SpreadNone(before, after); }
      if |path| < 8 {
        ChildrenCount(property, path, before, after);
        if before.Array? && after.Array? {
          GoodParts(before);
          ArrayChooses(property, path, before.items, after.items);
        }
      }
    }
  }

  lemma {:induction false} ChildrenCount(property: bytes, path: seq<Step>, before: Value, after: Value)
    requires Good(before) && Good(after) && Roomy(property, path, after) && |path| < 8 && !Same(before, after)
    ensures Children(property, path, before, after).Some? ==>
      |Children(property, path, before, after).value| <= Spread(before, after)
    decreases after, 1
  {
    hide Good, Roomy, Same, EntryDiffs, ItemDiffs, Erasures, SpreadEntries, SpreadItems, Lookup;
    GoodParts(before);
    match (before, after) {
      case (Struct(was), Struct(now)) =>
        assert now[0..] == now;
        EntriesCount(property, path, after, was, now, 0);
      case (Map(was), Map(now)) =>
        assert now[0..] == now;
        EntriesCount(property, path, after, was, now, 0);
        ErasuresAlike(property, path, was, now);
      case (Array(was), Array(now)) =>
        if |was| == |now| { ItemsCount(property, path, was, now, 0); }
      case _ =>
    }
  }

  lemma {:induction false} EntriesCount(property: bytes, path: seq<Step>, after: Value, was: seq<Field>,
                                        now: seq<Field>, j: nat)
    requires Entries(after, now) && GoodFields(was) && Good(after) && Roomy(property, path, after) && |path| < 8
    requires j <= |now|
    ensures |EntryDiffs(property, path, was, now[j..])| <= SpreadEntries(was, now[j..])
    decreases after, 0, |now| - j
  {
    hide DiffOf, Roomy, Lookup, Good, Spread;
    if j < |now| {
      assert now[j..][0] == now[j] && now[j..][1..] == now[j + 1..];
      EntryRoomy(property, path, after, was, now, j);
      if Has(was, now[j].name) {
        DiffCount(property, path + [Key(now[j].name)], Lookup(was, now[j].name).value, now[j].value);
      }
      EntriesCount(property, path, after, was, now, j + 1);
    }
  }

  lemma {:induction false} ItemsCount(property: bytes, path: seq<Step>, was: seq<Value>, now: seq<Value>, i: nat)
    requires GoodItems(was) && Good(Array(now)) && Roomy(property, path, Array(now)) && |path| < 8
    requires |was| == |now| && i <= |now|
    ensures |ItemDiffs(property, path, was, now, i)| <= SpreadItems(was, now, i)
    decreases Array(now), 0, |now| - i
  {
    hide DiffOf, Roomy, Good, Spread;
    if i < |now| {
      ItemRoomy(property, path, was, now, i);
      DiffCount(property, path + [Index(i)], was[i], now[i]);
      ItemsCount(property, path, was, now, i + 1);
    }
  }

  // ---- no form is cheaper ----

  /** Eight components deep only a scalar or an empty container is left, and its replacement is as cheap as anything. */
  lemma DeepOptimal(f: Form, property: bytes, path: seq<Step>, before: Value, after: Value)
    requires Good(before) && Good(after) && Roomy(property, path, after) && |path| == 8 && !Same(before, after)
    requires Fits(f, before, after)
    ensures PatchSize(Replacement(property, path, after), true) <= Price(Script(f, property, path, before, after))
  {
    hide PathSize, Roomy, Good;
    Shallow(property, path, before, after);
    match f {
      case Replace => PriceOne(Replacement(property, path, after));
      case Cut(n, m) => PriceOne(SpliceAt(property, path, before.items, after.items, n, m));
      case Parts(fs) =>
        GoodKeys(before);
        var erased := Erasures(property, path, before.entries, []);
        assert before.entries != [];
        assert erased[0] == MapEdit(property, path, before.entries[0].name, None);
        assert erased + [] == erased;
    }
  }

  lemma GoodKeys(v: Value)
    requires Good(v) && v.Map?
    ensures forall i :: 0 <= i < |v.entries| ==> |v.entries[i].name| > 0
  {
  }

  /** On values of valid images in which no more than 256 places have changed: whatever form is taken at every subtree,
      the resulting script is no cheaper than the diff. */
  lemma {:induction false} DiffOptimal(f: Form, property: bytes, path: seq<Step>, before: Value, after: Value)
    requires Good(before) && Good(after) && Roomy(property, path, after)
    requires Fits(f, before, after) && Spread(before, after) <= 256
    ensures Diff(property, path, before, after).Ok?
    ensures Price(Diff(property, path, before, after).value) <= Price(Script(f, property, path, before, after))
    decreases f, 1
  {
    hide Good, Roomy, Diff, Fits, Script, Spread, Children, PatchSize, PatchesSize, SpliceOf, Same;
    DiffTotal(property, path, before, after);
    if Same(before, after) {
      EqualDiff(property, path, before, after);
      NoPrice();
    } else {
      DiffChooses(property, path, before, after);
      if |path| == 8 {
        DeepOptimal(f, property, path, before, after);
      } else {
        RoomyPath(property, path, after);
        DiffCheapest(property, path, before, after);
        FormDearer(f, property, path, before, after);
        ChildrenNeeded(property, path, before, after);
        ChildrenCount(property, path, before, after);
      }
    }
  }

  lemma NoPrice()
    ensures Price([]) == 0
  {
  }

  /** A script is no cheaper than the replacement, the splice or the children's diffs. */
  lemma {:induction false} FormDearer(f: Form, property: bytes, path: seq<Step>, before: Value, after: Value)
    requires Good(before) && Good(after) && Roomy(property, path, after) && |path| < 8 && !Same(before, after)
    requires Fits(f, before, after) && Spread(before, after) <= 256
    ensures var price := Price(Script(f, property, path, before, after));
      || PatchSize(Replacement(property, path, after), true) <= price
      || (&& before.Array? && after.Array?
          && PatchSize(SpliceOf(property, path, before.items, after.items), true) <= price)
      || (&& Children(property, path, before, after).Some?
          && Price(Children(property, path, before, after).value) <= price)
    decreases f, 0
  {
    hide Good, Roomy, Diff, PatchSize, PatchesSize, SpliceOf, Same, EntryDiffs, ItemDiffs, Erasures, SpreadEntries,
         SpreadItems, EntryScripts, ItemScripts, Lookup;
    GoodParts(before);
    match f {
      case Keep => assert false;
      case Replace => PriceOne(Replacement(property, path, after));
      case Cut(n, m) =>
        SpliceLeast(property, path, before.items, after.items, n, m);
        PriceOne(SpliceAt(property, path, before.items, after.items, n, m));
      case Parts(fs) =>
        match (before, after)
        case (Struct(was), Struct(now)) =>
          assert now[0..] == now;
          EntriesDearer(fs, property, path, after, was, now, 0);
        case (Map(was), Map(now)) =>
          assert now[0..] == now;
          EntriesDearer(fs, property, path, after, was, now, 0);
          PriceConcat(Erasures(property, path, was, now), EntryDiffs(property, path, was, now));
          PriceConcat(Erasures(property, path, was, now), EntryScripts(fs, property, path, was, now, 0));
        case (Array(was), Array(now)) => ItemsDearer(fs, property, path, was, now, 0);
    }
  }

  lemma {:induction false} EntriesDearer(fs: seq<Form>, property: bytes, path: seq<Step>, after: Value,
                                         was: seq<Field>, now: seq<Field>, j: nat)
    requires Entries(after, now) && GoodFields(was) && Good(after) && Roomy(property, path, after) && |path| < 8
    requires j <= |now| && FitsEntries(fs, was, now) && SpreadEntries(was, now[j..]) <= 256
    ensures Price(EntryDiffs(property, path, was, now[j..])) <= Price(EntryScripts(fs, property, path, was, now, j))
    decreases fs, 0, |now| - j
  {
    hide Roomy, Lookup, Good, Spread, Diff, PatchesSize, Fits, Script;
    if j < |now| {
      var key := path + [Key(now[j].name)];
      assert now[j..][0] == now[j] && now[j..][1..] == now[j + 1..];
      EntryRoomy(property, path, after, was, now, j);
      EntriesDearer(fs, property, path, after, was, now, j + 1);
      PriceConcat(EntryDiff(property, path, was, now[j]), EntryDiffs(property, path, was, now[j + 1..]));
      match Lookup(was, now[j].name) {
        case Some(v) =>
          DiffOptimal(fs[j], property, key, v, now[j].value);
          PriceConcat(Script(fs[j], property, key, v, now[j].value),
                      EntryScripts(fs, property, path, was, now, j + 1));
        case None =>
          PriceConcat([MapEdit(property, path, now[j].name, Some(now[j].value))],
                      EntryScripts(fs, property, path, was, now, j + 1));
      }
    }
  }

  lemma {:induction false} ItemsDearer(fs: seq<Form>, property: bytes, path: seq<Step>, was: seq<Value>,
                                       now: seq<Value>, i: nat)
    requires GoodItems(was) && Good(Array(now)) && Roomy(property, path, Array(now)) && |path| < 8
    requires |fs| == |was| == |now| && i <= |now| && SpreadItems(was, now, i) <= 256
    requires forall t :: 0 <= t < |now| ==> Fits(fs[t], was[t], now[t])
    ensures Price(ItemDiffs(property, path, was, now, i)) <= Price(ItemScripts(fs, property, path, was, now, i))
    decreases fs, 0, |now| - i
  {
    hide Roomy, Good, Spread, Diff, PatchesSize, Fits, Script;
    if i < |now| {
      var at := path + [Index(i)];
      ItemRoomy(property, path, was, now, i);
      ItemsDearer(fs, property, path, was, now, i + 1);
      DiffOptimal(fs[i], property, at, was[i], now[i]);
      PriceConcat(DiffOf(property, at, was[i], now[i]), ItemDiffs(property, path, was, now, i + 1));
      PriceConcat(Script(fs[i], property, at, was[i], now[i]), ItemScripts(fs, property, path, was, now, i + 1));
    }
  }
}
