/** At every subtree the diff takes the cheapest of a replacement, all edits of the children and a splice. */
module DiffChoice {
  import opened Bytes
  import opened Values
  import opened ValueCodec
  import opened UpdateCodec
  import opened Sameness
  import opened Diffs
  import opened DiffSoundness
  import opened DiffTotality

  /** The bytes of a patch list with paths. */
  function Price(ps: seq<Patch>): nat { PatchesSize(ps, true) }

  lemma {:induction false} PriceConcat(a: seq<Patch>, b: seq<Patch>)
    ensures Price(a + b) == Price(a) + Price(b)
    decreases a
  {
    hide PatchSize;
    if a == [] {
      assert a + b == b;
    } else {
      assert (a + b)[1..] == a[1..] + b;
      PriceConcat(a[1..], b);
    }
  }

  lemma PriceOne(p: Patch)
    ensures Price([p]) == PatchSize(p, true)
  {
    hide PatchSize;
    assert [p][1..] == [];
    assert PatchesSize([p][1..], true) == 0;
  }

  // ---- the children's diffs, without a bound on their number ----

  function DiffOf(property: bytes, path: seq<Step>, before: Value, after: Value): seq<Patch> {
    match Diff(property, path, before, after) case Ok(ps) => ps case Err(_) => []
  }

  /** The edits of one field: its own diff, or an addition. */
  function EntryDiff(property: bytes, path: seq<Step>, was: seq<Field>, f: Field): seq<Patch> {
    match Lookup(was, f.name)
    case Some(v) => DiffOf(property, path + [Key(f.name)], v, f.value)
    case None => [MapEdit(property, path, f.name, Some(f.value))]
  }

  function EntryDiffs(property: bytes, path: seq<Step>, was: seq<Field>, now: seq<Field>): seq<Patch> {
    if now == [] then [] else EntryDiff(property, path, was, now[0]) + EntryDiffs(property, path, was, now[1..])
  }

  function ItemDiffs(property: bytes, path: seq<Step>, was: seq<Value>, now: seq<Value>, i: nat): seq<Patch>
    requires |was| == |now| && i <= |now|
    decreases |now| - i
  {
    if i == |now| then []
    else DiffOf(property, path + [Index(i)], was[i], now[i]) + ItemDiffs(property, path, was, now, i + 1)
  }

  predicate SameNames(was: seq<Field>, now: seq<Field>) {
    |was| == |now| && forall i :: 0 <= i < |was| ==> Has(now, was[i].name)
  }

  /** All edits of the children of a container, where the two values can be compared child by child. */
  function Children(property: bytes, path: seq<Step>, before: Value, after: Value): Option<seq<Patch>> {
    match (before, after)
    case (Struct(was), Struct(now)) =>
      if SameNames(was, now) then Some(EntryDiffs(property, path, was, now)) else None
    case (Map(was), Map(now)) =>
      Some(Erasures(property, path, was, now) + EntryDiffs(property, path, was, now))
    case (Array(was), Array(now)) =>
      if |was| == |now| then Some(ItemDiffs(property, path, was, now, 0)) else None
    case _ => None
  }

  /** The loops either gather everything or give up past 256. */
  predicate Gathers(r: Result<seq<Patch>>, all: seq<Patch>) { r.Ok? && Given(r.value, all) }

  /** What a loop makes of all edits: the same, or too many. */
  predicate Given(edits: seq<Patch>, all: seq<Patch>) { if |all| <= 256 then edits == all else |edits| > 256 }

  lemma {:induction false} StructGathers(property: bytes, path: seq<Step>, was: seq<Field>, now: seq<Field>, j: nat,
                                         edits: seq<Patch>)
    requires j <= |now| && GoodFields(was) && Good(Struct(now)) && Roomy(property, path, Struct(now)) && |path| < 8
    requires (forall i :: 0 <= i < |now| ==> Has(was, now[i].name)) && |edits| <= 256
    ensures Gathers(StructEdits(property, path, was, now[j..], edits),
                    edits + EntryDiffs(property, path, was, now[j..]))
    decreases |now| - j
  {
    hide Diff, Roomy, Lookup, Good;
    if j < |now| {
      var name := now[j].name;
      assert now[j..][0] == now[j] && now[j..][1..] == now[j + 1..];
      RoomyField(property, path, Struct(now), now, j);
      var i := LookupFinds(was, name);
      GoodParts(Struct(now));
      DiffTotal(property, path + [Key(name)], was[i].value, now[j].value);
      var inner, rest := EntryDiff(property, path, was, now[j]), EntryDiffs(property, path, was, now[j + 1..]);
      assert edits + (inner + rest) == (edits + inner) + rest;
      if |edits + inner| <= 256 { StructGathers(property, path, was, now, j + 1, edits + inner); }
    } else {
      assert edits + [] == edits;
    }
  }

  lemma {:induction false} MapGathers(property: bytes, path: seq<Step>, was: seq<Field>, now: seq<Field>, j: nat,
                                      edits: seq<Patch>)
    requires j <= |now| && GoodFields(was) && Good(Map(now)) && Roomy(property, path, Map(now)) && |path| < 8
    ensures Gathers(MapEdits(property, path, was, now[j..], edits), edits + EntryDiffs(property, path, was, now[j..]))
    decreases |now| - j
  {
    hide Diff, Roomy, Lookup, Good;
    if j < |now| && |edits| <= 256 {
      var name := now[j].name;
      assert now[j..][0] == now[j] && now[j..][1..] == now[j + 1..];
      RoomyField(property, path, Map(now), now, j);
      GoodParts(Map(now));
      if Has(was, name) {
        var i := LookupFinds(was, name);
        DiffTotal(property, path + [Key(name)], was[i].value, now[j].value);
      }
      var inner, rest := EntryDiff(property, path, was, now[j]), EntryDiffs(property, path, was, now[j + 1..]);
      assert edits + (inner + rest) == (edits + inner) + rest;
      MapGathers(property, path, was, now, j + 1, edits + inner);
    } else {
      assert edits + [] == edits;
    }
  }

  /** Items outside `i..hi` are equal, so that leaving them out leaves out nothing. */
  predicate SameAround(was: seq<Value>, now: seq<Value>, hi: nat) {
    |was| == |now| && forall t :: hi <= t < |now| ==> Same(was[t], now[t])
  }

  lemma {:induction false} EqualItems(property: bytes, path: seq<Step>, was: seq<Value>, now: seq<Value>, i: nat)
    requires i <= |now| && SameAround(was, now, i)
    ensures ItemDiffs(property, path, was, now, i) == []
    decreases |now| - i
  {
    hide Same, DiffOf;
    if i < |now| {
      EqualDiff(property, path + [Index(i)], was[i], now[i]);
      EqualItems(property, path, was, now, i + 1);
    }
  }

  lemma EqualDiff(property: bytes, path: seq<Step>, before: Value, after: Value)
    requires Same(before, after)
    ensures DiffOf(property, path, before, after) == []
  {
    hide Same;
  }

  lemma {:induction false} ItemsGather(property: bytes, path: seq<Step>, was: seq<Value>, now: seq<Value>, i: nat,
                                       hi: nat, edits: seq<Patch>)
    requires i <= hi <= |now| && SameAround(was, now, hi) && GoodItems(was) && Good(Array(now)) && |edits| <= 256
    requires Roomy(property, path, Array(now)) && |path| < 8
    ensures Gathers(ItemEdits(property, path, was, now, i, hi, edits),
                    edits + ItemDiffs(property, path, was, now, i))
    decreases hi - i
  {
    hide Diff, Roomy, Good, Same;
    if i < hi {
      RoomyItem(property, path, now, i);
      GoodParts(Array(now));
      DiffTotal(property, path + [Index(i)], was[i], now[i]);
      var inner := DiffOf(property, path + [Index(i)], was[i], now[i]);
      var rest := ItemDiffs(property, path, was, now, i + 1);
      assert edits + (inner + rest) == (edits + inner) + rest;
      if |edits + inner| <= 256 { ItemsGather(property, path, was, now, i + 1, hi, edits + inner); }
    } else {
      EqualItems(property, path, was, now, hi);
      assert edits + [] == edits;
    }
  }

  lemma {:induction false} EqualBefore(property: bytes, path: seq<Step>, was: seq<Value>, now: seq<Value>, i: nat,
                                       n: nat)
    requires |was| == |now| && i <= n <= |now| && forall t :: 0 <= t < n ==> Same(was[t], now[t])
    ensures ItemDiffs(property, path, was, now, i) == ItemDiffs(property, path, was, now, n)
    decreases n - i
  {
    hide Same, DiffOf;
    if i < n {
      EqualBefore(property, path, was, now, i + 1, n);
      EqualDiff(property, path + [Index(i)], was[i], now[i]);
      var rest := ItemDiffs(property, path, was, now, i + 1);
      assert [] + rest == rest;
    }
  }

  // ---- the cheapest form at each subtree ----

  /** What choosing between one patch and many comes to; a tie goes to the one. */
  predicate Chooses(r: Result<seq<Patch>>, single: Patch, all: seq<Patch>) {
    && r.Ok? && (r.value == [single] || r.value == all) && Price(r.value) <= PatchSize(single, true)
    && (all != [] && |all| <= 256 ==> Price(r.value) <= Price(all))
    && (r.value != [single] ==> all != [] && |all| <= 256 && Price(all) < PatchSize(single, true))
  }

  lemma CheaperChooses(single: Patch, edits: seq<Patch>, all: seq<Patch>)
    requires Costed(single) && AllCosted(edits) && Given(edits, all)
    ensures Costs(edits).Ok? && Chooses(Cheaper(single, edits, Costs(edits).value), single, all)
  {
    hide Costed, Cost, PatchSize, PatchesSize, Costs;
    CostsExact(edits);
    CostExact(single);
    PriceOne(single);
  }

  lemma ItemChildren(property: bytes, path: seq<Step>, was: seq<Value>, now: seq<Value>)
    requires |was| == |now| && GoodItems(was) && Good(Array(now)) && Roomy(property, path, Array(now)) && |path| < 8
    ensures var n := Prefix(was, now);
      Gathers(ItemEdits(property, path, was, now, n, |now| - Suffix(was[n..], now[n..]), []),
              ItemDiffs(property, path, was, now, 0))
  {
    hide Prefix, Suffix, Roomy, Good, Diff, Same, ItemDiffs, ItemEdits;
    var n := Prefix(was, now);
    var m := Suffix(was[n..], now[n..]);
    forall t | |now| - m <= t < |now| ensures Same(was[t], now[t]) {
      assert was[n..][t - n] == was[t] && now[n..][t - n] == now[t];
    }
    ItemsGather(property, path, was, now, n, |now| - m, []);
    EqualBefore(property, path, was, now, 0, n);
    assert [] + ItemDiffs(property, path, was, now, n) == ItemDiffs(property, path, was, now, n);
  }

  /** Array edits are the cheaper of the item edits and the splice. */
  lemma ArrayChooses(property: bytes, path: seq<Step>, was: seq<Value>, now: seq<Value>)
    requires GoodItems(was) && Good(Array(now)) && Roomy(property, path, Array(now)) && |path| < 8
    ensures Chooses(ArrayEdits(property, path, was, now), SpliceOf(property, path, was, now),
                    if |was| == |now| then ItemDiffs(property, path, was, now, 0) else [])
  {
    hide ItemEdits, ItemDiffs, Costed, Cheaper, Costs, SpliceOf, Prefix, Suffix, Roomy, Good, Chooses;
    var n := Prefix(was, now);
    var hi := |now| - Suffix(was[n..], now[n..]);
    var splice := SpliceOf(property, path, was, now);
    SpliceCosted(property, path, was, now);
    if |was| == |now| {
      ItemsTotal(property, path, was, now, n, hi, []);
      ItemChildren(property, path, was, now);
      CheaperChooses(splice, ItemEdits(property, path, was, now, n, hi, []).value,
                     ItemDiffs(property, path, was, now, 0));
    } else {
      CheaperChooses(splice, [], []);
    }
  }

  /** What there is besides the replacement: the chosen form of an array, or all edits of the children. */
  function Rivals(property: bytes, path: seq<Step>, before: Value, after: Value): seq<Patch> {
    if before.Array? && after.Array? then
      match ArrayEdits(property, path, before.items, after.items) case Ok(ps) => ps case Err(_) => []
    else
      match Children(property, path, before, after) case Some(ps) => ps case None => []
  }

  lemma CandidatesGiven(property: bytes, path: seq<Step>, before: Value, after: Value)
    requires Good(before) && Good(after) && Roomy(property, path, after) && |path| < 8
    ensures Candidates(property, path, before, after).Ok?
    ensures Given(Candidates(property, path, before, after).value, Rivals(property, path, before, after))
  {
    hide StructEdits, MapEdits, ArrayEdits, Erasures, EntryDiffs, Roomy, Good, Lookup;
    GoodParts(before);
    GoodParts(after);
    if before.Struct? && after.Struct? {
      if SameNames(before.fields, after.fields) {
        SameKeys(before.fields, after.fields);
        forall i | 0 <= i < |after.fields| ensures Has(before.fields, after.fields[i].name) {
          LookupAt(before.fields, i);
        }
        assert after.fields[0..] == after.fields;
        StructGathers(property, path, before.fields, after.fields, 0, []);
        var all := EntryDiffs(property, path, before.fields, after.fields);
        assert [] + all == all;
      }
    } else if before.Map? && after.Map? {
      assert after.entries[0..] == after.entries;
      MapGathers(property, path, before.entries, after.entries, 0,
                 Erasures(property, path, before.entries, after.entries));
    } else if before.Array? && after.Array? {
      ArrayTotal(property, path, before.items, after.items);
      ArrayShort(property, path, before.items, after.items);
    }
  }

  lemma ArrayShort(property: bytes, path: seq<Step>, was: seq<Value>, now: seq<Value>)
    requires GoodItems(was) && Good(Array(now)) && Roomy(property, path, Array(now)) && |path| < 8
    ensures ArrayEdits(property, path, was, now).Ok? && |ArrayEdits(property, path, was, now).value| <= 256
  {
    hide ArrayEdits, SpliceOf, ItemDiffs, Roomy, Good, PatchSize, PatchesSize;
    ArrayChooses(property, path, was, now);
  }

  /** A container lies less than eight components deep, so that the limit on paths never decides. */
  lemma Shallow(property: bytes, path: seq<Step>, before: Value, after: Value)
    requires Good(after) && Roomy(property, path, after) && |path| == 8 && !Same(before, after)
    ensures !after.Struct? && (after.Map? ==> after.entries == []) && (after.Array? ==> after.items == [])
  {
    hide Same;
    if after.Struct? { FieldPart(after.fields, 0); }
    if after.Map? && after.entries != [] { FieldPart(after.entries, 0); }
    if after.Array? && after.items != [] { ItemPart(after.items, 0); }
  }

  /** At every subtree the diff is the cheapest of a replacement and its rivals; a tie goes to the replacement. */
  lemma DiffChooses(property: bytes, path: seq<Step>, before: Value, after: Value)
    requires Good(before) && Good(after) && Roomy(property, path, after) && !Same(before, after)
    ensures Chooses(Diff(property, path, before, after), Replacement(property, path, after),
                    if |path| < 8 then Rivals(property, path, before, after) else [])
  {
    hide Candidates, Costed, Cheaper, Costs, Roomy, Good, Same, Cost, Rivals, Chooses;
    var single := Replacement(property, path, after);
    ReplacementCosted(property, path, after);
    if |path| < 8 {
      CandidatesTotal(property, path, before, after);
      CandidatesGiven(property, path, before, after);
      CheaperChooses(single, Candidates(property, path, before, after).value,
                     Rivals(property, path, before, after));
    } else {
      CheaperChooses(single, [], []);
    }
  }

  /** The same in full: no dearer than the replacement, than all edits of the children if there are no more than 256 of
      them, and than the splice of an array; and anything but a single patch is strictly cheaper than it. */
  lemma DiffCheapest(property: bytes, path: seq<Step>, before: Value, after: Value)
    requires Good(before) && Good(after) && Roomy(property, path, after) && !Same(before, after) && |path| < 8
    ensures var r := Diff(property, path, before, after); var single := Replacement(property, path, after);
      var children := Children(property, path, before, after);
      && r.Ok? && Price(r.value) <= PatchSize(single, true)
      && (children.Some? && 0 < |children.value| <= 256 ==> Price(r.value) <= Price(children.value))
      && (before.Array? && after.Array? ==>
            Price(r.value) <= PatchSize(SpliceOf(property, path, before.items, after.items), true))
      && (|| r.value == [single]
          || (before.Array? && after.Array? && r.value == [SpliceOf(property, path, before.items, after.items)])
          || children == Some(r.value))
      && (r.value != [single] ==> Price(r.value) < PatchSize(single, true))
      && (before.Array? && after.Array? && children == Some(r.value) && |r.value| != 1 ==>
            Price(r.value) < PatchSize(SpliceOf(property, path, before.items, after.items), true))
  {
    hide Diff, Roomy, Good, Same, Erasures, EntryDiffs, ItemDiffs, ArrayEdits, SpliceOf, PatchSize, PatchesSize;
    DiffChooses(property, path, before, after);
    if before.Array? && after.Array? {
      GoodParts(before);
      ArrayChooses(property, path, before.items, after.items);
    }
  }
}
