/** On values inside a valid image no candidate patch outgrows the record limits, so the diff always exists. */
module DiffTotality {
  import opened Bytes
  import opened Values
  import opened ValueCodec
  import opened UpdateCodec
  import opened Sameness
  import opened Diffs
  import opened DiffSoundness

  const ALONE := Writer(SizeOnly(0), NODES)

  predicate Costed(p: Patch) { TypedPatch(p) && PatchFits(ALONE, p, true) }

  predicate AllCosted(ps: seq<Patch>) { forall i :: 0 <= i < |ps| ==> Costed(ps[i]) }

  lemma CostExact(p: Patch)
    ensures Cost(p).Ok? <==> PatchFits(ALONE, p, true)
    ensures Costed(p) ==> Cost(p) == Ok(PatchSize(p, true))
  {
    hide EncodePatch, PatchFits, PatchWire, PatchShape, PatchNodes, PatchSize;
    PatchExact(ALONE, p, true);
  }

  lemma {:induction false} CostsExact(ps: seq<Patch>)
    requires AllCosted(ps)
    ensures Costs(ps) == Ok(PatchesSize(ps, true))
    decreases ps
  {
    hide Cost, Costed, PatchSize;
    if ps != [] {
      CostExact(ps[0]);
      CostsExact(ps[1..]);
    }
  }

  /** A value at this place leaves room for every patch that could carry it. */
  predicate Roomy(property: bytes, path: seq<Step>, after: Value) {
    && ValidName(property) && |path| <= 8 && (forall i :: 0 <= i < |path| ==> StepShape(path[i]))
    && |path| + Height(after) <= 8 && Nodes(after) <= NODES
    && 6 + |property| + PathSize(path) + Size(after) <= LIMIT
  }

  lemma {:induction false} PathSizeAppend(path: seq<Step>, s: Step)
    ensures PathSize(path + [s]) == PathSize(path) + if s.Key? then 2 + |s.key| else 3
    decreases path
  {
    if path == [] {
      assert path + [s] == [s] && [s][1..] == [];
    } else {
      assert (path + [s])[1..] == path[1..] + [s];
      PathSizeAppend(path[1..], s);
    }
  }

  lemma {:induction false} PathSizeBound(path: seq<Step>)
    requires forall i :: 0 <= i < |path| ==> StepShape(path[i])
    ensures PathSize(path) <= 129 * |path|
    decreases path
  {
    if path != [] { PathSizeBound(path[1..]); }
  }

  /** Going one level down never needs more room: the container's own bytes pay for the path component. */
  lemma RoomyField(property: bytes, path: seq<Step>, after: Value, fs: seq<Field>, i: nat)
    requires Roomy(property, path, after) && |path| < 8 && Good(after) && i < |fs|
    requires after == Struct(fs) || after == Map(fs)
    ensures Roomy(property, path + [Key(fs[i].name)], fs[i].value) && ValidKey(fs[i].name)
    ensures |path| + 1 + Height(fs[i].value) <= 8 && Nodes(fs[i].value) <= NODES
    ensures 1 + |property| + PathSize(path) + 4 + |fs[i].name| + Size(fs[i].value) <= LIMIT
  {
    FieldPart(fs, i);
    PathSizeAppend(path, Key(fs[i].name));
  }

  lemma RoomyPath(property: bytes, path: seq<Step>, after: Value)
    requires Roomy(property, path, after)
    ensures ValidName(property) && |path| <= 8 && forall i :: 0 <= i < |path| ==> StepShape(path[i])
  {
  }

  lemma RoomyItem(property: bytes, path: seq<Step>, xs: seq<Value>, i: nat)
    requires Roomy(property, path, Array(xs)) && |path| < 8 && Good(Array(xs)) && i < |xs|
    ensures Roomy(property, path + [Index(i)], xs[i])
  {
    ItemPart(xs, i);
    PathSizeAppend(path, Index(i));
  }

  lemma ReplacementCosted(property: bytes, path: seq<Step>, after: Value)
    requires Roomy(property, path, after) && Good(after)
    ensures Costed(Replacement(property, path, after))
  {
    hide ValidName, StepShape, PathSize;
  }

  lemma ErasureCosted(property: bytes, path: seq<Step>, key: bytes)
    requires ValidName(property) && |path| <= 8 && (forall i :: 0 <= i < |path| ==> StepShape(path[i])) && ValidKey(key)
    ensures Costed(MapEdit(property, path, key, None))
  {
    PathSizeBound(path);
    hide StepShape, PathSize;
  }

  lemma AdditionCosted(property: bytes, path: seq<Step>, es: seq<Field>, i: nat)
    requires Roomy(property, path, Map(es)) && |path| < 8 && Good(Map(es)) && i < |es|
    ensures Costed(MapEdit(property, path, es[i].name, Some(es[i].value)))
  {
    RoomyField(property, path, Map(es), es, i);
    hide ValidName, StepShape, PathSize, Size, Nodes, Height;
  }

  lemma SpliceCosted(property: bytes, path: seq<Step>, was: seq<Value>, now: seq<Value>)
    requires Roomy(property, path, Array(now)) && |path| < 8 && Good(Array(now)) && |was| <= 256
    ensures Costed(SpliceOf(property, path, was, now))
  {
    hide Prefix, Suffix, Costed, Roomy, Good;
    var n := Prefix(was, now);
    var m := Suffix(was[n..], now[n..]);
    SliceCosted(property, path, n, |was| - n - m, now, n, |now| - m);
  }

  lemma SliceCosted(property: bytes, path: seq<Step>, index: nat, remove: nat, now: seq<Value>, lo: nat, hi: nat)
    requires Roomy(property, path, Array(now)) && |path| < 8 && Good(Array(now)) && index <= 256 && remove <= 256
    requires lo <= hi <= |now|
    ensures Costed(Splice(property, path, index, remove, now[lo..hi]))
  {
    hide ValidName, StepShape, PathSize, ItemsSize, ItemsNodes, ItemsHeight;
    ItemSlice(now, lo, hi);
  }

  lemma AllCostedConcat(a: seq<Patch>, b: seq<Patch>)
    requires AllCosted(a) && AllCosted(b)
    ensures AllCosted(a + b)
  {
    hide Costed;
  }

  lemma {:induction false} CheaperTotal(single: Patch, edits: seq<Patch>)
    requires Costed(single) && AllCosted(edits)
    ensures Costs(edits).Ok? && Cheaper(single, edits, Costs(edits).value).Ok?
    ensures AllCosted(Cheaper(single, edits, Costs(edits).value).value)
  {
    hide Costed, Cost;
    CostsExact(edits);
    CostExact(single);
  }

  /** `diff_fields` never fails on values of valid images, and every patch it returns fits a record of its own. */
  lemma {:induction false} DiffTotal(property: bytes, path: seq<Step>, before: Value, after: Value)
    requires Good(before) && Good(after) && Roomy(property, path, after)
    ensures Diff(property, path, before, after).Ok? && AllCosted(Diff(property, path, before, after).value)
    decreases after, 2
  {
    hide Candidates, Costed, Cheaper, Costs, Roomy, Good, Same, Cost;
    if !Same(before, after) {
      ReplacementCosted(property, path, after);
      if |path| < 8 {
        CandidatesTotal(property, path, before, after);
        CheaperTotal(Replacement(property, path, after), Candidates(property, path, before, after).value);
      } else {
        CheaperTotal(Replacement(property, path, after), []);
      }
    }
  }

  lemma {:induction false} CandidatesTotal(property: bytes, path: seq<Step>, before: Value, after: Value)
    requires Good(before) && Good(after) && Roomy(property, path, after) && |path| < 8
    ensures Candidates(property, path, before, after).Ok? && AllCosted(Candidates(property, path, before, after).value)
    decreases after, 1
  {
    hide StructEdits, MapEdits, ArrayEdits, Erasures, Costed, Roomy, Good, Lookup;
    GoodParts(before);
    GoodParts(after);
    if before.Struct? && after.Struct? {
      if |before.fields| == |after.fields|
         && forall i :: 0 <= i < |before.fields| ==> Has(after.fields, before.fields[i].name) {
        SameKeys(before.fields, after.fields);
        forall i | 0 <= i < |after.fields| ensures Has(before.fields, after.fields[i].name) {
          LookupAt(before.fields, i);
        }
        assert after.fields[0..] == after.fields;
        StructTotal(property, path, before.fields, after.fields, 0, []);
      }
    } else if before.Map? && after.Map? {
      RoomyPath(property, path, after);
      ErasuresCosted(property, path, before, before.entries, after.entries);
      assert after.entries[0..] == after.entries;
      MapTotal(property, path, before.entries, after.entries, 0,
               Erasures(property, path, before.entries, after.entries));
    } else if before.Array? && after.Array? {
      ArrayTotal(property, path, before.items, after.items);
    }
  }

  lemma {:induction false} StructTotal(property: bytes, path: seq<Step>, was: seq<Field>, now: seq<Field>, j: nat,
                                       edits: seq<Patch>)
    requires j <= |now| && GoodFields(was) && Good(Struct(now)) && Roomy(property, path, Struct(now)) && |path| < 8
    requires AllCosted(edits)
    requires forall i :: 0 <= i < |now| ==> Has(was, now[i].name)
    ensures StructEdits(property, path, was, now[j..], edits).Ok?
    ensures AllCosted(StructEdits(property, path, was, now[j..], edits).value)
    decreases now, 1, |now| - j
  {
    hide Diff, Costed, Roomy, Lookup, Good;
    if j < |now| {
      var name := now[j].name;
      assert now[j..][0] == now[j] && now[j..][1..] == now[j + 1..];
      RoomyField(property, path, Struct(now), now, j);
      var i := LookupFinds(was, name);
      GoodParts(Struct(now));
      DiffTotal(property, path + [Key(name)], was[i].value, now[j].value);
      var inner := Diff(property, path + [Key(name)], was[i].value, now[j].value).value;
      AllCostedConcat(edits, inner);
      StructTotal(property, path, was, now, j + 1, edits + inner);
    }
  }

  lemma {:induction false} ErasuresCosted(property: bytes, path: seq<Step>, before: Value, rest: seq<Field>,
                                          now: seq<Field>)
    requires Good(before) && before.Map? && (forall f :: f in rest ==> f in before.entries)
    requires ValidName(property) && |path| <= 8 && forall i :: 0 <= i < |path| ==> StepShape(path[i])
    ensures AllCosted(Erasures(property, path, rest, now))
    decreases rest
  {
    hide Costed, Lookup, StepShape, ValidName;
    if rest != [] {
      assert rest[0] in before.entries;
      ErasureCosted(property, path, rest[0].name);
      ErasuresCosted(property, path, before, rest[1..], now);
    }
  }

  lemma {:induction false} MapTotal(property: bytes, path: seq<Step>, was: seq<Field>, now: seq<Field>, j: nat,
                                    edits: seq<Patch>)
    requires j <= |now| && GoodFields(was) && Good(Map(now)) && Roomy(property, path, Map(now)) && |path| < 8
    requires AllCosted(edits)
    ensures MapEdits(property, path, was, now[j..], edits).Ok?
    ensures AllCosted(MapEdits(property, path, was, now[j..], edits).value)
    decreases now, 1, |now| - j
  {
    hide Diff, Costed, Roomy, Lookup, Good;
    if j < |now| && |edits| <= 256 {
      var name := now[j].name;
      assert now[j..][0] == now[j] && now[j..][1..] == now[j + 1..];
      RoomyField(property, path, Map(now), now, j);
      GoodParts(Map(now));
      if Has(was, name) {
        var i := LookupFinds(was, name);
        DiffTotal(property, path + [Key(name)], was[i].value, now[j].value);
        var inner := Diff(property, path + [Key(name)], was[i].value, now[j].value).value;
        AllCostedConcat(edits, inner);
        MapTotal(property, path, was, now, j + 1, edits + inner);
      } else {
        AdditionCosted(property, path, now, j);
        AllCostedConcat(edits, [MapEdit(property, path, name, Some(now[j].value))]);
        MapTotal(property, path, was, now, j + 1, edits + [MapEdit(property, path, name, Some(now[j].value))]);
      }
    }
  }

  lemma {:induction false} ArrayTotal(property: bytes, path: seq<Step>, was: seq<Value>, now: seq<Value>)
    requires GoodItems(was) && Good(Array(now)) && Roomy(property, path, Array(now)) && |path| < 8
    ensures ArrayEdits(property, path, was, now).Ok? && AllCosted(ArrayEdits(property, path, was, now).value)
    decreases now, 2
  {
    hide ItemEdits, Costed, Cheaper, Costs, SpliceOf, Prefix, Suffix, Roomy, Good;
    var n := Prefix(was, now);
    var m := Suffix(was[n..], now[n..]);
    SpliceCosted(property, path, was, now);
    if |was| == |now| {
      ItemsTotal(property, path, was, now, n, |now| - m, []);
      CheaperTotal(SpliceOf(property, path, was, now), ItemEdits(property, path, was, now, n, |now| - m, []).value);
    } else {
      CheaperTotal(SpliceOf(property, path, was, now), []);
    }
  }

  lemma {:induction false} ItemsTotal(property: bytes, path: seq<Step>, was: seq<Value>, now: seq<Value>, i: nat,
                                      hi: nat, edits: seq<Patch>)
    requires |was| == |now| && i <= hi <= |now| && GoodItems(was) && Good(Array(now)) && AllCosted(edits)
    requires Roomy(property, path, Array(now)) && |path| < 8
    ensures ItemEdits(property, path, was, now, i, hi, edits).Ok?
    ensures AllCosted(ItemEdits(property, path, was, now, i, hi, edits).value)
    decreases now, 1, hi - i
  {
    hide Diff, Costed, Roomy, Good;
    if i < hi {
      RoomyItem(property, path, now, i);
      GoodParts(Array(now));
      DiffTotal(property, path + [Index(i)], was[i], now[i]);
      var inner := Diff(property, path + [Index(i)], was[i], now[i]).value;
      AllCostedConcat(edits, inner);
      ItemsTotal(property, path, was, now, i + 1, hi, edits + inner);
    }
  }
}
