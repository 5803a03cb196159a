/** Whatever the decoder accepts is a valid update, spelled by exactly the bytes it was read from. */
module DecodeSoundness {
  import opened Bytes
  import opened Values
  import opened ValueCodec
  import opened ValueDecoder
  import opened UpdateCodec
  import opened UpdateDecoder

  lemma {:induction false} AssignMeasures(fs: seq<Field>, k: bytes, v: Value)
    requires !Has(fs, k)
    ensures var a := Assign(fs, k, v);
      && |a| == |fs| + 1 && FieldsSize(a) == FieldsSize(fs) + 1 + |k| + Size(v)
      && FieldsNodes(a) == FieldsNodes(fs) + Nodes(v) && FieldsHeight(a) == Max(1 + Height(v), FieldsHeight(fs))
    decreases fs
  {
    hide Size, Nodes, Height, Less;
    var a := Assign(fs, k, v);
    if fs == [] || Less(k, fs[0].name) {
      assert a[1..] == fs;
    } else {
      AssignMeasures(fs[1..], k, v);
      assert a[1..] == Assign(fs[1..], k, v);
    }
  }

  /** Every field has a good name and a good value. */
  predicate GoodOnes(fs: seq<Field>, names: bool) {
    forall i :: 0 <= i < |fs| ==>
      (if names then ValidName(fs[i].name) else ValidKey(fs[i].name)) && Typed(fs[i].value) && Shape(fs[i].value)
  }

  lemma {:induction false} AssignGood(fs: seq<Field>, k: bytes, v: Value, names: bool)
    requires GoodOnes(fs, names) && (if names then ValidName(k) else ValidKey(k)) && Typed(v) && Shape(v)
    ensures GoodOnes(Assign(fs, k, v), names)
    decreases fs
  {
    hide Typed, Shape, ValidName, ValidKey, Less;
    var a := Assign(fs, k, v);
    if fs != [] && !Less(k, fs[0].name) && fs[0].name != k {
      AssignGood(fs[1..], k, v, names);
      assert a[1..] == Assign(fs[1..], k, v);
      forall i | 0 <= i < |a| ensures
          (if names then ValidName(a[i].name) else ValidKey(a[i].name)) && Typed(a[i].value) && Shape(a[i].value)
      {
        if i > 0 { assert a[i] == a[1..][i - 1]; }
      }
    }
  }

  /** A value was read: it is valid, within depth and budget, and as long as what was consumed. */
  predicate ValueRead(input: bytes, left: nat, depth: nat, r: Decoded<Value>) {
    && Typed(r.value) && Shape(r.value) && depth + Height(r.value) <= 8
    && r.left + Nodes(r.value) == left && |r.rest| + Size(r.value) == |input|
  }

  predicate FieldsRead(input: bytes, left: nat, depth: nat, count: nat, names: bool, done: seq<Field>,
                       r: Decoded<seq<Field>>) {
    && |r.value| == |done| + count && Sorted(r.value) && GoodOnes(r.value, names)
    && FieldsHeight(r.value) <= Max(FieldsHeight(done), Levels(depth))
    && r.left + FieldsNodes(r.value) == left + FieldsNodes(done)
    && |r.rest| + FieldsSize(r.value) == |input| + FieldsSize(done)
  }

  predicate ItemsRead(input: bytes, left: nat, depth: nat, count: nat, done: seq<Value>, r: Decoded<seq<Value>>) {
    && |r.value| == |done| + count && (forall i :: 0 <= i < |r.value| ==> Typed(r.value[i]) && Shape(r.value[i]))
    && ItemsHeight(r.value) <= Max(ItemsHeight(done), Levels(depth))
    && r.left + ItemsNodes(r.value) == left + ItemsNodes(done)
    && |r.rest| + ItemsSize(r.value) == |input| + ItemsSize(done)
  }

  lemma NameRead(input: bytes, names: bool)
    requires DecodeName(input, names).Ok?
    ensures var r := DecodeName(input, names).value;
      && (if names then ValidName(r.value) else ValidKey(r.value)) && |r.rest| + 1 + |r.value| == |input|
  {
    hide ValidName, ValidKey;
  }

  lemma ScalarRead(tag: nat, input: bytes, left: nat)
    requires tag < 4 && DecodeScalar(tag, input, left).Ok?
    ensures var r := DecodeScalar(tag, input, left).value;
      && Typed(r.value) && Shape(r.value) && Height(r.value) == 0 && Nodes(r.value) == 1 && r.left == left
      && |r.rest| + Size(r.value) == |input| + 1
  {
    hide Number, Finite;
    Pow256Values();
  }

  lemma {:induction false} ValueSound(input: bytes, left: nat, depth: nat)
    requires DecodeValue(input, left, depth).Ok?
    ensures ValueRead(input, left, depth, DecodeValue(input, left, depth).value)
    decreases Levels(depth), 2, 0
  {
    hide DecodeScalar, DecodeFields, DecodeItems, Typed, Shape, Size, Nodes, Height, Number;
    var tag := Get(input, 1).value;
    if tag.value < 4 {
      ScalarRead(tag.value, tag.rest, left - 1);
    } else if tag.value == 4 {
      var n := Get(tag.rest, 1).value;
      FieldsSound(n.rest, left - 1, depth + 1, n.value, true, []);
      StructRead(DecodeFields(n.rest, left - 1, depth + 1, n.value, true, []).value.value, depth);
    } else if tag.value == 5 {
      var n := Get(tag.rest, 2).value;
      ItemsSound(n.rest, left - 1, depth + 1, n.value, []);
      ArrayRead(DecodeItems(n.rest, left - 1, depth + 1, n.value, []).value.value, depth);
    } else {
      var n := Get(tag.rest, 2).value;
      FieldsSound(n.rest, left - 1, depth + 1, n.value, false, []);
      MapRead(DecodeFields(n.rest, left - 1, depth + 1, n.value, false, []).value.value, depth);
    }
    NoneMeasured();
  }

  lemma NoneMeasured()
    ensures FieldsSize([]) == FieldsNodes([]) == FieldsHeight([]) == 0
    ensures ItemsSize([]) == ItemsNodes([]) == ItemsHeight([]) == 0
  {
  }

  lemma StructRead(fs: seq<Field>, depth: nat)
    requires 1 <= |fs| <= 64 && Sorted(fs) && GoodOnes(fs, true)
    ensures var v := Struct(fs);
      && Typed(v) && Shape(v) && Height(v) == FieldsHeight(fs) && Nodes(v) == 1 + FieldsNodes(fs)
      && Size(v) == 2 + FieldsSize(fs)
  {
  }

  lemma MapRead(fs: seq<Field>, depth: nat)
    requires |fs| <= 256 && Sorted(fs) && GoodOnes(fs, false)
    ensures var v := Map(fs);
      && Typed(v) && Shape(v) && Height(v) == FieldsHeight(fs) && Nodes(v) == 1 + FieldsNodes(fs)
      && Size(v) == 3 + FieldsSize(fs)
  {
  }

  lemma ArrayRead(xs: seq<Value>, depth: nat)
    requires |xs| <= 256 && forall i :: 0 <= i < |xs| ==> Typed(xs[i]) && Shape(xs[i])
    ensures var v := Array(xs);
      && Typed(v) && Shape(v) && Height(v) == ItemsHeight(xs) && Nodes(v) == 1 + ItemsNodes(xs)
      && Size(v) == 3 + ItemsSize(xs)
  {
  }

  lemma {:induction false} FieldsSound(input: bytes, left: nat, depth: nat, count: nat, names: bool, done: seq<Field>)
    requires depth <= 9 && Sorted(done) && GoodOnes(done, names)
    requires DecodeFields(input, left, depth, count, names, done).Ok?
    ensures FieldsRead(input, left, depth, count, names, done,
                       DecodeFields(input, left, depth, count, names, done).value)
    decreases Levels(depth), 3, count
  {
    hide DecodeName, DecodeValue, Typed, Shape, Size, Nodes, Height, Sorted, ValidName, ValidKey;
    if count > 0 {
      var name := DecodeName(input, names).value;
      var v := DecodeValue(name.rest, left, depth).value;
      NameRead(input, names);
      ValueSound(name.rest, left, depth);
      var next := Assign(done, name.value, v.value);
      AssignSorted(done, name.value, v.value);
      AssignGood(done, name.value, v.value, names);
      AssignMeasures(done, name.value, v.value);
      FieldsSound(v.rest, v.left, depth, count - 1, names, next);
    }
  }

  lemma {:induction false} ItemsSound(input: bytes, left: nat, depth: nat, count: nat, done: seq<Value>)
    requires depth <= 9 && forall i :: 0 <= i < |done| ==> Typed(done[i]) && Shape(done[i])
    requires DecodeItems(input, left, depth, count, done).Ok?
    ensures ItemsRead(input, left, depth, count, done, DecodeItems(input, left, depth, count, done).value)
    decreases Levels(depth), 3, count
  {
    hide DecodeValue, Typed, Shape, Size, Nodes, Height;
    if count > 0 {
      var v := DecodeValue(input, left, depth).value;
      ValueSound(input, left, depth);
      AppendMeasures(done, v.value);
      ItemsSound(v.rest, v.left, depth, count - 1, done + [v.value]);
    }
  }

  lemma {:induction false} AppendMeasures(xs: seq<Value>, v: Value)
    ensures ItemsSize(xs + [v]) == ItemsSize(xs) + Size(v) && ItemsNodes(xs + [v]) == ItemsNodes(xs) + Nodes(v)
    ensures ItemsHeight(xs + [v]) == Max(ItemsHeight(xs), 1 + Height(v))
    decreases xs
  {
    hide Size, Nodes, Height;
    if xs == [] {
      assert [v][1..] == [] && xs + [v] == [v];
      NoneMeasured();
    } else {
      assert (xs + [v])[1..] == xs[1..] + [v];
      AppendMeasures(xs[1..], v);
    }
  }

  // ---- patches ----

  lemma {:induction false} PathSound(input: bytes, count: nat, done: seq<Step>)
    requires DecodePath(input, count, done).Ok? && forall i :: 0 <= i < |done| ==> StepShape(done[i])
    ensures var r := DecodePath(input, count, done).value;
      && |r.value| == |done| + count && (forall i :: 0 <= i < |r.value| ==> StepShape(r.value[i]))
      && |r.rest| + PathSize(r.value) == |input| + PathSize(done)
    decreases count
  {
    hide DecodeName, ValidKey, Number;
    if count > 0 {
      var tag := Get(input, 1).value;
      if tag.value == 0 {
        var i := Get(tag.rest, 2).value;
        PathAppend(done, Index(i.value));
        PathSound(i.rest, count - 1, done + [Index(i.value)]);
      } else {
        NameRead(tag.rest, false);
        var k := DecodeName(tag.rest, false).value;
        PathAppend(done, Key(k.value));
        PathSound(k.rest, count - 1, done + [Key(k.value)]);
      }
    }
  }

  lemma {:induction false} PathAppend(path: seq<Step>, s: Step)
    ensures PathSize(path + [s]) == PathSize(path) + if s.Key? then 2 + |s.key| else 3
    decreases path
  {
    if path == [] {
      assert path + [s] == [s] && [s][1..] == [];
    } else {
      assert (path + [s])[1..] == path[1..] + [s];
      PathAppend(path[1..], s);
    }
  }

  lemma PlaceSound(input: bytes, paths: bool)
    requires DecodePlace(input, paths).Ok?
    ensures var r := DecodePlace(input, paths).value;
      && |r.value| <= 8 && (forall i :: 0 <= i < |r.value| ==> StepShape(r.value[i])) && (!paths ==> r.value == [])
      && |r.rest| + (if paths then 1 + PathSize(r.value) else 0) == |input|
  {
    hide DecodePath, Number;
    if paths {
      var n := Get(input, 1).value;
      PathSound(n.rest, n.value, []);
    }
  }

  predicate PatchRead(input: bytes, left: nat, paths: bool, r: Decoded<Patch>) {
    && TypedPatch(r.value) && PatchShape(r.value) && PatchDepth(r.value) && (!paths ==> !FieldPaths([r.value]))
    && r.left + PatchNodes(r.value) == left && |r.rest| + PatchSize(r.value, paths) == |input|
  }

  /** What is left to read of a patch after its place and kind. */
  predicate EditRead(property: bytes, path: seq<Step>, input: bytes, left: nat, r: Decoded<Patch>) {
    && r.value.property == property && r.value.path == path && TypedPatch(r.value) && PatchDepth(r.value)
    && (ValidName(property) && |path| <= 8 && (forall i :: 0 <= i < |path| ==> StepShape(path[i])) ==>
          PatchShape(r.value))
    && r.left + PatchNodes(r.value) == left && |r.rest| + EditSize(r.value) == |input|
  }

  lemma ReplacementSound(property: bytes, path: seq<Step>, input: bytes, left: nat)
    requires DecodeReplacement(property, path, input, left).Ok?
    ensures EditRead(property, path, input, left, DecodeReplacement(property, path, input, left).value)
    ensures DecodeReplacement(property, path, input, left).value.value.replace
  {
    hide DecodeValue, Typed, Shape, Size, Nodes, Height, ValidName, StepShape;
    ValueSound(input, left, |path|);
  }

  lemma MapEditSound(property: bytes, path: seq<Step>, input: bytes, left: nat)
    requires DecodeMapEdit(property, path, input, left).Ok?
    ensures EditRead(property, path, input, left, DecodeMapEdit(property, path, input, left).value)
    ensures var p := DecodeMapEdit(property, path, input, left).value.value; !p.replace && p.isMap
  {
    hide DecodeValue, DecodeName, Typed, Shape, Size, Nodes, Height, ValidName, ValidKey, StepShape, Number;
    NameRead(input, false);
    var key := DecodeName(input, false).value;
    var present := Get(key.rest, 1).value;
    if present.value == 1 { ValueSound(present.rest, left, |path| + 1); }
  }

  lemma SpliceSound(property: bytes, path: seq<Step>, input: bytes, left: nat)
    requires DecodeSplice(property, path, input, left).Ok? && |path| <= 8
    ensures EditRead(property, path, input, left, DecodeSplice(property, path, input, left).value)
    ensures var p := DecodeSplice(property, path, input, left).value.value; !p.replace && !p.isMap
  {
    hide DecodeItems, Typed, Shape, Size, Nodes, Height, ValidName, StepShape, Number;
    var index := Get(input, 2).value;
    var remove := Get(index.rest, 2).value;
    var n := Get(remove.rest, 2).value;
    ItemsSound(n.rest, left, |path| + 1, n.value, []);
    NoneMeasured();
    SpliceDeep(DecodeItems(n.rest, left, |path| + 1, n.value, []).value.value, |path|);
  }

  lemma SpliceDeep(xs: seq<Value>, depth: nat)
    requires depth <= 8 && ItemsHeight(xs) <= Max(0, Levels(depth + 1))
    ensures xs != [] ==> depth + 1 + ItemsHeight(xs) <= 9
  {
    if xs != [] { assert ItemsHeight(xs) >= 1; }
  }

  lemma PatchSound(input: bytes, left: nat, paths: bool, values: seq<Field>)
    requires DecodePatch(input, left, paths, values).Ok?
    ensures PatchRead(input, left, paths, DecodePatch(input, left, paths, values).value)
    ensures !Has(values, DecodePatch(input, left, paths, values).value.value.property)
  {
    hide DecodeName, DecodePlace, DecodeReplacement, DecodeMapEdit, DecodeSplice, TypedPatch, PatchShape, PatchDepth,
         PatchNodes, EditSize, PathSize, ValidName, StepShape, Lookup, Number;
    NameRead(input, true);
    var property := DecodeName(input, true).value;
    PlaceSound(property.rest, paths);
    var path := DecodePlace(property.rest, paths).value;
    var kind := Get(path.rest, 1).value;
    if kind.value == 2 {
      ReplacementSound(property.value, path.value, kind.rest, left);
    } else if kind.value == 1 {
      MapEditSound(property.value, path.value, kind.rest, left);
    } else {
      SpliceSound(property.value, path.value, kind.rest, left);
    }
  }

  predicate PatchesRead(input: bytes, left: nat, paths: bool, values: seq<Field>, count: nat, done: seq<Patch>,
                        r: Decoded<seq<Patch>>) {
    && |r.value| == |done| + count && TypedPatches(r.value) && PatchesShape(values, r.value) && PatchesDepth(r.value)
    && (!paths ==> !FieldPaths(r.value))
    && r.left + PatchesNodes(r.value) == left + PatchesNodes(done)
    && |r.rest| + PatchesSize(r.value, paths) == |input| + PatchesSize(done, paths)
  }

  lemma {:induction false} PatchesAppend(ps: seq<Patch>, p: Patch, paths: bool)
    ensures PatchesSize(ps + [p], paths) == PatchesSize(ps, paths) + PatchSize(p, paths)
    ensures PatchesNodes(ps + [p]) == PatchesNodes(ps) + PatchNodes(p)
    decreases ps
  {
    hide PatchSize, PatchNodes;
    if ps == [] {
      assert ps + [p] == [p] && [p][1..] == [];
    } else {
      assert (ps + [p])[1..] == ps[1..] + [p];
      PatchesAppend(ps[1..], p, paths);
    }
  }

  lemma PathsAppend(ps: seq<Patch>, p: Patch)
    requires !FieldPaths(ps) && !FieldPaths([p])
    ensures !FieldPaths(ps + [p])
  {
    assert !([p][0].replace || [p][0].path != []);
  }

  lemma {:induction false} PatchesSound(input: bytes, left: nat, paths: bool, values: seq<Field>, count: nat,
                                        done: seq<Patch>)
    requires TypedPatches(done) && PatchesShape(values, done) && PatchesDepth(done) && (!paths ==> !FieldPaths(done))
    requires DecodePatches(input, left, paths, values, count, done).Ok?
    ensures PatchesRead(input, left, paths, values, count, done,
                        DecodePatches(input, left, paths, values, count, done).value)
    decreases count
  {
    hide DecodePatch, TypedPatch, PatchShape, PatchDepth, PatchNodes, PatchSize, FieldPaths, Lookup;
    if count > 0 {
      PatchSound(input, left, paths, values);
      var p := DecodePatch(input, left, paths, values).value;
      PatchesAppend(done, p.value, paths);
      if !paths { PathsAppend(done, p.value); }
      PatchesSound(p.rest, p.left, paths, values, count - 1, done + [p.value]);
    }
  }

  // ---- the whole record ----

  /** The bytes a record of this form takes for an update. */
  function RecordSize(u: Update, form: byte): nat {
    23 + FieldsSize(u.values) + if form == 49 then 0 else 2 + PatchesSize(u.patches, form == 51)
  }

  lemma ImageSound(input: bytes)
    requires DecodeImage(input).Ok?
    ensures var r := DecodeImage(input).value;
      && r.flag <= 1 && r.base <= r.revision < U64 && (r.flag == 1 ==> r.base == 0)
      && |r.values| <= 256 && TypedFields(r.values) && FieldShapes(r.values, true) && FieldsHeight(r.values) <= 9
      && r.left + FieldsNodes(r.values) == NODES && |r.rest| + 19 + FieldsSize(r.values) == |input|
  {
    hide DecodeFields, Typed, Shape, Sorted, ValidName, Number;
    Pow256Values();
    var flag := Get(input, 1).value;
    var base := Get(flag.rest, 8).value;
    var revision := Get(base.rest, 8).value;
    var count := Get(revision.rest, 2).value;
    EmptySorted();
    FieldsSound(count.rest, NODES, 0, count.value, true, []);
    NoneMeasured();
  }

  lemma EmptySorted()
    ensures Sorted([])
  {
  }

  /** Every record that is accepted is of a valid update, within every limit of the encoder, and has not a byte more
      than its form takes; so it can be encoded again, in no more bytes, and that comes back as the same update. */
  lemma DecodeSound(input: bytes)
    requires Decode(input).Ok?
    ensures var u := Decode(input).value;
      && TypedUpdate(u) && Encodable(u) && |input| == RecordSize(u, input[3]) >= UpdateSize(u)
      && Encode(u).Ok? && |Encode(u).value| <= |input| && Decode(Encode(u).value) == Ok(u)
  {
    hide DecodeImage, DecodePatches, TypedFields, TypedPatches, FieldShapes, PatchesShape, PatchesDepth, Encode,
         PatchesSize, FieldPaths, FieldsSize, FieldsNodes, PatchesNodes, FieldsHeight, UpdateWire, Number;
    ImageSound(input[4..]);
    var image := DecodeImage(input[4..]).value;
    var u := Decode(input).value;
    if input[3] == 49 {
      NoPatches(u);
      NoTyped();
    } else {
      var n := Get(image.rest, 2).value;
      NoPatches(u.(patches := []));
      NoTyped();
      PatchesSound(n.rest, image.left, input[3] == 51, image.values, n.value, []);
      PathsLonger(u.patches);
    }
    WireLengthExact(u);
    RoundTrip(u);
  }

  lemma NoTyped()
    ensures TypedPatches([]) && !FieldPaths([]) && PatchesSize([], true) == PatchesSize([], false) == 0
  {
  }

  /** Leaving paths out makes patches no longer. */
  lemma {:induction false} PathsLonger(ps: seq<Patch>)
    ensures PatchesSize(ps, false) <= PatchesSize(ps, true)
    decreases ps
  {
    if ps != [] { PathsLonger(ps[1..]); }
  }
}
