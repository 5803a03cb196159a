/** Attribute updates: FSA1 images, FSA2 container edits and FSA3 typed paths, with exact encoded sizes. */
module UpdateCodec {
  import opened Bytes
  import opened Values
  import opened ValueCodec

  datatype Step = Key(key: bytes) | Index(index: nat)

  /** One bounded edit below a top-level property; all fields are there for every kind of edit. */
  datatype Patch = Patch(property: bytes, path: seq<Step>, replace: bool, isMap: bool, key: bytes,
                         value: Option<Value>, index: nat, remove: nat, insert: seq<Value>)

  datatype Update = Update(base: nat, revision: nat, snapshot: bool, values: seq<Field>, patches: seq<Patch>)

  function Replacement(property: bytes, path: seq<Step>, v: Value): Patch {
    Patch(property, path, true, false, [], Some(v), 0, 0, [])
  }

  function MapEdit(property: bytes, path: seq<Step>, key: bytes, v: Option<Value>): Patch {
    Patch(property, path, false, true, key, v, 0, 0, [])
  }

  function Splice(property: bytes, path: seq<Step>, index: nat, remove: nat, insert: seq<Value>): Patch {
    Patch(property, path, false, false, [], None, index, remove, insert)
  }

  /** `field_paths`: whether the record needs the FSA3 form. */
  predicate FieldPaths(ps: seq<Patch>) { exists i :: 0 <= i < |ps| && (ps[i].replace || ps[i].path != []) }

  // ---- the encoder ----

  function EncodePath(w: Writer, path: seq<Step>): Result<Writer>
    decreases path
  {
    if path == [] then Ok(w)
    else match path[0]
      case Key(k) =>
        if !ValidKey(k) then Err(Invalid) else EncodePath(w.Append([1]).Append(Put(|k|, 1)).Append(k), path[1..])
      case Index(i) =>
        if i >= 256 then Err(Invalid) else EncodePath(w.Append([0]).Append(Put(i, 2)), path[1..])
  }

  function Kind(p: Patch): byte { if p.replace then 2 else if p.isMap then 1 else 0 }

  function EncodePatch(w: Writer, p: Patch, paths: bool): Result<Writer> {
    if !ValidName(p.property) then Err(Invalid)
    else if |p.path| > 8 then Err(TooLong)
    else
      var named := w.Append(Put(|p.property|, 1)).Append(p.property);
      var placed :- if paths then EncodePath(named.Append(Put(|p.path|, 1)), p.path) else Ok(named);
      var done :- EncodeEdit(placed.Append([Kind(p)]), p);
      if done.Length() > LIMIT then Err(TooLong) else Ok(done)
  }

  function EncodeEdit(w: Writer, p: Patch): Result<Writer> {
    if p.replace then
      if p.isMap || p.value.None? || p.key != [] || p.insert != [] || p.index != 0 || p.remove != 0 then Err(Invalid)
      else EncodeValue(w, p.value.value, |p.path|)
    else if p.isMap then
      if !ValidKey(p.key) || p.insert != [] || p.index != 0 || p.remove != 0 then Err(Invalid)
      else
        var keyed := w.Append(Put(|p.key|, 1)).Append(p.key).Append([if p.value.Some? then 1 else 0]);
        if p.value.Some? then EncodeValue(keyed, p.value.value, |p.path| + 1) else Ok(keyed)
    else if p.index > 256 || p.remove > 256 || |p.insert| > 256 || p.key != [] || p.value.Some? then Err(Invalid)
    else
      var head := w.Append(Put(p.index, 2)).Append(Put(p.remove, 2)).Append(Put(|p.insert|, 2));
      EncodeItems(head, p.insert, |p.path| + 1)
  }

  const MAGIC: bytes := [70, 83, 65]   // "FSA"

  function EncodeImage(w: Writer, u: Update, version: byte): Result<Writer> {
    if |u.values| > 256 || u.base > u.revision || (u.snapshot && u.base != 0) then Err(Invalid)
    else
      EncodeFields(w.Append(MAGIC + [version]).Append([if u.snapshot then 1 else 0]).Append(Put(u.base, 8))
                    .Append(Put(u.revision, 8)).Append(Put(|u.values|, 2)), u.values, true, 0)
  }

  function EncodePatches(w: Writer, u: Update, paths: bool, i: nat): Result<Writer>
    requires i <= |u.patches|
    decreases |u.patches| - i
  {
    if i == |u.patches| then Ok(w)
    else if Has(u.values, u.patches[i].property) then Err(Invalid)
    else
      var next :- EncodePatch(w, u.patches[i], paths);
      EncodePatches(next, u, paths, i + 1)
  }

  /** `encode_update`, and the version byte `encode_attributes` patches in afterwards. */
  function EncodeUpdate(sink: Sink, u: Update): Result<Writer> {
    var image :- EncodeImage(Writer(sink, NODES), u, Version(u));
    if u.patches == [] then Ok(image)
    else if u.snapshot || |u.patches| > 256 then Err(Invalid)
    else EncodePatches(image.Append(Put(|u.patches|, 2)), u, FieldPaths(u.patches), 0)
  }

  function Version(u: Update): byte { if u.patches == [] then 49 else if FieldPaths(u.patches) then 51 else 50 }

  /** `encode_attributes`. */
  function Encode(u: Update): Result<bytes> {
    var w :- EncodeUpdate(Buffer([]), u);
    if w.sink.Buffer? then Ok(w.sink.out) else Err(Invalid)
  }

  /** `attribute_wire_size`. */
  function WireLength(u: Update): Result<nat> {
    var w :- EncodeUpdate(SizeOnly(0), u);
    Ok(w.Length())
  }

  // ---- what encoding amounts to ----

  predicate StepShape(s: Step) { if s.Key? then ValidKey(s.key) else s.index < 256 }

  function StepWire(s: Step): bytes { if s.Key? then [1] + Put(|s.key|, 1) + s.key else [0] + Put(s.index, 2) }

  function PathWire(path: seq<Step>): bytes { if path == [] then [] else StepWire(path[0]) + PathWire(path[1..]) }

  function PathSize(path: seq<Step>): nat {
    if path == [] then 0 else (if path[0].Key? then 2 + |path[0].key| else 3) + PathSize(path[1..])
  }

  /** The structural checks of `encode_patch`. */
  predicate PatchShape(p: Patch) {
    && ValidName(p.property) && |p.path| <= 8 && (forall i :: 0 <= i < |p.path| ==> StepShape(p.path[i]))
    && if p.replace then
         && !p.isMap && p.value.Some? && p.key == [] && p.insert == [] && p.index == 0 && p.remove == 0
         && Shape(p.value.value)
       else if p.isMap then
         ValidKey(p.key) && p.insert == [] && p.index == 0 && p.remove == 0 && (p.value.Some? ==> Shape(p.value.value))
       else
         p.index <= 256 && p.remove <= 256 && |p.insert| <= 256 && p.key == [] && p.value.None? && ItemShapes(p.insert)
  }

  function EditWire(p: Patch): bytes {
    if p.replace then if p.value.Some? then Wire(p.value.value) else []
    else if p.isMap then
      Put(|p.key|, 1) + p.key + (if p.value.Some? then [1] + Wire(p.value.value) else [0])
    else Put(p.index, 2) + Put(p.remove, 2) + Put(|p.insert|, 2) + ItemsWire(p.insert)
  }

  function EditSize(p: Patch): nat {
    if p.replace then if p.value.Some? then Size(p.value.value) else 0
    else if p.isMap then 2 + |p.key| + (if p.value.Some? then Size(p.value.value) else 0)
    else 6 + ItemsSize(p.insert)
  }

  function PatchNodes(p: Patch): nat {
    if p.replace || p.isMap then if p.value.Some? then Nodes(p.value.value) else 0 else ItemsNodes(p.insert)
  }

  /** The depth limit of the values a patch carries. */
  predicate PatchDepth(p: Patch) {
    if p.replace then p.value.Some? ==> |p.path| + Height(p.value.value) <= 8
    else if p.isMap then p.value.Some? ==> |p.path| + 1 + Height(p.value.value) <= 8
    else p.insert != [] ==> |p.path| + 1 + ItemsHeight(p.insert) <= 9
  }

  function PatchWire(p: Patch, paths: bool): bytes {
    Put(|p.property|,
        1) + p.property + (if paths then Put(|p.path|, 1) + PathWire(p.path) else []) + [Kind(p)] + EditWire(p)
  }

  function PatchSize(p: Patch, paths: bool): nat {
    2 + |p.property| + (if paths then 1 + PathSize(p.path) else 0) + EditSize(p)
  }

  predicate PatchFits(w: Writer, p: Patch, paths: bool) {
    PatchShape(p) && PatchDepth(p) && PatchNodes(p) <= w.left && w.Length() + PatchSize(p, paths) <= LIMIT
  }

  lemma {:induction false} PathExact(w: Writer, path: seq<Step>)
    ensures EncodePath(w, path) == if forall i :: 0 <= i < |path| ==>
      StepShape(path[i]) then Ok(w.Append(PathWire(path))) else Err(Invalid)
    ensures |PathWire(path)| == PathSize(path)
    decreases path
  {
    if path == [] {
      if w.sink.Buffer? { assert w.sink.out + [] == w.sink.out; }
    } else {
      assert path == [path[0]] + path[1..];
      var next := w.Append(StepWire(path[0]));
      match path[0] {
        case Key(k) => AppendAppend(w, [1], Put(|k|, 1)); AppendAppend(w, [1] + Put(|k|, 1), k);
        case Index(i) => AppendAppend(w, [0], Put(i, 2));
      }
      PathExact(next, path[1..]);
      AppendAppend(w, StepWire(path[0]), PathWire(path[1..]));
    }
  }

  lemma EditExact(w: Writer, p: Patch)
    requires ValidName(p.property) && |p.path| <= 8 && forall i :: 0 <= i < |p.path| ==> StepShape(p.path[i])
    ensures |EditWire(p)| == EditSize(p)
    ensures var r := EncodeEdit(w, p);
      && (r.Ok? ==> PatchShape(p) && PatchDepth(p) && PatchNodes(p) <= w.left)
      && (r.Ok? ==> r.value == Writer(w.sink.Append(EditWire(p)), w.left - PatchNodes(p)))
      && (r.Err? ==> !(PatchShape(p) && PatchDepth(p) && PatchNodes(p) <= w.left && w.Length() + EditSize(p) <= LIMIT))
      && (r.Err? && PatchShape(p) ==> r.error == TooLong)
  {
    hide EncodeValue, EncodeItems, ValidName, ValidKey, StepShape, Shape, Size, Nodes, Height, Wire;
    if p.value.Some? { WireSize(p.value.value); }
    ItemsWireSize(p.insert);
    if p.replace {
      if p.value.Some? { EncodeValueExact(w, p.value.value, |p.path|); }
    } else if p.isMap {
      var present := if p.value.Some? then 1 else 0;
      var keyed := w.Append(Put(|p.key|, 1)).Append(p.key).Append([present]);
      AppendAppend(w, Put(|p.key|, 1), p.key);
      AppendAppend(w, Put(|p.key|, 1) + p.key, [present]);
      if p.value.Some? {
        EncodeValueExact(keyed, p.value.value, |p.path| + 1);
        AppendAppend(w, Put(|p.key|, 1) + p.key + [present], Wire(p.value.value));
        assert EditWire(p) == Put(|p.key|, 1) + p.key + [present] + Wire(p.value.value);
      }
    } else {
      SpliceExact(w, p);
    }
  }

  lemma SpliceExact(w: Writer, p: Patch)
    requires !p.replace && !p.isMap
    ensures var head := w.Append(Put(p.index, 2)).Append(Put(p.remove, 2)).Append(Put(|p.insert|, 2));
      Encoded(head, EncodeItems(head, p.insert, |p.path| + 1), FitsItems(head, p.insert, |p.path| + 1),
              ItemShapes(p.insert), ItemsWire(p.insert), ItemsNodes(p.insert))
      && head.left == w.left && head.Length() == w.Length() + 6
      && head.sink.Append(ItemsWire(p.insert)) == w.sink.Append(EditWire(p))
  {
    hide EncodeItems;
    var head := w.Append(Put(p.index, 2)).Append(Put(p.remove, 2)).Append(Put(|p.insert|, 2));
    EncodeItemsExact(head, p.insert, |p.path| + 1);
    AppendAppend(w, Put(p.index, 2), Put(p.remove, 2));
    AppendAppend(w, Put(p.index, 2) + Put(p.remove, 2), Put(|p.insert|, 2));
    AppendAppend(w, Put(p.index, 2) + Put(p.remove, 2) + Put(|p.insert|, 2), ItemsWire(p.insert));
  }

  /** A patch is encoded exactly when it fits, into `PatchSize` bytes and `PatchNodes` nodes. */
  lemma PatchExact(w: Writer, p: Patch, paths: bool)
    requires paths || p.path == []
    ensures |PatchWire(p, paths)| == PatchSize(p, paths)
    ensures Encoded(w, EncodePatch(w, p, paths), PatchFits(w, p, paths), PatchShape(p), PatchWire(p, paths),
                    PatchNodes(p))
  {
    hide EncodePath, EncodeEdit, ValidName, StepShape;
    var named := w.Append(Put(|p.property|, 1)).Append(p.property);
    var pathed := named.Append(Put(|p.path|, 1));
    var route := if paths then Put(|p.path|, 1) + PathWire(p.path) else [];
    AppendAppend(w, Put(|p.property|, 1), p.property);
    AppendAppend(named, Put(|p.path|, 1), PathWire(p.path));
    AppendAppend(w, Put(|p.property|, 1) + p.property, route);
    PathExact(pathed, p.path);
    var head := Put(|p.property|, 1) + p.property + route;
    AppendAppend(w, head, [Kind(p)]);
    AppendAppend(w, head + [Kind(p)], EditWire(p));
    if !paths && w.sink.Buffer? { assert named.sink.out == w.sink.out + head; }
    assert PatchWire(p, paths) == head + [Kind(p)] + EditWire(p);
    if |p.path| <= 8 && ValidName(p.property) && forall i :: 0 <= i < |p.path| ==> StepShape(p.path[i]) {
      EditExact(w.Append(head + [Kind(p)]), p);
    }
    assert |EditWire(p)| == EditSize(p) by { EditWireSize(p); }
  }

  lemma EditWireSize(p: Patch)
    ensures |EditWire(p)| == EditSize(p)
  {
    if p.value.Some? { WireSize(p.value.value); }
    ItemsWireSize(p.insert);
  }

  // ---- whole updates ----

  function PatchesSize(ps: seq<Patch>, paths: bool): nat {
    if ps == [] then 0 else PatchSize(ps[0], paths) + PatchesSize(ps[1..], paths)
  }

  function PatchesNodes(ps: seq<Patch>): nat { if ps == [] then 0 else PatchNodes(ps[0]) + PatchesNodes(ps[1..]) }

  function PatchesWire(ps: seq<Patch>, paths: bool): bytes {
    if ps == [] then [] else PatchWire(ps[0], paths) + PatchesWire(ps[1..], paths)
  }

  predicate PatchesShape(values: seq<Field>, ps: seq<Patch>) {
    forall i :: 0 <= i < |ps| ==> PatchShape(ps[i]) && !Has(values, ps[i].property)
  }

  predicate PatchesDepth(ps: seq<Patch>) { forall i :: 0 <= i < |ps| ==> PatchDepth(ps[i]) }

  function Header(u: Update): bytes {
    MAGIC + [Version(u)] + [if u.snapshot then 1 else 0] + Put(u.base, 8) + Put(u.revision, 8) + Put(|u.values|, 2)
  }

  function UpdateWire(u: Update): bytes {
    Header(u) + FieldsWire(u.values) +
    if u.patches == [] then [] else Put(|u.patches|, 2) + PatchesWire(u.patches, FieldPaths(u.patches))
  }

  function UpdateSize(u: Update): nat {
    23 + FieldsSize(u.values) + if u.patches == [] then 0 else 2 + PatchesSize(u.patches, FieldPaths(u.patches))
  }

  /** What the C++ types say of a patch. */
  predicate TypedPatch(p: Patch) {
    (p.value.Some? ==> Typed(p.value.value)) && forall i :: 0 <= i < |p.insert| ==> Typed(p.insert[i])
  }

  predicate TypedPatches(ps: seq<Patch>) { forall i :: 0 <= i < |ps| ==> TypedPatch(ps[i]) }

  predicate TypedUpdate(u: Update) {
    u.base < U64 && u.revision < U64 && TypedFields(u.values) && TypedPatches(u.patches)
  }

  predicate UpdateShape(u: Update) {
    && |u.values| <= 256 && u.base <= u.revision && (u.snapshot ==> u.base == 0) && FieldShapes(u.values, true)
    && (u.patches != [] ==> !u.snapshot && |u.patches| <= 256)
    && PatchesShape(u.values, u.patches)
  }

  /** The updates that have a wire form: shape, depth, node and byte limits together. */
  predicate Encodable(u: Update) {
    && UpdateShape(u) && FieldsHeight(u.values) <= 9 && PatchesDepth(u.patches)
    && FieldsNodes(u.values) + PatchesNodes(u.patches) <= NODES && UpdateSize(u) <= LIMIT
  }

  predicate PatchesFit(w: Writer, values: seq<Field>, ps: seq<Patch>, paths: bool) {
    && PatchesShape(values, ps) && PatchesDepth(ps) && PatchesNodes(ps) <= w.left
    && (ps != [] ==> w.Length() + PatchesSize(ps, paths) <= LIMIT)
  }

  lemma {:induction false} PatchesExact(w: Writer, u: Update, paths: bool, i: nat)
    requires i <= |u.patches| && (paths || !FieldPaths(u.patches))
    ensures var ps := u.patches[i..];
      Encoded(w, EncodePatches(w, u, paths, i), PatchesFit(w, u.values, ps, paths), PatchesShape(u.values, ps),
              PatchesWire(ps, paths), PatchesNodes(ps))
    ensures |PatchesWire(u.patches[i..], paths)| == PatchesSize(u.patches[i..], paths)
    decreases |u.patches| - i
  {
    hide EncodePatch, PatchShape, PatchDepth, PatchWire, PatchSize, PatchNodes, PatchFits, Lookup;
    var ps := u.patches[i..];
    if i == |u.patches| {
      if w.sink.Buffer? { assert w.sink.out + [] == w.sink.out; }
    } else {
      var p := u.patches[i];
      assert ps[0] == p && ps[1..] == u.patches[i + 1..];
      var r := EncodePatch(w, p, paths);
      PatchExact(w, p, paths);
      PatchFitsDefinition(w, p, paths);
      PatchesSplit(u.values, ps);
      if r.Ok? && !Has(u.values, p.property) {
        PatchesExact(r.value, u, paths, i + 1);
        AppendAppend(w, PatchWire(p, paths), PatchesWire(ps[1..], paths));
        if ps[1..] == [] { assert PatchesFit(w, u.values, ps, paths); }
      } else {
        PatchesExact(w, u, paths, i + 1);
      }
    }
  }

  lemma PatchFitsDefinition(w: Writer, p: Patch, paths: bool)
    ensures PatchFits(w, p, paths) <==>
            PatchShape(p) && PatchDepth(p) && PatchNodes(p) <= w.left && w.Length() + PatchSize(p, paths) <= LIMIT
  {
  }

  lemma PatchesSplit(values: seq<Field>, ps: seq<Patch>)
    requires ps != []
    ensures PatchesShape(values, ps) <==>
            PatchShape(ps[0]) && !Has(values, ps[0].property) && PatchesShape(values, ps[1..])
    ensures PatchesDepth(ps) <==> PatchDepth(ps[0]) && PatchesDepth(ps[1..])
  {
    hide PatchShape, PatchDepth, Lookup;
    assert ps == [ps[0]] + ps[1..];
  }

  /** An update is encoded exactly when it is `Encodable`, and then into `UpdateWire`. */
  lemma UpdateExact(sink: Sink, u: Update)
    requires sink.Length() == 0
    ensures Encoded(Writer(sink, NODES), EncodeUpdate(sink, u), Encodable(u), UpdateShape(u), UpdateWire(u),
                    FieldsNodes(u.values) + PatchesNodes(u.patches))
    ensures |UpdateWire(u)| == UpdateSize(u)
  {
    hide EncodeFields, EncodePatches, FieldShapes, PatchesShape, PatchesDepth, FieldPaths, PatchesWire, PatchesSize;
    var paths := FieldPaths(u.patches);
    var w := Writer(sink, NODES);
    var head := w.Append(Header(u));
    HeaderAppend(w, u);
    FieldsWireSize(u.values);
    EncodeFieldsExact(head, u.values, true, 0);
    AppendAppend(w, Header(u), FieldsWire(u.values));
    var image := EncodeFields(head, u.values, true, 0);
    var count := Put(|u.patches|, 2);
    var body := Header(u) + FieldsWire(u.values);
    assert u.patches[0..] == u.patches;
    AppendAppend(Writer(w.Append(body).sink, 0), count, PatchesWire(u.patches, paths));
    AppendAppend(Writer(w.sink, 0), body, count + PatchesWire(u.patches, paths));
    if image.Ok? {
      PatchesExact(image.value.Append(count), u, paths, 0);
    } else {
      PatchesExact(w, u, paths, 0);
    }
    if u.patches == [] {
      assert body + [] == body;
      NoPatches(u);
    }
  }

  lemma NoPatches(u: Update)
    requires u.patches == []
    ensures PatchesShape(u.values, u.patches) && PatchesDepth(u.patches) && PatchesNodes(u.patches) == 0
  {
  }

  lemma HeaderAppend(w: Writer, u: Update)
    ensures w.Append(Header(u))
      == w.Append(MAGIC + [Version(u)]).Append([if u.snapshot then 1 else 0]).Append(Put(u.base, 8))
                                    .Append(Put(u.revision, 8)).Append(Put(|u.values|, 2))
    ensures |Header(u)| == 23
  {
    hide Version;
    var a, b := MAGIC + [Version(u)], [if u.snapshot then 1 else 0];
    AppendAppend(w, a, b);
    AppendAppend(w, a + b, Put(u.base, 8));
    AppendAppend(w, a + b + Put(u.base, 8), Put(u.revision, 8));
    AppendAppend(w, a + b + Put(u.base, 8) + Put(u.revision, 8), Put(|u.values|, 2));
    assert Header(u) == a + b + Put(u.base, 8) + Put(u.revision, 8) + Put(|u.values|, 2);
  }

  /** `attribute_wire_size` fails exactly when encoding fails and is otherwise the encoded length. */
  lemma WireLengthExact(u: Update)
    ensures WireLength(u).Ok? <==> Encode(u).Ok?
    ensures WireLength(u).Ok? ==> WireLength(u).value == |Encode(u).value|
    ensures Encode(u).Ok? <==> Encodable(u)
    ensures Encodable(u) ==> Encode(u) == Ok(UpdateWire(u)) && WireLength(u) == Ok(UpdateSize(u))
    ensures WireLength(u).Err? && UpdateShape(u) ==> WireLength(u).error == TooLong
  {
    hide EncodeUpdate, Encodable, UpdateShape, UpdateWire, UpdateSize;
    UpdateExact(Buffer([]), u);
    UpdateExact(SizeOnly(0), u);
    assert [] + UpdateWire(u) == UpdateWire(u);
  }
}
