/** `decode_attributes` and its round trip with `encode_attributes` in all three record forms. */
module UpdateDecoder {
  import opened Bytes
  import opened Values
  import opened ValueCodec
  import opened ValueDecoder
  import opened UpdateCodec

  function DecodePath(input: bytes, count: nat, done: seq<Step>): Result<Read<seq<Step>>>
    decreases count
  {
    if count == 0 then Ok(Read(done, input))
    else
      var tag :- Get(input, 1);
      if tag.value == 0 then
        var i :- Get(tag.rest, 2);
        if i.value >= 256 then Err(Invalid) else DecodePath(i.rest, count - 1, done + [Index(i.value)])
      else if tag.value == 1 then
        var k :- DecodeName(tag.rest, false);
        DecodePath(k.rest, count - 1, done + [Key(k.value)])
      else Err(Invalid)
  }

  /** The place of a patch; records without typed paths leave it at the root of the property. */
  function DecodePlace(input: bytes, paths: bool): Result<Read<seq<Step>>> {
    if !paths then Ok(Read([], input))
    else
      var n :- Get(input, 1);
      if n.value > 8 then Err(TooLong) else DecodePath(n.rest, n.value, [])
  }

  function DecodePatch(input: bytes, left: nat, paths: bool, values: seq<Field>): Result<Decoded<Patch>> {
    var property :- DecodeName(input, true);
    if Has(values, property.value) then Err(Invalid)
    else
      var path :- DecodePlace(property.rest, paths);
      var kind :- Get(path.rest, 1);
      if kind.value > (if paths then 2 else 1) then Err(Invalid)
      else if kind.value == 2 then DecodeReplacement(property.value, path.value, kind.rest, left)
      else if kind.value == 1 then DecodeMapEdit(property.value, path.value, kind.rest, left)
      else DecodeSplice(property.value, path.value, kind.rest, left)
  }

  function DecodeReplacement(property: bytes, path: seq<Step>, input: bytes, left: nat): Result<Decoded<Patch>> {
    var v :- DecodeValue(input, left, |path|);
    Ok(Decoded(Replacement(property, path, v.value), v.rest, v.left))
  }

  function DecodeMapEdit(property: bytes, path: seq<Step>, input: bytes, left: nat): Result<Decoded<Patch>> {
    var key :- DecodeName(input, false);
    var present :- Get(key.rest, 1);
    if present.value > 1 then Err(Invalid)
    else if present.value == 0 then Ok(Decoded(MapEdit(property, path, key.value, None), present.rest, left))
    else
      var v :- DecodeValue(present.rest, left, |path| + 1);
      Ok(Decoded(MapEdit(property, path, key.value, Some(v.value)), v.rest, v.left))
  }

  function DecodeSplice(property: bytes, path: seq<Step>, input: bytes, left: nat): Result<Decoded<Patch>> {
    var index :- Get(input, 2);
    var remove :- Get(index.rest, 2);
    var n :- Get(remove.rest, 2);
    if index.value > 256 || remove.value > 256 || n.value > 256 then Err(Invalid)
    else
      var xs :- DecodeItems(n.rest, left, |path| + 1, n.value, []);
      Ok(Decoded(Splice(property, path, index.value, remove.value, xs.value), xs.rest, xs.left))
  }

  function DecodePatches(input: bytes, left: nat, paths: bool, values: seq<Field>, count: nat,
                         done: seq<Patch>): Result<Decoded<seq<Patch>>>
    decreases count
  {
    if count == 0 then Ok(Decoded(done, input, left))
    else
      var p :- DecodePatch(input, left, paths, values);
      DecodePatches(p.rest, p.left, paths, values, count - 1, done + [p.value])
  }

  /** Everything before the patches. */
  datatype Parsed = Parsed(flag: nat, base: nat, revision: nat, values: seq<Field>, rest: bytes, left: nat)

  function DecodeImage(input: bytes): Result<Parsed> {
    var flag :- Get(input, 1);
    if flag.value > 1 then Err(Invalid)
    else
      var base :- Get(flag.rest, 8);
      var revision :- Get(base.rest, 8);
      var count :- Get(revision.rest, 2);
      if count.value > 256 || base.value > revision.value || (flag.value == 1 && base.value != 0) then Err(Invalid)
      else
        var values :- DecodeFields(count.rest, NODES, 0, count.value, true, []);
        Ok(Parsed(flag.value, base.value, revision.value, values.value, values.rest, values.left))
  }

  /** `decode_attributes`. */
  function Decode(input: bytes): Result<Update> {
    if |input| > LIMIT || |input| < 4 || input[..3] != MAGIC || input[3] < 49 || input[3] > 51 then Err(Invalid)
    else
      var image :- DecodeImage(input[4..]);
      var head := Update(image.base, image.revision, image.flag == 1, image.values, []);
      if input[3] == 49 then if image.rest != [] then Err(Invalid) else Ok(head)
      else if image.flag == 1 then Err(Invalid)
      else
        var n :- Get(image.rest, 2);
        if n.value == 0 || n.value > 256 then Err(Invalid)
        else
          var ps :- DecodePatches(n.rest, image.left, input[3] == 51, image.values, n.value, []);
          if ps.rest != [] then Err(Invalid) else Ok(head.(patches := ps.value))
  }

  // ---- the round trip ----

  lemma DecodeStepWire(s: Step, count: nat, done: seq<Step>, rest: bytes)
    requires StepShape(s) && count > 0
    ensures DecodePath(StepWire(s) + rest, count, done) == DecodePath(rest, count - 1, done + [s])
  {
    hide Get, DecodeName, Put, ValidKey;
    Pow256Values();
    if s.Key? {
      assert StepWire(s) + rest == [1] + (Put(|s.key|, 1) + s.key + rest);
      ByteFront(1, Put(|s.key|, 1) + s.key + rest);
      DecodeNameFront(s.key, false, rest);
    } else {
      assert StepWire(s) + rest == [0] + (Put(s.index, 2) + rest);
      ByteFront(0, Put(s.index, 2) + rest);
      GetPut(s.index, 2, rest);
    }
  }

  lemma {:induction false} DecodePathWire(path: seq<Step>, done: seq<Step>, rest: bytes)
    requires forall i :: 0 <= i < |path| ==> StepShape(path[i])
    ensures DecodePath(PathWire(path) + rest, |path|, done) == Ok(Read(done + path, rest))
    decreases path
  {
    hide StepWire, StepShape, Get, DecodeName;
    if path == [] {
      assert done + path == done && PathWire(path) + rest == rest;
    } else {
      assert PathWire(path) + rest == StepWire(path[0]) + (PathWire(path[1..]) + rest);
      DecodeStepWire(path[0], |path|, done, PathWire(path[1..]) + rest);
      DecodePathWire(path[1..], done + [path[0]], rest);
      assert done + [path[0]] + path[1..] == done + path;
    }
  }

  lemma DecodePlaceWire(path: seq<Step>, paths: bool, rest: bytes)
    requires |path| <= 8 && (forall i :: 0 <= i < |path| ==> StepShape(path[i])) && (paths || path == [])
    ensures DecodePlace((if paths then Put(|path|, 1) + PathWire(path) else []) + rest, paths) == Ok(Read(path, rest))
  {
    Pow256Values();
    if paths {
      assert Put(|path|, 1) + PathWire(path) + rest == Put(|path|, 1) + (PathWire(path) + rest);
      GetPut(|path|, 1, PathWire(path) + rest);
      DecodePathWire(path, [], rest);
      assert [] + path == path;
    } else {
      assert [] + rest == rest;
    }
  }

  /** A patch whose values fit the node budget and depth limit. */
  predicate DecodablePatch(p: Patch, left: nat) {
    TypedPatch(p) && PatchShape(p) && PatchDepth(p) && PatchNodes(p) <= left
  }

  lemma DecodeReplacementWire(p: Patch, rest: bytes, left: nat)
    requires DecodablePatch(p, left) && p.replace
    ensures DecodeReplacement(p.property, p.path, EditWire(p) + rest, left)
      == Ok(Decoded(p, rest, left - PatchNodes(p)))
  {
    hide DecodeValue;
    DecodeWire(p.value.value, rest, left, |p.path|);
  }

  lemma DecodeMapEditWire(p: Patch, rest: bytes, left: nat)
    requires DecodablePatch(p, left) && !p.replace && p.isMap
    ensures DecodeMapEdit(p.property, p.path, EditWire(p) + rest, left) == Ok(Decoded(p, rest, left - PatchNodes(p)))
  {
    hide DecodeValue, DecodeName, Get, Put;
    var tail := (if p.value.Some? then [1] + Wire(p.value.value) else [0]) + rest;
    assert EditWire(p) + rest == Put(|p.key|, 1) + p.key + tail;
    DecodeNameFront(p.key, false, tail);
    if p.value.Some? {
      assert tail == [1] + (Wire(p.value.value) + rest);
      ByteFront(1, Wire(p.value.value) + rest);
      DecodeWire(p.value.value, rest, left, |p.path| + 1);
    } else {
      ByteFront(0, rest);
    }
  }

  lemma DecodeSpliceWire(p: Patch, rest: bytes, left: nat)
    requires DecodablePatch(p, left) && !p.replace && !p.isMap
    ensures DecodeSplice(p.property, p.path, EditWire(p) + rest, left) == Ok(Decoded(p, rest, left - PatchNodes(p)))
  {
    hide DecodeItems, Get, Put;
    Pow256Values();
    var items := ItemsWire(p.insert) + rest;
    assert EditWire(p) + rest == Put(p.index, 2) + (Put(p.remove, 2) + (Put(|p.insert|, 2) + items));
    GetPut(p.index, 2, Put(p.remove, 2) + (Put(|p.insert|, 2) + items));
    GetPut(p.remove, 2, Put(|p.insert|, 2) + items);
    GetPut(|p.insert|, 2, items);
    assert [] + p.insert == p.insert;
    if p.insert == [] { assert ItemsHeight(p.insert) == 0; }
    DecodeItemsWire([], p.insert, rest, left, |p.path| + 1);
  }

  lemma DecodePatchWire(p: Patch, paths: bool, values: seq<Field>, rest: bytes, left: nat)
    requires DecodablePatch(p, left) && !Has(values, p.property) && (paths || (p.path == [] && !p.replace))
    ensures DecodePatch(PatchWire(p, paths) + rest, left, paths, values) == Ok(Decoded(p, rest, left - PatchNodes(p)))
  {
    hide DecodeReplacement, DecodeMapEdit, DecodeSplice, DecodePlace, DecodeName, Get, Put, EditWire, PathWire;
    var route := if paths then Put(|p.path|, 1) + PathWire(p.path) else [];
    var edit := EditWire(p) + rest;
    assert PatchWire(p, paths) + rest == Put(|p.property|, 1) + p.property + (route + ([Kind(p)] + edit));
    DecodeNameFront(p.property, true, route + ([Kind(p)] + edit));
    DecodePlaceWire(p.path, paths, [Kind(p)] + edit);
    ByteFront(Kind(p), edit);
    if p.replace {
      DecodeReplacementWire(p, rest, left);
    } else if p.isMap {
      DecodeMapEditWire(p, rest, left);
    } else {
      DecodeSpliceWire(p, rest, left);
    }
  }

  predicate DecodablePatches(values: seq<Field>, ps: seq<Patch>, paths: bool, left: nat) {
    && PatchesNodes(ps) <= left
    && forall i :: 0 <= i < |ps| ==>
         && TypedPatch(ps[i]) && PatchShape(ps[i]) && PatchDepth(ps[i]) && !Has(values, ps[i].property)
         && (paths || (ps[i].path == [] && !ps[i].replace))
  }

  lemma {:induction false} DecodePatchesWire(values: seq<Field>, done: seq<Patch>, ps: seq<Patch>, paths: bool,
                                             rest: bytes, left: nat)
    requires DecodablePatches(values, ps, paths, left)
    ensures DecodePatches(PatchesWire(ps, paths) + rest, left, paths, values, |ps|, done)
         == Ok(Decoded(done + ps, rest, left - PatchesNodes(ps)))
    decreases ps
  {
    hide DecodePatch, PatchWire, PatchShape, PatchDepth, PatchNodes, TypedPatch, Lookup;
    if ps == [] {
      assert done + ps == done && PatchesWire(ps, paths) + rest == rest;
    } else {
      var tail := PatchesWire(ps[1..], paths) + rest;
      assert PatchesWire(ps, paths) + rest == PatchWire(ps[0], paths) + tail;
      DecodePatchWire(ps[0], paths, values, tail, left);
      assert done + ps == (done + [ps[0]]) + ps[1..];
      DecodePatchesWire(values, done + [ps[0]], ps[1..], paths, rest, left - PatchNodes(ps[0]));
    }
  }

  lemma ImageFront(u: Update, fields: bytes)
    ensures |Header(u)| >= 4
    ensures Header(u)[4..] + fields
         == [if u.snapshot then 1 else 0] + (Put(u.base, 8) + (Put(u.revision, 8) + (Put(|u.values|, 2) + fields)))
  {
    hide Put, Version;
  }

  lemma DecodeImageWire(u: Update, rest: bytes)
    requires TypedUpdate(u) && Encodable(u)
    ensures DecodeImage(Header(u)[4..] + FieldsWire(u.values) + rest)
         == Ok(Parsed(if u.snapshot then 1 else 0, u.base, u.revision, u.values, rest, NODES - FieldsNodes(u.values)))
  {
    hide DecodeFields, Get, Put, PatchesShape, PatchesDepth, PatchesNodes, TypedPatches, UpdateSize, FieldsNodes,
         FieldsHeight, Header, FieldsWire;
    Pow256Values();
    var fields := FieldsWire(u.values) + rest;
    var r2 := Put(|u.values|, 2) + fields;
    var r1 := Put(u.revision, 8) + r2;
    var r0 := Put(u.base, 8) + r1;
    var flag: byte := if u.snapshot then 1 else 0;
    ImageFront(u, fields);
    assert Header(u)[4..] + FieldsWire(u.values) + rest == Header(u)[4..] + fields;
    ByteFront(flag, r0);
    GetPut(u.base, 8, r1);
    GetPut(u.revision, 8, r2);
    GetPut(|u.values|, 2, fields);
    assert [] + u.values == u.values;
    DecodeFieldsWire([], u.values, true, rest, NODES, 0);
  }

  /** Decoding an encoded update returns it, in every record form. */
  lemma RoundTrip(u: Update)
    requires TypedUpdate(u) && Encode(u).Ok?
    ensures Decode(Encode(u).value) == Ok(u)
  {
    hide Encode, Decode, Encodable, TypedUpdate, UpdateWire;
    WireLengthExact(u);
    DecodeUpdateWire(u);
  }

  lemma DecodeUpdateWire(u: Update)
    requires TypedUpdate(u) && Encodable(u)
    ensures Decode(UpdateWire(u)) == Ok(u)
  {
    hide EncodeUpdate, DecodeImage, DecodePatches, Get, Put, Header, FieldsWire, PatchesWire, FieldPaths, TypedUpdate;
    UpdateExact(Buffer([]), u);
    var input := UpdateWire(u);
    var paths := FieldPaths(u.patches);
    HeaderFront(u);
    var rest := if u.patches == [] then [] else Put(|u.patches|, 2) + PatchesWire(u.patches, paths);
    assert input[..3] == MAGIC && input[3] == Version(u);
    assert input[4..] == Header(u)[4..] + FieldsWire(u.values) + rest;
    DecodeImageWire(u, rest);
    if u.patches != [] {
      DecodeAllPatches(u, paths);
    }
  }

  lemma DecodeAllPatches(u: Update, paths: bool)
    requires TypedUpdate(u) && Encodable(u) && u.patches != [] && paths == FieldPaths(u.patches)
    ensures Get(Put(|u.patches|, 2) + PatchesWire(u.patches, paths), 2)
      == Ok(Read(|u.patches|, PatchesWire(u.patches, paths)))
    ensures DecodePatches(PatchesWire(u.patches, paths), NODES - FieldsNodes(u.values), paths, u.values, |u.patches|,
                          [])
         == Ok(Decoded(u.patches, [], NODES - FieldsNodes(u.values) - PatchesNodes(u.patches)))
  {
    hide Get, Put, DecodePatches, PatchesWire, TypedUpdate, DecodablePatches;
    Pow256Values();
    GetPut(|u.patches|, 2, PatchesWire(u.patches, paths));
    PatchesDecodable(u);
    assert [] + u.patches == u.patches;
    assert PatchesWire(u.patches, paths) + [] == PatchesWire(u.patches, paths);
    DecodePatchesWire(u.values, [], u.patches, paths, [], NODES - FieldsNodes(u.values));
  }

  lemma HeaderFront(u: Update)
    ensures |Header(u)| == 23 && Header(u)[..3] == MAGIC && Header(u)[3] == Version(u)
  {
  }

  lemma PatchesDecodable(u: Update)
    requires TypedUpdate(u) && Encodable(u)
    ensures DecodablePatches(u.values, u.patches, FieldPaths(u.patches), NODES - FieldsNodes(u.values))
  {
    hide PatchShape, PatchDepth, TypedPatch, Lookup;
  }
}
