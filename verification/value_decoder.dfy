/** The value decoder and the round trip with the encoder. */
module ValueDecoder {
  import opened Bytes
  import opened Values
  import opened ValueCodec

  /** A decoded item, the unread input and the node budget that is left. */
  datatype Decoded<+T> = Decoded(value: T, rest: bytes, left: nat)

  function Levels(depth: nat): nat { if depth > 8 then 0 else 9 - depth }

  function DecodeValue(input: bytes, left: nat, depth: nat): Result<Decoded<Value>>
    decreases Levels(depth), 2, 0
  {
    if depth > 8 || left == 0 then Err(TooLong)
    else
      var tag :- Get(input, 1);
      if tag.value < 4 then DecodeScalar(tag.value, tag.rest, left - 1)
      else if tag.value == 4 then DecodeStruct(tag.rest, left - 1, depth)
      else if tag.value == 5 then DecodeArray(tag.rest, left - 1, depth)
      else if tag.value == 6 then DecodeMap(tag.rest, left - 1, depth)
      else Err(Invalid)
  }

  function DecodeScalar(tag: nat, input: bytes, left: nat): Result<Decoded<Value>> {
    if tag == 0 then
      var n :- Get(input, 8);
      Ok(Decoded(Int(Signed(n.value)), n.rest, left))
    else if tag == 1 then
      var x :- Get(input, 8);
      if !Finite(x.value) then Err(Invalid) else Ok(Decoded(Num(x.value), x.rest, left))
    else if tag == 2 then
      var b :- Get(input, 1);
      if b.value > 1 then Err(Invalid) else Ok(Decoded(Bool(b.value == 1), b.rest, left))
    else
      var n :- Get(input, 4);
      if n.value > 65536 then Err(Invalid)
      else
        var s :- Take(n.rest, n.value);
        Ok(Decoded(Str(s.value), s.rest, left))
  }

  function DecodeStruct(input: bytes, left: nat, depth: nat): Result<Decoded<Value>>
    requires depth <= 8
    decreases Levels(depth), 1, 0
  {
    var n :- Get(input, 1);
    if n.value == 0 || n.value > 64 then Err(Invalid)
    else
      var fs :- DecodeFields(n.rest, left, depth + 1, n.value, true, []);
      Ok(Decoded(Struct(fs.value), fs.rest, fs.left))
  }

  function DecodeArray(input: bytes, left: nat, depth: nat): Result<Decoded<Value>>
    requires depth <= 8
    decreases Levels(depth), 1, 0
  {
    var n :- Get(input, 2);
    if n.value > 256 then Err(Invalid)
    else
      var xs :- DecodeItems(n.rest, left, depth + 1, n.value, []);
      Ok(Decoded(Array(xs.value), xs.rest, xs.left))
  }

  function DecodeMap(input: bytes, left: nat, depth: nat): Result<Decoded<Value>>
    requires depth <= 8
    decreases Levels(depth), 1, 0
  {
    var n :- Get(input, 2);
    if n.value > 256 then Err(Invalid)
    else
      var es :- DecodeFields(n.rest, left, depth + 1, n.value, false, []);
      Ok(Decoded(Map(es.value), es.rest, es.left))
  }

  /** Reads `count` more named values into the map `done`; a repeated name is an error. */
  function DecodeFields(input: bytes, left: nat, depth: nat, count: nat, names: bool,
                        done: seq<Field>): Result<Decoded<seq<Field>>>
    decreases Levels(depth), 3, count
  {
    if count == 0 then Ok(Decoded(done, input, left))
    else
      var name :- DecodeName(input, names);
      var v :- DecodeValue(name.rest, left, depth);
      if Has(done, name.value) then Err(Invalid)
      else DecodeFields(v.rest, v.left, depth, count - 1, names, Assign(done, name.value, v.value))
  }

  function DecodeName(input: bytes, names: bool): Result<Read<bytes>> {
    var n :- Get(input, 1);
    var name :- Take(n.rest, n.value);
    if if names then ValidName(name.value) else ValidKey(name.value) then Ok(name) else Err(Invalid)
  }

  function DecodeItems(input: bytes, left: nat, depth: nat, count: nat, done: seq<Value>): Result<Decoded<seq<Value>>>
    decreases Levels(depth), 3, count
  {
    if count == 0 then Ok(Decoded(done, input, left))
    else
      var v :- DecodeValue(input, left, depth);
      DecodeItems(v.rest, v.left, depth, count - 1, done + [v.value])
  }

  lemma SignedUnsigned(n: int)
    requires -0x8000_0000_0000_0000 <= n <= INT64_MAX
    ensures Unsigned(n) < U64 && Signed(Unsigned(n)) == n
  {
  }

  lemma DecodeNameFront(name: bytes, names: bool, rest: bytes)
    requires if names then ValidName(name) else ValidKey(name)
    ensures DecodeName(Put(|name|, 1) + name + rest, names) == Ok(Read(name, rest))
  {
    Pow256Values();
    assert Put(|name|, 1) + name + rest == Put(|name|, 1) + (name + rest);
    GetPut(|name|, 1, name + rest);
    TakeFront(name, rest);
  }

  lemma {:induction false} AssignLast(done: seq<Field>, f: Field)
    requires Sorted(done + [f])
    ensures !Has(done, f.name) && Assign(done, f.name, f.value) == done + [f]
  {
    if done != [] {
      var all := done + [f];
      assert Less(all[0].name, all[|done|].name);
      assert done[1..] + [f] == all[1..];
      AssignLast(done[1..], f);
      LessIrreflexive(f.name);
      if Less(f.name, done[0].name) { LessTransitive(f.name, done[0].name, f.name); }
    }
  }

  lemma DecodeScalarWire(v: Value, rest: bytes, left: nat)
    requires Typed(v) && Shape(v) && Tag(v) < 4
    ensures DecodeScalar(Tag(v), Wire(v)[1..] + rest, left) == Ok(Decoded(v, rest, left))
  {
    hide Number;
    Pow256Values();
    match v {
      case Int(n) =>
        SignedUnsigned(n);
        assert Wire(v)[1..] + rest == Put(Unsigned(n), 8) + rest;
        GetPut(Unsigned(n), 8, rest);
      case Num(x) =>
        assert Wire(v)[1..] + rest == Put(x, 8) + rest;
        GetPut(x, 8, rest);
      case Bool(b) =>
        var n := if b then 1 else 0;
        assert Wire(v)[1..] + rest == [n] + rest;
        BoolByte(b, rest);
      case Str(s) =>
        assert Wire(v)[1..] + rest == Put(|s|, 4) + (s + rest);
        GetPut(|s|, 4, s + rest);
        TakeFront(s, rest);
    }
  }

  lemma BoolByte(b: bool, rest: bytes)
    ensures Get([if b then 1 else 0] + rest, 1) == Ok(Read(if b then 1 else 0, rest))
  {
    var n := if b then 1 else 0;
    Pow256Values();
    assert Put(n, 1) == [n];
    GetPut(n, 1, rest);
  }

  /** A value whose own limits let it be decoded at `depth` with `left` nodes to spend. */
  predicate Decodable(v: Value, left: nat, depth: nat) {
    Typed(v) && Shape(v) && depth + Height(v) <= 8 && Nodes(v) <= left
  }

  /** Decoding the wire form of a value returns it, spending the same nodes at the same depths. */
  lemma {:induction false} DecodeWire(v: Value, rest: bytes, left: nat, depth: nat)
    requires Decodable(v, left, depth)
    ensures DecodeValue(Wire(v) + rest, left, depth) == Ok(Decoded(v, rest, left - Nodes(v)))
    decreases v, 1
  {
    hide DecodeScalar, DecodeFields, DecodeItems, DecodeStruct, DecodeArray, DecodeMap, Wire, Get, Shape, Typed, Height;
    TagFront(v, rest);
    match v {
      case Struct(fs) => DecodeStructWire(fs, rest, left - 1, depth);
      case Array(xs) => DecodeArrayWire(xs, rest, left - 1, depth);
      case Map(es) => DecodeMapWire(es, rest, left - 1, depth);
      case _ => DecodeScalarWire(v, rest, left - 1);
    }
  }

  lemma TagFront(v: Value, rest: bytes)
    ensures Get(Wire(v) + rest, 1) == Ok(Read(Tag(v), Wire(v)[1..] + rest))
  {
    hide Get, Wire;
    WireTagged(v);
    assert Wire(v) + rest == [Tag(v)] + (Wire(v)[1..] + rest);
    ByteFront(Tag(v), Wire(v)[1..] + rest);
  }

  lemma WireTagged(v: Value)
    ensures |Wire(v)| > 0 && Wire(v)[0] == Tag(v)
  {
    hide Put, FieldsWire, ItemsWire;
  }

  lemma ByteFront(b: byte, rest: bytes)
    ensures Get([b] + rest, 1) == Ok(Read(b, rest))
  {
    Pow256Values();
    assert Put(b, 1) == [b];
    GetPut(b, 1, rest);
  }

  lemma {:induction false} DecodeStructWire(fs: seq<Field>, rest: bytes, left: nat, depth: nat)
    requires Decodable(Struct(fs), left + 1, depth)
    ensures DecodeStruct(Wire(Struct(fs))[1..] + rest, left, depth)
      == Ok(Decoded(Struct(fs), rest, left - FieldsNodes(fs)))
    decreases fs, 2
  {
    Pow256Values();
    hide DecodeFields, Number, Put;
    assert Wire(Struct(fs))[1..] + rest == Put(|fs|, 1) + (FieldsWire(fs) + rest);
    GetPut(|fs|, 1, FieldsWire(fs) + rest);
    assert [] + fs == fs;
    DecodeFieldsWire([], fs, true, rest, left, depth + 1);
  }

  lemma {:induction false} DecodeArrayWire(xs: seq<Value>, rest: bytes, left: nat, depth: nat)
    requires Decodable(Array(xs), left + 1, depth)
    ensures DecodeArray(Wire(Array(xs))[1..] + rest, left, depth) == Ok(Decoded(Array(xs), rest, left - ItemsNodes(xs)))
    decreases xs, 2
  {
    Pow256Values();
    hide DecodeItems, Number, Put;
    assert Wire(Array(xs))[1..] + rest == Put(|xs|, 2) + (ItemsWire(xs) + rest);
    GetPut(|xs|, 2, ItemsWire(xs) + rest);
    assert [] + xs == xs;
    DecodeItemsWire([], xs, rest, left, depth + 1);
  }

  lemma {:induction false} DecodeMapWire(es: seq<Field>, rest: bytes, left: nat, depth: nat)
    requires Decodable(Map(es), left + 1, depth)
    ensures DecodeMap(Wire(Map(es))[1..] + rest, left, depth) == Ok(Decoded(Map(es), rest, left - FieldsNodes(es)))
    decreases es, 2
  {
    Pow256Values();
    hide DecodeFields, Number, Put;
    assert Wire(Map(es))[1..] + rest == Put(|es|, 2) + (FieldsWire(es) + rest);
    GetPut(|es|, 2, FieldsWire(es) + rest);
    assert [] + es == es;
    DecodeFieldsWire([], es, false, rest, left, depth + 1);
  }

  lemma DecodeFieldsStep(input: bytes, left: nat, depth: nat, count: nat, names: bool, done: seq<Field>,
                         name: Read<bytes>, v: Decoded<Value>)
    requires count > 0 && DecodeName(input, names) == Ok(name) && DecodeValue(name.rest, left, depth) == Ok(v)
    requires !Has(done, name.value)
    ensures DecodeFields(input, left, depth, count, names, done)
         == DecodeFields(v.rest, v.left, depth, count - 1, names, Assign(done, name.value, v.value))
  {
    hide DecodeName, DecodeValue, Assign, Lookup;
  }

  /** `Decodable`, field by field. */
  predicate DecodableFields(fs: seq<Field>, names: bool, left: nat, depth: nat) {
    && FieldShapes(fs, names) && (forall i :: 0 <= i < |fs| ==> Typed(fs[i].value))
    && depth + FieldsHeight(fs) <= 9 && FieldsNodes(fs) <= left
  }

  lemma DecodableTail(fs: seq<Field>, names: bool, left: nat, depth: nat)
    requires DecodableFields(fs, names, left, depth) && fs != []
    ensures Decodable(fs[0].value, left, depth) && (if names then ValidName(fs[0].name) else ValidKey(fs[0].name))
    ensures DecodableFields(fs[1..], names, left - Nodes(fs[0].value), depth)
  {
  }

  lemma {:induction false} DecodeFieldsWire(done: seq<Field>, fs: seq<Field>, names: bool, rest: bytes, left: nat,
                                            depth: nat)
    requires Sorted(done + fs) && DecodableFields(fs, names, left, depth)
    ensures DecodeFields(FieldsWire(fs) + rest, left, depth, |fs|, names, done)
      == Ok(Decoded(done + fs, rest, left - FieldsNodes(fs)))
    decreases fs, 0, 1
  {
    hide DecodeValue, DecodeName, Assign, Lookup, Wire, DecodableFields, Decodable, ValidName, ValidKey, Sorted, Nodes,
         Put;
    if fs == [] {
      assert done + fs == done && FieldsWire(fs) + rest == rest;
    } else {
      DecodableTail(fs, names, left, depth);
      DecodeFieldFront(done, fs, names, rest, left, depth);
      assert done + fs == (done + [fs[0]]) + fs[1..];
      DecodeFieldsWire(done + [fs[0]], fs[1..], names, rest, left - Nodes(fs[0].value), depth);
    }
  }

  /** Consuming the first field leaves the rest of the list to decode. */
  lemma {:induction false} DecodeFieldFront(done: seq<Field>, fs: seq<Field>, names: bool, rest: bytes, left: nat,
                                            depth: nat)
    requires fs != [] && Sorted(done + fs) && DecodableFields(fs, names, left, depth)
    ensures Nodes(fs[0].value) <= left
    ensures DecodeFields(FieldsWire(fs) + rest, left, depth, |fs|, names, done)
         == DecodeFields(FieldsWire(fs[1..]) + rest, left - Nodes(fs[0].value), depth, |fs| - 1, names, done + [fs[0]])
    decreases fs, 0, 0
  {
    hide DecodeValue, DecodeName, Assign, Lookup, Wire, DecodableFields, Decodable, ValidName, ValidKey, Sorted, Nodes,
         Put, FieldsWire, DecodeFields;
    var f := fs[0];
    var tail := FieldsWire(fs[1..]) + rest;
    DecodableTail(fs, names, left, depth);
    FieldsWireFront(fs, rest);
    DecodeNameFront(f.name, names, Wire(f.value) + tail);
    DecodeWire(f.value, tail, left, depth);
    assert done + fs == (done + [f]) + fs[1..];
    SortedPrefix(done + [f], fs[1..]);
    AssignLast(done, f);
    DecodeFieldsStep(FieldsWire(fs) + rest, left, depth, |fs|, names, done, Read(f.name, Wire(f.value) + tail),
                     Decoded(f.value, tail, left - Nodes(f.value)));
  }

  lemma FieldsWireFront(fs: seq<Field>, rest: bytes)
    requires fs != []
    ensures FieldsWire(fs) + rest
      == Put(|fs[0].name|, 1) + fs[0].name + (Wire(fs[0].value) + (FieldsWire(fs[1..]) + rest))
  {
    hide Put, Wire;
  }

  lemma SortedPrefix(a: seq<Field>, b: seq<Field>)
    requires Sorted(a + b)
    ensures Sorted(a)
  {
    assert a == (a + b)[..|a|];
  }

  lemma {:induction false} DecodeItemsWire(done: seq<Value>, xs: seq<Value>, rest: bytes, left: nat, depth: nat)
    requires ItemShapes(xs) && forall i :: 0 <= i < |xs| ==> Typed(xs[i])
    requires depth + ItemsHeight(xs) <= 9 && ItemsNodes(xs) <= left
    ensures DecodeItems(ItemsWire(xs) + rest, left, depth, |xs|, done)
      == Ok(Decoded(done + xs, rest, left - ItemsNodes(xs)))
    decreases xs, 0
  {
    hide DecodeValue, DecodeFields, Wire;
    if xs == [] {
      assert done + xs == done && ItemsWire(xs) + rest == rest;
    } else {
      assert ItemsWire(xs) + rest == Wire(xs[0]) + (ItemsWire(xs[1..]) + rest);
      DecodeWire(xs[0], ItemsWire(xs[1..]) + rest, left, depth);
      assert done + xs == (done + [xs[0]]) + xs[1..];
      DecodeItemsWire(done + [xs[0]], xs[1..], rest, left - Nodes(xs[0]), depth);
    }
  }
}
