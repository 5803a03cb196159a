/** The value codec: one template writing into a byte string or a byte counter, and the decoder. */
module ValueCodec {
  import opened Bytes
  import opened Values

  const LIMIT: nat := 1024 * 1024
  const NODES: nat := 4096

  /** `check_name`: a property or struct field name. */
  predicate ValidName(n: bytes) { ValidKey(n) && n[0] != '$' as int && ('.' as int) !in n }

  /** A map key. */
  predicate ValidKey(n: bytes) { 0 < |n| <= 127 && 0 !in n }

  // ---- measures of a value, independent of any buffer ----

  /** What the C++ types guarantee of every value. */
  predicate Typed(v: Value) {
    match v
    case Int(n) => -0x8000_0000_0000_0000 <= n <= INT64_MAX
    case Num(x) => x < U64
    case Struct(fs) => Sorted(fs) && forall i :: 0 <= i < |fs| ==> Typed(fs[i].value)
    case Array(xs) => forall i :: 0 <= i < |xs| ==> Typed(xs[i])
    case Map(es) => Sorted(es) && forall i :: 0 <= i < |es| ==> Typed(es[i].value)
    case _ => true
  }

  /** What the encoder checks of a value apart from depth, node and byte limits. */
  predicate Shape(v: Value) {
    match v
    case Num(x) => Finite(x)
    case Str(s) => |s| <= 65536
    case Struct(fs) => 1 <= |fs| <= 64 && forall i :: 0 <= i < |fs| ==> ValidName(fs[i].name) && Shape(fs[i].value)
    case Array(xs) => |xs| <= 256 && forall i :: 0 <= i < |xs| ==> Shape(xs[i])
    case Map(es) => |es| <= 256 && forall i :: 0 <= i < |es| ==> ValidKey(es[i].name) && Shape(es[i].value)
    case _ => true
  }

  predicate TypedFields(fs: seq<Field>) { Sorted(fs) && forall i :: 0 <= i < |fs| ==> Typed(fs[i].value) }

  function Max(a: nat, b: nat): nat { if a < b then b else a }

  function Size(v: Value): (n: nat)
    ensures n >= 2
    decreases v, 0
  {
    match v
    case Int(_) => 9
    case Num(_) => 9
    case Bool(_) => 2
    case Str(s) => 5 + |s|
    case Struct(fs) => 2 + FieldsSize(fs)
    case Array(xs) => 3 + ItemsSize(xs)
    case Map(es) => 3 + FieldsSize(es)
  }

  function FieldsSize(fs: seq<Field>): nat
    decreases fs, 0
  {
    if fs == [] then 0 else 1 + |fs[0].name| + Size(fs[0].value) + FieldsSize(fs[1..])
  }

  function ItemsSize(xs: seq<Value>): nat
    decreases xs, 0
  {
    if xs == [] then 0 else Size(xs[0]) + ItemsSize(xs[1..])
  }

  function Nodes(v: Value): (n: nat)
    ensures n >= 1
    decreases v, 0
  {
    match v
    case Struct(fs) => 1 + FieldsNodes(fs)
    case Array(xs) => 1 + ItemsNodes(xs)
    case Map(es) => 1 + FieldsNodes(es)
    case _ => 1
  }

  function FieldsNodes(fs: seq<Field>): nat
    decreases fs, 0
  {
    if fs == [] then 0 else Nodes(fs[0].value) + FieldsNodes(fs[1..])
  }

  function ItemsNodes(xs: seq<Value>): nat
    decreases xs, 0
  {
    if xs == [] then 0 else Nodes(xs[0]) + ItemsNodes(xs[1..])
  }

  /** How many levels lie below the root of `v`. */
  function Height(v: Value): nat
    decreases v, 0
  {
    match v
    case Struct(fs) => FieldsHeight(fs)
    case Array(xs) => ItemsHeight(xs)
    case Map(es) => FieldsHeight(es)
    case _ => 0
  }

  function FieldsHeight(fs: seq<Field>): nat
    decreases fs, 0
  {
    if fs == [] then 0 else Max(1 + Height(fs[0].value), FieldsHeight(fs[1..]))
  }

  function ItemsHeight(xs: seq<Value>): nat
    decreases xs, 0
  {
    if xs == [] then 0 else Max(1 + Height(xs[0]), ItemsHeight(xs[1..]))
  }

  function Tag(v: Value): byte {
    match v
    case Int(_) => 0
    case Num(_) => 1
    case Bool(_) => 2
    case Str(_) => 3
    case Struct(_) => 4
    case Array(_) => 5
    case Map(_) => 6
  }

  /** `std::bit_cast<uint64>(int64)`. */
  function Unsigned(n: int): nat { if n < 0 then (n % U64) else n }
  function Signed(n: nat): int { if n > INT64_MAX then n - U64 else n }

  function Wire(v: Value): (r: bytes)
    decreases v, 0
  {
    [Tag(v)] + match v
    case Int(n) => Put(Unsigned(n), 8)
    case Num(x) => Put(x, 8)
    case Bool(b) => [if b then 1 else 0]
    case Str(s) => Put(|s|, 4) + s
    case Struct(fs) => Put(|fs|, 1) + FieldsWire(fs)
    case Array(xs) => Put(|xs|, 2) + ItemsWire(xs)
    case Map(es) => Put(|es|, 2) + FieldsWire(es)
  }

  function FieldsWire(fs: seq<Field>): bytes
    decreases fs, 0
  {
    if fs == [] then [] else Put(|fs[0].name|, 1) + fs[0].name + Wire(fs[0].value) + FieldsWire(fs[1..])
  }

  function ItemsWire(xs: seq<Value>): bytes
    decreases xs, 0
  {
    if xs == [] then [] else Wire(xs[0]) + ItemsWire(xs[1..])
  }

  lemma {:induction false} WireSize(v: Value)
    ensures |Wire(v)| == Size(v)
    decreases v, 0
  {
    match v {
      case Struct(fs) => FieldsWireSize(fs);
      case Array(xs) => ItemsWireSize(xs);
      case Map(es) => FieldsWireSize(es);
      case _ =>
    }
  }

  lemma {:induction false} FieldsWireSize(fs: seq<Field>)
    ensures |FieldsWire(fs)| == FieldsSize(fs)
    decreases fs, 0
  {
    if fs != [] {
      WireSize(fs[0].value);
      FieldsWireSize(fs[1..]);
    }
  }

  lemma {:induction false} ItemsWireSize(xs: seq<Value>)
    ensures |ItemsWire(xs)| == ItemsSize(xs)
    decreases xs, 0
  {
    if xs != [] {
      WireSize(xs[0]);
      ItemsWireSize(xs[1..]);
    }
  }

  // ---- the encoder ----

  /** The two instances of the encoder's `Output` parameter: a string, or `SizeOnly`. */
  datatype Sink = Buffer(out: bytes) | SizeOnly(count: nat) {
    function Length(): nat { if Buffer? then |out| else count }
    function Append(b: bytes): Sink { if Buffer? then Buffer(out + b) else SizeOnly(count + |b|) }
  }

  /** The output together with the node budget shared by one record. */
  datatype Writer = Writer(sink: Sink, left: nat) {
    function Append(b: bytes): Writer { Writer(sink.Append(b), left) }
    function Length(): nat { sink.Length() }
  }

  lemma AppendAppend(w: Writer, a: bytes, b: bytes)
    ensures w.Append(a).Append(b) == w.Append(a + b)
  {
    if w.sink.Buffer? { assert (w.sink.out + a) + b == w.sink.out + (a + b); }
  }

  function EncodeValue(w: Writer, v: Value, depth: nat): Result<Writer>
    decreases v, 1
  {
    if depth > 8 || w.left == 0 then Err(TooLong)
    else
      var body :- EncodeBody(Writer(w.sink.Append([Tag(v)]), w.left - 1), v, depth);
      if body.Length() > LIMIT then Err(TooLong) else Ok(body)
  }

  function EncodeBody(w: Writer, v: Value, depth: nat): Result<Writer>
    decreases v, 0
  {
    match v
    case Int(n) => Ok(w.Append(Put(Unsigned(n), 8)))
    case Num(x) => if !Finite(x) then Err(Invalid) else Ok(w.Append(Put(x, 8)))
    case Bool(b) => Ok(w.Append([if b then 1 else 0]))
    case Str(s) => if |s| > 65536 then Err(TooLong) else Ok(w.Append(Put(|s|, 4)).Append(s))
    case Struct(fs) =>
      if fs == [] || |fs| > 64 then Err(TooLong) else EncodeFields(w.Append(Put(|fs|, 1)), fs, true, depth + 1)
    case Array(xs) =>
      if |xs| > 256 then Err(TooLong) else EncodeItems(w.Append(Put(|xs|, 2)), xs, depth + 1)
    case Map(es) =>
      if |es| > 256 then Err(TooLong) else EncodeFields(w.Append(Put(|es|, 2)), es, false, depth + 1)
  }

  function EncodeFields(w: Writer, fs: seq<Field>, names: bool, depth: nat): Result<Writer>
    decreases fs, 0
  {
    if fs == [] then Ok(w)
    else if !(if names then ValidName(fs[0].name) else ValidKey(fs[0].name)) then Err(Invalid)
    else
      var next :- EncodeValue(w.Append(Put(|fs[0].name|, 1)).Append(fs[0].name), fs[0].value, depth);
      EncodeFields(next, fs[1..], names, depth)
  }

  function EncodeItems(w: Writer, xs: seq<Value>, depth: nat): Result<Writer>
    decreases xs, 0
  {
    if xs == [] then Ok(w)
    else
      var next :- EncodeValue(w, xs[0], depth);
      EncodeItems(next, xs[1..], depth)
  }

  /** Exactly when a value can be encoded at `depth` into `w`. */
  predicate Fits(w: Writer, v: Value, depth: nat) {
    Shape(v) && depth + Height(v) <= 8 && Nodes(v) <= w.left && w.Length() + Size(v) <= LIMIT
  }

  predicate FieldShapes(fs: seq<Field>, names: bool) {
    forall i :: 0 <= i < |fs| ==> FieldShape(fs[i], names)
  }

  predicate ItemShapes(xs: seq<Value>) { forall i :: 0 <= i < |xs| ==> Shape(xs[i]) }

  /** What one encoding call does, told without running it. */
  predicate Encoded(w: Writer, r: Result<Writer>, fits: bool, shape: bool, wire: bytes, nodes: nat) {
    && (r.Ok? <==> fits)
    && (r.Ok? ==> nodes <= w.left && r.value == Writer(w.sink.Append(wire), w.left - nodes))
    && (r.Err? && shape ==> r.error == TooLong)
  }

  /** The encoder succeeds exactly on the values that fit and then appends their wire form. */
  lemma {:induction false} EncodeValueExact(w: Writer, v: Value, depth: nat)
    ensures Encoded(w, EncodeValue(w, v, depth), Fits(w, v, depth), Shape(v), Wire(v), Nodes(v))
    decreases v, 1
  {
    hide EncodeValue, EncodeBody, Fits, Shape, Wire, Nodes, Encoded;
    match v {
      case Struct(fs) => EncodeStructExact(w, fs, depth);
      case Array(xs) => EncodeArrayExact(w, xs, depth);
      case Map(es) => EncodeMapExact(w, es, depth);
      case _ => EncodeScalarExact(w, v, depth);
    }
  }

  lemma EncodeScalarExact(w: Writer, v: Value, depth: nat)
    requires Tag(v) < 4
    ensures Encoded(w, EncodeValue(w, v, depth), Fits(w, v, depth), Shape(v), Wire(v), Nodes(v))
  {
    if depth <= 8 && w.left > 0 {
      var rest := Writer(w.sink, w.left - 1);
      hide Put, Finite;
      match v {
        case Str(s) =>
          AppendAppend(rest.Append([Tag(v)]), Put(|s|, 4), s);
          AppendAppend(rest, [Tag(v)], Put(|s|, 4) + s);
        case Int(n) => AppendAppend(rest, [Tag(v)], Put(Unsigned(n), 8));
        case Num(x) => AppendAppend(rest, [Tag(v)], Put(x, 8));
        case Bool(b) => AppendAppend(rest, [Tag(v)], [if b then 1 else 0]);
      }
    }
  }

  lemma {:induction false} EncodeStructExact(w: Writer, fs: seq<Field>, depth: nat)
    ensures var v := Struct(fs); Encoded(w, EncodeValue(w, v, depth), Fits(w, v, depth), Shape(v), Wire(v), Nodes(v))
    decreases fs, 2
  {
    if depth <= 8 && w.left > 0 {
      hide EncodeFields, FieldsWire, FieldsSize, FieldsNodes, FieldsHeight, Put;
      var w1 := Writer(w.sink.Append([4]), w.left - 1);
      AppendAppend(w1, Put(|fs|, 1), FieldsWire(fs));
      AppendAppend(Writer(w.sink, w.left - 1), [4], Put(|fs|, 1) + FieldsWire(fs));
      FieldsWireSize(fs);
      EncodeFieldsExact(w1.Append(Put(|fs|, 1)), fs, true, depth + 1);
      assert Shape(Struct(fs)) <==> 1 <= |fs| <= 64 && FieldShapes(fs, true);
    }
  }

  lemma {:induction false} EncodeArrayExact(w: Writer, xs: seq<Value>, depth: nat)
    ensures var v := Array(xs); Encoded(w, EncodeValue(w, v, depth), Fits(w, v, depth), Shape(v), Wire(v), Nodes(v))
    decreases xs, 2
  {
    if depth <= 8 && w.left > 0 {
      var w1 := Writer(w.sink.Append([5]), w.left - 1);
      assert xs == [] ==> ItemsHeight(xs) == 0 && ItemsSize(xs) == 0;
      hide EncodeItems, ItemsWire, ItemsSize, ItemsNodes, ItemsHeight, Put;
      AppendAppend(w1, Put(|xs|, 2), ItemsWire(xs));
      AppendAppend(Writer(w.sink, w.left - 1), [5], Put(|xs|, 2) + ItemsWire(xs));
      ItemsWireSize(xs);
      EncodeItemsExact(w1.Append(Put(|xs|, 2)), xs, depth + 1);
      assert Shape(Array(xs)) <==> |xs| <= 256 && ItemShapes(xs);
    }
  }

  lemma {:induction false} EncodeMapExact(w: Writer, es: seq<Field>, depth: nat)
    ensures var v := Map(es); Encoded(w, EncodeValue(w, v, depth), Fits(w, v, depth), Shape(v), Wire(v), Nodes(v))
    decreases es, 2
  {
    if depth <= 8 && w.left > 0 {
      var w1 := Writer(w.sink.Append([6]), w.left - 1);
      assert es == [] ==> FieldsHeight(es) == 0 && FieldsSize(es) == 0;
      hide EncodeFields, FieldsWire, FieldsSize, FieldsNodes, FieldsHeight, Put;
      AppendAppend(w1, Put(|es|, 2), FieldsWire(es));
      AppendAppend(Writer(w.sink, w.left - 1), [6], Put(|es|, 2) + FieldsWire(es));
      FieldsWireSize(es);
      EncodeFieldsExact(w1.Append(Put(|es|, 2)), es, false, depth + 1);
      assert Shape(Map(es)) <==> |es| <= 256 && FieldShapes(es, false);
    }
  }

  predicate FitsFields(w: Writer, fs: seq<Field>, names: bool, depth: nat) {
    && FieldShapes(fs, names) && (fs != [] ==> depth + FieldsHeight(fs) <= 9)
    && FieldsNodes(fs) <= w.left && (fs != [] ==> w.Length() + FieldsSize(fs) <= LIMIT)
  }

  lemma FieldsSplit(fs: seq<Field>)
    requires fs != []
    ensures FieldsSize(fs) == 1 + |fs[0].name| + Size(fs[0].value) + FieldsSize(fs[1..])
    ensures FieldsNodes(fs) == Nodes(fs[0].value) + FieldsNodes(fs[1..])
    ensures FieldsHeight(fs) == Max(1 + Height(fs[0].value), FieldsHeight(fs[1..]))
    ensures FieldsSize([]) == 0 && FieldsHeight([]) == 0
  {
    hide Size, Nodes, Height, Max;
  }

  predicate FieldShape(f: Field, names: bool) {
    (if names then ValidName(f.name) else ValidKey(f.name)) && Shape(f.value)
  }

  lemma FieldShapesSplit(fs: seq<Field>, names: bool)
    requires fs != []
    ensures FieldShapes(fs, names) <==> FieldShape(fs[0], names) && FieldShapes(fs[1..], names)
  {
    hide FieldShape;
    if FieldShape(fs[0], names) && FieldShapes(fs[1..], names) {
      forall i | 0 <= i < |fs| ensures FieldShape(fs[i], names) {
        if i > 0 { assert fs[i] == fs[1..][i - 1]; }
      }
    }
  }

  lemma {:induction false} EncodeFieldsExact(w: Writer, fs: seq<Field>, names: bool, depth: nat)
    ensures Encoded(w, EncodeFields(w, fs, names, depth), FitsFields(w, fs, names, depth), FieldShapes(fs, names),
                    FieldsWire(fs), FieldsNodes(fs))
    decreases fs, 0
  {
    if fs == [] {
      if w.sink.Buffer? { assert w.sink.out + [] == w.sink.out; }
    } else {
      hide EncodeValue, Shape, Wire, Size, Nodes, Height, Put, ValidName, ValidKey, FieldShapes, FieldsSize,
           FieldsNodes, FieldsHeight;
      var f := fs[0];
      var w1 := w.Append(Put(|f.name|, 1)).Append(f.name);
      AppendAppend(w, Put(|f.name|, 1), f.name);
      EncodeValueExact(w1, f.value, depth);
      FieldsSplit(fs);
      FieldShapesSplit(fs, names);
      WireSize(f.value);
      var r := EncodeValue(w1, f.value, depth);
      if r.Ok? && (if names then ValidName(f.name) else ValidKey(f.name)) {
        EncodeFieldsExact(r.value, fs[1..], names, depth);
        AppendAppend(w, Put(|f.name|, 1) + f.name, Wire(f.value));
        AppendAppend(w, Put(|f.name|, 1) + f.name + Wire(f.value), FieldsWire(fs[1..]));
      }
    }
  }

  predicate FitsItems(w: Writer, xs: seq<Value>, depth: nat) {
    && ItemShapes(xs) && (xs != [] ==> depth + ItemsHeight(xs) <= 9)
    && ItemsNodes(xs) <= w.left && (xs != [] ==> w.Length() + ItemsSize(xs) <= LIMIT)
  }

  lemma ItemsSplit(xs: seq<Value>)
    requires xs != []
    ensures ItemsSize(xs) == Size(xs[0]) + ItemsSize(xs[1..]) && ItemsNodes(xs) == Nodes(xs[0]) + ItemsNodes(xs[1..])
    ensures ItemsHeight(xs) == Max(1 + Height(xs[0]), ItemsHeight(xs[1..]))
    ensures ItemsSize([]) == 0 && ItemsHeight([]) == 0
  {
    hide Size, Nodes, Height, Max;
  }

  lemma ItemShapesSplit(xs: seq<Value>)
    requires xs != []
    ensures ItemShapes(xs) <==> Shape(xs[0]) && ItemShapes(xs[1..])
  {
    hide Shape;
    if Shape(xs[0]) && ItemShapes(xs[1..]) {
      forall i | 0 <= i < |xs| ensures Shape(xs[i]) {
        if i > 0 { assert xs[i] == xs[1..][i - 1]; }
      }
    }
  }

  lemma {:induction false} EncodeItemsExact(w: Writer, xs: seq<Value>, depth: nat)
    ensures Encoded(w, EncodeItems(w, xs, depth), FitsItems(w, xs, depth), ItemShapes(xs), ItemsWire(xs),
                    ItemsNodes(xs))
    decreases xs, 0
  {
    if xs == [] {
      if w.sink.Buffer? { assert w.sink.out + [] == w.sink.out; }
    } else {
      hide EncodeValue, Shape, Wire, Size, Nodes, Height, ItemShapes, ItemsSize, ItemsNodes, ItemsHeight;
      EncodeValueExact(w, xs[0], depth);
      ItemsSplit(xs);
      ItemShapesSplit(xs);
      WireSize(xs[0]);
      var r := EncodeValue(w, xs[0], depth);
      if r.Ok? {
        EncodeItemsExact(r.value, xs[1..], depth);
        AppendAppend(w, Wire(xs[0]), ItemsWire(xs[1..]));
      }
    }
  }
}
