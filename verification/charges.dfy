/** What an image is charged for in memory: a block for every node, another for every struct or map that has a name, and
    the bytes of all names and texts. */
module Charges {
  import opened Bytes
  import opened Values
  import opened ValueCodec
  import opened Applying

  const BLOCK: nat := 256

  /** The bytes of all names and texts in a value. */
  function Texts(v: Value): nat
    decreases v, 1
  {
    match v
    case Str(s) => |s|
    case Struct(fs) => FieldTexts(fs)
    case Map(es) => FieldTexts(es)
    case Array(xs) => ItemTexts(xs)
    case _ => 0
  }

  function FieldTexts(fs: seq<Field>): nat
    decreases fs, 0
  {
    if fs == [] then 0 else |fs[0].name| + Texts(fs[0].value) + FieldTexts(fs[1..])
  }

  function ItemTexts(xs: seq<Value>): nat
    decreases xs, 0
  {
    if xs == [] then 0 else Texts(xs[0]) + ItemTexts(xs[1..])
  }

  predicate Keyed(v: Value) { v.Struct? || v.Map? }

  /** How many structs and maps below a value have a name. */
  function Named(v: Value): nat
    decreases v, 1
  {
    match v
    case Struct(fs) => FieldNamed(fs)
    case Map(es) => FieldNamed(es)
    case Array(xs) => ItemNamed(xs)
    case _ => 0
  }

  function FieldNamed(fs: seq<Field>): nat
    decreases fs, 0
  {
    if fs == [] then 0 else (if Keyed(fs[0].value) then 1 else 0) + Named(fs[0].value) + FieldNamed(fs[1..])
  }

  function ItemNamed(xs: seq<Value>): nat
    decreases xs, 0
  {
    if xs == [] then 0 else Named(xs[0]) + ItemNamed(xs[1..])
  }

  /** `attribute_image_bytes` in closed form. */
  lemma {:induction false} ImageCharge(fs: seq<Field>)
    ensures ImageBytes(fs) == BLOCK * (1 + FieldsNodes(fs) + FieldNamed(fs)) + FieldTexts(fs)
    decreases fs, 0
  {
    if fs != [] {
      EntryCharge(fs[0].name, fs[0].value);
      ImageCharge(fs[1..]);
    }
  }

  lemma {:induction false} EntryCharge(name: bytes, v: Value)
    ensures EntryBytes(name, v) == BLOCK * (Nodes(v) + Named(v) + (if Keyed(v) then 1 else 0)) + |name| + Texts(v)
    ensures ItemBytes(v) == BLOCK * (Nodes(v) + Named(v)) + Texts(v)
    decreases v, 1
  {
    match v {
      case Struct(fs) => ImageCharge(fs);
      case Map(es) => ImageCharge(es);
      case Array(xs) => ItemsCharge(xs);
      case _ =>
    }
  }

  lemma {:induction false} ItemsCharge(xs: seq<Value>)
    ensures ItemsBytes(xs) == BLOCK * (ItemsNodes(xs) + ItemNamed(xs)) + ItemTexts(xs)
    decreases xs, 0
  {
    if xs != [] {
      EntryCharge([], xs[0]);
      ItemsCharge(xs[1..]);
    }
  }
}
