/** `AttributeReplica::apply` on values: validation, materialization of patches and the installed image. */
module Applying {
  import opened Bytes
  import opened Values
  import opened ValueCodec
  import opened UpdateCodec
  import opened Patches

  // ---- native charges ----

  /** `attribute_image_bytes`. */
  function ImageBytes(fs: seq<Field>): nat
    decreases fs, 0
  {
    if fs == [] then 256 else EntryBytes(fs[0].name, fs[0].value) + ImageBytes(fs[1..])
  }

  /** `attribute_entry_bytes`. */
  function EntryBytes(name: bytes, v: Value): nat
    decreases v, 2
  {
    256 + |name| + match v
    case Str(s) => |s|
    case Struct(fs) => ImageBytes(fs)
    case Map(es) => ImageBytes(es)
    case Array(xs) => ItemsBytes(xs)
    case _ => 0
  }

  /** The charge of an array item, which has no name. */
  function ItemBytes(v: Value): nat
    decreases v, 1
  {
    match v
    case Str(s) => 256 + |s|
    case Struct(fs) => ImageBytes(fs)
    case Map(es) => ImageBytes(es)
    case Array(xs) => 256 + ItemsBytes(xs)
    case _ => 256
  }

  function ItemsBytes(xs: seq<Value>): nat
    decreases xs, 0
  {
    if xs == [] then 0 else ItemBytes(xs[0]) + ItemsBytes(xs[1..])
  }

  // ---- installing ----

  /** The installed image of a replica. */
  datatype Image = Image(revision: nat, values: seq<Field>)

  datatype Outcome = Rejected | Applied(image: Image, charge: nat)

  function Held(image: Option<Image>): seq<Field> { match image case None => [] case Some(i) => i.values }

  function Snapshot(revision: nat, values: seq<Field>): Update { Update(0, revision, true, values, []) }

  /** Replays the patches on copies of the roots they address. */
  function Materialize(held: seq<Field>, roots: seq<Field>, ps: seq<Patch>): Result<seq<Field>>
    decreases ps
  {
    if ps == [] then Ok(roots)
    else
      var k := ps[0].property;
      var found := if Has(roots, k) then Lookup(roots, k) else Lookup(held, k);
      if found.None? then Err(OutOfRange)
      else
        var v :- ApplyAt(found.value, ps[0].path, ps[0]);
        Materialize(held, Assign(roots, k, v), ps[1..])
  }

  /** The image after moving every field of `delta` into it. */
  function Overlay(held: seq<Field>, delta: seq<Field>): seq<Field>
    decreases delta
  {
    if delta == [] then held else Overlay(Assign(held, delta[0].name, delta[0].value), delta[1..])
  }

  /** The two-pointer merge of `validate_overlay`, measuring each field as it passes. */
  function Validate(held: seq<Field>, delta: seq<Field>, count: nat, w: Writer, native: nat): Result<nat>
    decreases |held| + |delta|
  {
    if held == [] && delta == [] then Ok(w.Length() + native)
    else
      var fromHeld := delta == [] || (held != [] && Less(held[0].name, delta[0].name));
      var f := if fromHeld then held[0] else delta[0];
      if count + 1 > 256 || !ValidName(f.name) then Err(Invalid)
      else
        var next :- EncodeValue(w.Append(Put(|f.name|, 1)).Append(f.name), f.value, 0);
        var rest := if fromHeld || (held != [] && held[0].name == delta[0].name) then held[1..] else held;
        Validate(rest, if fromHeld then delta else delta[1..], count + 1, next, native + EntryBytes(f.name, f.value))
  }

  /** `validate_overlay`: the charge of the merged image, or the limit it breaks. */
  function ValidateOverlay(held: seq<Field>, delta: seq<Field>): Result<nat> {
    Validate(held, delta, 0, Writer(SizeOnly(23), NODES), 256)
  }

  function Install(image: Option<Image>, u: Update, budget: nat): Result<Outcome> {
    var charge :- if u.snapshot then SnapshotCharge(u) else ValidateOverlay(Held(image), u.values);
    if charge > budget then Err(OverBudget)
    else Ok(Applied(Image(u.revision, if u.snapshot then u.values else Overlay(Held(image), u.values)), charge))
  }

  function SnapshotCharge(u: Update): Result<nat> {
    var size :- WireLength(u);
    Ok(size + ImageBytes(u.values))
  }

  predicate Stale(image: Option<Image>, u: Update) {
    || (!u.snapshot && (image.None? || u.base != image.value.revision))
    || (image.Some? && u.revision < image.value.revision)
  }

  /** `AttributeReplica::apply`. */
  function Apply(image: Option<Image>, u: Update, budget: nat): Result<Outcome>
    decreases |u.patches|
  {
    var size :- WireLength(u);
    if Stale(image, u) then Ok(Rejected)
    else if u.patches == [] then Install(image, u, budget)
    else
      var roots :- Materialize(Held(image), u.values, u.patches);
      Apply(image, Update(u.base, u.revision, false, roots, []), budget)
  }
}
