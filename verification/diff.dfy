/** `diff_fields`: per subtree the cheapest of a replacement, recursive edits and an array splice. */
module Diffs {
  import opened Bytes
  import opened Values
  import opened ValueCodec
  import opened UpdateCodec

  /** `patch_cost`: the encoded size of one patch in a record of its own. */
  function Cost(p: Patch): Result<nat> {
    var w :- EncodePatch(Writer(SizeOnly(0), NODES), p, true);
    Ok(w.Length())
  }

  function Costs(ps: seq<Patch>): Result<nat> {
    if ps == [] then Ok(0)
    else
      var c :- Cost(ps[0]);
      var rest :- Costs(ps[1..]);
      Ok(c + rest)
  }

  /** How many leading items compare equal. */
  function Prefix(a: seq<Value>, b: seq<Value>): (n: nat)
    ensures n <= |a| && n <= |b| && forall i :: 0 <= i < n ==> Same(a[i], b[i])
  {
    if a == [] || b == [] || !Same(a[0], b[0]) then 0 else 1 + Prefix(a[1..], b[1..])
  }

  /** How many trailing items compare equal. */
  function Suffix(a: seq<Value>, b: seq<Value>): (n: nat)
    ensures n <= |a| && n <= |b| && forall i :: |a| - n <= i < |a| ==> Same(a[i], b[i + |b| - |a|])
  {
    if a == [] || b == [] || !Same(a[|a| - 1], b[|b| - 1]) then 0 else 1 + Suffix(a[..|a| - 1], b[..|b| - 1])
  }

  /** The one splice that turns `was` into `now`, outside their common prefix and suffix. */
  function SpliceOf(property: bytes, path: seq<Step>, was: seq<Value>, now: seq<Value>): Patch {
    var n := Prefix(was, now);
    var m := Suffix(was[n..], now[n..]);
    Splice(property, path, n, |was| - n - m, now[n..|now| - m])
  }

  /** Map edits erasing the keys of `was` that `now` lacks. */
  function Erasures(property: bytes, path: seq<Step>, was: seq<Field>, now: seq<Field>): seq<Patch> {
    if was == [] then []
    else
      (if Has(now, was[0].name) then [] else [MapEdit(property, path, was[0].name, None)])
      + Erasures(property, path, was[1..], now)
  }

  function Diff(property: bytes, path: seq<Step>, before: Value, after: Value): Result<seq<Patch>>
    decreases after, 2
  {
    if Same(before, after) then Ok([])
    else
      var edits :- if |path| < 8 then Candidates(property, path, before, after) else Ok([]);
      var cost :- Costs(edits);
      Cheaper(Replacement(property, path, after), edits, cost)
  }

  /** A single patch unless the edits are usable and strictly cheaper. */
  function Cheaper(single: Patch, edits: seq<Patch>, cost: nat): Result<seq<Patch>> {
    if edits == [] || |edits| > 256 then Ok([single])
    else
      var c :- Cost(single);
      Ok(if c <= cost then [single] else edits)
  }

  function Candidates(property: bytes, path: seq<Step>, before: Value, after: Value): Result<seq<Patch>>
    decreases after, 1
  {
    if before.Struct? && after.Struct? then
      if && |before.fields| == |after.fields|
         && (forall i :: 0 <= i < |before.fields| ==> Has(after.fields, before.fields[i].name))
      then StructEdits(property, path, before.fields, after.fields, [])
      else Ok([])
    else if before.Map? && after.Map? then
      MapEdits(property, path, before.entries, after.entries, Erasures(property, path, before.entries, after.entries))
    else if before.Array? && after.Array? then
      ArrayEdits(property, path, before.items, after.items)
    else Ok([])
  }

  function StructEdits(property: bytes, path: seq<Step>, was: seq<Field>, now: seq<Field>,
                       edits: seq<Patch>): Result<seq<Patch>>
    decreases now, 0
  {
    if now == [] then Ok(edits)
    else if !Has(was, now[0].name) then Err(OutOfRange)
    else
      var inner :- Diff(property, path + [Key(now[0].name)], Lookup(was, now[0].name).value, now[0].value);
      if |edits + inner| > 256 then Ok(edits + inner)
      else StructEdits(property, path, was, now[1..], edits + inner)
  }

  function MapEdits(property: bytes, path: seq<Step>, was: seq<Field>, now: seq<Field>,
                    edits: seq<Patch>): Result<seq<Patch>>
    decreases now, 0
  {
    if now == [] || |edits| > 256 then Ok(edits)
    else if Has(was, now[0].name) then
      var inner :- Diff(property, path + [Key(now[0].name)], Lookup(was, now[0].name).value, now[0].value);
      MapEdits(property, path, was, now[1..], edits + inner)
    else MapEdits(property, path, was, now[1..], edits + [MapEdit(property, path, now[0].name, Some(now[0].value))])
  }

  function ArrayEdits(property: bytes, path: seq<Step>, was: seq<Value>, now: seq<Value>): Result<seq<Patch>>
    decreases now, 1
  {
    var n := Prefix(was, now);
    var m := Suffix(was[n..], now[n..]);
    var edits :- if |was| == |now| then ItemEdits(property, path, was, now, n, |now| - m, []) else Ok([]);
    var cost :- Costs(edits);
    Cheaper(SpliceOf(property, path, was, now), edits, cost)
  }

  function ItemEdits(property: bytes, path: seq<Step>, was: seq<Value>, now: seq<Value>, i: nat, hi: nat,
                     edits: seq<Patch>): Result<seq<Patch>>
    requires |was| == |now| && i <= hi <= |now|
    decreases now, 0, hi - i
  {
    if i == hi then Ok(edits)
    else
      var inner :- Diff(property, path + [Index(i)], was[i], now[i]);
      if |edits + inner| > 256 then Ok(edits + inner)
      else ItemEdits(property, path, was, now, i + 1, hi, edits + inner)
  }
}
