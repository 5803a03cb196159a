/** `container_delta` and `attribute_delta`: the smallest update that turns one full image into another. */
module Deltas {
  import opened Bytes
  import opened Values
  import opened ValueCodec
  import opened UpdateCodec
  import opened Diffs

  /** What a delta does with one root of the new image. */
  datatype Choice = Skip | Whole | Edits(ps: seq<Patch>)

  /** The roots sent whole. */
  function ValuesOf(roots: seq<Field>, cs: seq<Choice>): seq<Field>
    requires |roots| == |cs|
  {
    if roots == [] then []
    else (if cs[0].Whole? then [roots[0]] else []) + ValuesOf(roots[1..], cs[1..])
  }

  /** The edits, root after root. */
  function PatchesOf(cs: seq<Choice>): seq<Patch> {
    if cs == [] then [] else (if cs[0].Edits? then cs[0].ps else []) + PatchesOf(cs[1..])
  }

  function Sparse(base: nat, next: Update, cs: seq<Choice>): Update
    requires |next.values| == |cs|
  {
    Update(base, next.revision, false, ValuesOf(next.values, cs), PatchesOf(cs))
  }

  predicate Unchanged(prev: seq<Field>, f: Field) { Has(prev, f.name) && Same(Lookup(prev, f.name).value, f.value) }

  // ---- whole roots ----

  function WholeChoice(prev: seq<Field>, f: Field): Choice { if Unchanged(prev, f) then Skip else Whole }

  function WholeChoices(prev: seq<Field>, roots: seq<Field>): (cs: seq<Choice>)
    ensures |cs| == |roots| && forall i :: 0 <= i < |cs| ==> cs[i] == WholeChoice(prev, roots[i])
  {
    if roots == [] then [] else [WholeChoice(prev, roots[0])] + WholeChoices(prev, roots[1..])
  }

  /** Plain replacement of the changed roots. */
  function Full(prev: Update, next: Update): Update {
    Sparse(prev.revision, next, WholeChoices(prev.values, next.values))
  }

  // ---- one level of container edits ----

  /** Entries of `now` that are new or differ, assigned whole. */
  function Changes(property: bytes, was: seq<Field>, now: seq<Field>): seq<Patch> {
    if now == [] then []
    else
      (if Unchanged(was, now[0]) then [] else [MapEdit(property, [], now[0].name, Some(now[0].value))])
      + Changes(property, was, now[1..])
  }

  function ContainerChoice(prev: seq<Field>, f: Field): Choice {
    if Unchanged(prev, f) then Skip
    else match Lookup(prev, f.name)
      case Some(Array(was)) =>
        if f.value.Array? then Edits([SpliceOf(f.name, [], was, f.value.items)]) else Whole
      case Some(Map(was)) =>
        if f.value.Map? then Edits(Erasures(f.name, [], was, f.value.entries) + Changes(f.name, was, f.value.entries))
        else Whole
      case _ => Whole
  }

  function ContainerChoices(prev: seq<Field>, roots: seq<Field>): (cs: seq<Choice>)
    ensures |cs| == |roots| && forall i :: 0 <= i < |cs| ==> cs[i] == ContainerChoice(prev, roots[i])
  {
    if roots == [] then [] else [ContainerChoice(prev, roots[0])] + ContainerChoices(prev, roots[1..])
  }

  predicate FullImage(u: Update) { u.snapshot && u.patches == [] }

  /** The better of two updates when both can be sized; a length error keeps the second one. */
  function Smaller(candidate: Update, best: Update): Result<Update> {
    match (WireLength(candidate), WireLength(best))
    case (Ok(a), Ok(b)) => Ok(if a < b then candidate else best)
    case (Err(TooLong), _) => Ok(best)
    case (_, Err(TooLong)) => Ok(best)
    case (Err(e), _) => Err(e)
    case (_, Err(e)) => Err(e)
  }

  function ContainerDelta(prev: Update, next: Update): Result<Update> {
    if !FullImage(prev) || !FullImage(next) then Err(Invalid)
    else if !(forall i :: 0 <= i < |prev.values| ==> Has(next.values, prev.values[i].name)) then Ok(next)
    else if next.revision < prev.revision then Ok(next)
    else
      var full := Full(prev, next);
      var sparse := Sparse(prev.revision, next, ContainerChoices(prev.values, next.values));
      if sparse.patches == [] || |sparse.patches| > 256 then Ok(full)
      else
        var size :- WireLength(full);
        Smaller(sparse, full)
  }

  // ---- recursive edits ----

  function FieldChoice(prev: seq<Field>, f: Field): Result<Choice> {
    if !Has(prev, f.name) then Ok(Whole)
    else if Same(Lookup(prev, f.name).value, f.value) then Ok(Skip)
    else
      var edits :- Diff(f.name, [], Lookup(prev, f.name).value, f.value);
      Ok(if |edits| == 1 && edits[0].replace && edits[0].path == [] then Whole else Edits(edits))
  }

  /** The choices for all roots, or `None` once more than 256 patches have piled up. */
  function FieldChoices(prev: seq<Field>, roots: seq<Field>, used: nat): (r: Result<Option<seq<Choice>>>)
    ensures r.Ok? && r.value.Some? ==> |r.value.value| == |roots|
  {
    if roots == [] then Ok(Some([]))
    else
      var c :- FieldChoice(prev, roots[0]);
      var total := used + (if c.Edits? then |c.ps| else 0);
      if total > 256 then Ok(None)
      else
        var rest :- FieldChoices(prev, roots[1..], total);
        Ok(match rest case None => None case Some(cs) => Some([c] + cs))
  }

  /** `attribute_delta`. */
  function Delta(prev: Update, next: Update): Result<Update> {
    var best :- ContainerDelta(prev, next);
    if best.snapshot then Ok(best)
    else
      var choices :- FieldChoices(prev.values, next.values, 0);
      match choices
      case None => Ok(best)
      case Some(cs) =>
        var fields := Sparse(prev.revision, next, cs);
        if fields.patches == [] then Ok(best) else Smaller(fields, best)
  }
}
