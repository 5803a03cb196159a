/** `attribute_write_delta` and `stage_attribute_proposal` as the programs they are, proved against `Staging`. */
module Proposals {
  import opened Bytes
  import opened Values
  import opened ValueCodec
  import opened UpdateCodec
  import opened Deltas
  import opened DeltaSoundness
  import opened Applying
  import opened AttributeWire
  import opened Replicas
  import opened Schemas
  import opened Staging

  method WriteUpdate(confirmed: seq<Field>, confirmedRevision: nat, values: seq<Field>,
                     expected: nat) returns (r: Result<Update>)
    ensures Agree(r, WriteDelta(confirmed, confirmedRevision, values, expected))
  {
    hide Delta, WireLength, Common, Restored;
    if expected != confirmedRevision { return Ok(Plain(expected, values)); }
    var before := KnownRoots(confirmed, values);
    var update := AttributeDelta(Snapshot(expected, before), Snapshot(expected, values));
    if update.Err? { return Err(update.error); }
    var roots := RestoreRoots(update.value.values, confirmed, values);
    var restored := update.value.(values := roots);
    var full := Plain(expected, values);
    var size, candidate := WireLength(full), WireLength(restored);
    if size.Err? { return Err(size.error); }
    if candidate.Err? && candidate.error != TooLong { return Err(candidate.error); }
    r := Ok(if candidate.Ok? && candidate.value < size.value then restored else full);
  }

  method KnownRoots(confirmed: seq<Field>, values: seq<Field>) returns (before: seq<Field>)
    ensures before == Common(confirmed, values)
  {
    hide Lookup;
    before := [];
    var i := 0;
    assert values[0..] == values;
    while i < |values|
      invariant 0 <= i <= |values| && before + Common(confirmed, values[i..]) == Common(confirmed, values)
    {
      assert values[i..][0] == values[i] && values[i..][1..] == values[i + 1..];
      var found := Lookup(confirmed, values[i].name);
      if found.Some? { before := before + [Field(values[i].name, found.value)]; }
      i := i + 1;
    }
  }

  method RestoreRoots(into: seq<Field>, confirmed: seq<Field>, values: seq<Field>) returns (roots: seq<Field>)
    ensures roots == Restored(into, confirmed, values)
  {
    hide Unchanged, Lookup, Assign;
    roots := into;
    var i := 0;
    assert values[0..] == values;
    while i < |values|
      invariant 0 <= i <= |values| && Restored(roots, confirmed, values[i..]) == Restored(into, confirmed, values)
    {
      var f := values[i];
      assert values[i..][0] == f && values[i..][1..] == values[i + 1..];
      if Unchanged(confirmed, f) && !Has(roots, f.name) { roots := Assign(roots, f.name, f.value); }
      i := i + 1;
    }
  }

  method PatchedRoots(values: seq<Field>, held: seq<Field>, ps: seq<Patch>) returns (r: Option<seq<Field>>)
    ensures r == ProposedRoots(values, held, ps)
  {
    hide Lookup, Assign;
    var roots, i := values, 0;
    assert ps[0..] == ps;
    while i < |ps|
      invariant 0 <= i <= |ps| && ProposedRoots(roots, held, ps[i..]) == ProposedRoots(values, held, ps)
    {
      var k := ps[i].property;
      assert ps[i..][0] == ps[i] && ps[i..][1..] == ps[i + 1..];
      var current := Lookup(held, k);
      if current.None? { return None; }
      if !Has(roots, k) { roots := Assign(roots, k, current.value); }
      i := i + 1;
    }
    r := Some(roots);
  }

  method RefreshRoots(roots: seq<Field>, image: seq<Field>) returns (r: Option<seq<Field>>)
    ensures r == Refreshed(roots, image)
  {
    hide Lookup;
    var done: seq<Field>, i := [], 0;
    assert roots[0..] == roots;
    while i < |roots|
      invariant 0 <= i <= |roots|
      invariant var rest, all := Refreshed(roots[i..], image), Refreshed(roots, image);
        rest.Some? == all.Some? && (all.Some? ==> done + rest.value == all.value)
    {
      assert roots[i..][0] == roots[i] && roots[i..][1..] == roots[i + 1..];
      var found := Lookup(image, roots[i].name);
      if found.None? { return None; }
      done, i := done + [Field(roots[i].name, found.value)], i + 1;
    }
    assert roots[i..] == [] && done + [] == done;
    r := Some(done);
  }

  /** Stages a client proposal on the server's attributes; the attributes themselves are left alone. */
  method StageUpdate(model: EntityAttributes, p: Update, who: Who) returns (r: Result<Mutation>)
    requires model.Valid() && Sorted(p.values)
    ensures var s := StageProposal(Server(model.schema, model.values, model.revision), p, who);
      r.Ok? == s.Some? && (r.Ok? ==> r.value == s.value)
  {
    hide WireLength, Applying.Apply, Admitted, Sorted, Known, ProposedRoots, Refreshed, Schemas.Allowed,
         Schemas.FaultAt, Schemas.Stamped, Encodable, Overlay;
    var size := WireLength(p);
    if size.Err? { return Err(size.error); }
    if p.snapshot || p.base != model.revision || p.revision != p.base { return Err(Invalid); }
    if p.patches == [] {
      r := model.Stage(p.values, who);
      return;
    }
    var roots := PatchedRoots(p.values, model.values, p.patches);
    if roots.None? { return Err(OutOfRange); }
    r := model.Stage(roots.value, who);
    if r.Err? { return; }
    var candidate := new Replica();
    var ok := candidate.Apply(Snapshot(model.revision, model.values), SIZE_MAX);
    if ok.Err? { return Err(ok.error); }
    SnapshotAccepted(model.revision, model.values);
    ghost var held := candidate.Contents();
    assert held.Some?;
    assert Applying.Apply(None, Snapshot(model.revision, model.values), SIZE_MAX)
      == Ok(Applied(held.value, candidate.bytes));
    ok := candidate.Apply(p, SIZE_MAX);
    if ok.Err? { return Err(ok.error); }
    if !ok.value { return Err(Invalid); }
    var image := candidate.Values();
    var fs := RefreshRoots(roots.value, image);
    if fs.None? { return Err(OutOfRange); }
    r := model.Stage(fs.value, who);
  }

  lemma SnapshotAccepted(revision: nat, values: seq<Field>)
    ensures Applying.Apply(None, Snapshot(revision, values), SIZE_MAX) != Ok(Rejected)
  {
    hide WireLength;
  }
}
