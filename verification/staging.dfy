/** Client write deltas and their staging on the server agree with staging the submitted values directly. */
module Staging {
  import opened Bytes
  import opened Values
  import opened ValueCodec
  import opened UpdateCodec
  import opened Sameness
  import opened Patches
  import opened DiffSoundness
  import opened Deltas
  import opened DeltaSoundness
  import opened Applying
  import opened Overlays
  import opened DeltaTheorem
  import opened DeltaApplication
  import opened Schemas

  /** What the server holds: schema, published values, revision. */
  datatype Server = Server(schema: Schema, values: seq<Field>, revision: nat)

  const SIZE_MAX: nat := U64 - 1

  // ---- attribute_write_delta ----

  /** The confirmed values of the submitted roots. */
  function Common(confirmed: seq<Field>, values: seq<Field>): seq<Field> {
    if values == [] then []
    else
      (match Lookup(confirmed, values[0].name) case None => [] case Some(v) => [Field(values[0].name, v)])
      + Common(confirmed, values[1..])
  }

  /** Puts submitted roots that change nothing back into the update. */
  function Restored(into: seq<Field>, confirmed: seq<Field>, values: seq<Field>): seq<Field>
    decreases values
  {
    if values == [] then into
    else
      var f := values[0];
      Restored(if Unchanged(confirmed, f) && !Has(into, f.name) then Assign(into, f.name, f.value) else into, confirmed,
          values[1..])
  }

  function Plain(revision: nat, values: seq<Field>): Update { Update(revision, revision, false, values, []) }

  /** `attribute_write_delta`. */
  function WriteDelta(confirmed: seq<Field>, confirmedRevision: nat, values: seq<Field>,
                      expected: nat): Result<Update> {
    if expected != confirmedRevision then Ok(Plain(expected, values))
    else
      var update :- Delta(Snapshot(expected, Common(confirmed, values)), Snapshot(expected, values));
      var restored := update.(values := Restored(update.values, confirmed, values));
      var full := Plain(expected, values);
      var size :- WireLength(full);
      match WireLength(restored)
      case Ok(n) => Ok(if n < size then restored else full)
      case Err(TooLong) => Ok(full)
      case Err(e) => Err(e)
  }

  // ---- stage_attribute_proposal ----

  /** `stage`; every refusal is `None`. */
  function Stage(m: Server, fs: seq<Field>, who: Who): Option<Mutation> {
    if Admitted(m.schema, who, fs) then Some(Mutation(m.revision, fs)) else None
  }

  /** The submitted roots together with the current values of the patched ones. */
  function ProposedRoots(roots: seq<Field>, held: seq<Field>, ps: seq<Patch>): Option<seq<Field>>
    decreases ps
  {
    if ps == [] then Some(roots)
    else
      var k := ps[0].property;
      if !Has(held, k) then None
      else ProposedRoots(if Has(roots, k) then roots else Assign(roots, k, Lookup(held, k).value), held, ps[1..])
  }

  /** Every root with its value in the candidate image. */
  function Refreshed(roots: seq<Field>, image: seq<Field>): Option<seq<Field>> {
    if roots == [] then Some([])
    else match (Lookup(image, roots[0].name), Refreshed(roots[1..], image))
      case (Some(v), Some(rest)) => Some([Field(roots[0].name, v)] + rest)
      case _ => None
  }

  /** The image of a fresh replica after the server's snapshot and then the proposal. */
  function Candidate(m: Server, p: Update): Option<seq<Field>> {
    match Apply(None, Snapshot(m.revision, m.values), SIZE_MAX)
    case Ok(Applied(image, _)) =>
      (match Apply(Some(image), p, SIZE_MAX)
       case Ok(Applied(next, _)) => Some(next.values)
       case _ => None)
    case _ => None
  }

  /** `stage_attribute_proposal`. */
  function StageProposal(m: Server, p: Update, who: Who): Option<Mutation> {
    if WireLength(p).Err? || p.snapshot || p.base != m.revision || p.revision != p.base then None
    else if p.patches == [] then Stage(m, p.values, who)
    else match ProposedRoots(p.values, m.values, p.patches)
      case None => None
      case Some(roots) =>
        if !Admitted(m.schema, who, roots) then None
        else match Candidate(m, p)
          case None => None
          case Some(image) =>
            match Refreshed(roots, image)
            case None => None
            case Some(fs) => Stage(m, fs, who)
  }

  // ---- charges never reach the budget of a plain `apply` ----

  lemma {:induction false} ImageBytesBound(fs: seq<Field>)
    ensures ImageBytes(fs) <= 256 + 256 * FieldsSize(fs)
    decreases fs, 0
  {
    if fs != [] {
      EntryBytesBound(fs[0].name, fs[0].value);
      ImageBytesBound(fs[1..]);
    }
  }

  lemma {:induction false} EntryBytesBound(name: bytes, v: Value)
    ensures EntryBytes(name, v) <= 256 * (1 + |name| + Size(v)) && ItemBytes(v) <= 256 * Size(v)
    decreases v, 1
  {
    match v {
      case Struct(fs) => ImageBytesBound(fs);
      case Map(es) => ImageBytesBound(es);
      case Array(xs) => ItemsBytesBound(xs);
      case _ =>
    }
  }

  lemma {:induction false} ItemsBytesBound(xs: seq<Value>)
    ensures ItemsBytes(xs) <= 256 * ItemsSize(xs)
    decreases xs, 0
  {
    if xs != [] {
      EntryBytesBound([], xs[0]);
      ItemsBytesBound(xs[1..]);
    }
  }

  lemma ChargeBound(u: Update)
    requires ValidImage(u)
    ensures Charge(u.values) <= SIZE_MAX
  {
    hide FieldShapes, FieldsHeight, FieldsNodes;
    ImageBytesBound(u.values);
    NoPatches(u);
  }

  // ---- root by root ----

  lemma {:induction false} CommonLookup(confirmed: seq<Field>, values: seq<Field>, k: bytes)
    requires Sorted(values)
    ensures Sorted(Common(confirmed, values))
    ensures (forall key :: Below(key, values) ==> Below(key, Common(confirmed, values)))
    ensures Lookup(Common(confirmed, values), k) == if Has(values, k) then Lookup(confirmed, k) else None
    decreases values
  {
    if values != [] {
      var f := values[0];
      assert values == [f] + values[1..];
      SortedCons(f, values[1..]);
      CommonLookup(confirmed, values[1..], k);
      var rest := Common(confirmed, values[1..]);
      forall key | Below(key, values) ensures Below(key, values[1..]) {
        assert forall i :: 0 <= i < |values[1..]| ==> values[1..][i] == values[i + 1];
      }
      if Has(confirmed, f.name) {
        SortedCons(Field(f.name, Lookup(confirmed, f.name).value), rest);
        assert Common(confirmed, values)[1..] == rest;
      } else {
        assert Common(confirmed, values) == rest;
      }
      if k == f.name {
        BelowLookup(k, values[1..]);
      }
    }
  }

  lemma {:induction false} RestoredLookup(into: seq<Field>, confirmed: seq<Field>, values: seq<Field>, k: bytes)
    requires Sorted(into) && Sorted(values)
    ensures Sorted(Restored(into, confirmed, values))
    ensures Lookup(Restored(into, confirmed, values), k) ==
      if Has(into, k) then Lookup(into, k)
      else if Has(values, k) && Unchanged(confirmed, Field(k, Lookup(values, k).value)) then Lookup(values, k)
      else None
    decreases values
  {
    hide Unchanged, Assign;
    if values != [] {
      var f := values[0];
      assert values == [f] + values[1..];
      SortedCons(f, values[1..]);
      AssignSorted(into, f.name, f.value);
      AssignLookup(into, f.name, f.value, k);
      RestoredLookup(if Unchanged(confirmed, f) && !Has(into, f.name) then Assign(into, f.name, f.value) else into,
                     confirmed, values[1..], k);
      if k == f.name { BelowLookup(k, values[1..]); }
    }
  }

  /** What the restored update does to root `k`: each submitted root is there, whole or as edits of the confirmed value.
      */
  ghost predicate Submits(u: Update, confirmed: seq<Field>, values: seq<Field>, k: bytes) {
    var ps := On(u.patches, k);
    if Has(u.values, k) then ps == [] && Lookup(u.values, k) == Lookup(values, k)
    else if ps != [] then
      Has(confirmed, k) && Has(values, k) && TurnsAll(Lookup(confirmed, k).value, ps, Lookup(values, k).value)
    else !Has(values, k)
  }

  ghost predicate Submission(u: Update, confirmed: seq<Field>, values: seq<Field>) {
    forall k :: Submits(u, confirmed, values, k)
  }

  lemma RestoredSubmits(u: Update, confirmed: seq<Field>, values: seq<Field>, k: bytes)
    requires Sorted(values) && Sorted(u.values) && RootOk(u, Common(confirmed, values), values, k)
    ensures Submits(u.(values := Restored(u.values, confirmed, values)), confirmed, values, k)
  {
    hide TurnsAll, Same, Sorted, Lookup, Restored, Common, On;
    CommonLookup(confirmed, values, k);
    RestoredLookup(u.values, confirmed, values, k);
  }

  // ---- the proposal on the server ----

  lemma {:induction false} OnMember(ps: seq<Patch>, i: nat)
    requires i < |ps|
    ensures On(ps, ps[i].property) != []
    decreases ps
  {
    if i > 0 { OnMember(ps[1..], i - 1); }
  }

  lemma {:induction false} ProposedLookup(roots: seq<Field>, held: seq<Field>, ps: seq<Patch>, k: bytes)
    requires Sorted(roots) && forall i :: 0 <= i < |ps| ==> Has(held, ps[i].property)
    ensures ProposedRoots(roots, held, ps).Some? && Sorted(ProposedRoots(roots, held, ps).value)
    ensures Lookup(ProposedRoots(roots, held, ps).value, k) ==
      if Has(roots, k) then Lookup(roots, k) else if On(ps, k) != [] then Lookup(held, k) else None
    decreases ps
  {
    hide Assign, Lookup;
    if ps != [] {
      var mine := ps[0].property;
      var v := Lookup(held, mine).value;
      AssignSorted(roots, mine, v);
      AssignLookup(roots, mine, v, k);
      ProposedLookup(if Has(roots, mine) then roots else Assign(roots, mine, v), held, ps[1..], k);
    }
  }

  lemma {:induction false} RefreshedAt(roots: seq<Field>, image: seq<Field>)
    requires forall i :: 0 <= i < |roots| ==> Has(image, roots[i].name)
    ensures Refreshed(roots, image).Some? && |Refreshed(roots, image).value| == |roots|
    ensures forall i :: 0 <= i < |roots| ==>
      && Refreshed(roots, image).value[i].name == roots[i].name
      && Some(Refreshed(roots, image).value[i].value) == Lookup(image, roots[i].name)
    decreases roots
  {
    hide Lookup;
    if roots != [] {
      RefreshedAt(roots[1..], image);
    }
  }

  /** Submitted roots the client knows have, on the server, the values the client knows. */
  predicate Agrees(confirmed: seq<Field>, values: seq<Field>, held: seq<Field>) {
    forall i :: 0 <= i < |values| && Has(confirmed, values[i].name) ==>
      Has(held, values[i].name) && Same(Lookup(held, values[i].name).value, Lookup(confirmed, values[i].name).value)
  }

  lemma AgreesAt(confirmed: seq<Field>, values: seq<Field>, held: seq<Field>, k: bytes)
    requires Agrees(confirmed, values, held) && Has(values, k) && Has(confirmed, k)
    ensures Has(held, k) && Same(Lookup(held, k).value, Lookup(confirmed, k).value)
  {
    var i := LookupFinds(values, k);
  }

  /** Replaying the proposal on the server's roots yields the submitted values. */
  lemma SubmissionMaterializes(u: Update, confirmed: seq<Field>, values: seq<Field>, held: seq<Field>)
    requires Submission(u, confirmed, values) && Agrees(confirmed, values, held)
    requires Sorted(u.values) && Sorted(values) && SameFields(values, values)
    ensures Materialize(held, u.values, u.patches).Ok? && Sorted(Materialize(held, u.values, u.patches).value)
    ensures SameFields(Materialize(held, u.values, u.patches).value, values)
  {
    hide ApplyAll, Materialize, On, Same, SameFields, Lookup, Agrees, Sorted;
    forall k ensures EditableAt(held, u.values, u.patches, k) {
      assert Submits(u, confirmed, values, k);
      if On(u.patches, k) != [] { AgreesAt(confirmed, values, held, k); }
    }
    MaterializeRoots(held, u.values, u.patches);
    var m := Materialize(held, u.values, u.patches).value;
    forall k ensures SameOption(Lookup(m, k), Lookup(values, k)) {
      assert Submits(u, confirmed, values, k);
      assert EditableAt(held, u.values, u.patches, k) && Lookup(m, k) == Edited(held, u.values, u.patches, k);
      SameFieldsLookup(values, values, k);
      if On(u.patches, k) != [] { AgreesAt(confirmed, values, held, k); }
    }
    LookupsSameFields(m, values);
  }

  lemma SameOverlay(held: seq<Field>, a: seq<Field>, b: seq<Field>)
    requires Sorted(held) && Sorted(a) && Sorted(b) && SameFields(a, b) && SameFields(held, held)
    ensures SameFields(Overlay(held, a), Overlay(held, b))
  {
    hide Overlay, Lookup, Same, SameFields, Sorted;
    forall k ensures SameOption(Lookup(Overlay(held, a), k), Lookup(Overlay(held, b), k)) {
      OverlayLookup(held, a, k);
      OverlayLookup(held, b, k);
      SameFieldsLookup(a, b, k);
      SameFieldsLookup(held, held, k);
    }
    OverlayLookup(held, a, []);
    OverlayLookup(held, b, []);
    LookupsSameFields(Overlay(held, a), Overlay(held, b));
  }

  lemma SnapshotInstalled(next: Update)
    requires ValidImage(next)
    ensures exists charge :: Apply(None, next, SIZE_MAX) == Ok(Applied(Image(next.revision, next.values), charge))
  {
    hide WireLength, Encodable, UpdateSize, ImageBytes, FieldShapes;
    WireLengthExact(next);
    SnapshotSize(next);
    ChargeBound(next);
    assert Apply(None, next, SIZE_MAX) == Ok(Applied(Image(next.revision, next.values), Charge(next.values)));
  }

  /** The image of the candidate replica equals the server's image with the submitted values laid over it. */
  lemma CandidateImage(m: Server, u: Update, confirmed: seq<Field>, values: seq<Field>)
    requires ValidImage(Snapshot(m.revision, m.values)) && ValidImage(Snapshot(m.revision, Overlay(m.values, values)))
    requires Submission(u, confirmed, values) && Agrees(confirmed, values, m.values)
    requires Sorted(u.values) && Sorted(values) && SameFields(values, values)
    requires WireLength(u).Ok? && !u.snapshot && u.base == u.revision == m.revision
    ensures Candidate(m, u).Some? && SameFields(Candidate(m, u).value, Overlay(m.values, values))
  {
    hide Apply, Submission, Agrees, Overlay, Materialize, SameFields, Sorted, WireLength, ValidImage, Charge;
    var held := Image(m.revision, m.values);
    SnapshotInstalled(Snapshot(m.revision, m.values));
    ImageParts(Snapshot(m.revision, m.values));
    SubmissionMaterializes(u, confirmed, values, m.values);
    var roots := Materialize(m.values, u.values, u.patches).value;
    ValuesReflexive(Snapshot(m.revision, m.values));
    SameOverlay(m.values, roots, values);
    var merged := Snapshot(m.revision, Overlay(m.values, values));
    InstallArrives(held, merged, roots, SIZE_MAX);
    ApplyMaterialized(held, u, roots, SIZE_MAX);
    ChargeBound(merged);
  }

  /** The proposal addresses exactly the submitted roots. */
  lemma ProposalRoots(m: Server, u: Update, confirmed: seq<Field>, values: seq<Field>)
    requires Submission(u, confirmed, values) && Agrees(confirmed, values, m.values)
    requires Sorted(u.values) && Sorted(values)
    ensures var r := ProposedRoots(u.values, m.values, u.patches);
      && r.Some? && |r.value| == |values|
      && (forall i :: 0 <= i < |values| ==> r.value[i].name == values[i].name)
      && (forall i :: 0 <= i < |values| ==>
            r.value[i] == values[i] || Some(r.value[i].value) == Lookup(m.values, values[i].name))
  {
    hide On, Agrees, Same, TurnsAll, ProposedRoots, Lookup, Sorted;
    forall i | 0 <= i < |u.patches| ensures Has(m.values, u.patches[i].property) {
      var k := u.patches[i].property;
      OnMember(u.patches, i);
      assert Submits(u, confirmed, values, k);
      AgreesAt(confirmed, values, m.values, k);
    }
    ProposedLookup(u.values, m.values, u.patches, []);
    var roots := ProposedRoots(u.values, m.values, u.patches).value;
    forall i | 0 <= i < |roots|
      ensures Has(values, roots[i].name)
      ensures || Some(roots[i].value) == Lookup(values, roots[i].name)
              || Some(roots[i].value) == Lookup(m.values, roots[i].name)
    {
      ProposedLookup(u.values, m.values, u.patches, roots[i].name);
      LookupAt(roots, i);
      assert Submits(u, confirmed, values, roots[i].name);
    }
    forall i | 0 <= i < |values| ensures Has(roots, values[i].name) {
      ProposedLookup(u.values, m.values, u.patches, values[i].name);
      LookupAt(values, i);
      assert Submits(u, confirmed, values, values[i].name);
      if On(u.patches, values[i].name) != [] { AgreesAt(confirmed, values, m.values, values[i].name); }
    }
    FewerKeys(roots, values);
    FewerKeys(values, roots);
    SameKeys(roots, values);
    forall i | 0 <= i < |values|
      ensures roots[i] == values[i] || Some(roots[i].value) == Lookup(m.values, values[i].name)
    {
      LookupAt(values, i);
    }
  }

  lemma RootsAdmitted(m: Server, who: Who, roots: seq<Field>, values: seq<Field>)
    requires Known(m.schema, m.values) && Admitted(m.schema, who, values) && |roots| == |values|
    requires forall i :: 0 <= i < |values| ==> roots[i].name == values[i].name
    requires forall i :: 0 <= i < |values| ==>
      roots[i] == values[i] || Some(roots[i].value) == Lookup(m.values, values[i].name)
    ensures Admitted(m.schema, who, roots)
  {
    hide Check, Lookup;
    forall i | 0 <= i < |roots| ensures Refusal(m.schema, who, roots[i]).None? {
      assert Refusal(m.schema, who, values[i]).None?;
      if roots[i] != values[i] { var j := LookupFinds(m.values, values[i].name); }
    }
  }

  /** Two ways of staging that give one mutation: the same roots, each with an equal value, or both refused. */
  predicate SameStaging(a: Option<Mutation>, b: Option<Mutation>) {
    && a.Some? == b.Some?
    && (a.Some? ==> a.value.expected == b.value.expected && SameFields(a.value.values, b.value.values))
  }

  lemma StagedSame(m: Server, who: Who, a: seq<Field>, b: seq<Field>)
    requires SameFields(a, b)
    ensures SameStaging(Stage(m, a, who), Stage(m, b, who))
  {
    hide Admitted, Same;
    forall i | 0 <= i < |a| ensures Same(b[i].value, a[i].value) { SameSymmetric(a[i].value, b[i].value); }
    if Admitted(m.schema, who, a) { SameAdmitted(m.schema, who, a, b); }
    if Admitted(m.schema, who, b) { SameAdmitted(m.schema, who, b, a); }
  }

  lemma RefreshedSame(roots: seq<Field>, image: seq<Field>, held: seq<Field>, values: seq<Field>)
    requires Sorted(held) && Sorted(values) && SameFields(image, Overlay(held, values)) && |roots| == |values|
    requires forall i :: 0 <= i < |values| ==> roots[i].name == values[i].name
    ensures Refreshed(roots, image).Some? && SameFields(Refreshed(roots, image).value, values)
  {
    hide Overlay, Lookup, Same, Refreshed, Sorted;
    forall i | 0 <= i < |values|
      ensures Has(image, values[i].name) && Same(Lookup(image, values[i].name).value, values[i].value)
    {
      OverlayLookup(held, values, values[i].name);
      LookupAt(values, i);
      SameFieldsLookup(image, Overlay(held, values), values[i].name);
    }
    RefreshedAt(roots, image);
  }

  /** A patched proposal stages what direct staging would. */
  lemma ProposalStages(m: Server, who: Who, u: Update, confirmed: seq<Field>, values: seq<Field>)
    requires ValidImage(Snapshot(m.revision, m.values)) && ValidImage(Snapshot(m.revision, Overlay(m.values, values)))
    requires Submission(u, confirmed, values) && Agrees(confirmed, values, m.values) && Known(m.schema, m.values)
    requires Sorted(u.values) && Sorted(values) && SameFields(values, values)
    requires WireLength(u).Ok? && !u.snapshot && u.base == u.revision == m.revision && u.patches != []
    ensures SameStaging(StageProposal(m, u, who), Stage(m, values, who))
  {
    hide Submission, Agrees, Overlay, SameFields, Sorted, WireLength, ValidImage, Known, Admitted, Refreshed, Candidate,
         ProposedRoots, Lookup, Stage, SameStaging;
    ProposalRoots(m, u, confirmed, values);
    var roots := ProposedRoots(u.values, m.values, u.patches).value;
    CandidateImage(m, u, confirmed, values);
    ImageParts(Snapshot(m.revision, m.values));
    RefreshedSame(roots, Candidate(m, u).value, m.values, values);
    var fs := Refreshed(roots, Candidate(m, u).value).value;
    StagedSame(m, who, fs, values);
    if Admitted(m.schema, who, values) {
      RootsAdmitted(m, who, roots, values);
    } else {
      NotStaged(m, who, values);
      NotStaged(m, who, fs);
      RefusedSame(m, who, fs, values);
    }
  }

  lemma NotStaged(m: Server, who: Who, fs: seq<Field>)
    ensures Stage(m, fs, who).Some? <==> Admitted(m.schema, who, fs)
  {
  }

  lemma RefusedSame(m: Server, who: Who, fs: seq<Field>, values: seq<Field>)
    requires SameStaging(Stage(m, fs, who), Stage(m, values, who)) && Stage(m, values, who).None?
    ensures Stage(m, fs, who).None? && SameStaging(None, Stage(m, values, who))
  {
  }

  /** An update without patches that submits `values` is `values`. */
  lemma WholeSubmission(u: Update, confirmed: seq<Field>, values: seq<Field>)
    requires Submission(u, confirmed, values) && u.patches == [] && Sorted(u.values) && Sorted(values)
    ensures u.values == values
  {
    hide TurnsAll, Lookup, Sorted;
    forall k ensures Lookup(u.values, k) == Lookup(values, k) { assert Submits(u, confirmed, values, k); }
    LookupsEqual(u.values, values);
  }

  // ---- the write delta ----

  lemma CommonImage(confirmed: Update, values: seq<Field>)
    requires ValidImage(confirmed) && Sorted(values)
    ensures ValidImage(Snapshot(confirmed.revision, Common(confirmed.values, values)))
  {
    hide Encodable, Sorted, Lookup, Typed, Common;
    var part := Common(confirmed.values, values);
    CommonLookup(confirmed.values, values, []);
    forall i | 0 <= i < |part|
      ensures Lookup(confirmed.values, part[i].name) == Some(part[i].value) && Typed(part[i].value)
    {
      LookupAt(part, i);
      CommonLookup(confirmed.values, values, part[i].name);
      var j := LookupFinds(confirmed.values, part[i].name);
    }
    PartEncodable(confirmed, 0, part);
    FullPart(confirmed.revision, part);
  }

  lemma FullPart(revision: nat, part: seq<Field>)
    requires Encodable(Update(0, revision, false, part, []))
    ensures Encodable(Snapshot(revision, part))
  {
    hide FieldShapes, FieldsSize, FieldsNodes, FieldsHeight;
  }

  lemma ValuesImage(revision: nat, held: seq<Field>, values: seq<Field>)
    requires Sorted(held) && TypedFields(values) && ValidImage(Snapshot(revision, Overlay(held, values)))
    ensures ValidImage(Snapshot(revision, values)) && Encodable(Plain(revision, values)) && SameFields(values, values)
  {
    hide Encodable, Lookup, Typed, Overlay, Within, Sorted;
    RootsWithin(held, values);
    PartEncodable(Snapshot(revision, Overlay(held, values)), 0, values);
    PartEncodable(Snapshot(revision, Overlay(held, values)), revision, values);
    FullPart(revision, values);
    ValuesReflexive(Snapshot(revision, values));
  }

  /** When every old root survives and the revision does not fall, the delta is not a snapshot. */
  lemma DeltaSparse(prev: Update, next: Update)
    requires Delta(prev, next).Ok? && prev.revision <= next.revision
    requires forall i :: 0 <= i < |prev.values| ==> Has(next.values, prev.values[i].name)
    ensures !Delta(prev, next).value.snapshot
  {
    hide WireLength, FieldChoices, ContainerChoices, WholeChoices, ValuesOf, PatchesOf, Lookup;
  }

  lemma SubmissionShape(d: Update, u: Update, confirmed: seq<Field>, values: seq<Field>)
    requires UpdateShape(d) && u == d.(values := u.values) && !d.snapshot && Sorted(u.values) && Sorted(values)
    requires |values| <= 256 && FieldShapes(values, true) && Submission(u, confirmed, values)
    ensures UpdateShape(u)
  {
    hide FieldShape, PatchShape, TurnsAll, Lookup, Sorted, On;
    forall i | 0 <= i < |u.values| ensures Lookup(values, u.values[i].name) == Some(u.values[i].value) {
      LookupAt(u.values, i);
      assert Submits(u, confirmed, values, u.values[i].name);
    }
    FewerKeys(u.values, values);
    PartShapes(u.values, values);
    forall i | 0 <= i < |u.patches| ensures PatchShape(u.patches[i]) && !Has(u.values, u.patches[i].property) {
      OnMember(u.patches, i);
      assert Submits(u, confirmed, values, u.patches[i].property);
      assert PatchShape(d.patches[i]);
    }
  }

  /** The update `attribute_write_delta` weighs against plain replacement. */
  lemma RestoredDelta(confirmed: Update, values: seq<Field>)
    requires ValidImage(confirmed) && ValidImage(Snapshot(confirmed.revision, values))
    ensures var known := Snapshot(confirmed.revision, Common(confirmed.values, values));
      var d := Delta(known, Snapshot(confirmed.revision, values));
      && d.Ok? && !d.value.snapshot && d.value.base == d.value.revision == confirmed.revision
      && Sorted(Restored(d.value.values, confirmed.values, values))
      && Submission(d.value.(values := Restored(d.value.values, confirmed.values, values)), confirmed.values, values)
      && UpdateShape(d.value)
  {
    hide Delta, Common, Restored, RootOk, Submits, Lookup, Full, Within, UpdateShape, FieldsHeight, FieldsNodes,
         PatchesDepth, PatchesNodes, UpdateSize, Sorted, Typed;
    var prev := Snapshot(confirmed.revision, Common(confirmed.values, values));
    var next := Snapshot(confirmed.revision, values);
    CommonImage(confirmed, values);
    DeltaGood(prev, next);
    forall i | 0 <= i < |prev.values| ensures Has(values, prev.values[i].name) {
      LookupAt(prev.values, i);
      CommonLookup(confirmed.values, values, prev.values[i].name);
    }
    DeltaSparse(prev, next);
    var d := Delta(prev, next).value;
    RestoredLookup(d.values, confirmed.values, values, []);
    forall k ensures Submits(d.(values := Restored(d.values, confirmed.values, values)), confirmed.values, values, k) {
      assert RootOk(d, prev.values, values, k);
      RestoredSubmits(d, confirmed.values, values, k);
    }
  }

  /** Staging the write delta gives the mutation that staging the submitted values gives, explicit no-op roots included,
      or both are refused. The client's image need agree with the server's only where the delta was taken against it. */
  lemma WriteDeltaStages(m: Server, who: Who, confirmed: Update, values: seq<Field>)
    requires ValidImage(Snapshot(m.revision, m.values)) && Known(m.schema, m.values)
    requires ValidImage(confirmed) && (confirmed.revision == m.revision ==> Agrees(confirmed.values, values, m.values))
    requires TypedFields(values) && ValidImage(Snapshot(m.revision, Overlay(m.values, values)))
    ensures var u := WriteDelta(confirmed.values, confirmed.revision, values, m.revision);
      u.Ok? && SameStaging(StageProposal(m, u.value, who), Stage(m, values, who))
  {
    hide Delta, Agrees, Overlay, Restored, Common, WireLength, Encodable, UpdateSize, Known, Admitted, Typed, Sorted,
         SameFields, Submission, UpdateShape;
    ImageParts(Snapshot(m.revision, m.values));
    ValuesImage(m.revision, m.values, values);
    WireLengthExact(Plain(m.revision, values));
    PlainStages(m, who, values);
    if confirmed.revision == m.revision {
      RestoredDelta(confirmed, values);
      var d := Delta(Snapshot(m.revision, Common(confirmed.values, values)), Snapshot(m.revision, values)).value;
      var u := d.(values := Restored(d.values, confirmed.values, values));
      WireLengthExact(u);
      ShapeOf(Snapshot(m.revision, values));
      SubmissionShape(d, u, confirmed.values, values);
      if WireLength(u).Ok? {
        if u.patches != [] {
          ProposalStages(m, who, u, confirmed.values, values);
        } else {
          WholeSubmission(u, confirmed.values, values);
          assert u == Plain(m.revision, values);
        }
      }
    }
  }

  lemma ShapeOf(u: Update)
    requires ValidImage(u)
    ensures |u.values| <= 256 && FieldShapes(u.values, true) && Sorted(u.values)
  {
  }

  lemma PlainStages(m: Server, who: Who, values: seq<Field>)
    requires WireLength(Plain(m.revision, values)).Ok? && SameFields(values, values)
    ensures SameStaging(StageProposal(m, Plain(m.revision, values), who), Stage(m, values, who))
  {
  }
}
