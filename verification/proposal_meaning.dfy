/** What a staged proposal is, read off the proposal alone: each root as sent or edited, nothing else, for one
    revision. */
module ProposalMeaning {
  import opened Bytes
  import opened Values
  import opened ValueCodec
  import opened UpdateCodec
  import opened Patches
  import opened Deltas
  import opened DeltaSoundness
  import opened Applying
  import opened Overlays
  import opened DeltaTheorem
  import opened DeltaApplication
  import opened Schemas
  import opened Staging

  /** What root `k` becomes: as sent, or the held value after its patches in order. */
  predicate Becomes(held: seq<Field>, u: Update, k: bytes, now: Option<Value>) {
    if On(u.patches, k) == [] then now == Lookup(u.values, k)
    else
      && Root(held, u.values, k).Some?
      && ApplyAll(Root(held, u.values, k).value, On(u.patches, k), 0).Ok?
      && now == Some(ApplyAll(Root(held, u.values, k).value, On(u.patches, k), 0).value)
  }

  /** Replayed patches touch the roots they name, each from what was held or sent. */
  lemma {:induction false} MaterializedAt(held: seq<Field>, u: Update, k: bytes)
    requires Sorted(u.values) && Materialize(held, u.values, u.patches).Ok?
    ensures Becomes(held, u, k, Lookup(Materialize(held, u.values, u.patches).value, k))
    ensures Sorted(Materialize(held, u.values, u.patches).value)
    decreases u.patches
  {
    hide ApplyAt, Assign, Lookup, Sorted;
    if u.patches != [] {
      var p := u.patches[0];
      var v := ApplyAt(Root(held, u.values, p.property).value, p.path, p).value;
      var next := u.(values := Assign(u.values, p.property, v), patches := u.patches[1..]);
      AssignSorted(u.values, p.property, v);
      AssignLookup(u.values, p.property, v, k);
      MaterializedAt(held, next, k);
      if k == p.property {
        assert On(u.patches, k) == [p] + On(next.patches, k);
        assert On(u.patches, k)[1..] == On(next.patches, k) && p.path[0..] == p.path;
        assert On(next.patches, k) == [] ==> ApplyAll(v, On(next.patches, k), 0) == Ok(v);
      } else {
        assert On(u.patches, k) == On(next.patches, k);
      }
    }
  }

  predicate Touched(u: Update, k: bytes) { Has(u.values, k) || On(u.patches, k) != [] }

  /** A delta that was applied gave every root it names its new value and left all others. */
  lemma AppliedAt(held: Image, u: Update, budget: nat, k: bytes)
    requires Sorted(held.values) && Sorted(u.values) && !u.snapshot
    requires Apply(Some(held), u, budget).Ok? && Apply(Some(held), u, budget).value.Applied?
    ensures var image := Apply(Some(held), u, budget).value.image;
      && Encodable(u) && u.base == held.revision <= u.revision == image.revision
      && if Touched(u, k) then Becomes(held.values, u, k, Lookup(image.values, k))
         else Lookup(image.values, k) == Lookup(held.values, k)
  {
    hide WireLength, Encodable, Materialize, ValidateOverlay, Overlay, Lookup, Sorted, On, ApplyAll, Encode, UpdateWire,
         UpdateSize, UpdateShape;
    WireLengthExact(u);
    var roots := if u.patches == [] then u.values else Materialize(held.values, u.values, u.patches).value;
    if u.patches == [] {
      NoPatchesOn(k);
    } else {
      MaterializedAt(held.values, u, k);
      ApplyMaterialized(held, u, roots, budget);
    }
    OverlayLookup(held.values, roots, k);
  }

  lemma NoPatchesOn(k: bytes)
    ensures On([], k) == []
  {
  }

  // ---- proposals ----

  lemma {:induction false} ProposedHas(roots: seq<Field>, held: seq<Field>, ps: seq<Patch>)
    requires ProposedRoots(roots, held, ps).Some?
    ensures forall i :: 0 <= i < |ps| ==> Has(held, ps[i].property)
    decreases ps
  {
    hide Lookup, Assign;
    if ps != [] {
      var k := ps[0].property;
      ProposedHas(if Has(roots, k) then roots else Assign(roots, k, Lookup(held, k).value), held, ps[1..]);
      forall i | 0 <= i < |ps| ensures Has(held, ps[i].property) {
        if i > 0 { assert ps[i] == ps[1..][i - 1]; }
      }
    }
  }

  lemma {:induction false} RefreshedLookup(roots: seq<Field>, image: seq<Field>, k: bytes)
    requires Refreshed(roots, image).Some?
    ensures Lookup(Refreshed(roots, image).value, k) == if Has(roots, k) then Lookup(image, k) else None
    decreases roots
  {
    if roots != [] {
      RefreshedLookup(roots[1..], image, k);
      var fs := Refreshed(roots, image).value;
      assert fs[1..] == Refreshed(roots[1..], image).value;
    }
  }

  lemma CandidateApplied(m: Server, p: Update)
    requires Candidate(m, p).Some?
    ensures exists image, charge :: Apply(Some(Image(m.revision, m.values)), p, SIZE_MAX) == Ok(Applied(image, charge))
                                    && image.values == Candidate(m, p).value
  {
    hide WireLength, Materialize, ValidateOverlay, Overlay;
  }

  /** A proposal is staged only for the server's revision, and then it submits exactly the roots it names, each as sent
      or with its patches replayed on the server's value, all of which its caller may write. */
  lemma ProposalMeans(m: Server, p: Update, who: Who, k: bytes)
    requires Sorted(m.values) && Sorted(p.values) && StageProposal(m, p, who).Some?
    ensures var staged := StageProposal(m, p, who).value;
      && Encodable(p) && !p.snapshot && p.base == p.revision == m.revision == staged.expected
      && Admitted(m.schema, who, staged.values)
      && if Touched(p, k) then Becomes(m.values, p, k, Lookup(staged.values, k)) else !Has(staged.values, k)
  {
    hide WireLength, Encodable, Candidate, Overlay, Lookup, Sorted, On, ApplyAll, Encode, UpdateWire, UpdateSize,
         UpdateShape, Admitted, Apply, ProposedRoots, Refreshed, Becomes;
    WireLengthExact(p);
    if p.patches == [] {
      NoPatchesOn(k);
      SentAt(m.values, p, k);
    } else {
      var roots := ProposedRoots(p.values, m.values, p.patches).value;
      var image := Candidate(m, p).value;
      ProposedHas(p.values, m.values, p.patches);
      ProposedLookup(p.values, m.values, p.patches, k);
      RefreshedLookup(roots, image, k);
      CandidateApplied(m, p);
      AppliedAt(Image(m.revision, m.values), p, SIZE_MAX, k);
      if On(p.patches, k) != [] { PatchedHas(m.values, p.patches, k); }
    }
  }

  lemma SentAt(held: seq<Field>, u: Update, k: bytes)
    requires u.patches == []
    ensures Becomes(held, u, k, Lookup(u.values, k))
  {
  }

  lemma {:induction false} PatchedHas(held: seq<Field>, ps: seq<Patch>, k: bytes)
    requires On(ps, k) != [] && forall i :: 0 <= i < |ps| ==> Has(held, ps[i].property)
    ensures Has(held, k)
    decreases ps
  {
    hide Lookup;
    if ps[0].property != k {
      assert On(ps, k) == On(ps[1..], k);
      PatchedHas(held, ps[1..], k);
    }
  }

  /** The write delta is plain replacement, or smaller: the restored delta whenever that is. */
  lemma WriteDeltaSmallest(confirmed: Update, values: seq<Field>)
    requires ValidImage(confirmed) && ValidImage(Snapshot(confirmed.revision, values))
    ensures var r := WriteDelta(confirmed.values, confirmed.revision, values, confirmed.revision);
      var known := Snapshot(confirmed.revision, Common(confirmed.values, values));
      var d := Delta(known, Snapshot(confirmed.revision, values));
      var full := Plain(confirmed.revision, values);
      && d.Ok? && r.Ok?
      && var restored := d.value.(values := Restored(d.value.values, confirmed.values, values));
         if Encodable(restored) && UpdateSize(restored) < UpdateSize(full) then r.value == restored else r.value == full
  {
    hide Delta, Common, Restored, WireLength, Encodable, UpdateSize, Sorted, Submission, UpdateShape, Encode,
         UpdateWire, Typed;
    RestoredDelta(confirmed, values);
    var known := Snapshot(confirmed.revision, Common(confirmed.values, values));
    var d := Delta(known, Snapshot(confirmed.revision, values)).value;
    var restored := d.(values := Restored(d.values, confirmed.values, values));
    ShapeOf(Snapshot(confirmed.revision, values));
    SubmissionShape(d, restored, confirmed.values, values);
    WireLengthExact(restored);
    WireLengthExact(Plain(confirmed.revision, values));
    PlainEncodable(confirmed.revision, values);
  }

  lemma PlainEncodable(revision: nat, values: seq<Field>)
    requires Encodable(Snapshot(revision, values))
    ensures Encodable(Plain(revision, values))
  {
    hide FieldShapes, FieldsSize, FieldsNodes, FieldsHeight;
  }
}
