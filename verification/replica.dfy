/** `AttributeReplica`: an image that is mutated in place, or copied first when a reader retains it. */
module Replicas {
  import opened Bytes
  import opened Values
  import opened ValueCodec
  import opened UpdateCodec
  import opened Patches
  import opened Applying
  import opened Overlays
  import opened AttributeWire
  import opened DeltaApplication

  /** What a `shared_ptr` image points to, with its use count. */
  class Carrier {
    var revision: nat
    var values: seq<Field>
    var holders: nat

    constructor (revision: nat, values: seq<Field>)
      ensures this.revision == revision && this.values == values && holders == 1
    {
      this.revision, this.values, holders := revision, values, 1;
    }
  }

  ghost predicate Whole(values: seq<Field>) { Sorted(values) && Encodable(Snapshot(0, values)) }

  lemma SnapshotInstalls(u: Update)
    requires u.snapshot && u.patches == [] && WireLength(u).Ok? && Sorted(u.values)
    ensures Whole(u.values) && SnapshotCharge(u) == Ok(Charge(u.values))
  {
    hide WireLength, Encode, UpdateWire, FieldShapes, FieldsSize, FieldsHeight, FieldsNodes, ImageBytes, Sorted,
         PatchesSize, FieldPaths, PatchShape, PatchDepth, PatchesNodes;
    WireLengthExact(u);
    NoPatches(u);
    NoPatches(Snapshot(0, u.values));
  }

  lemma OverlayInstalls(held: seq<Field>, u: Update)
    requires Sorted(held) && Sorted(u.values)
    ensures ValidateOverlay(held, u.values).Ok? <==> Whole(Overlay(held, u.values))
    ensures Whole(Overlay(held, u.values)) ==> ValidateOverlay(held, u.values) == Ok(Charge(Overlay(held, u.values)))
  {
    hide ValidateOverlay, Overlay, Encodable, UpdateSize, ImageBytes, Sorted, Lookup;
    OverlayCharge(held, u.values);
    OverlayLookup(held, u.values, []);
  }

  lemma PatchesExtend(u: Update)
    requires Encodable(u) && u.patches != []
    ensures !u.snapshot
  {
  }

  /** The loop of `apply` that replays patches on copies of the roots they address. */
  method ReplayPatches(held: seq<Field>, values: seq<Field>, patches: seq<Patch>) returns (r: Result<seq<Field>>)
    requires Sorted(values)
    ensures r == Materialize(held, values, patches)
    ensures r.Ok? ==> Sorted(r.value)
  {
    hide ApplyAt, Lookup, Assign, Sorted;
    var roots, i := values, 0;
    assert patches[0..] == patches;
    while i < |patches|
      invariant 0 <= i <= |patches| && Sorted(roots)
      invariant Materialize(held, roots, patches[i..]) == Materialize(held, values, patches)
    {
      var p := patches[i];
      assert patches[i..][0] == p && patches[i..][1..] == patches[i + 1..];
      if !Has(roots, p.property) && !Has(held, p.property) { return Err(OutOfRange); }
      var current := if Has(roots, p.property) then Lookup(roots, p.property) else Lookup(held, p.property);
      var edited := ApplyAt(current.value, p.path, p);
      if edited.Err? { return Err(edited.error); }
      AssignSorted(roots, p.property, edited.value);
      roots, i := Assign(roots, p.property, edited.value), i + 1;
    }
    r := Ok(roots);
  }

  class Replica {
    var image: Carrier?
    var revision: nat
    var initialized: bool
    var bytes: nat

    ghost predicate Valid()
      reads this, image
    {
      && initialized == (image != null)
      && (image != null ==>
            image.revision == revision && Whole(image.values) && bytes == Charge(image.values) && image.holders > 0)
      && (image == null ==> revision == bytes == 0)
    }

    ghost function Contents(): Option<Image>
      reads this, image
    {
      if image == null then None else Some(Image(image.revision, image.values))
    }

    constructor ()
      ensures Valid() && Contents() == None && image == null
    {
      image, revision, initialized, bytes := null, 0, false, 0;
    }

    /** A copied replica shares the carrier. */
    constructor Copy(other: Replica)
      requires other.Valid()
      modifies other.image
      ensures Valid() && image == other.image && Contents() == old(other.Contents())
      ensures image != null ==> image.holders == old(other.image.holders) + 1
    {
      image, revision, initialized, bytes := other.image, other.revision, other.initialized, other.bytes;
      new;
      if image != null { image.holders := image.holders + 1; }
    }

    /** `values`. */
    method Values() returns (fs: seq<Field>)
      requires Valid()
      ensures fs == Held(Contents())
    {
      fs := [];
      if image != null { fs := image.values; }
    }

    /** `apply`: an encodable update is turned away exactly when it is a delta for another revision or would take the
        replica back; whole roots are installed exactly when the resulting image can be encoded and is within the
        budget; the new contents are those of `Applying.Apply`; anything but success changes nothing; a carrier somebody
        else holds keeps its revision and values. */
    method Apply(u: Update, budget: nat) returns (r: Result<bool>)
      requires Valid() && Sorted(u.values)
      modifies this, image
      ensures Valid()
      ensures r.Ok? <==> Applying.Apply(old(Contents()), u, budget).Ok?
      ensures r.Err? ==> r.error == Applying.Apply(old(Contents()), u, budget).error
      ensures r.Ok? ==> r.value == Applying.Apply(old(Contents()), u, budget).value.Applied?
      ensures r == Ok(false) <==>
        && Encodable(u)
        && (|| (!u.snapshot && (old(image) == null || u.base != old(revision)))
            || (old(image) != null && u.revision < old(revision)))
      ensures r == Ok(true) ==> initialized && revision == u.revision && bytes <= budget && Encodable(u)
      ensures Encodable(u) && r != Ok(false) && u.patches == [] ==>
        var next := if u.snapshot then u.values else Overlay(Held(old(Contents())), u.values);
        && (r == Ok(true) <==> Whole(next) && Charge(next) <= budget)
        && (Whole(next) && Charge(next) > budget ==> r == Err(OverBudget))
        && (r == Ok(true) ==> image.values == next)
      ensures r == Ok(true) ==> Applying.Apply(old(Contents()), u, budget).value == Applied(Contents().value, bytes)
      ensures r != Ok(true) ==> unchanged(this) && (image != null ==> unchanged(image))
      ensures image != old(image) ==> image != null && fresh(image) && image.holders == 1
      ensures old(image) != null && image == old(image) ==> image.holders == old(image.holders)
      ensures old(image) != null && image != old(image) ==> old(image).holders + 1 == old(image.holders)
      ensures old(image) != null && (image != old(image) || old(image.holders) != 1) ==>
        old(image).values == old(image.values) && old(image).revision == old(image.revision)
      decreases |u.patches|
    {
      hide WireLength, Encode, Encodable, UpdateWire, UpdateSize, UpdateShape, Materialize, ValidateOverlay, Overlay,
           Charge, Sorted, Whole;
      WireLengthExact(u);
      var size := WireLength(u);
      if size.Err? { return Err(size.error); }
      if !u.snapshot && (!initialized || u.base != revision) { return Ok(false); }
      if initialized && u.revision < revision { return Ok(false); }
      var held := Values();
      if u.patches != [] {
        PatchesExtend(u);
        var roots := ReplayPatches(held, u.values, u.patches);
        if roots.Err? { return Err(roots.error); }
        r := Apply(Update(u.base, u.revision, false, roots.value, []), budget);
        return;
      }
      var charge;
      if u.snapshot {
        SnapshotInstalls(u);
        charge := Ok(size.value + ImageBytes(u.values));
      } else {
        HeldSorted();
        OverlayInstalls(held, u);
        charge := MeasureOverlay(held, u.values);
      }
      if charge.Err? { return Err(charge.error); }
      if charge.value > budget { return Err(OverBudget); }
      if u.snapshot {
        if image != null { Release(); }
        image := new Carrier(u.revision, u.values);
      } else {
        if image.holders != 1 {
          Release();
          image := new Carrier(revision, held);
        }
        Overwrite(u.values);
        image.revision := u.revision;
      }
      revision, initialized, bytes := u.revision, true, charge.value;
      r := Ok(true);
    }

    lemma HeldSorted()
      requires Valid() && image != null
      ensures Sorted(image.values)
    {
    }

    /** Moves the prepared fields into the image, one at a time. */
    method Overwrite(fields: seq<Field>)
      requires image != null
      modifies image`values
      ensures image.values == Overlay(old(image.values), fields)
    {
      hide Assign;
      var i := 0;
      assert fields[0..] == fields;
      while i < |fields|
        invariant 0 <= i <= |fields|
        invariant Overlay(image.values, fields[i..]) == Overlay(old(image.values), fields)
      {
        assert fields[i..][0] == fields[i] && fields[i..][1..] == fields[i + 1..];
        image.values := Assign(image.values, fields[i].name, fields[i].value);
        i := i + 1;
      }
    }

    /** Drops this replica's share of its carrier. */
    method Release()
      requires image != null && image.holders > 0
      modifies image`holders
      ensures image.holders == old(image.holders) - 1
    {
      image.holders := image.holders - 1;
    }

    /** `snapshot`: one more holder of the current carrier. */
    method Retain() returns (c: Carrier?)
      requires Valid()
      modifies image
      ensures Valid() && Contents() == old(Contents()) && c == image
      ensures (c != null ==> c.holders == old(image.holders) + 1)
    {
      c := if initialized then image else null;
      if c != null { c.holders := c.holders + 1; }
    }

    /** Copy assignment: lets go of its own carrier and shares the other's. */
    method Become(other: Replica)
      requires Valid() && other.Valid() && this != other
      requires (image != null && image == other.image ==> image.holders > 1)
      modifies this, image, other.image
      ensures Valid() && other.Valid() && image == other.image && unchanged(other)
      ensures Contents() == other.Contents() == old(other.Contents())
      ensures old(image) != null ==>
        old(image).values == old(image.values) && old(image).revision == old(image.revision)
      ensures old(image) != null && old(image) != image ==> old(image).holders + 1 == old(image.holders)
      ensures image != null ==> image.holders == old(other.image.holders) + (if image == old(image) then 0 else 1)
    {
      hide Whole, Charge;
      if other.image != null { other.image.holders := other.image.holders + 1; }
      if image != null { Release(); }
      image, revision, initialized, bytes := other.image, other.revision, other.initialized, other.bytes;
    }

    /** `reset`. */
    method Reset()
      requires Valid()
      modifies this, image
      ensures Valid() && image == null
      ensures old(image) != null ==> old(image).holders + 1 == old(image.holders)
      ensures old(image) != null ==>
        old(image).values == old(image.values) && old(image).revision == old(image.revision)
    {
      if image != null { Release(); }
      image, revision, initialized, bytes := null, 0, false, 0;
    }
  }
}
