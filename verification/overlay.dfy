/** The two-pointer merge measures exactly the image that moving the fields one by one produces. */
module Overlays {
  import opened Bytes
  import opened Values
  import opened ValueCodec
  import opened UpdateCodec
  import opened Applying

  lemma {:induction false} OverlayLookup(held: seq<Field>, delta: seq<Field>, k: bytes)
    requires Sorted(held) && Sorted(delta)
    ensures Sorted(Overlay(held, delta))
    ensures Lookup(Overlay(held, delta), k) == if Has(delta, k) then Lookup(delta, k) else Lookup(held, k)
    decreases delta
  {
    if delta != [] {
      var f := delta[0];
      assert delta == [f] + delta[1..];
      SortedCons(f, delta[1..]);
      AssignSorted(held, f.name, f.value);
      OverlayLookup(Assign(held, f.name, f.value), delta[1..], k);
      AssignLookup(held, f.name, f.value, k);
      if k == f.name { BelowLookup(k, delta[1..]); }
    }
  }

  /** Sorted maps with equal lookups are equal. */
  lemma {:induction false} LookupsEqual(a: seq<Field>, b: seq<Field>)
    requires Sorted(a) && Sorted(b) && forall k :: Lookup(a, k) == Lookup(b, k)
    ensures a == b
    decreases a
  {
    var first := if a != [] then a[0].name else if b != [] then b[0].name else [];
    assert Lookup(a, first) == Lookup(b, first);
    if a != [] {
      HeadsAgree(a, b);
      assert a == [a[0]] + a[1..] && b == [b[0]] + b[1..];
      SortedCons(a[0], a[1..]);
      SortedCons(b[0], b[1..]);
      forall k
        ensures Lookup(a[1..], k) == Lookup(b[1..], k)
      {
        assert Lookup(a, k) == Lookup(b, k);
        if k == a[0].name {
          BelowLookup(k, a[1..]);
          BelowLookup(k, b[1..]);
        }
      }
      LookupsEqual(a[1..], b[1..]);
    }
  }

  predicate FromHeld(held: seq<Field>, delta: seq<Field>) {
    held != [] && (delta == [] || Less(held[0].name, delta[0].name))
  }

  /** What is left of `held` once the front of `delta` has been taken. */
  function Past(held: seq<Field>, delta: seq<Field>): seq<Field>
    requires delta != []
  {
    if held != [] && held[0].name == delta[0].name then held[1..] else held
  }

  /** The fields in the order the two cursors visit them. */
  function Merge(held: seq<Field>, delta: seq<Field>): seq<Field>
    decreases |held| + |delta|
  {
    if FromHeld(held, delta) then [held[0]] + Merge(held[1..], delta)
    else if delta == [] then []
    else [delta[0]] + Merge(Past(held, delta), delta[1..])
  }

  lemma {:induction false} MergeBelow(key: bytes, held: seq<Field>, delta: seq<Field>)
    requires Below(key, held) && Below(key, delta)
    ensures Below(key, Merge(held, delta))
    decreases |held| + |delta|
  {
    if FromHeld(held, delta) {
      MergeBelow(key, held[1..], delta);
    } else if delta != [] {
      MergeBelow(key, Past(held, delta), delta[1..]);
    }
  }

  lemma BelowFirst(key: bytes, fs: seq<Field>)
    requires Sorted(fs) && (fs != [] ==> Less(key, fs[0].name))
    ensures Below(key, fs)
  {
    forall i | 0 <= i < |fs| ensures Less(key, fs[i].name) {
      if i > 0 { LessTransitive(key, fs[0].name, fs[i].name); }
    }
  }

  lemma {:induction false} MergeLookup(held: seq<Field>, delta: seq<Field>, k: bytes)
    requires Sorted(held) && Sorted(delta)
    ensures Sorted(Merge(held, delta))
    ensures Lookup(Merge(held, delta), k) == if Has(delta, k) then Lookup(delta, k) else Lookup(held, k)
    decreases |held| + |delta|
  {
    if FromHeld(held, delta) {
      var f := held[0];
      assert held == [f] + held[1..];
      SortedCons(f, held[1..]);
      BelowFirst(f.name, delta);
      MergeLookup(held[1..], delta, k);
      MergeBelow(f.name, held[1..], delta);
      SortedCons(f, Merge(held[1..], delta));
      assert Merge(held, delta)[1..] == Merge(held[1..], delta);
      if k == f.name { BelowLookup(k, delta); }
    } else if delta != [] {
      MergeTakesDelta(held, delta, k);
    }
  }

  lemma {:induction false} MergeTakesDelta(held: seq<Field>, delta: seq<Field>, k: bytes)
    requires Sorted(held) && Sorted(delta) && delta != [] && !FromHeld(held, delta)
    ensures Sorted(Merge(held, delta))
    ensures Lookup(Merge(held, delta), k) == if Has(delta, k) then Lookup(delta, k) else Lookup(held, k)
    decreases |held| + |delta|, 0
  {
    var f := delta[0];
    var rest := Past(held, delta);
    assert delta == [f] + delta[1..];
    SortedCons(f, delta[1..]);
    if held != [] {
      LessTotal(held[0].name, f.name);
      assert held == [held[0]] + held[1..];
      SortedCons(held[0], held[1..]);
      if held[0].name != f.name { BelowFirst(f.name, held); }
    }
    MergeLookup(rest, delta[1..], k);
    MergeBelow(f.name, rest, delta[1..]);
    SortedCons(f, Merge(rest, delta[1..]));
    assert Merge(held, delta)[1..] == Merge(rest, delta[1..]);
  }

  lemma MergeIsOverlay(held: seq<Field>, delta: seq<Field>)
    requires Sorted(held) && Sorted(delta)
    ensures Merge(held, delta) == Overlay(held, delta)
  {
    hide Merge, Overlay, Lookup, Sorted;
    forall k ensures Lookup(Merge(held, delta), k) == Lookup(Overlay(held, delta), k) {
      MergeLookup(held, delta, k);
      OverlayLookup(held, delta, k);
    }
    MergeLookup(held, delta, []);
    OverlayLookup(held, delta, []);
    LookupsEqual(Merge(held, delta), Overlay(held, delta));
  }

  /** The merge measures the visited fields exactly as encoding them in order would. */
  lemma {:induction false} ValidateExact(held: seq<Field>, delta: seq<Field>, count: nat, w: Writer, native: nat)
    requires count <= 256
    ensures var r := Validate(held, delta, count, w, native); var m := Merge(held, delta);
      var e := EncodeFields(w, m, true, 0);
      && (r.Ok? <==> count + |m| <= 256 && e.Ok?)
      && (r.Ok? ==> r.value + 256 == e.value.Length() + native + ImageBytes(m))
    decreases |held| + |delta|
  {
    hide EncodeValue, ValidName, EntryBytes, Put, Less;
    if held != [] || delta != [] {
      var taken := FromHeld(held, delta);
      var f := if taken then held[0] else delta[0];
      var rest := if taken then held[1..] else Past(held, delta);
      var later := if taken then delta else delta[1..];
      assert Merge(held, delta) == [f] + Merge(rest, later);
      assert Merge(held, delta)[1..] == Merge(rest, later);
      var next := EncodeValue(w.Append(Put(|f.name|, 1)).Append(f.name), f.value, 0);
      if count < 256 && ValidName(f.name) && next.Ok? {
        ValidateExact(rest, later, count + 1, next.value, native + EntryBytes(f.name, f.value));
      }
    }
  }

  /** `validate_overlay` returns the full wire size plus native charge of the merged image, or fails with it. */
  lemma OverlayCharge(held: seq<Field>, delta: seq<Field>)
    requires Sorted(held) && Sorted(delta)
    ensures var m := Overlay(held, delta);
      && (ValidateOverlay(held, delta).Ok? <==> Encodable(Snapshot(0, m)))
      && (ValidateOverlay(held, delta).Ok? ==>
            ValidateOverlay(held, delta).value == UpdateSize(Snapshot(0, m)) + ImageBytes(m))
  {
    hide Validate, Overlay, EncodeFields, FieldShapes, FieldsSize, FieldsNodes, FieldsHeight, FieldsWire, ImageBytes,
         Merge;
    var m := Overlay(held, delta);
    var w := Writer(SizeOnly(23), NODES);
    MergeIsOverlay(held, delta);
    ValidateExact(held, delta, 0, w, 256);
    EncodeFieldsExact(w, m, true, 0);
    FieldsWireSize(m);
    NoPatches(Snapshot(0, m));
    if m == [] { EmptyFields(); }
  }

  lemma EmptyFields()
    ensures FieldShapes([], true) && FieldsSize([]) == 0 && FieldsHeight([]) == 0 && FieldsNodes([]) == 0
  {
  }
}
