/** Replaying a diff turns any value equal to the old one into a value equal to the new one. */
module DiffSoundness {
  import opened Bytes
  import opened Values
  import opened ValueCodec
  import opened UpdateCodec
  import opened Sameness
  import opened Patches
  import opened Diffs

  /** Every patch addresses a place at or below `path` of `property`. */
  predicate Placed(ps: seq<Patch>, property: bytes, path: seq<Step>) {
    forall i :: 0 <= i < |ps| ==> ps[i].property == property && path <= ps[i].path
  }

  /** Replaying `ps` below `n` path components makes `r` equal to `after`. */
  predicate Turns(r: Value, ps: seq<Patch>, n: nat, after: Value) {
    ApplyAll(r, ps, n).Ok? && Same(ApplyAll(r, ps, n).value, after)
  }

  predicate Good(v: Value) { Typed(v) && Shape(v) }

  predicate GoodFields(fs: seq<Field>) { |fs| <= 256 && Sorted(fs) && forall i :: 0 <= i < |fs| ==> Good(fs[i].value) }

  predicate GoodItems(xs: seq<Value>) { |xs| <= 256 && forall i :: 0 <= i < |xs| ==> Good(xs[i]) }

  lemma GoodParts(v: Value)
    requires Good(v)
    ensures v.Struct? ==> GoodFields(v.fields)
    ensures v.Map? ==> GoodFields(v.entries)
    ensures v.Array? ==> GoodItems(v.items)
  {
  }

  lemma PlacedDeeper(ps: seq<Patch>, property: bytes, path: seq<Step>, s: Step)
    requires Placed(ps, property, path + [s])
    ensures Placed(ps, property, path) && Through(ps, |path|, s)
  {
    forall i | 0 <= i < |ps|
      ensures path <= ps[i].path && |ps[i].path| > |path| && ps[i].path[|path|] == s
    {
      assert (path + [s])[..|path|] == path;
      assert path == ps[i].path[..|path|] && ps[i].path[|path|] == (path + [s])[|path|];
    }
  }

  lemma PlacedConcat(a: seq<Patch>, b: seq<Patch>, property: bytes, path: seq<Step>)
    requires Placed(a, property, path) && Placed(b, property, path)
    ensures Placed(a + b, property, path)
  {
  }

  /** One patch at exactly the place being edited. */
  lemma ApplyOne(r: Value, p: Patch, n: nat)
    requires |p.path| == n
    ensures ApplyAll(r, [p], n) == Edit(r, p)
  {
    hide Edit;
    assert p.path[n..] == [] && [p][1..] == [];
    var e := ApplyAt(r, p.path[n..], p);
    if e.Ok? { assert ApplyAll(e.value, [p][1..], n) == Ok(e.value); }
  }

  /** The diff of two values, replayed on anything equal to the first, yields something equal to the second. */
  lemma {:induction false} DiffSound(property: bytes, path: seq<Step>, before: Value, after: Value, r: Value)
    requires Good(before) && Good(after) && Same(r, before) && Diff(property, path, before, after).Ok?
    ensures Turns(r, Diff(property, path, before, after).value, |path|, after)
    ensures Placed(Diff(property, path, before, after).value, property, path)
    decreases after, 2
  {
    hide Candidates, Cost, Costs, Good, Edit, ApplyAt;
    var ps := Diff(property, path, before, after).value;
    if Same(before, after) {
      SameTransitive(r, before, after);
    } else {
      var whole := Replacement(property, path, after);
      ReplacementTurns(r, property, path, after);
      if ps != [whole] {
        CandidatesSound(property, path, before, after, r);
      }
    }
  }

  lemma ReplacementTurns(r: Value, property: bytes, path: seq<Step>, after: Value)
    requires Good(after)
    ensures Turns(r, [Replacement(property, path, after)], |path|, after)
    ensures Placed([Replacement(property, path, after)], property, path)
  {
    SameReflexive(after);
    ApplyOne(r, Replacement(property, path, after), |path|);
  }

  lemma {:induction false} CandidatesSound(property: bytes, path: seq<Step>, before: Value, after: Value, r: Value)
    requires Good(before) && Good(after) && Same(r, before) && Candidates(property, path, before, after).Ok?
    requires 0 < |Candidates(property, path, before, after).value| <= 256
    ensures Turns(r, Candidates(property, path, before, after).value, |path|, after)
    ensures Placed(Candidates(property, path, before, after).value, property, path)
    decreases after, 1
  {
    hide StructEdits, MapEdits, ArrayEdits, Good, ApplyAll, Lookup;
    GoodParts(before);
    GoodParts(after);
    if before.Struct? {
      assert after.Struct?;
      SameKeys(before.fields, after.fields);
      assert ApplyAll(r, [], |path|) == Ok(r) by { ApplyNone(r, |path|); }
      assert after.fields[0..] == after.fields;
      StructSound(property, path, before.fields, after.fields, 0, [], r, r.fields);
    } else if before.Map? {
      assert after.Map?;
      MapSound(property, path, before.entries, after.entries, r);
    } else {
      assert before.Array? && after.Array?;
      ArraySound(property, path, before.items, after.items, r);
    }
  }

  lemma ApplyNone(r: Value, n: nat)
    ensures ApplyAll(r, [], n) == Ok(r)
  {
  }

  lemma {:induction false} StructSound(property: bytes, path: seq<Step>, was: seq<Field>, now: seq<Field>, j: nat,
                                       edits: seq<Patch>, r: Value, cur: seq<Field>)
    requires j <= |now| == |was| == |cur| && GoodFields(was) && GoodFields(now)
    requires forall i :: 0 <= i < |now| ==> was[i].name == now[i].name == cur[i].name
    requires forall i :: 0 <= i < |now| ==> Same(cur[i].value, if i < j then now[i].value else was[i].value)
    requires ApplyAll(r, edits, |path|) == Ok(Struct(cur)) && Placed(edits, property, path)
    requires StructEdits(property, path, was, now[j..], edits).Ok?
    requires |StructEdits(property, path, was, now[j..], edits).value| <= 256
    ensures Turns(r, StructEdits(property, path, was, now[j..], edits).value, |path|, Struct(now))
    ensures Placed(StructEdits(property, path, was, now[j..], edits).value, property, path)
    decreases now, 1, |now| - j
  {
    hide Diff, ApplyAll, Lookup, Assign, Good, Placed;
    if j < |now| {
      var name := now[j].name;
      assert now[j..][0] == now[j] && now[j..][1..] == now[j + 1..];
      assert Sorted(cur);
      LookupAt(was, j);
      LookupAt(cur, j);
      var inner := Diff(property, path + [Key(name)], was[j].value, now[j].value).value;
      DiffSound(property, path + [Key(name)], was[j].value, now[j].value, cur[j].value);
      PlacedDeeper(inner, property, path, Key(name));
      ApplyThrough(Struct(cur), inner, |path|, Key(name));
      var c := ApplyAll(cur[j].value, inner, |path| + 1).value;
      AssignAt(cur, j, c);
      ApplyAllConcat(r, edits, inner, |path|);
      PlacedConcat(edits, inner, property, path);
      StructSound(property, path, was, now, j + 1, edits + inner, r, cur[j := Field(name, c)]);
    }
  }

  // ---- maps ----

  lemma {:induction false} ErasuresApply(property: bytes, path: seq<Step>, rest: seq<Field>, now: seq<Field>,
                                         cur: seq<Field>)
      returns (out: seq<Field>)
    requires Sorted(rest) && Sorted(cur) && |cur| <= 256
    requires forall i :: 0 <= i < |rest| ==> Has(cur, rest[i].name)
    ensures ApplyAll(Map(cur), Erasures(property, path, rest, now), |path|) == Ok(Map(out))
    ensures Placed(Erasures(property, path, rest, now), property, path)
    ensures Sorted(out) && forall k :: Lookup(out, k) == if Has(rest, k) && !Has(now, k) then None else Lookup(cur, k)
    decreases rest
  {
    if rest == [] {
      out := cur;
    } else {
      var name := rest[0].name;
      assert rest == [rest[0]] + rest[1..];
      SortedCons(rest[0], rest[1..]);
      var tail := Erasures(property, path, rest[1..], now);
      if Has(now, name) {
        out := ErasuresApply(property, path, rest[1..], now, cur);
        assert Erasures(property, path, rest, now) == tail;
      } else {
        var p := MapEdit(property, path, name, None);
        var less := Erase(cur, name);
        EraseSorted(cur, name);
        forall k ensures Lookup(less, k) == if k == name then None else Lookup(cur, k) { EraseLookup(cur, name, k); }
        forall i | 0 <= i < |rest[1..]| ensures Has(less, rest[1..][i].name) {
          assert rest[1..][i] == rest[i + 1];
          LessIrreflexive(name);
        }
        out := ErasuresApply(property, path, rest[1..], now, less);
        ApplyOne(Map(cur), p, |path|);
        ApplyAllConcat(Map(cur), [p], tail, |path|);
        assert Erasures(property, path, rest, now) == [p] + tail;
      }
    }
  }

  /** The first `j` entries of `now` are in place, the others still as they were, and nothing else is left. */
  ghost predicate MapProgress(now: seq<Field>, j: nat, start: seq<Field>, cur: seq<Field>) {
    && Sorted(cur) && (forall k :: Has(cur, k) ==> Has(now, k))
    && forall i :: 0 <= i < |now| ==>
         if i < j then SameOption(Lookup(cur, now[i].name), Some(now[i].value))
         else Lookup(cur, now[i].name) == Lookup(start, now[i].name)
  }

  lemma MapStep(now: seq<Field>, j: nat, start: seq<Field>, cur: seq<Field>, v: Value)
    requires Sorted(now) && j < |now| && MapProgress(now, j, start, cur) && Same(v, now[j].value)
    ensures MapProgress(now, j + 1, start, Assign(cur, now[j].name, v))
    ensures |Assign(cur, now[j].name, v)| <= |now|
  {
    hide Same, Less;
    var name := now[j].name;
    var next := Assign(cur, name, v);
    AssignSorted(cur, name, v);
    LookupAt(now, j);
    forall k ensures Lookup(next, k) == if k == name then Some(v) else Lookup(cur, k) { AssignLookup(cur, name, v, k); }
    forall i | 0 <= i < |now| && i != j ensures now[i].name != name { LookupAt(now, i); DistinctNames(now, i, j); }
    forall i | 0 <= i < |next| ensures Has(now, next[i].name) { LookupAt(next, i); }
    FewerKeys(next, now);
  }

  lemma DistinctNames(fs: seq<Field>, i: nat, j: nat)
    requires Sorted(fs) && i < |fs| && j < |fs| && i != j
    ensures fs[i].name != fs[j].name
  {
    LessIrreflexive(fs[i].name);
  }

  lemma MapDone(now: seq<Field>, start: seq<Field>, cur: seq<Field>)
    requires GoodFields(now) && MapProgress(now, |now|, start, cur)
    ensures SameFields(cur, now)
  {
    hide Same, Good;
    forall k ensures SameOption(Lookup(cur, k), Lookup(now, k)) {
      if Has(now, k) {
        var i := LookupFinds(now, k);
      }
    }
    LookupsSameFields(cur, now);
  }

  lemma {:induction false} MapSound(property: bytes, path: seq<Step>, was: seq<Field>, now: seq<Field>, r: Value)
    requires GoodFields(was) && GoodFields(now) && Same(r, Map(was))
    requires var e := MapEdits(property, path, was, now, Erasures(property, path, was, now)); e.Ok? && |e.value| <= 256
    ensures var e := MapEdits(property, path, was, now, Erasures(property, path, was, now));
      Turns(r, e.value, |path|, Map(now)) && Placed(e.value, property, path)
    decreases now, 2
  {
    hide MapEdits, Erasures, ApplyAll, Good;
    var start := r.entries;
    forall k ensures SameOption(Lookup(start, k), Lookup(was, k)) { SameFieldsLookup(start, was, k); }
    assert Sorted(start);
    forall i | 0 <= i < |was| ensures Has(start, was[i].name) { LookupAt(was, i); }
    var cur := ErasuresApply(property, path, was, now, start);
    assert MapProgress(now, 0, start, cur) by {
      forall i | 0 <= i < |now| ensures Lookup(cur, now[i].name) == Lookup(start, now[i].name) { LookupAt(now, i); }
    }
    assert now[0..] == now;
    MapLoopSound(property, path, was, now, 0, Erasures(property, path, was, now), r, start, cur);
  }

  lemma {:induction false} MapLoopSound(property: bytes, path: seq<Step>, was: seq<Field>, now: seq<Field>, j: nat,
                                        edits: seq<Patch>, r: Value, start: seq<Field>, cur: seq<Field>)
    requires j <= |now| && GoodFields(was) && GoodFields(now) && SameFields(start, was)
    requires MapProgress(now, j, start, cur)
    requires ApplyAll(r, edits, |path|) == Ok(Map(cur)) && Placed(edits, property, path)
    requires MapEdits(property, path, was, now[j..], edits).Ok?
    requires |MapEdits(property, path, was, now[j..], edits).value| <= 256
    ensures Turns(r, MapEdits(property, path, was, now[j..], edits).value, |path|, Map(now))
    ensures Placed(MapEdits(property, path, was, now[j..], edits).value, property, path)
    decreases now, 1, |now| - j
  {
    hide Diff, ApplyAll, Lookup, Assign, Good, Placed, MapProgress, SameFields, Same;
    if j == |now| {
      MapDone(now, start, cur);
      SameMap(cur, now);
    } else {
      var name := now[j].name;
      assert now[j..][0] == now[j] && now[j..][1..] == now[j + 1..];
      assert |edits| <= 256;
      if Has(was, name) {
        var inner := Diff(property, path + [Key(name)], Lookup(was, name).value, now[j].value).value;
        MapChildSound(property, path, was, now, j, start, cur, inner);
        var c := ApplyAll(Lookup(cur, name).value, inner, |path| + 1).value;
        MapStep(now, j, start, cur, c);
        ApplyAllConcat(r, edits, inner, |path|);
        PlacedConcat(edits, inner, property, path);
        MapLoopSound(property, path, was, now, j + 1, edits + inner, r, start, Assign(cur, name, c));
      } else {
        var p := MapEdit(property, path, name, Some(now[j].value));
        AddEntry(now, j, start, cur, p, |path|);
        ApplyAllConcat(r, edits, [p], |path|);
        assert Placed([p], property, path) by { PlacedAt(p); }
        PlacedConcat(edits, [p], property, path);
        MapLoopSound(property, path, was, now, j + 1, edits + [p], r, start, Assign(cur, name, now[j].value));
      }
    }
  }

  lemma SameMap(cur: seq<Field>, now: seq<Field>)
    requires SameFields(cur, now)
    ensures Same(Map(cur), Map(now))
  {
  }

  lemma PlacedAt(p: Patch)
    ensures Placed([p], p.property, p.path)
  {
  }

  lemma AddEntry(now: seq<Field>, j: nat, start: seq<Field>, cur: seq<Field>, p: Patch, n: nat)
    requires GoodFields(now) && j < |now| && MapProgress(now, j, start, cur)
    requires |p.path| == n && !p.replace && p.isMap && p.key == now[j].name && p.value == Some(now[j].value)
    ensures ApplyAll(Map(cur), [p], n) == Ok(Map(Assign(cur, now[j].name, now[j].value)))
    ensures MapProgress(now, j + 1, start, Assign(cur, now[j].name, now[j].value))
  {
    hide MapProgress;
    SameReflexive(now[j].value);
    MapStep(now, j, start, cur, now[j].value);
    ApplyOne(Map(cur), p, n);
  }

  /** Editing one surviving entry through its own diff. */
  lemma {:induction false} MapChildSound(property: bytes, path: seq<Step>, was: seq<Field>, now: seq<Field>, j: nat,
                                         start: seq<Field>, cur: seq<Field>, inner: seq<Patch>)
    requires j < |now| && GoodFields(was) && GoodFields(now) && SameFields(start, was)
    requires MapProgress(now, j, start, cur)
    requires Has(was, now[j].name)
    requires Diff(property, path + [Key(now[j].name)], Lookup(was, now[j].name).value, now[j].value) == Ok(inner)
    ensures Placed(inner, property, path) && Has(cur, now[j].name)
    ensures Turns(Lookup(cur, now[j].name).value, inner, |path| + 1, now[j].value)
    ensures ApplyAll(Map(cur), inner, |path|)
         == Ok(Map(Assign(cur, now[j].name, ApplyAll(Lookup(cur, now[j].name).value, inner, |path| + 1).value)))
    decreases now, 0, 0
  {
    hide Diff, ApplyAll, Assign, Good, Placed;
    var name := now[j].name;
    SameFieldsLookup(start, was, name);
    var i := LookupFinds(was, name);
    DiffSound(property, path + [Key(name)], was[i].value, now[j].value, Lookup(cur, name).value);
    PlacedDeeper(inner, property, path, Key(name));
    ApplyThrough(Map(cur), inner, |path|, Key(name));
  }

  // ---- arrays ----

  lemma SpliceTurns(property: bytes, path: seq<Step>, was: seq<Value>, now: seq<Value>, r: Value)
    requires GoodItems(was) && GoodItems(now) && Same(r, Array(was))
    ensures Turns(r, [SpliceOf(property, path, was, now)], |path|, Array(now))
  {
    hide Prefix, Suffix, ApplyAll, Same;
    var p := SpliceOf(property, path, was, now);
    var n := Prefix(was, now);
    var m := Suffix(was[n..], now[n..]);
    SameArray(r, was);
    ApplyOne(r, p, |path|);
    var out := r.items[..n] + now[n..|now| - m] + r.items[|was| - m..];
    assert EditArray(r, p) == Ok(Array(out));
    forall i | 0 <= i < |now|
      ensures Same(out[i], now[i])
    {
      if i < n {
        SameTransitive(r.items[i], was[i], now[i]);
      } else if i < |now| - m {
        SameReflexive(now[i]);
      } else {
        var t := i - |now| + |was|;
        assert was[n..][t - n] == was[t] && now[n..][i - n] == now[i];
        SameTransitive(r.items[t], was[t], now[i]);
      }
    }
    SameArray(Array(out), now);
  }

  lemma SameArray(v: Value, xs: seq<Value>)
    ensures Same(v, Array(xs)) <==> v.Array? && SameItems(v.items, xs)
  {
  }

  lemma {:induction false} ArraySound(property: bytes, path: seq<Step>, was: seq<Value>, now: seq<Value>, r: Value)
    requires GoodItems(was) && GoodItems(now) && Same(r, Array(was)) && ArrayEdits(property, path, was, now).Ok?
    ensures Turns(r, ArrayEdits(property, path, was, now).value, |path|, Array(now))
    ensures Placed(ArrayEdits(property, path, was, now).value, property, path)
    decreases now, 2
  {
    hide ItemEdits, Cost, Costs, Good, ApplyAll, SpliceOf, Prefix, Suffix, Same, ItemProgress, Turns, Placed;
    var splice := SpliceOf(property, path, was, now);
    SpliceTurns(property, path, was, now, r);
    assert Placed([splice], property, path) by { SplicePlaced(property, path, was, now); }
    var n := Prefix(was, now);
    var m := Suffix(was[n..], now[n..]);
    if ArrayEdits(property, path, was, now).value != [splice] {
      ApplyNone(r, |path|);
      SameArray(r, was);
      ItemsUntouched(was, now, r.items);
      PlacedNone(property, path);
      ItemsSound(property, path, was, now, n, |now| - m, [], r, r.items, r.items);
    }
  }

  lemma PlacedNone(property: bytes, path: seq<Step>)
    ensures Placed([], property, path)
  {
  }

  lemma SplicePlaced(property: bytes, path: seq<Step>, was: seq<Value>, now: seq<Value>)
    ensures Placed([SpliceOf(property, path, was, now)], property, path)
  {
  }

  /** Items outside `i..hi` already equal the new ones; items inside are as they were. */
  predicate ItemProgress(was: seq<Value>, now: seq<Value>, i: nat, hi: nat, start: seq<Value>, cur: seq<Value>) {
    && |was| == |now| == |start| == |cur|
    && forall t :: 0 <= t < |now| ==> Same(cur[t], if i <= t < hi then was[t] else now[t])
  }

  lemma ItemsUntouched(was: seq<Value>, now: seq<Value>, start: seq<Value>)
    requires SameItems(start, was) && |was| == |now|
    ensures var n := Prefix(was, now); ItemProgress(was, now, n, |now| - Suffix(was[n..], now[n..]), start, start)
  {
    hide Prefix, Suffix, Same;
    var n := Prefix(was, now);
    var m := Suffix(was[n..], now[n..]);
    forall t | 0 <= t < |now|
      ensures Same(start[t], if n <= t < |now| - m then was[t] else now[t])
    {
      if t < n {
        SameTransitive(start[t], was[t], now[t]);
      } else if t >= |now| - m {
        assert was[n..][t - n] == was[t] && now[n..][t - n] == now[t];
        SameTransitive(start[t], was[t], now[t]);
      }
    }
  }

  lemma {:induction false} ItemsSound(property: bytes, path: seq<Step>, was: seq<Value>, now: seq<Value>, i: nat,
                                      hi: nat,
                                      edits: seq<Patch>, r: Value, start: seq<Value>, cur: seq<Value>)
    requires i <= hi <= |now| && GoodItems(was) && GoodItems(now) && ItemProgress(was, now, i, hi, start, cur)
    requires ApplyAll(r, edits, |path|) == Ok(Array(cur)) && Placed(edits, property, path)
    requires ItemEdits(property, path, was, now, i, hi, edits).Ok?
    requires |ItemEdits(property, path, was, now, i, hi, edits).value| <= 256
    ensures Turns(r, ItemEdits(property, path, was, now, i, hi, edits).value, |path|, Array(now))
    ensures Placed(ItemEdits(property, path, was, now, i, hi, edits).value, property, path)
    decreases now, 1, hi - i
  {
    hide Diff, ApplyAll, Good, Placed;
    if i < hi {
      var inner := Diff(property, path + [Index(i)], was[i], now[i]).value;
      DiffSound(property, path + [Index(i)], was[i], now[i], cur[i]);
      PlacedDeeper(inner, property, path, Index(i));
      ApplyThrough(Array(cur), inner, |path|, Index(i));
      var c := ApplyAll(cur[i], inner, |path| + 1).value;
      ApplyAllConcat(r, edits, inner, |path|);
      PlacedConcat(edits, inner, property, path);
      ItemsSound(property, path, was, now, i + 1, hi, edits + inner, r, start, cur[i := c]);
    }
  }
}
