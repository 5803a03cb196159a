/** Every choice a delta makes for a root turns the old root into the new one. */
module DeltaSoundness {
  import opened Bytes
  import opened Values
  import opened ValueCodec
  import opened UpdateCodec
  import opened Sameness
  import opened Patches
  import opened Diffs
  import opened DiffSoundness
  import opened DiffTotality
  import opened Deltas

  /** A full image that can be sent. */
  predicate ValidImage(u: Update) { FullImage(u) && u.revision < U64 && TypedFields(u.values) && Encodable(u) }

  /** The patches of `ps` on property `k`, in order. */
  function On(ps: seq<Patch>, k: bytes): seq<Patch> {
    if ps == [] then [] else (if ps[0].property == k then [ps[0]] else []) + On(ps[1..], k)
  }

  lemma {:induction false} OnConcat(a: seq<Patch>, b: seq<Patch>, k: bytes)
    ensures On(a + b, k) == On(a, k) + On(b, k)
    decreases a
  {
    if a == [] {
      assert a + b == b;
    } else {
      var head := if a[0].property == k then [a[0]] else [];
      assert (a + b)[0] == a[0] && (a + b)[1..] == a[1..] + b;
      OnConcat(a[1..], b, k);
      assert head + (On(a[1..], k) + On(b, k)) == head + On(a[1..], k) + On(b, k);
    }
  }

  lemma {:induction false} OnOne(ps: seq<Patch>, property: bytes, k: bytes)
    requires forall i :: 0 <= i < |ps| ==> ps[i].property == property
    ensures On(ps, k) == if property == k then ps else []
    decreases ps
  {
    if ps != [] { OnOne(ps[1..], property, k); }
  }

  /** The edits do their work on every value equal to the old root. */
  ghost predicate TurnsAll(before: Value, ps: seq<Patch>, after: Value) {
    forall r :: Same(r, before) ==> Turns(r, ps, 0, after)
  }

  ghost predicate ChoiceOk(prev: seq<Field>, f: Field, c: Choice) {
    match c
    case Skip => Unchanged(prev, f)
    case Whole => true
    case Edits(ps) =>
      && !Unchanged(prev, f) && ps != [] && AllCosted(ps) && Placed(ps, f.name, []) && Has(prev, f.name)
      && TurnsAll(Lookup(prev, f.name).value, ps, f.value)
  }

  ghost predicate ChoicesOk(prev: seq<Field>, roots: seq<Field>, cs: seq<Choice>) {
    |roots| == |cs| && forall i :: 0 <= i < |roots| ==> ChoiceOk(prev, roots[i], cs[i])
  }

  function ChoiceFor(roots: seq<Field>, cs: seq<Choice>, k: bytes): Choice
    requires |roots| == |cs|
  {
    if roots == [] then Skip else if roots[0].name == k then cs[0] else ChoiceFor(roots[1..], cs[1..], k)
  }

  lemma {:induction false} ChoiceForOk(prev: seq<Field>, roots: seq<Field>, cs: seq<Choice>, k: bytes)
    requires ChoicesOk(prev, roots, cs) && Has(roots, k)
    ensures ChoiceOk(prev, Field(k, Lookup(roots, k).value), ChoiceFor(roots, cs, k))
    decreases roots
  {
    hide ChoiceOk;
    if roots[0].name != k {
      ChoiceForOk(prev, roots[1..], cs[1..], k);
    }
  }

  /** The whole value an assembled update holds for one name. */
  lemma {:induction false} AssembledValue(roots: seq<Field>, cs: seq<Choice>, k: bytes)
    requires Sorted(roots) && |roots| == |cs|
    ensures Lookup(ValuesOf(roots, cs), k) == if ChoiceFor(roots, cs, k).Whole? then Lookup(roots, k) else None
    decreases roots
  {
    hide Less;
    if roots != [] {
      assert roots == [roots[0]] + roots[1..];
      SortedCons(roots[0], roots[1..]);
      AssembledValue(roots[1..], cs[1..], k);
      if roots[0].name == k {
        BelowLookup(k, roots[1..]);
        ChoiceForMissing(roots[1..], cs[1..], k);
      }
      var rest := ValuesOf(roots[1..], cs[1..]);
      if cs[0].Whole? {
        assert ValuesOf(roots, cs) == [roots[0]] + rest && ValuesOf(roots, cs)[1..] == rest;
      } else {
        assert ValuesOf(roots, cs) == [] + rest == rest;
      }
    }
  }

  /** The edits an assembled update holds for one name. */
  lemma {:induction false} AssembledEdits(prev: seq<Field>, roots: seq<Field>, cs: seq<Choice>, k: bytes)
    requires Sorted(roots) && ChoicesOk(prev, roots, cs)
    ensures On(PatchesOf(cs), k) == if ChoiceFor(roots, cs, k).Edits? then ChoiceFor(roots, cs, k).ps else []
    decreases roots
  {
    hide ChoiceOk, Less, On;
    if roots == [] {
      OnOne([], [], k);
    } else {
      assert roots == [roots[0]] + roots[1..];
      SortedCons(roots[0], roots[1..]);
      AssembledEdits(prev, roots[1..], cs[1..], k);
      var mine := if cs[0].Edits? then cs[0].ps else [];
      var rest := PatchesOf(cs[1..]);
      OnConcat(mine, rest, k);
      assert PatchesOf(cs) == mine + rest;
      if cs[0].Edits? { EditsPlaced(prev, roots[0], cs[0]); }
      OnOne(mine, roots[0].name, k);
      if roots[0].name == k {
        BelowLookup(k, roots[1..]);
        ChoiceForMissing(roots[1..], cs[1..], k);
        assert mine + [] == mine;
      } else {
        assert [] + On(rest, k) == On(rest, k);
      }
    }
  }

  lemma EditsPlaced(prev: seq<Field>, f: Field, c: Choice)
    requires ChoiceOk(prev, f, c) && c.Edits?
    ensures forall i :: 0 <= i < |c.ps| ==> c.ps[i].property == f.name
  {
  }

  lemma {:induction false} ChoiceForMissing(roots: seq<Field>, cs: seq<Choice>, k: bytes)
    requires |roots| == |cs| && !Has(roots, k)
    ensures ChoiceFor(roots, cs, k) == Skip
    decreases roots
  {
    if roots != [] { ChoiceForMissing(roots[1..], cs[1..], k); }
  }

  /** What an update does to the root `k`: sends it whole, edits it, or leaves an equal one alone. */
  ghost predicate RootOk(u: Update, prev: seq<Field>, next: seq<Field>, k: bytes) {
    var ps := On(u.patches, k);
    if Has(u.values, k) then ps == [] && Lookup(u.values, k) == Lookup(next, k)
    else if ps != [] then
      && Has(prev, k) && Has(next, k) && !Same(Lookup(prev, k).value, Lookup(next, k).value)
      && TurnsAll(Lookup(prev, k).value, ps, Lookup(next, k).value)
    else SameOption(Lookup(prev, k), Lookup(next, k))
  }

  ghost predicate Delivers(u: Update, prev: seq<Field>, next: seq<Field>) { forall k :: RootOk(u, prev, next, k) }

  lemma AssembledDelivers(prev: seq<Field>, base: nat, next: Update, cs: seq<Choice>)
    requires Sorted(next.values) && ChoicesOk(prev, next.values, cs)
    requires forall i :: 0 <= i < |prev| ==> Has(next.values, prev[i].name)
    ensures Delivers(Sparse(base, next, cs), prev, next.values)
  {
    hide TurnsAll, Same, AllCosted, Placed;
    var u := Sparse(base, next, cs);
    forall k
      ensures RootOk(u, prev, next.values, k)
    {
      AssembledValue(next.values, cs, k);
      AssembledEdits(prev, next.values, cs, k);
      if Has(next.values, k) {
        ChoiceForOk(prev, next.values, cs, k);
      } else {
        ChoiceForMissing(next.values, cs, k);
        if Has(prev, k) {
          var i := LookupFinds(prev, k);
          assert false;
        }
      }
    }
  }

  // ---- the three ways of choosing ----

  /** A root of a valid image: a good value with room around it. */
  predicate GoodRoot(f: Field) { Good(f.value) && Roomy(f.name, [], f.value) }

  lemma ImageRoots(u: Update, i: nat)
    requires ValidImage(u) && i < |u.values|
    ensures GoodRoot(u.values[i])
  {
    hide Shape, Typed;
    FieldPart(u.values, i);
  }

  lemma WholeOk(prev: seq<Field>, f: Field)
    ensures ChoiceOk(prev, f, WholeChoice(prev, f))
  {
  }

  lemma FieldOk(prev: seq<Field>, f: Field)
    requires GoodRoot(f) && (Has(prev, f.name) ==> Good(Lookup(prev, f.name).value))
    ensures FieldChoice(prev, f).Ok? && ChoiceOk(prev, f, FieldChoice(prev, f).value)
  {
    hide Good, Roomy, Diff, AllCosted, Placed, Turns;
    if Has(prev, f.name) && !Unchanged(prev, f) {
      var before := Lookup(prev, f.name).value;
      DiffTotal(f.name, [], before, f.value);
      var ps := Diff(f.name, [], before, f.value).value;
      forall r | Same(r, before) ensures Turns(r, ps, 0, f.value) { DiffSound(f.name, [], before, f.value, r); }
      assert Placed(ps, f.name, []) by { SameReflexiveGood(before); DiffSound(f.name, [], before, f.value, before); }
      DiffNonempty(f.name, [], before, f.value);
    }
  }

  lemma SameReflexiveGood(v: Value)
    requires Good(v)
    ensures Same(v, v)
  {
    SameReflexive(v);
  }

  lemma DiffNonempty(property: bytes, path: seq<Step>, before: Value, after: Value)
    requires !Same(before, after) && Diff(property, path, before, after).Ok?
    ensures Diff(property, path, before, after).value != []
  {
    hide Candidates, Costs, Cost, Same;
  }

  // ---- flat map edits ----

  lemma {:induction false} ChangesApply(property: bytes, was: seq<Field>, now: seq<Field>, j: nat, start: seq<Field>,
                                        cur: seq<Field>)
      returns (out: seq<Field>)
    requires j <= |now| && GoodFields(now) && SameFields(start, was) && MapProgress(now, j, start, cur)
    ensures ApplyAll(Map(cur), Changes(property, was, now[j..]), 0) == Ok(Map(out))
    ensures MapProgress(now, |now|, start, out)
    decreases |now| - j
  {
    hide MapProgress, Good, ApplyAll, Same, Lookup, SameFields;
    if j == |now| {
      out := cur;
      ApplyNone(Map(cur), 0);
    } else {
      var f := now[j];
      assert now[j..][0] == f && now[j..][1..] == now[j + 1..];
      var rest := Changes(property, was, now[j + 1..]);
      if Unchanged(was, f) {
        KeepEntry(was, now, j, start, cur);
        out := ChangesApply(property, was, now, j + 1, start, cur);
        assert Changes(property, was, now[j..]) == rest;
      } else {
        var p := MapEdit(property, [], f.name, Some(f.value));
        AddEntry(now, j, start, cur, p, 0);
        out := ChangesApply(property, was, now, j + 1, start, Assign(cur, f.name, f.value));
        ApplyAllConcat(Map(cur), [p], rest, 0);
        assert Changes(property, was, now[j..]) == [p] + rest;
      }
    }
  }

  lemma KeepEntry(was: seq<Field>, now: seq<Field>, j: nat, start: seq<Field>, cur: seq<Field>)
    requires j < |now| && SameFields(start, was) && MapProgress(now, j, start, cur) && Unchanged(was, now[j])
    ensures MapProgress(now, j + 1, start, cur)
  {
    hide Same;
    SameFieldsLookup(start, was, now[j].name);
    SameTransitive(Lookup(start, now[j].name).value, Lookup(was, now[j].name).value, now[j].value);
  }

  /** Erasures followed by changes turn the old map into the new one. */
  lemma FlatTurns(property: bytes, was: seq<Field>, now: seq<Field>, r: Value)
    requires GoodFields(was) && GoodFields(now) && Same(r, Map(was))
    ensures Turns(r, Erasures(property, [], was, now) + Changes(property, was, now), 0, Map(now))
  {
    hide Changes, Erasures, ApplyAll, Good;
    var start := r.entries;
    forall k ensures SameOption(Lookup(start, k), Lookup(was, k)) { SameFieldsLookup(start, was, k); }
    assert Sorted(start);
    forall i | 0 <= i < |was| ensures Has(start, was[i].name) { LookupAt(was, i); }
    var cur := ErasuresApply(property, [], was, now, start);
    assert MapProgress(now, 0, start, cur) by {
      forall i | 0 <= i < |now| ensures Lookup(cur, now[i].name) == Lookup(start, now[i].name) { LookupAt(now, i); }
    }
    assert now[0..] == now;
    var out := ChangesApply(property, was, now, 0, start, cur);
    ApplyAllConcat(r, Erasures(property, [], was, now), Changes(property, was, now), 0);
    MapDone(now, start, out);
    SameMap(out, now);
  }

  lemma {:induction false} ChangesCosted(property: bytes, was: seq<Field>, now: seq<Field>, j: nat)
    requires j <= |now| && Good(Map(now)) && Roomy(property, [], Map(now))
    ensures AllCosted(Changes(property, was, now[j..])) && Placed(Changes(property, was, now[j..]), property, [])
    decreases |now| - j
  {
    hide Good, Roomy, Costed, Unchanged;
    if j < |now| {
      assert now[j..][0] == now[j] && now[j..][1..] == now[j + 1..];
      AdditionCosted(property, [], now, j);
      ChangesCosted(property, was, now, j + 1);
    }
  }

  lemma FlatOk(prev: seq<Field>, f: Field, was: seq<Field>)
    requires GoodRoot(f) && f.value.Map? && Lookup(prev, f.name) == Some(Map(was)) && Good(Map(was))
    requires !Unchanged(prev, f)
    ensures ChoiceOk(prev, f, Edits(Erasures(f.name, [], was, f.value.entries) + Changes(f.name, was, f.value.entries)))
  {
    hide Changes, Erasures, Good, Roomy, AllCosted, Placed, Turns, Lookup;
    var now := f.value.entries;
    GoodParts(Map(was));
    GoodParts(f.value);
    var ps := Erasures(f.name, [], was, now) + Changes(f.name, was, now);
    forall r | Same(r, Map(was)) ensures Turns(r, ps, 0, f.value) { FlatTurns(f.name, was, now, r); }
    assert now[0..] == now;
    ChangesCosted(f.name, was, now, 0);
    RoomyPath(f.name, [], f.value);
    ErasuresCosted(f.name, [], Map(was), was, now);
    AllCostedConcat(Erasures(f.name, [], was, now), Changes(f.name, was, now));
    assert Placed(Erasures(f.name, [], was, now), f.name, []) by { ErasuresPlaced(f.name, was, now); }
    PlacedConcat(Erasures(f.name, [], was, now), Changes(f.name, was, now), f.name, []);
    SameReflexiveGood(Map(was));
    assert ps != [] by { TurnsNeedsEdits(Map(was), ps, f.value); }
  }

  lemma {:induction false} ErasuresPlaced(property: bytes, was: seq<Field>, now: seq<Field>)
    ensures Placed(Erasures(property, [], was, now), property, [])
    decreases was
  {
    hide Lookup;
    if was != [] { ErasuresPlaced(property, was[1..], now); }
  }

  lemma TurnsNeedsEdits(before: Value, ps: seq<Patch>, after: Value)
    requires Turns(before, ps, 0, after) && !Same(before, after)
    ensures ps != []
  {
  }

  lemma SpliceOk(prev: seq<Field>, f: Field, was: seq<Value>)
    requires GoodRoot(f) && f.value.Array? && Lookup(prev, f.name) == Some(Array(was)) && Good(Array(was))
    requires !Unchanged(prev, f)
    ensures ChoiceOk(prev, f, Edits([SpliceOf(f.name, [], was, f.value.items)]))
  {
    hide SpliceOf, Good, Roomy, Costed, Placed, Turns, Lookup;
    var now := f.value.items;
    GoodParts(Array(was));
    GoodParts(f.value);
    var ps := [SpliceOf(f.name, [], was, now)];
    forall r | Same(r, Array(was)) ensures Turns(r, ps, 0, f.value) { SpliceTurns(f.name, [], was, now, r); }
    SplicePlaced(f.name, [], was, now);
    SpliceCosted(f.name, [], was, now);
  }

  lemma ContainerOk(prev: seq<Field>, f: Field)
    requires GoodRoot(f) && (Has(prev, f.name) ==> Good(Lookup(prev, f.name).value))
    ensures ChoiceOk(prev, f, ContainerChoice(prev, f))
  {
    hide ChoiceOk, Unchanged, Good, Roomy, GoodRoot, SpliceOf, Erasures, Changes;
    match Lookup(prev, f.name) {
      case Some(Array(was)) => if f.value.Array? && !Unchanged(prev, f) { SpliceOk(prev, f, was); }
      case Some(Map(was)) => if f.value.Map? && !Unchanged(prev, f) { FlatOk(prev, f, was); }
      case _ =>
    }
    SimpleOk(prev, f);
  }

  lemma SimpleOk(prev: seq<Field>, f: Field)
    ensures ChoiceOk(prev, f, Whole) && (Unchanged(prev, f) ==> ChoiceOk(prev, f, Skip))
  {
  }
}
