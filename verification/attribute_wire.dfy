/** The loops of `attribute_wire.cpp`, each proved against the specification functions. */
module AttributeWire {
  import opened Bytes
  import opened Values
  import opened ValueCodec
  import opened ValueDecoder
  import opened UpdateCodec
  import opened Diffs
  import opened Deltas
  import opened Applying

  // ---- the encoder ----

  method WriteValue(w: Writer, v: Value, depth: nat) returns (r: Result<Writer>)
    ensures r == EncodeValue(w, v, depth)
    decreases v, 1
  {
    if depth > 8 || w.left == 0 { return Err(TooLong); }
    var out := Writer(w.sink.Append([Tag(v)]), w.left - 1);
    match v {
      case Struct(fs) =>
        if fs == [] || |fs| > 64 { return Err(TooLong); }
        r := WriteFields(out.Append(Put(|fs|, 1)), fs, true, depth + 1);
      case Array(xs) =>
        if |xs| > 256 { return Err(TooLong); }
        r := WriteItems(out.Append(Put(|xs|, 2)), xs, depth + 1);
      case Map(es) =>
        if |es| > 256 { return Err(TooLong); }
        r := WriteFields(out.Append(Put(|es|, 2)), es, false, depth + 1);
      case _ =>
        r := EncodeBody(out, v, depth);
    }
    if r.Ok? && r.value.Length() > LIMIT { r := Err(TooLong); }
  }

  method WriteFields(w: Writer, fs: seq<Field>, names: bool, depth: nat) returns (r: Result<Writer>)
    ensures r == EncodeFields(w, fs, names, depth)
    decreases fs, 0
  {
    hide EncodeValue, ValidName, ValidKey, Put;
    var out, i := w, 0;
    while i < |fs|
      invariant 0 <= i <= |fs|
      invariant EncodeFields(out, fs[i..], names, depth) == EncodeFields(w, fs, names, depth)
    {
      var f := fs[i];
      assert fs[i..][0] == f && fs[i..][1..] == fs[i + 1..];
      if !(if names then ValidName(f.name) else ValidKey(f.name)) { return Err(Invalid); }
      var e := WriteValue(out.Append(Put(|f.name|, 1)).Append(f.name), f.value, depth);
      if e.Err? { return e; }
      out, i := e.value, i + 1;
    }
    r := Ok(out);
  }

  method WriteItems(w: Writer, xs: seq<Value>, depth: nat) returns (r: Result<Writer>)
    ensures r == EncodeItems(w, xs, depth)
    decreases xs, 0
  {
    hide EncodeValue;
    var out, i := w, 0;
    while i < |xs|
      invariant 0 <= i <= |xs|
      invariant EncodeItems(out, xs[i..], depth) == EncodeItems(w, xs, depth)
    {
      assert xs[i..][0] == xs[i] && xs[i..][1..] == xs[i + 1..];
      var e := WriteValue(out, xs[i], depth);
      if e.Err? { return e; }
      out, i := e.value, i + 1;
    }
    r := Ok(out);
  }

  // ---- the decoder's loops ----

  method ReadFields(input: bytes, left: nat, depth: nat, count: nat,
                    names: bool) returns (r: Result<Decoded<seq<Field>>>)
    ensures r == DecodeFields(input, left, depth, count, names, [])
  {
    hide DecodeValue, DecodeName, Assign, Lookup;
    var rest, budget, done, i := input, left, [], 0;
    while i < count
      invariant 0 <= i <= count
      invariant DecodeFields(rest, budget, depth, count - i, names, done)
        == DecodeFields(input, left, depth, count, names, [])
    {
      var name := DecodeName(rest, names);
      if name.Err? { return Err(name.error); }
      var v := DecodeValue(name.value.rest, budget, depth);
      if v.Err? { return Err(v.error); }
      if Has(done, name.value.value) { return Err(Invalid); }
      rest, budget, done, i := v.value.rest, v.value.left, Assign(done, name.value.value, v.value.value), i + 1;
    }
    r := Ok(Decoded(done, rest, budget));
  }

  // ---- prefixes, suffixes and costs ----

  method CommonPrefix(a: seq<Value>, b: seq<Value>) returns (n: nat)
    ensures n == Prefix(a, b)
    ensures n < |a| && n < |b| ==> !Same(a[n], b[n])
  {
    hide Same;
    n := 0;
    while n < |a| && n < |b| && Same(a[n], b[n])
      invariant n <= |a| && n <= |b| && n + Prefix(a[n..], b[n..]) == Prefix(a, b)
    {
      assert a[n..][0] == a[n] && b[n..][0] == b[n] && a[n..][1..] == a[n + 1..] && b[n..][1..] == b[n + 1..];
      n := n + 1;
    }
    assert n < |a| ==> a[n..][0] == a[n];
    assert n < |b| ==> b[n..][0] == b[n];
  }

  method CommonSuffix(a: seq<Value>, b: seq<Value>) returns (m: nat)
    ensures m == Suffix(a, b)
    ensures m < |a| && m < |b| ==> !Same(a[|a| - 1 - m], b[|b| - 1 - m])
  {
    hide Same;
    m := 0;
    assert a[..|a|] == a && b[..|b|] == b;
    while m < |a| && m < |b| && Same(a[|a| - 1 - m], b[|b| - 1 - m])
      invariant m <= |a| && m <= |b| && m + Suffix(a[..|a| - m], b[..|b| - m]) == Suffix(a, b)
    {
      var x, y := a[..|a| - m], b[..|b| - m];
      assert x[|x| - 1] == a[|a| - 1 - m] && y[|y| - 1] == b[|b| - 1 - m];
      assert x[..|x| - 1] == a[..|a| - 1 - m] && y[..|y| - 1] == b[..|b| - 1 - m];
      m := m + 1;
    }
    assert m < |a| ==> a[..|a| - m][|a| - m - 1] == a[|a| - 1 - m];
    assert m < |b| ==> b[..|b| - m][|b| - m - 1] == b[|b| - 1 - m];
  }

  method TotalCost(ps: seq<Patch>) returns (r: Result<nat>)
    ensures r.Ok? <==> Costs(ps).Ok?
    ensures r.Ok? ==> r == Costs(ps)
  {
    hide Cost;
    var cost, i := 0, 0;
    assert ps[0..] == ps;
    while i < |ps|
      invariant 0 <= i <= |ps|
      invariant Costs(ps).Ok? <==> Costs(ps[i..]).Ok?
      invariant Costs(ps).Ok? ==> Costs(ps).value == cost + Costs(ps[i..]).value
    {
      assert ps[i..][0] == ps[i] && ps[i..][1..] == ps[i + 1..];
      var c := Cost(ps[i]);
      if c.Err? { return Err(c.error); }
      cost, i := cost + c.value, i + 1;
    }
    r := Ok(cost);
  }

  // ---- diff_fields ----

  /** `diff_fields`; on a failed cost both it and the specification fail. */
  method DiffFields(property: bytes, path: seq<Step>, before: Value, after: Value) returns (r: Result<seq<Patch>>)
    ensures Agree(r, Diff(property, path, before, after))
    decreases after, 2
  {
    hide Cost, Costs, Candidates, StructEdits, MapEdits, ArrayEdits, Same;
    if Same(before, after) { return Ok([]); }
    var edits: seq<Patch> := [];
    if |path| < 8 {
      var e := FindEdits(property, path, before, after);
      if e.Err? { return e; }
      edits := e.value;
    }
    var cost := TotalCost(edits);
    if cost.Err? { return Err(cost.error); }
    r := Cheaper(Replacement(property, path, after), edits, cost.value);
  }

  predicate Agree<T(==)>(a: Result<T>, b: Result<T>) { a.Ok? == b.Ok? && (a.Ok? ==> a == b) }

  method FindEdits(property: bytes, path: seq<Step>, before: Value, after: Value) returns (r: Result<seq<Patch>>)
    ensures Agree(r, Candidates(property, path, before, after))
    decreases after, 1
  {
    hide StructEdits, MapEdits, ArrayEdits, Lookup;
    r := Ok([]);
    if before.Struct? && after.Struct? {
      if |before.fields| == |after.fields| {
        var same, i := true, 0;
        while i < |before.fields| && same
          invariant 0 <= i <= |before.fields|
          invariant same <==> forall j :: 0 <= j < i ==> Has(after.fields, before.fields[j].name)
        {
          same, i := Has(after.fields, before.fields[i].name), i + 1;
        }
        if same { r := FindStructEdits(property, path, before.fields, after.fields); }
      }
    } else if before.Map? && after.Map? {
      r := FindMapEdits(property, path, before.entries, after.entries);
    } else if before.Array? && after.Array? {
      r := FindArrayEdits(property, path, before.items, after.items);
    }
  }

  method FindStructEdits(property: bytes, path: seq<Step>, was: seq<Field>,
                         now: seq<Field>) returns (r: Result<seq<Patch>>)
    ensures Agree(r, StructEdits(property, path, was, now, []))
    decreases now, 0
  {
    hide Diff, Lookup;
    var edits, i := [], 0;
    assert now[0..] == now;
    while i < |now|
      invariant 0 <= i <= |now|
      invariant StructEdits(property, path, was, now[i..], edits) == StructEdits(property, path, was, now, [])
    {
      assert now[i..][0] == now[i] && now[i..][1..] == now[i + 1..];
      if !Has(was, now[i].name) { return Err(OutOfRange); }
      var inner := DiffFields(property, path + [Key(now[i].name)], Lookup(was, now[i].name).value, now[i].value);
      if inner.Err? { return inner; }
      edits, i := edits + inner.value, i + 1;
      if |edits| > 256 { return Ok(edits); }
    }
    r := Ok(edits);
  }

  method FindErasures(property: bytes, path: seq<Step>, was: seq<Field>, now: seq<Field>) returns (edits: seq<Patch>)
    ensures edits == Erasures(property, path, was, now)
  {
    hide Lookup;
    edits := [];
    var i := 0;
    assert was[0..] == was;
    while i < |was|
      invariant 0 <= i <= |was|
      invariant edits + Erasures(property, path, was[i..], now) == Erasures(property, path, was, now)
    {
      assert was[i..][0] == was[i] && was[i..][1..] == was[i + 1..];
      ghost var rest := Erasures(property, path, was[i + 1..], now);
      if !Has(now, was[i].name) {
        var p := MapEdit(property, path, was[i].name, None);
        assert edits + ([p] + rest) == edits + [p] + rest;
        edits := edits + [p];
      } else {
        assert [] + rest == rest;
      }
      i := i + 1;
    }
  }

  method FindMapEdits(property: bytes, path: seq<Step>, was: seq<Field>,
                      now: seq<Field>) returns (r: Result<seq<Patch>>)
    ensures Agree(r, MapEdits(property, path, was, now, Erasures(property, path, was, now)))
    decreases now, 0
  {
    hide Diff, Lookup, Erasures;
    var edits := FindErasures(property, path, was, now);
    var i := 0;
    assert now[0..] == now;
    while i < |now| && |edits| <= 256
      invariant 0 <= i <= |now|
      invariant MapEdits(property, path, was, now[i..], edits)
             == MapEdits(property, path, was, now, Erasures(property, path, was, now))
    {
      assert now[i..][0] == now[i] && now[i..][1..] == now[i + 1..];
      if Has(was, now[i].name) {
        var inner := DiffFields(property, path + [Key(now[i].name)], Lookup(was, now[i].name).value, now[i].value);
        if inner.Err? { return inner; }
        edits := edits + inner.value;
      } else {
        edits := edits + [MapEdit(property, path, now[i].name, Some(now[i].value))];
      }
      i := i + 1;
    }
    r := Ok(edits);
  }

  method FindArrayEdits(property: bytes, path: seq<Step>, was: seq<Value>,
                        now: seq<Value>) returns (r: Result<seq<Patch>>)
    ensures Agree(r, ArrayEdits(property, path, was, now))
    decreases now, 1
  {
    hide Cost, Costs, ItemEdits, Prefix, Suffix;
    var n := CommonPrefix(was, now);
    var m := CommonSuffix(was[n..], now[n..]);
    var splice := Splice(property, path, n, |was| - n - m, now[n..|now| - m]);
    var edits: seq<Patch> := [];
    if |was| == |now| {
      var e := FindItemEdits(property, path, was, now, n, |now| - m);
      if e.Err? { return e; }
      edits := e.value;
    }
    var cost := TotalCost(edits);
    if cost.Err? { return Err(cost.error); }
    r := Cheaper(splice, edits, cost.value);
  }

  method FindItemEdits(property: bytes, path: seq<Step>, was: seq<Value>, now: seq<Value>, lo: nat,
                       hi: nat) returns (r: Result<seq<Patch>>)
    requires |was| == |now| && lo <= hi <= |now|
    ensures Agree(r, ItemEdits(property, path, was, now, lo, hi, []))
    decreases now, 0
  {
    hide Diff;
    var edits, i := [], lo;
    while i < hi
      invariant lo <= i <= hi
      invariant ItemEdits(property, path, was, now, i, hi, edits) == ItemEdits(property, path, was, now, lo, hi, [])
    {
      var inner := DiffFields(property, path + [Index(i)], was[i], now[i]);
      if inner.Err? { return inner; }
      edits, i := edits + inner.value, i + 1;
      if |edits| > 256 { return Ok(edits); }
    }
    r := Ok(edits);
  }

  // ---- container_delta and attribute_delta ----

  lemma {:induction false} ValuesOfAppend(roots: seq<Field>, cs: seq<Choice>, f: Field, c: Choice)
    requires |roots| == |cs|
    ensures ValuesOf(roots + [f], cs + [c]) == ValuesOf(roots, cs) + (if c.Whole? then [f] else [])
    decreases roots
  {
    if roots == [] {
      assert (roots + [f])[1..] == [] && (cs + [c])[1..] == [];
    } else {
      assert (roots + [f])[1..] == roots[1..] + [f] && (cs + [c])[1..] == cs[1..] + [c];
      ValuesOfAppend(roots[1..], cs[1..], f, c);
    }
  }

  lemma {:induction false} PatchesOfAppend(cs: seq<Choice>, c: Choice)
    ensures PatchesOf(cs + [c]) == PatchesOf(cs) + (if c.Edits? then c.ps else [])
    decreases cs
  {
    var last := if c.Edits? then c.ps else [];
    if cs == [] {
      assert (cs + [c])[1..] == [] && last + [] == last && [] + last == last;
    } else {
      var head := if cs[0].Edits? then cs[0].ps else [];
      assert (cs + [c])[0] == cs[0] && (cs + [c])[1..] == cs[1..] + [c];
      PatchesOfAppend(cs[1..], c);
      assert head + (PatchesOf(cs[1..]) + last) == head + PatchesOf(cs[1..]) + last;
    }
  }

  /** Gathers whole roots and edits for the choices made so far. */
  lemma Gathered(roots: seq<Field>, i: nat, done: seq<Choice>, c: Choice)
    requires i < |roots| && |done| == i
    ensures ValuesOf(roots[..i + 1], done + [c]) == ValuesOf(roots[..i], done) + (if c.Whole? then [roots[i]] else [])
    ensures PatchesOf(done + [c]) == PatchesOf(done) + (if c.Edits? then c.ps else [])
  {
    assert roots[..i + 1] == roots[..i] + [roots[i]];
    ValuesOfAppend(roots[..i], done, roots[i], c);
    PatchesOfAppend(done, c);
  }

  /** The loop of `container_delta` over the new image: the full and the sparse form side by side. */
  method ContainerForms(prev: seq<Field>,
                        roots: seq<Field>) returns (full: seq<Field>, values: seq<Field>, patches: seq<Patch>)
    ensures full == ValuesOf(roots, WholeChoices(prev, roots))
    ensures values == ValuesOf(roots, ContainerChoices(prev, roots))
    ensures patches == PatchesOf(ContainerChoices(prev, roots))
  {
    hide ContainerChoice, Unchanged, ValuesOf, PatchesOf;
    full, values, patches := [], [], [];
    var i := 0;
    ghost var wholes, sparse: seq<Choice> := [], [];
    NothingGathered(roots);
    while i < |roots|
      invariant 0 <= i <= |roots| && |wholes| == |sparse| == i
      invariant forall j :: 0 <= j < i ==>
        wholes[j] == WholeChoice(prev, roots[j]) && sparse[j] == ContainerChoice(prev, roots[j])
      invariant full == ValuesOf(roots[..i], wholes) && values == ValuesOf(roots[..i], sparse)
      invariant patches == PatchesOf(sparse)
    {
      var f := roots[i];
      var c := ContainerChoice(prev, f);
      Gathered(roots, i, wholes, WholeChoice(prev, f));
      Gathered(roots, i, sparse, c);
      wholes, sparse := wholes + [WholeChoice(prev, f)], sparse + [c];
      if !Unchanged(prev, f) { full := full + [f]; }
      match c {
        case Skip =>
        case Whole => values := values + [f];
        case Edits(ps) => patches := patches + ps;
      }
      i := i + 1;
    }
    assert roots[..i] == roots && wholes == WholeChoices(prev, roots) && sparse == ContainerChoices(prev, roots);
  }

  lemma NothingGathered(roots: seq<Field>)
    ensures ValuesOf(roots[..0], []) == [] && PatchesOf([]) == []
  {
  }

  /** What `attribute_delta` does with one root: leave it, send it whole, or send its edits. */
  method ChooseField(prev: seq<Field>, f: Field) returns (r: Result<Choice>)
    ensures Agree(r, FieldChoice(prev, f))
  {
    hide Diff, Lookup, Same;
    if !Has(prev, f.name) { return Ok(Whole); }
    if Same(Lookup(prev, f.name).value, f.value) { return Ok(Skip); }
    var edits := DiffFields(f.name, [], Lookup(prev, f.name).value, f.value);
    if edits.Err? { return Err(edits.error); }
    var single := |edits.value| == 1 && edits.value[0].replace && edits.value[0].path == [];
    r := Ok(if single then Whole else Edits(edits.value));
  }

  /** The loop of `attribute_delta`: whole roots and recursive edits, given up after 256 patches. */
  method FieldForms(prev: seq<Field>, roots: seq<Field>) returns (r: Result<Option<(seq<Field>, seq<Patch>)>>)
    ensures var cs := FieldChoices(prev, roots, 0);
      && r.Ok? == cs.Ok?
      && (r.Ok? ==> r.value.Some? == cs.value.Some?)
      && (r.Ok? && r.value.Some? ==> r.value.value == (ValuesOf(roots, cs.value.value), PatchesOf(cs.value.value)))
  {
    hide FieldChoice, ValuesOf, PatchesOf;
    var values: seq<Field>, patches: seq<Patch>, i := [], [], 0;
    ghost var done: seq<Choice> := [];
    NothingGathered(roots);
    assert roots[0..] == roots;
    while i < |roots|
      invariant 0 <= i <= |roots| && |done| == i && |patches| <= 256
      invariant values == ValuesOf(roots[..i], done) && patches == PatchesOf(done)
      invariant Continues(FieldChoices(prev, roots, 0), done, FieldChoices(prev, roots[i..], |patches|))
    {
      var f := roots[i];
      assert roots[i..][0] == f && roots[i..][1..] == roots[i + 1..];
      var chosen := ChooseField(prev, f);
      if chosen.Err? { return Err(chosen.error); }
      var c := chosen.value;
      Gathered(roots, i, done, c);
      ghost var now := FieldChoices(prev, roots[i..], |patches|);
      if c.Whole? { values := values + [f]; }
      if c.Edits? { patches := patches + c.ps; }
      if |patches| > 256 { return Ok(None); }
      ContinuesFurther(FieldChoices(prev, roots, 0), done, now, c, FieldChoices(prev, roots[i + 1..], |patches|));
      done := done + [c];
      i := i + 1;
    }
    assert roots[..i] == roots && roots[i..] == [];
    assert done + [] == done;
    r := Ok(Some((values, patches)));
  }

  /** `whole` is what `rest` yields once the choices `done` are put in front of it. */
  ghost predicate Continues(whole: Result<Option<seq<Choice>>>, done: seq<Choice>, rest: Result<Option<seq<Choice>>>) {
    && whole.Ok? == rest.Ok?
    && (whole.Ok? ==> whole.value.Some? == rest.value.Some?)
    && (whole.Ok? && whole.value.Some? ==> whole.value.value == done + rest.value.value)
  }

  lemma ContinuesFurther(whole: Result<Option<seq<Choice>>>, done: seq<Choice>, now: Result<Option<seq<Choice>>>,
                         c: Choice,
                         later: Result<Option<seq<Choice>>>)
    requires Continues(whole, done, now)
    requires Continues(now, [c], later)
    ensures Continues(whole, done + [c], later)
  {
    if later.Ok? && later.value.Some? {
      assert done + ([c] + later.value.value) == done + [c] + later.value.value;
    }
  }

  /** `attribute_delta`. */
  method AttributeDelta(prev: Update, next: Update) returns (r: Result<Update>)
    ensures Agree(r, Delta(prev, next))
  {
    hide FieldChoices, ContainerChoices, WholeChoices, ValuesOf, PatchesOf, WireLength, Lookup;
    if !FullImage(prev) || !FullImage(next) { return Err(Invalid); }
    var i := 0;
    while i < |prev.values|
      invariant 0 <= i <= |prev.values|
      invariant forall j :: 0 <= j < i ==> Has(next.values, prev.values[j].name)
    {
      if !Has(next.values, prev.values[i].name) { return Ok(next); }
      i := i + 1;
    }
    if next.revision < prev.revision { return Ok(next); }
    var whole, values, patches := ContainerForms(prev.values, next.values);
    var best := Update(prev.revision, next.revision, false, whole, []);
    WholePatches(prev.values, next.values);
    assert best == Full(prev, next);
    if patches != [] && |patches| <= 256 {
      var size := WireLength(best);
      if size.Err? { return Err(size.error); }
      var chosen := Smaller(Update(prev.revision, next.revision, false, values, patches), best);
      if chosen.Err? { return chosen; }
      best := chosen.value;
    }
    var fields := FieldForms(prev.values, next.values);
    if fields.Err? { return Err(fields.error); }
    if fields.value.None? || fields.value.value.1 == [] { return Ok(best); }
    r := Smaller(Update(prev.revision, next.revision, false, fields.value.value.0, fields.value.value.1), best);
  }

  lemma WholePatches(prev: seq<Field>, roots: seq<Field>)
    ensures PatchesOf(WholeChoices(prev, roots)) == []
    decreases roots
  {
    if roots != [] {
      WholePatches(prev, roots[1..]);
      assert WholeChoices(prev, roots)[1..] == WholeChoices(prev, roots[1..]);
    }
  }

  // ---- validate_overlay ----

  /** The two cursors of `validate_overlay`. */
  method MeasureOverlay(held: seq<Field>, delta: seq<Field>) returns (r: Result<nat>)
    ensures r == ValidateOverlay(held, delta)
  {
    hide EncodeValue, ValidName, Less, Put;
    var out := Writer(SizeOnly(23), NODES);
    var native: nat, count: nat, i: nat, j: nat := 256, 0, 0, 0;
    assert held[0..] == held && delta[0..] == delta;
    while i < |held| || j < |delta|
      invariant 0 <= i <= |held| && 0 <= j <= |delta|
      invariant Validate(held[i..], delta[j..], count, out, native) == ValidateOverlay(held, delta)
      decreases |held| - i + |delta| - j
    {
      assert i < |held| ==> held[i..][0] == held[i] && held[i..][1..] == held[i + 1..];
      assert j < |delta| ==> delta[j..][0] == delta[j] && delta[j..][1..] == delta[j + 1..];
      var f;
      if j == |delta| || (i < |held| && Less(held[i].name, delta[j].name)) {
        f, i := held[i], i + 1;
      } else {
        if i < |held| && held[i].name == delta[j].name { i := i + 1; }
        f, j := delta[j], j + 1;
      }
      count := count + 1;
      if count > 256 || !ValidName(f.name) { return Err(Invalid); }
      var e := WriteValue(out.Append(Put(|f.name|, 1)).Append(f.name), f.value, 0);
      if e.Err? { return Err(e.error); }
      out, native := e.value, native + EntryBytes(f.name, f.value);
    }
    r := Ok(out.Length() + native);
  }
}
