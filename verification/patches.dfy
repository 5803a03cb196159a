/** Replaying patches on values: the reading side of the delta calculus. */
module Patches {
  import opened Bytes
  import opened Values
  import opened ValueCodec
  import opened UpdateCodec

  /** What a patch does to the value it addresses. */
  function Edit(v: Value, p: Patch): Result<Value> {
    if p.replace then if p.value.Some? then Ok(p.value.value) else Err(Invalid)
    else if p.isMap then EditMap(v, p) else EditArray(v, p)
  }

  function EditMap(v: Value, p: Patch): Result<Value> {
    if !v.Map? then Err(WrongKind)
    else if p.value.None? && !Has(v.entries, p.key) then Err(Invalid)
    else
      var es := if p.value.Some? then Assign(v.entries, p.key, p.value.value) else Erase(v.entries, p.key);
      if |es| > 256 then Err(TooLong) else Ok(Map(es))
  }

  function EditArray(v: Value, p: Patch): Result<Value> {
    if !v.Array? then Err(WrongKind)
    else if p.index > |v.items| || p.remove > |v.items| - p.index then Err(Invalid)
    else if |v.items| - p.remove + |p.insert| > 256 then Err(Invalid)
    else Ok(Array(v.items[..p.index] + p.insert + v.items[p.index + p.remove..]))
  }

  /** A map edit sets or erases one key, and only a key that is there can be erased; a splice replaces a stretch that
      lies within the array; neither may leave more than 256 entries. */
  lemma EditMeans(v: Value, p: Patch, k: bytes, i: nat)
    requires !p.replace && (v.Map? ==> Sorted(v.entries))
    ensures p.isMap ==>
      (Edit(v, p).Ok? <==>
       && v.Map? && (p.value.Some? || Has(v.entries, p.key))
       && |v.entries| + (if p.value.None? then -1 else if Has(v.entries, p.key) then 0 else 1) <= 256)
    ensures p.isMap && Edit(v, p).Ok? ==>
      && Edit(v, p).value.Map?
      && Lookup(Edit(v, p).value.entries, k) == if k == p.key then p.value else Lookup(v.entries, k)
    ensures !p.isMap ==>
      (Edit(v, p).Ok? <==>
       v.Array? && p.index + p.remove <= |v.items| && |v.items| - p.remove + |p.insert| <= 256)
    ensures !p.isMap && Edit(v, p).Ok? ==>
      && Edit(v, p).value.Array? && |Edit(v, p).value.items| == |v.items| - p.remove + |p.insert|
      && (i < |Edit(v, p).value.items| ==>
            Edit(v, p).value.items[i] ==
              if i < p.index then v.items[i]
              else if i < p.index + |p.insert| then p.insert[i - p.index]
              else v.items[i - |p.insert| + p.remove])
  {
    hide Assign, Erase, Lookup;
    if p.isMap && v.Map? {
      if p.value.Some? {
        AssignCount(v.entries, p.key, p.value.value);
        AssignLookup(v.entries, p.key, p.value.value, k);
      } else if Has(v.entries, p.key) {
        EraseCount(v.entries, p.key);
        EraseLookup(v.entries, p.key, k);
      }
    }
  }

  lemma {:induction false} AssignCount(fs: seq<Field>, k: bytes, v: Value)
    requires Sorted(fs)
    ensures |Assign(fs, k, v)| == |fs| + if Has(fs, k) then 0 else 1
    decreases fs
  {
    if fs != [] {
      assert fs == [fs[0]] + fs[1..];
      SortedCons(fs[0], fs[1..]);
      if Less(k, fs[0].name) {
        LessIrreflexive(k);
        forall i | 0 <= i < |fs| ensures Less(k, fs[i].name) {
          if i > 0 { LessTransitive(k, fs[0].name, fs[i].name); }
        }
        BelowLookup(k, fs);
      } else if fs[0].name != k {
        AssignCount(fs[1..], k, v);
      }
    }
  }

  lemma {:induction false} EraseCount(fs: seq<Field>, k: bytes)
    requires Has(fs, k)
    ensures |Erase(fs, k)| == |fs| - 1
    decreases fs
  {
    if fs[0].name != k { EraseCount(fs[1..], k); }
  }

  /** The child a path component selects. */
  function Child(v: Value, s: Step): Result<Value> {
    match s
    case Key(k) =>
      if !v.Struct? && !v.Map? then Err(WrongKind)
      else
        var found := Lookup(if v.Struct? then v.fields else v.entries, k);
        if found.None? then Err(OutOfRange) else Ok(found.value)
    case Index(i) =>
      if !v.Array? then Err(WrongKind) else if i >= |v.items| then Err(OutOfRange) else Ok(v.items[i])
  }

  function PutChild(v: Value, s: Step, c: Value): (w: Value)
    requires Child(v, s).Ok?
  {
    match s
    case Key(k) => if v.Struct? then Struct(Assign(v.fields, k, c)) else Map(Assign(v.entries, k, c))
    case Index(i) => Array(v.items[i := c])
  }

  /** Walks `path` and edits what it reaches. */
  function ApplyAt(v: Value, path: seq<Step>, p: Patch): Result<Value>
    decreases path
  {
    if path == [] then Edit(v, p)
    else
      var c :- Child(v, path[0]);
      var d :- ApplyAt(c, path[1..], p);
      Ok(PutChild(v, path[0], d))
  }

  /** Replays patches in order on the subtree reached by the first `n` components of their paths. */
  function ApplyAll(v: Value, ps: seq<Patch>, n: nat): Result<Value>
    decreases ps
  {
    if ps == [] then Ok(v)
    else if |ps[0].path| < n then Err(Invalid)
    else
      var w :- ApplyAt(v, ps[0].path[n..], ps[0]);
      ApplyAll(w, ps[1..], n)
  }

  lemma {:induction false} ApplyAllConcat(v: Value, a: seq<Patch>, b: seq<Patch>, n: nat)
    requires ApplyAll(v, a, n).Ok?
    ensures ApplyAll(v, a + b, n) == ApplyAll(ApplyAll(v, a, n).value, b, n)
    decreases a
  {
    hide ApplyAt;
    if a == [] {
      assert a + b == b;
    } else {
      var w := ApplyAt(v, a[0].path[n..], a[0]).value;
      assert (a + b)[1..] == a[1..] + b;
      ApplyAllConcat(w, a[1..], b, n);
    }
  }

  /** Every patch goes through component `s` after its first `n` components. */
  predicate Through(ps: seq<Patch>, n: nat, s: Step) {
    forall i :: 0 <= i < |ps| ==> |ps[i].path| > n && ps[i].path[n] == s
  }

  predicate SortedContainer(v: Value) { (v.Struct? ==> Sorted(v.fields)) && (v.Map? ==> Sorted(v.entries)) }

  lemma {:induction false} AssignTwice(fs: seq<Field>, k: bytes, a: Value, b: Value)
    ensures Assign(Assign(fs, k, a), k, b) == Assign(fs, k, b)
    decreases fs
  {
    LessIrreflexive(k);
    if fs != [] && !Less(k, fs[0].name) && fs[0].name != k {
      AssignTwice(fs[1..], k, a, b);
      assert Assign(fs, k, a)[1..] == Assign(fs[1..], k, a);
    } else if fs != [] && !Less(k, fs[0].name) {
      assert Assign(fs, k, a)[1..] == fs[1..];
    } else {
      assert Assign(fs, k, a)[1..] == fs;
    }
  }

  lemma {:induction false} AssignAt(fs: seq<Field>, i: nat, v: Value)
    requires Sorted(fs) && i < |fs|
    ensures Assign(fs, fs[i].name, v) == fs[i := Field(fs[i].name, v)]
    decreases fs
  {
    if i == 0 {
      LessIrreflexive(fs[0].name);
    } else {
      assert Less(fs[0].name, fs[i].name);
      LessIrreflexive(fs[0].name);
      if Less(fs[i].name, fs[0].name) { LessTransitive(fs[0].name, fs[i].name, fs[0].name); }
      assert fs[1..][i - 1] == fs[i];
      AssignAt(fs[1..], i - 1, v);
    }
  }

  lemma AssignSame(fs: seq<Field>, k: bytes)
    requires Sorted(fs) && Has(fs, k)
    ensures Assign(fs, k, Lookup(fs, k).value) == fs
  {
    var i := LookupFinds(fs, k);
    AssignAt(fs, i, fs[i].value);
  }

  /** Writing a child and reading it back, writing it twice, and writing what is there. */
  lemma ChildLaws(v: Value, s: Step, c: Value, d: Value)
    requires SortedContainer(v) && Child(v, s).Ok?
    ensures Child(PutChild(v, s, c), s) == Ok(c) && SortedContainer(PutChild(v, s, c))
    ensures PutChild(PutChild(v, s, c), s, d) == PutChild(v, s, d)
    ensures PutChild(v, s, Child(v, s).value) == v
  {
    if s.Key? {
      var fs := if v.Struct? then v.fields else v.entries;
      AssignLookup(fs, s.key, c, s.key);
      AssignSorted(fs, s.key, c);
      AssignTwice(fs, s.key, c, d);
      AssignSame(fs, s.key);
    }
  }

  /** Patches that all go through one child act on that child alone. */
  lemma {:induction false} ApplyThrough(v: Value, ps: seq<Patch>, n: nat, s: Step)
    requires SortedContainer(v) && Child(v, s).Ok? && Through(ps, n, s)
    requires ApplyAll(Child(v, s).value, ps, n + 1).Ok?
    ensures ApplyAll(v, ps, n) == Ok(PutChild(v, s, ApplyAll(Child(v, s).value, ps, n + 1).value))
    decreases ps
  {
    hide Child, PutChild, SortedContainer, Edit;
    var c := Child(v, s).value;
    if ps == [] {
      ChildLaws(v, s, c, c);
    } else {
      var p := ps[0];
      assert p.path[n..][0] == s && p.path[n..][1..] == p.path[n + 1..];
      var d := ApplyAt(c, p.path[n + 1..], p).value;
      ChildLaws(v, s, d, d);
      var w := PutChild(v, s, d);
      ApplyThrough(w, ps[1..], n, s);
      var e := ApplyAll(d, ps[1..], n + 1).value;
      ChildLaws(v, s, d, e);
    }
  }
}
