/** Attribute values: recursive variants, their C++ equality, and the sorted maps they are built from. */
module Values {
  import opened Bytes

  const SIGN: nat := 0x8000_0000_0000_0000      // the bit pattern of -0.0
  const FRACTION: nat := 0x10_0000_0000_0000    // 2^52

  /** `std::variant<int64, double, bool, string, struct, array, map>`; doubles are kept as bit patterns. */
  datatype Value =
    | Int(n: int)
    | Num(bits: nat)
    | Bool(b: bool)
    | Str(text: bytes)
    | Struct(fields: seq<Field>)
    | Array(items: seq<Value>)
    | Map(entries: seq<Field>)

  datatype Field = Field(name: bytes, value: Value)

  predicate Finite(bits: nat) { (bits / FRACTION) % 2048 != 2047 }

  predicate NaN(bits: nat) { !Finite(bits) && bits % FRACTION != 0 }

  /** IEEE equality: the two zeros are equal, a NaN equals nothing. */
  predicate SameNumber(a: nat, b: nat) {
    !NaN(a) && !NaN(b) && (a == b || (a in {0, SIGN} && b in {0, SIGN}))
  }

  /** C++ `==` on attribute values. */
  predicate Same(a: Value, b: Value)
    decreases a
  {
    match a
    case Int(n) => b == Int(n)
    case Num(x) => b.Num? && SameNumber(x, b.bits)
    case Bool(x) => b == Bool(x)
    case Str(s) => b == Str(s)
    case Struct(fs) =>
      && b.Struct? && |fs| == |b.fields|
      && (forall i :: 0 <= i < |fs| ==> fs[i].name == b.fields[i].name && Same(fs[i].value, b.fields[i].value))
    case Array(xs) =>
      && b.Array? && |xs| == |b.items|
      && (forall i :: 0 <= i < |xs| ==> Same(xs[i], b.items[i]))
    case Map(es) =>
      && b.Map? && |es| == |b.entries|
      && (forall i :: 0 <= i < |es| ==> es[i].name == b.entries[i].name && Same(es[i].value, b.entries[i].value))
  }

  predicate SameFields(a: seq<Field>, b: seq<Field>) {
    |a| == |b| && forall i :: 0 <= i < |a| ==> a[i].name == b[i].name && Same(a[i].value, b[i].value)
  }

  predicate SameItems(a: seq<Value>, b: seq<Value>) {
    |a| == |b| && forall i :: 0 <= i < |a| ==> Same(a[i], b[i])
  }

  lemma {:induction false} SameSymmetric(a: Value, b: Value)
    requires Same(a, b)
    ensures Same(b, a)
    decreases a
  {
    match a {
      case Struct(fs) => forall i | 0 <= i < |fs| ensures Same(b.fields[i].value, fs[i].value) {
        SameSymmetric(fs[i].value, b.fields[i].value);
      }
      case Array(xs) => forall i | 0 <= i < |xs| ensures Same(b.items[i], xs[i]) {
        SameSymmetric(xs[i], b.items[i]);
      }
      case Map(es) => forall i | 0 <= i < |es| ensures Same(b.entries[i].value, es[i].value) {
        SameSymmetric(es[i].value, b.entries[i].value);
      }
      case _ =>
    }
  }

  lemma {:induction false} SameTransitive(a: Value, b: Value, c: Value)
    requires Same(a, b) && Same(b, c)
    ensures Same(a, c)
    decreases a
  {
    match a {
      case Struct(fs) => forall i | 0 <= i < |fs| ensures Same(fs[i].value, c.fields[i].value) {
        SameTransitive(fs[i].value, b.fields[i].value, c.fields[i].value);
      }
      case Array(xs) => forall i | 0 <= i < |xs| ensures Same(xs[i], c.items[i]) {
        SameTransitive(xs[i], b.items[i], c.items[i]);
      }
      case Map(es) => forall i | 0 <= i < |es| ensures Same(es[i].value, c.entries[i].value) {
        SameTransitive(es[i].value, b.entries[i].value, c.entries[i].value);
      }
      case _ =>
    }
  }

  // ---- sorted maps ----

  predicate Sorted(fs: seq<Field>) {
    forall i, j :: 0 <= i < j < |fs| ==> Less(fs[i].name, fs[j].name)
  }

  /** `find`. */
  function Lookup(fs: seq<Field>, key: bytes): Option<Value> {
    if fs == [] then None
    else if fs[0].name == key then Some(fs[0].value)
    else Lookup(fs[1..], key)
  }

  /** `contains`. */
  predicate Has(fs: seq<Field>, key: bytes) { Lookup(fs, key).Some? }

  /** `insert_or_assign`. */
  function Assign(fs: seq<Field>, key: bytes, v: Value): seq<Field> {
    if fs == [] || Less(key, fs[0].name) then [Field(key, v)] + fs
    else if fs[0].name == key then [Field(key, v)] + fs[1..]
    else [fs[0]] + Assign(fs[1..], key, v)
  }

  /** `erase` by key. */
  function Erase(fs: seq<Field>, key: bytes): seq<Field> {
    if fs == [] then [] else if fs[0].name == key then fs[1..] else [fs[0]] + Erase(fs[1..], key)
  }

  /** `key` lies below every name of `fs`. */
  predicate Below(key: bytes, fs: seq<Field>) {
    forall i :: 0 <= i < |fs| ==> Less(key, fs[i].name)
  }

  lemma SortedCons(f: Field, fs: seq<Field>)
    ensures Sorted([f] + fs) <==> Sorted(fs) && Below(f.name, fs)
  {
    var gs := [f] + fs;
    if Sorted(gs) {
      assert gs[0] == f;
      forall i | 0 <= i < |fs| ensures Less(f.name, fs[i].name) { assert gs[i + 1] == fs[i]; }
      forall i, j | 0 <= i < j < |fs| ensures Less(fs[i].name, fs[j].name) {
        assert gs[i + 1] == fs[i] && gs[j + 1] == fs[j];
      }
    }
  }

  lemma {:induction false} BelowLookup(key: bytes, fs: seq<Field>)
    requires Below(key, fs)
    ensures Lookup(fs, key) == None
  {
    if fs != [] {
      LessIrreflexive(key);
      BelowLookup(key, fs[1..]);
    }
  }

  lemma {:induction false} LookupAt(fs: seq<Field>, i: nat)
    requires Sorted(fs) && i < |fs|
    ensures Lookup(fs, fs[i].name) == Some(fs[i].value)
  {
    if i > 0 {
      LessIrreflexive(fs[0].name);
      assert fs[1..][i - 1] == fs[i];
      LookupAt(fs[1..], i - 1);
    }
  }

  lemma {:induction false} LookupFinds(fs: seq<Field>, key: bytes) returns (i: nat)
    requires Has(fs, key)
    ensures i < |fs| && fs[i] == Field(key, Lookup(fs, key).value)
  {
    if fs[0].name == key {
      i := 0;
    } else {
      var j := LookupFinds(fs[1..], key);
      i := j + 1;
    }
  }

  lemma {:induction false} AssignBelow(key: bytes, fs: seq<Field>, k: bytes, v: Value)
    requires Below(key, fs) && Less(key, k)
    ensures Below(key, Assign(fs, k, v))
  {
    if fs != [] && !Less(k, fs[0].name) && fs[0].name != k {
      AssignBelow(key, fs[1..], k, v);
    }
  }

  lemma {:induction false} AssignSorted(fs: seq<Field>, key: bytes, v: Value)
    requires Sorted(fs)
    ensures Sorted(Assign(fs, key, v))
    ensures |Assign(fs, key, v)| == |fs| + (if Has(fs, key) then 0 else 1)
  {
    if fs == [] {
    } else if Less(key, fs[0].name) {
      forall i | 0 <= i < |fs| ensures Less(key, fs[i].name) {
        if i > 0 { LessTransitive(key, fs[0].name, fs[i].name); }
      }
      SortedCons(Field(key, v), fs);
      BelowLookup(key, fs);
    } else {
      assert fs == [fs[0]] + fs[1..];
      SortedCons(fs[0], fs[1..]);
      if fs[0].name == key {
        SortedCons(Field(key, v), fs[1..]);
      } else {
        LessTotal(key, fs[0].name);
        AssignSorted(fs[1..], key, v);
        AssignBelow(fs[0].name, fs[1..], key, v);
        SortedCons(fs[0], Assign(fs[1..], key, v));
      }
    }
  }

  lemma {:induction false} AssignLookup(fs: seq<Field>, key: bytes, v: Value, k: bytes)
    ensures Lookup(Assign(fs, key, v), k) == if k == key then Some(v) else Lookup(fs, k)
  {
    if fs != [] && !Less(key, fs[0].name) && fs[0].name != key {
      AssignLookup(fs[1..], key, v, k);
      assert Assign(fs, key, v)[1..] == Assign(fs[1..], key, v);
    } else if fs != [] && !Less(key, fs[0].name) {
      assert Assign(fs, key, v)[1..] == fs[1..];
    } else {
      assert Assign(fs, key, v)[1..] == fs;
    }
  }

  lemma {:induction false} EraseBelow(key: bytes, fs: seq<Field>, k: bytes)
    requires Below(key, fs)
    ensures Below(key, Erase(fs, k))
  {
    if fs != [] && fs[0].name != k {
      EraseBelow(key, fs[1..], k);
    }
  }

  lemma {:induction false} EraseSorted(fs: seq<Field>, key: bytes)
    requires Sorted(fs)
    ensures Sorted(Erase(fs, key))
    ensures |Erase(fs, key)| == |fs| - (if Has(fs, key) then 1 else 0)
  {
    if fs != [] {
      assert fs == [fs[0]] + fs[1..];
      SortedCons(fs[0], fs[1..]);
      if fs[0].name != key {
        EraseSorted(fs[1..], key);
        EraseBelow(fs[0].name, fs[1..], key);
        SortedCons(fs[0], Erase(fs[1..], key));
      }
    }
  }

  lemma {:induction false} EraseLookup(fs: seq<Field>, key: bytes, k: bytes)
    requires Sorted(fs)
    ensures Lookup(Erase(fs, key), k) == if k == key then None else Lookup(fs, k)
  {
    if fs != [] {
      assert fs == [fs[0]] + fs[1..];
      SortedCons(fs[0], fs[1..]);
      if fs[0].name == key {
        BelowLookup(key, fs[1..]);
      } else {
        EraseLookup(fs[1..], key, k);
        assert Erase(fs, key)[1..] == Erase(fs[1..], key);
      }
    }
  }

  /** Two optional values that are both absent or equal. */
  predicate SameOption(a: Option<Value>, b: Option<Value>) {
    a.Some? == b.Some? && (a.Some? ==> Same(a.value, b.value))
  }

  lemma {:induction false} SameFieldsLookup(a: seq<Field>, b: seq<Field>, k: bytes)
    requires SameFields(a, b)
    ensures SameOption(Lookup(a, k), Lookup(b, k))
  {
    if a != [] {
      SameFieldsLookup(a[1..], b[1..], k);
    }
  }

  /** Sorted maps agreeing key by key are equal entry by entry. */
  lemma {:induction false} LookupsSameFields(a: seq<Field>, b: seq<Field>)
    requires Sorted(a) && Sorted(b)
    requires forall k :: SameOption(Lookup(a, k), Lookup(b, k))
    ensures SameFields(a, b)
  {
    var first := if a != [] then a[0].name else if b != [] then b[0].name else [];
    assert SameOption(Lookup(a, first), Lookup(b, first));
    if a != [] {
      HeadsAgree(a, b);
      assert a == [a[0]] + a[1..] && b == [b[0]] + b[1..];
      SortedCons(a[0], a[1..]);
      SortedCons(b[0], b[1..]);
      assert SameOption(Lookup(a, a[0].name), Lookup(b, a[0].name));
      forall k
        ensures SameOption(Lookup(a[1..], k), Lookup(b[1..], k))
      {
        assert SameOption(Lookup(a, k), Lookup(b, k));
        if k == a[0].name {
          BelowLookup(k, a[1..]);
          BelowLookup(k, b[1..]);
        }
      }
      LookupsSameFields(a[1..], b[1..]);
      forall i | 0 <= i < |a|
        ensures a[i].name == b[i].name && Same(a[i].value, b[i].value)
      {
        if i > 0 { assert a[i] == a[1..][i - 1] && b[i] == b[1..][i - 1]; }
      }
    }
  }

  lemma HeadsAgree(a: seq<Field>, b: seq<Field>)
    requires Sorted(a) && Sorted(b) && a != [] && b != []
    requires forall k :: Lookup(a, k).Some? == Lookup(b, k).Some?
    ensures a[0].name == b[0].name
  {
    assert Lookup(a, a[0].name).Some? && Lookup(b, b[0].name).Some?;
    var p := LookupFinds(b, a[0].name);
    var q := LookupFinds(a, b[0].name);
    if p > 0 && q > 0 {
      LessTransitive(a[0].name, b[0].name, a[0].name);
      LessIrreflexive(a[0].name);
    }
  }

  // ---- projections ----

  /** The fields with names in `visible`. */
  function Project(fs: seq<Field>, visible: set<bytes>): seq<Field> {
    if fs == [] then [] else (if fs[0].name in visible then [fs[0]] else []) + Project(fs[1..], visible)
  }

  lemma {:induction false} ProjectLookup(fs: seq<Field>, visible: set<bytes>, k: bytes)
    requires Sorted(fs)
    ensures Sorted(Project(fs, visible)) && (forall key :: Below(key, fs) ==> Below(key, Project(fs, visible)))
    ensures Lookup(Project(fs, visible), k) == if k in visible then Lookup(fs, k) else None
    decreases fs
  {
    if fs != [] {
      var f := fs[0];
      assert fs == [f] + fs[1..];
      SortedCons(f, fs[1..]);
      ProjectLookup(fs[1..], visible, k);
      var rest := Project(fs[1..], visible);
      forall key | Below(key, fs) ensures Below(key, fs[1..]) {
        assert forall i :: 0 <= i < |fs[1..]| ==> fs[1..][i] == fs[i + 1];
      }
      if f.name in visible {
        SortedCons(f, rest);
        assert Project(fs, visible)[1..] == rest;
      } else {
        assert Project(fs, visible) == rest;
      }
      if k == f.name { BelowLookup(k, fs[1..]); }
    }
  }
}
