/** `EntityAttributes`: schema checks, staging and publication of attribute values. */
module Schemas {
  import opened Bytes
  import opened Values
  import opened ValueCodec
  import U = UpdateCodec
  import A = Applying
  import O = Overlays

  datatype Kind = Integer | Number | Boolean | Text | Structure | FixedArray | List | Dictionary | Unique

  datatype Definition = Definition(
    kind: Kind, minimum: int, maximum: int, fields: seq<Member>, element: Option<Definition>, length: nat,
    maxItems: nat)

  datatype Member = Member(name: bytes, def: Definition)

  datatype Access = NoAccess | Read | Write | ReadWrite

  datatype Attribute = Attribute(def: Definition, server: Access, client: Access)

  type Schema = map<bytes, Attribute>

  /** A caller: which side it is on, and whether it is live (server) or owns the entity (client) right now. */
  datatype Who = Who(server: bool, current: bool)

  predicate Writes(a: Access) { a == Write || a == ReadWrite }

  // ---- valid ----

  /** The variant index a kind expects. */
  predicate Matches(kind: Kind, v: Value) {
    match kind
    case Integer => v.Int?
    case Number => v.Num?
    case Boolean => v.Bool?
    case Text => v.Str?
    case Structure => v.Struct?
    case Dictionary => v.Map?
    case _ => v.Array?
  }

  function FindMember(ds: seq<Member>, name: bytes): Option<Definition> {
    if ds == [] then None else if ds[0].name == name then Some(ds[0].def) else FindMember(ds[1..], name)
  }

  predicate Distinct(xs: seq<Value>) { forall i, j :: 0 <= j < i < |xs| ==> !Same(xs[i], xs[j]) }

  /** `valid`, returning what is left of the shared node budget. */
  function Check(d: Definition, v: Value, depth: nat, left: nat): Option<nat>
    decreases v, 1
  {
    if depth > 8 || left == 0 || !Matches(d.kind, v) then None
    else match v
      case Int(n) => if d.minimum <= n <= d.maximum then Some(left - 1) else None
      case Num(x) => if Finite(x) then Some(left - 1) else None
      case Bool(_) => Some(left - 1)
      case Str(s) => if |s| <= 65536 then Some(left - 1) else None
      case Struct(fs) => if |fs| != |d.fields| then None else CheckFields(d.fields, fs, depth + 1, left - 1)
      case Array(xs) =>
        if d.element.None? || (if d.kind == FixedArray then |xs| != d.length else |xs| > d.maxItems) then None
        else if d.kind == Unique && !Distinct(xs) then None
        else CheckItems(d.element.value, xs, depth + 1, left - 1)
      case Map(es) =>
        if d.element.None? || |es| > d.maxItems then None else CheckEntries(d.element.value, es, depth + 1, left - 1)
  }

  function CheckFields(ds: seq<Member>, fs: seq<Field>, depth: nat, left: nat): Option<nat>
    decreases fs, 0
  {
    if fs == [] then Some(left)
    else match FindMember(ds, fs[0].name)
      case None => None
      case Some(d) =>
        match Check(d, fs[0].value, depth, left)
        case None => None
        case Some(rest) => CheckFields(ds, fs[1..], depth, rest)
  }

  function CheckItems(d: Definition, xs: seq<Value>, depth: nat, left: nat): Option<nat>
    decreases xs, 0
  {
    if xs == [] then Some(left)
    else match Check(d, xs[0], depth, left)
      case None => None
      case Some(rest) => CheckItems(d, xs[1..], depth, rest)
  }

  function CheckEntries(d: Definition, es: seq<Field>, depth: nat, left: nat): Option<nat>
    decreases es, 0
  {
    if es == [] then Some(left)
    else if !ValidKey(es[0].name) then None
    else match Check(d, es[0].value, depth, left)
      case None => None
      case Some(rest) => CheckEntries(d, es[1..], depth, rest)
  }

  predicate ValidFor(d: Definition, v: Value) { Check(d, v, 0, 4096).Some? }

  // ---- what a definition asks for ----

  /** The member at `j` is the one with that name. */
  predicate Names(ds: seq<Member>, name: bytes, j: nat) {
    j < |ds| && ds[j].name == name && forall i :: 0 <= i < j ==> ds[i].name != name
  }

  /** A value of the kind and range a definition asks for, with exactly its members, within its length or capacity, with
      distinct items in a set and proper keys in a map. */
  ghost predicate Conforms(d: Definition, v: Value)
    decreases v
  {
    match v
    case Int(n) => d.kind == Integer && d.minimum <= n <= d.maximum
    case Num(x) => d.kind == Number && Finite(x)
    case Bool(_) => d.kind == Boolean
    case Str(s) => d.kind == Text && |s| <= 65536
    case Struct(fs) =>
      && d.kind == Structure && |fs| == |d.fields|
      && (forall i :: 0 <= i < |fs| ==> ConformsMember(d.fields, fs[i]))
    case Array(xs) =>
      && d.element.Some? && (forall i :: 0 <= i < |xs| ==> Conforms(d.element.value, xs[i]))
      && (|| (d.kind == FixedArray && |xs| == d.length) || (d.kind == List && |xs| <= d.maxItems)
          || (d.kind == Unique && |xs| <= d.maxItems && forall i, j :: 0 <= i < j < |xs| ==> !Same(xs[j], xs[i])))
    case Map(es) =>
      && d.kind == Dictionary && d.element.Some? && |es| <= d.maxItems
      && (forall i :: 0 <= i < |es| ==>
            0 < |es[i].name| <= 127 && 0 !in es[i].name && Conforms(d.element.value, es[i].value))
  }

  ghost predicate ConformsFields(ds: seq<Member>, fs: seq<Field>) {
    forall i :: 0 <= i < |fs| ==> ConformsMember(ds, fs[i])
  }

  /** The definition has a member of that name, and the value conforms to it. */
  ghost predicate ConformsMember(ds: seq<Member>, f: Field)
    decreases f
  {
    exists j: nat :: Names(ds, f.name, j) && Conforms(ds[j].def, f.value)
  }

  lemma {:induction false} MemberFound(ds: seq<Member>, name: bytes) returns (j: nat)
    ensures FindMember(ds, name).Some? ==> Names(ds, name, j) && FindMember(ds, name).value == ds[j].def
    ensures FindMember(ds, name).None? ==> forall i :: 0 <= i < |ds| ==> ds[i].name != name
    decreases ds
  {
    if ds == [] || ds[0].name == name {
      j := 0;
    } else {
      var i := MemberFound(ds[1..], name);
      j := i + 1;
      if FindMember(ds, name).Some? {
        assert forall t :: 0 < t < j ==> ds[t] == ds[1..][t - 1];
      } else {
        assert forall t :: 0 < t < |ds| ==> ds[t] == ds[1..][t - 1];
      }
    }
  }

  lemma MemberExact(ds: seq<Member>, f: Field)
    ensures ConformsMember(ds, f) <==> FindMember(ds, f.name).Some? && Conforms(FindMember(ds, f.name).value, f.value)
  {
    hide Conforms;
    var j := MemberFound(ds, f.name);
    if ConformsMember(ds, f) {
      var i: nat :| Names(ds, f.name, i) && Conforms(ds[i].def, f.value);
      assert FindMember(ds, f.name).Some?;
      assert !(i < j) && !(j < i);
    }
  }

  /** What is left of a budget of nodes, if the value conforms and is neither too deep nor too large. */
  ghost function Spent(conforms: bool, deep: int, nodes: nat, left: nat): Option<nat> {
    if conforms && deep <= 8 && nodes <= left then Some(left - nodes) else None
  }

  /** `valid` is true exactly of the values that conform, are at most eight levels deep and have no more nodes than are
      left, and takes exactly their nodes. */
  lemma {:induction false} CheckExact(d: Definition, v: Value, depth: nat, left: nat)
    ensures Check(d, v, depth, left) == Spent(Conforms(d, v), depth + Height(v), Nodes(v), left)
    decreases v, 1
  {
    hide Check, Conforms, Spent, Height, Nodes;
    match v {
      case Struct(fs) =>
        if depth <= 8 && left > 0 { CheckFieldsExact(d.fields, fs, depth + 1, left - 1); }
        CheckStruct(d, fs, depth, left);
      case Array(xs) =>
        if depth <= 8 && left > 0 && d.element.Some? { CheckItemsExact(d.element.value, xs, depth + 1, left - 1); }
        CheckArray(d, xs, depth, left);
      case Map(es) =>
        if depth <= 8 && left > 0 && d.element.Some? { CheckEntriesExact(d.element.value, es, depth + 1, left - 1); }
        CheckMap(d, es, depth, left);
      case _ => CheckScalar(d, v, depth, left);
    }
  }

  lemma CheckScalar(d: Definition, v: Value, depth: nat, left: nat)
    requires !v.Struct? && !v.Array? && !v.Map?
    ensures Check(d, v, depth, left) == Spent(Conforms(d, v), depth + Height(v), Nodes(v), left)
  {
  }

  lemma CheckStruct(d: Definition, fs: seq<Field>, depth: nat, left: nat)
    requires depth <= 8 && left > 0 ==>
      CheckFields(d.fields, fs, depth + 1, left - 1)
      == if fs == [] then Some(left - 1)
         else Spent(ConformsFields(d.fields, fs), depth + FieldsHeight(fs), FieldsNodes(fs), left - 1)
    ensures Check(d, Struct(fs), depth, left)
      == Spent(Conforms(d, Struct(fs)), depth + Height(Struct(fs)), Nodes(Struct(fs)), left)
  {
    hide CheckFields, FieldsHeight, FieldsNodes;
    NoFields(fs);
  }

  lemma NoFields(fs: seq<Field>)
    ensures fs == [] ==> FieldsHeight(fs) == 0 && FieldsNodes(fs) == 0
  {
  }

  lemma CheckArray(d: Definition, xs: seq<Value>, depth: nat, left: nat)
    requires depth <= 8 && left > 0 && d.element.Some? ==>
      CheckItems(d.element.value, xs, depth + 1, left - 1)
      == if xs == [] then Some(left - 1)
         else Spent(forall i :: 0 <= i < |xs| ==> Conforms(d.element.value, xs[i]), depth + ItemsHeight(xs),
                    ItemsNodes(xs), left - 1)
    ensures Check(d, Array(xs), depth, left)
      == Spent(Conforms(d, Array(xs)), depth + Height(Array(xs)), Nodes(Array(xs)), left)
  {
    hide CheckItems;
  }

  lemma CheckMap(d: Definition, es: seq<Field>, depth: nat, left: nat)
    requires depth <= 8 && left > 0 && d.element.Some? ==>
      CheckEntries(d.element.value, es, depth + 1, left - 1)
      == if es == [] then Some(left - 1)
         else Spent(ConformsEntries(d.element.value, es), depth + FieldsHeight(es), FieldsNodes(es), left - 1)
    ensures Check(d, Map(es), depth, left)
      == Spent(Conforms(d, Map(es)), depth + Height(Map(es)), Nodes(Map(es)), left)
  {
    hide CheckEntries, FieldsHeight, FieldsNodes;
    NoFields(es);
  }

  lemma {:induction false} CheckFieldsExact(ds: seq<Member>, fs: seq<Field>, depth: nat, left: nat)
    requires depth > 0
    ensures CheckFields(ds, fs, depth, left)
      == if fs == [] then Some(left)
         else Spent(ConformsFields(ds, fs), depth - 1 + FieldsHeight(fs), FieldsNodes(fs), left)
    decreases fs, 0
  {
    hide Conforms, Check, ConformsMember;
    if fs != [] {
      MemberExact(ds, fs[0]);
      assert ConformsFields(ds, fs) <==> ConformsMember(ds, fs[0]) && ConformsFields(ds, fs[1..]) by {
        assert fs == [fs[0]] + fs[1..];
      }
      var d := FindMember(ds, fs[0].name);
      if d.Some? {
        CheckExact(d.value, fs[0].value, depth, left);
        var rest := Check(d.value, fs[0].value, depth, left);
        if rest.Some? { CheckFieldsExact(ds, fs[1..], depth, rest.value); }
      }
    }
  }

  lemma {:induction false} CheckItemsExact(d: Definition, xs: seq<Value>, depth: nat, left: nat)
    requires depth > 0
    ensures CheckItems(d, xs, depth, left)
      == if xs == [] then Some(left)
         else Spent(forall i :: 0 <= i < |xs| ==> Conforms(d, xs[i]), depth - 1 + ItemsHeight(xs), ItemsNodes(xs), left)
    decreases xs, 0
  {
    hide Conforms, Check;
    if xs != [] {
      assert (forall i :: 0 <= i < |xs| ==> Conforms(d, xs[i]))
        <==> Conforms(d, xs[0]) && forall i :: 0 <= i < |xs[1..]| ==> Conforms(d, xs[1..][i]) by {
        assert xs == [xs[0]] + xs[1..];
      }
      CheckExact(d, xs[0], depth, left);
      var rest := Check(d, xs[0], depth, left);
      if rest.Some? { CheckItemsExact(d, xs[1..], depth, rest.value); }
    }
  }

  ghost predicate ConformsEntries(d: Definition, es: seq<Field>) {
    forall i :: 0 <= i < |es| ==> ValidKey(es[i].name) && Conforms(d, es[i].value)
  }

  lemma {:induction false} CheckEntriesExact(d: Definition, es: seq<Field>, depth: nat, left: nat)
    requires depth > 0
    ensures CheckEntries(d, es, depth, left)
      == if es == [] then Some(left)
         else Spent(ConformsEntries(d, es), depth - 1 + FieldsHeight(es), FieldsNodes(es), left)
    decreases es, 0
  {
    hide Conforms, Check, ValidKey;
    if es != [] {
      assert ConformsEntries(d, es)
        <==> ValidKey(es[0].name) && Conforms(d, es[0].value) && ConformsEntries(d, es[1..]) by {
        assert es == [es[0]] + es[1..];
      }
      CheckExact(d, es[0].value, depth, left);
      var rest := Check(d, es[0].value, depth, left);
      if rest.Some? { CheckEntriesExact(d, es[1..], depth, rest.value); }
    }
  }

  /** A value an attribute may take. */
  ghost predicate Allowed(d: Definition, v: Value) { Conforms(d, v) && Height(v) <= 8 && Nodes(v) <= 4096 }

  lemma ValidForExact(d: Definition, v: Value)
    ensures ValidFor(d, v) <==> Allowed(d, v)
  {
    hide Conforms, Check;
    CheckExact(d, v, 0, 4096);
  }

  // ---- equal values pass the same checks ----

  lemma SameDistinct(a: seq<Value>, b: seq<Value>)
    requires SameItems(a, b) && Distinct(a)
    ensures Distinct(b)
  {
    forall i, j | 0 <= j < i < |b|
      ensures !Same(b[i], b[j])
    {
      if Same(b[i], b[j]) {
        SameTransitive(a[i], b[i], b[j]);
        SameSymmetric(a[j], b[j]);
        SameTransitive(a[i], b[j], a[j]);
      }
    }
  }

  lemma {:induction false} SameCheck(d: Definition, a: Value, b: Value, depth: nat, left: nat)
    requires Same(a, b)
    ensures Check(d, a, depth, left) == Check(d, b, depth, left)
    decreases a, 1
  {
    if depth <= 8 && left > 0 {
      match a {
        case Struct(fs) => SameCheckFields(d.fields, fs, b.fields, depth + 1, left - 1);
        case Array(xs) =>
          if Distinct(xs) { SameDistinct(xs, b.items); }
          if Distinct(b.items) {
            forall i | 0 <= i < |xs| ensures Same(b.items[i], xs[i]) { SameSymmetric(xs[i], b.items[i]); }
            SameDistinct(b.items, xs);
          }
          if d.element.Some? { SameCheckItems(d.element.value, xs, b.items, depth + 1, left - 1); }
        case Map(es) => if d.element.Some? { SameCheckEntries(d.element.value, es, b.entries, depth + 1, left - 1); }
        case Num(x) => assert Finite(0) && Finite(SIGN);
        case _ =>
      }
    }
  }

  lemma {:induction false} SameCheckFields(ds: seq<Member>, a: seq<Field>, b: seq<Field>, depth: nat, left: nat)
    requires SameFields(a, b)
    ensures CheckFields(ds, a, depth, left) == CheckFields(ds, b, depth, left)
    decreases a, 0
  {
    if a != [] {
      var d := FindMember(ds, a[0].name);
      if d.Some? {
        SameCheck(d.value, a[0].value, b[0].value, depth, left);
        var rest := Check(d.value, a[0].value, depth, left);
        if rest.Some? { SameCheckFields(ds, a[1..], b[1..], depth, rest.value); }
      }
    }
  }

  lemma {:induction false} SameCheckItems(d: Definition, a: seq<Value>, b: seq<Value>, depth: nat, left: nat)
    requires SameItems(a, b)
    ensures CheckItems(d, a, depth, left) == CheckItems(d, b, depth, left)
    decreases a, 0
  {
    if a != [] {
      SameCheck(d, a[0], b[0], depth, left);
      var rest := Check(d, a[0], depth, left);
      if rest.Some? { SameCheckItems(d, a[1..], b[1..], depth, rest.value); }
    }
  }

  lemma {:induction false} SameCheckEntries(d: Definition, a: seq<Field>, b: seq<Field>, depth: nat, left: nat)
    requires SameFields(a, b)
    ensures CheckEntries(d, a, depth, left) == CheckEntries(d, b, depth, left)
    decreases a, 0
  {
    if a != [] {
      SameCheck(d, a[0].value, b[0].value, depth, left);
      var rest := Check(d, a[0].value, depth, left);
      if rest.Some? { SameCheckEntries(d, a[1..], b[1..], depth, rest.value); }
    }
  }

  // ---- stage ----

  datatype Mutation = Mutation(expected: nat, values: seq<Field>)

  /** Why one submitted root is refused, if it is. */
  function Refusal(schema: Schema, who: Who, f: Field): Option<Failure> {
    if f.name !in schema then Some(OutOfRange)
    else
      var a := schema[f.name];
      if !Writes(if who.server then a.server else a.client) then Some(Denied)
      else if !ValidFor(a.def, f.value) then Some(Invalid)
      else None
  }

  predicate Admitted(schema: Schema, who: Who, fs: seq<Field>) {
    |fs| <= |schema| && who.current && forall i :: 0 <= i < |fs| ==> Refusal(schema, who, fs[i]).None?
  }

  /** The root at `i` is the first at fault: unknown, not writable by this side, or not a value it may take. */
  ghost predicate FaultAt(schema: Schema, who: Who, fs: seq<Field>, i: nat, e: Failure)
    requires i < |fs|
  {
    && (forall j :: 0 <= j < i ==> Refusal(schema, who, fs[j]).None?)
    && if fs[i].name !in schema then e == OutOfRange
       else if (if who.server then schema[fs[i].name].server else schema[fs[i].name].client) in {NoAccess, Access.Read}
       then
         e == Denied
       else e == Invalid && !Allowed(schema[fs[i].name].def, fs[i].value)
  }

  /** Values equal root by root are admitted together. */
  lemma SameAdmitted(schema: Schema, who: Who, a: seq<Field>, b: seq<Field>)
    requires SameFields(a, b) && Admitted(schema, who, a)
    ensures Admitted(schema, who, b)
  {
    hide Check;
    forall i | 0 <= i < |b|
      ensures Refusal(schema, who, b[i]).None?
    {
      assert Refusal(schema, who, a[i]).None?;
      SameCheck(schema[a[i].name].def, a[i].value, b[i].value, 0, 4096);
    }
  }

  // ---- publish ----

  predicate Known(schema: Schema, fs: seq<Field>) {
    forall i :: 0 <= i < |fs| ==> fs[i].name in schema && ValidFor(schema[fs[i].name].def, fs[i].value)
  }

  lemma KnownExact(schema: Schema, fs: seq<Field>)
    ensures Known(schema, fs) <==>
      forall i :: 0 <= i < |fs| ==> fs[i].name in schema && Allowed(schema[fs[i].name].def, fs[i].value)
  {
    hide Allowed, ValidFor;
    forall i | 0 <= i < |fs| && fs[i].name in schema
      ensures ValidFor(schema[fs[i].name].def, fs[i].value) <==> Allowed(schema[fs[i].name].def, fs[i].value)
    {
      ValidForExact(schema[fs[i].name].def, fs[i].value);
    }
  }

  /** The fields that differ from the published image. */
  function Prepared(values: seq<Field>, fs: seq<Field>): seq<Field> {
    if fs == [] then []
    else
      (if Has(values, fs[0].name) && Same(Lookup(values, fs[0].name).value, fs[0].value) then [] else [fs[0]])
      + Prepared(values, fs[1..])
  }

  /** What publishing `fs` over `was` leaves at root `k`: the old value if it was equal, else the submitted one. */
  predicate Published(was: seq<Field>, fs: seq<Field>, now: seq<Field>, k: bytes) {
    if Has(fs, k) && !(Has(was, k) && Same(Lookup(was, k).value, Lookup(fs, k).value)) then
      Lookup(now, k) == Lookup(fs, k)
    else Lookup(now, k) == Lookup(was, k)
  }

  ghost predicate Swapped(was: seq<Field>, prepared: seq<Field>, now: seq<Field>) {
    forall k :: Lookup(now, k) == if Has(prepared, k) then Lookup(prepared, k) else Lookup(was, k)
  }

  lemma PublishedFrom(was: seq<Field>, fs: seq<Field>, now: seq<Field>)
    requires Sorted(fs) && Swapped(was, Prepared(was, fs), now)
    ensures forall k :: Published(was, fs, now, k)
  {
    hide Same, Lookup, Prepared;
    forall k ensures Published(was, fs, now, k) { PreparedLookup(was, fs, k); }
  }

  /** A root whose stamp is no later than a revision has the value it had then. */
  ghost predicate Stamped(images: map<nat, seq<Field>>, modified: map<bytes, nat>, values: seq<Field>, revision: nat) {
    && (forall k :: Has(values, k) ==> k in modified)
    && (forall n :: n in images ==> n <= revision && Sorted(images[n]) && StampedAt(images[n], modified, values, n))
  }

  ghost predicate StampedAt(image: seq<Field>, modified: map<bytes, nat>, values: seq<Field>, n: nat) {
    forall k ::
      && (Has(image, k) <==> Has(values, k))
      && (k in modified && modified[k] <= n ==> Lookup(image, k) == Lookup(values, k))
  }

  /** The roots stamped after a revision, of those that are visible. */
  function Recent(fs: seq<Field>, modified: map<bytes, nat>, visible: set<bytes>, since: nat): seq<Field> {
    if fs == [] then []
    else
      (if fs[0].name in visible && fs[0].name in modified && modified[fs[0].name] > since then [fs[0]] else [])
      + Recent(fs[1..], modified, visible, since)
  }

  class EntityAttributes {
    const schema: Schema
    var values: seq<Field>
    var revision: nat
    var modified: map<bytes, nat>
    ghost var images: map<nat, seq<Field>> // the values at every revision there has been

    /** Exactly the schema's attributes have values, and every value satisfies its definition. */
    ghost predicate Valid()
      reads this
    {
      && Sorted(values) && Known(schema, values) && revision < U64 && modified.Keys == schema.Keys
      && (forall k :: k in schema ==> Has(values, k)) && Stamped(images, modified, values, revision)
    }

    constructor (schema: Schema, initial: seq<Field>)
      requires Sorted(initial) && Known(schema, initial) && forall k :: k in schema ==> Has(initial, k)
      ensures Valid() && this.schema == schema && values == initial && revision == 0 && images == map[0 := initial]
    {
      forall k | Has(initial, k) ensures k in schema { var i := LookupFinds(initial, k); }
      this.schema, values, revision := schema, initial, 0;
      modified := map k | k in schema :: 0;
      images := map[0 := initial];
    }

    /** `stage`: success exactly when the caller is who it claims to be, there are no more roots than attributes, its
        own side may write every root, and every value is allowed there; the mutation carries the values as submitted.
        The first root at fault decides the error. */
    method Stage(fields: seq<Field>, who: Who) returns (r: Result<Mutation>)
      ensures r.Ok? <==> Admitted(schema, who, fields)
      ensures r.Ok? <==>
        && who.current && |fields| <= |schema|
        && (forall i :: 0 <= i < |fields| ==>
              && fields[i].name in schema && Allowed(schema[fields[i].name].def, fields[i].value)
              && (if who.server then schema[fields[i].name].server else schema[fields[i].name].client)
                 in {Write, ReadWrite})
      ensures r.Ok? ==> r.value == Mutation(revision, fields)
      ensures |fields| > |schema| ==> r == Err(Invalid)
      ensures |fields| <= |schema| && !who.current ==> r == Err(Denied)
      ensures r.Err? && |fields| <= |schema| && who.current ==>
        exists i :: 0 <= i < |fields| && FaultAt(schema, who, fields, i, r.error)
    {
      hide Check, Allowed;
      forall i | 0 <= i < |fields| && fields[i].name in schema
        ensures ValidFor(schema[fields[i].name].def, fields[i].value)
          <==> Allowed(schema[fields[i].name].def, fields[i].value)
      {
        ValidForExact(schema[fields[i].name].def, fields[i].value);
      }
      if |fields| > |schema| { return Err(Invalid); }
      if !who.current { return Err(Denied); }
      var i := 0;
      while i < |fields|
        invariant 0 <= i <= |fields|
        invariant forall j :: 0 <= j < i ==> Refusal(schema, who, fields[j]).None?
      {
        var refused := Refusal(schema, who, fields[i]);
        if refused.Some? {
          assert FaultAt(schema, who, fields, i, refused.value);
          return Err(refused.value);
        }
        i := i + 1;
      }
      r := Ok(Mutation(revision, fields));
    }

    /** `publish`: a stale or failing mutation changes nothing; otherwise every submitted root ends equal to its
        submitted value, every other root is untouched, and the revision moves by one exactly when something differed.
        */
    method Publish(m: Mutation) returns (r: Result<bool>)
      requires Valid() && Sorted(m.values)
      modifies this
      ensures Valid()
      ensures r == Ok(false) <==> m.expected != old(revision)
      ensures r != Ok(true) ==> unchanged(this)
      ensures r.Err? <==>
        && m.expected == old(revision)
        && (|| old(revision) == U64 - 1
            || exists i :: 0 <= i < |m.values|
                 && !(m.values[i].name in schema && Allowed(schema[m.values[i].name].def, m.values[i].value)))
      ensures r == Ok(true) ==> revision == old(revision) + (if Prepared(old(values), m.values) == [] then 0 else 1)
      ensures r == Ok(true) ==> forall k :: Published(old(values), m.values, values, k)
      ensures r == Ok(true) && revision != old(revision) ==> images == old(images)[revision := values]
      ensures revision == old(revision) ==> images == old(images) && modified == old(modified)
    {
      hide Check, Lookup, Assign, Sorted, Same, Prepared, Stamped, Allowed;
      KnownExact(schema, m.values);
      if m.expected != revision { return Ok(false); }
      if revision == U64 - 1 { return Err(Exhausted); }
      var i := 0;
      while i < |m.values|
        invariant 0 <= i <= |m.values|
        invariant Known(schema, m.values[..i])
      {
        assert m.values[i] in m.values;
        if m.values[i].name !in schema || !ValidFor(schema[m.values[i].name].def, m.values[i].value) {
          return Err(if m.values[i].name !in schema then OutOfRange else Invalid);
        }
        assert m.values[..i + 1] == m.values[..i] + [m.values[i]];
        i := i + 1;
      }
      assert m.values[..i] == m.values;
      var prepared := CollectChanges(m.values);
      PreparedFields(values, m.values);
      ghost var was := values;
      if prepared != [] {
        SwapIn(prepared);
        NowStamped(images, modified, values, revision);
        revision, images := revision + 1, images[revision + 1 := values];
      }
      NoLookups(prepared);
      assert prepared == [] ==> prepared[..0] == prepared;
      assert Swapped(was, prepared, values);
      PublishedFrom(was, m.values, values);
      r := Ok(true);
    }

    /** `changes`: a snapshot for a revision that has not been; otherwise the visible roots stamped since, which turn
        what was visible at that revision into what is visible now. */
    method Changes(since: nat, visible: set<bytes>) returns (u: U.Update)
      requires Valid()
      ensures since > revision ==> u == U.Update(0, revision, true, Project(values, visible), [])
      ensures since <= revision ==> u == U.Update(since, revision, false, u.values, [])
      ensures since in images ==> A.Overlay(Project(images[since], visible), u.values) == Project(values, visible)
    {
      hide Check, Sorted, Same, Stamped, Known, Lookup, A.Overlay;
      var picked: seq<Field>, i := [], 0;
      assert values[0..] == values;
      while i < |values|
        invariant 0 <= i <= |values|
        invariant since > revision ==> picked + Project(values[i..], visible) == Project(values, visible)
        invariant since <= revision ==>
          picked + Recent(values[i..], modified, visible, since) == Recent(values, modified, visible, since)
      {
        var f := values[i];
        assert values[i..][0] == f && values[i..][1..] == values[i + 1..];
        if f.name in visible && (since > revision || (f.name in modified && modified[f.name] > since)) {
          picked := picked + [f];
        }
        i := i + 1;
      }
      assert values[i..] == [] && picked + [] == picked;
      var full := since > revision;
      u := U.Update(if full then 0 else since, revision, full, picked, []);
      if since in images { SinceCompletes(images, modified, values, revision, visible, since); }
    }

    method CollectChanges(fields: seq<Field>) returns (prepared: seq<Field>)
      ensures prepared == Prepared(values, fields)
    {
      hide Same, Lookup;
      prepared := [];
      var i := 0;
      assert fields[0..] == fields;
      while i < |fields|
        invariant 0 <= i <= |fields| && prepared + Prepared(values, fields[i..]) == Prepared(values, fields)
      {
        assert fields[i..][0] == fields[i] && fields[i..][1..] == fields[i + 1..];
        if !(Has(values, fields[i].name) && Same(Lookup(values, fields[i].name).value, fields[i].value)) {
          prepared := prepared + [fields[i]];
        }
        i := i + 1;
      }
    }

    /** Moves the prepared fields in and stamps them with the next revision. */
    method SwapIn(prepared: seq<Field>)
      requires Valid() && Sorted(prepared) && Known(schema, prepared)
      modifies `values, `modified
      ensures Valid() && Swapped(old(values), prepared, values)
    {
      hide Check, Assign, Sorted, Lookup, Stamped;
      var i := 0;
      NoLookups(prepared);
      while i < |prepared|
        invariant 0 <= i <= |prepared| && Valid()
        invariant Swapped(old(values), prepared[..i], values)
      {
        var f := prepared[i];
        ghost var was := values;
        AssignSorted(values, f.name, f.value);
        AssignKnown(schema, values, f);
        SwapStep(old(values), prepared, i, values);
        StampStep(images, modified, values, f, revision);
        values, modified := Assign(values, f.name, f.value), modified[f.name := revision + 1];
        i := i + 1;
      }
      assert prepared[..i] == prepared;
    }
  }

  lemma StampStep(images: map<nat, seq<Field>>, modified: map<bytes, nat>, values: seq<Field>, f: Field, revision: nat)
    requires Stamped(images, modified, values, revision) && Sorted(values) && Has(values, f.name)
    ensures Stamped(images, modified[f.name := revision + 1], Assign(values, f.name, f.value), revision)
  {
    hide Sorted, Lookup, Assign;
    var stamps, now := modified[f.name := revision + 1], Assign(values, f.name, f.value);
    forall k ensures Lookup(now, k) == if k == f.name then Some(f.value) else Lookup(values, k) {
      AssignLookup(values, f.name, f.value, k);
    }
    forall n | n in images ensures StampedAt(images[n], stamps, now, n) {
      assert StampedAt(images[n], modified, values, n);
    }
  }

  lemma NowStamped(images: map<nat, seq<Field>>, modified: map<bytes, nat>, values: seq<Field>, revision: nat)
    requires Stamped(images, modified, values, revision) && Sorted(values)
    ensures Stamped(images[revision + 1 := values], modified, values, revision + 1)
  {
    hide Sorted, Lookup;
  }

  lemma {:induction false} RecentLookup(fs: seq<Field>, modified: map<bytes, nat>, visible: set<bytes>, since: nat,
                                        k: bytes)
    requires Sorted(fs)
    ensures Sorted(Recent(fs, modified, visible, since))
    ensures forall key :: Below(key, fs) ==> Below(key, Recent(fs, modified, visible, since))
    ensures Lookup(Recent(fs, modified, visible, since), k)
      == if k in visible && k in modified && modified[k] > since then Lookup(fs, k) else None
    decreases fs
  {
    if fs != [] {
      var f, rest := fs[0], Recent(fs[1..], modified, visible, since);
      assert fs == [f] + fs[1..];
      SortedCons(f, fs[1..]);
      RecentLookup(fs[1..], modified, visible, since, k);
      forall key | Below(key, fs) ensures Below(key, fs[1..]) {
        assert forall i :: 0 <= i < |fs[1..]| ==> fs[1..][i] == fs[i + 1];
      }
      if f.name in visible && f.name in modified && modified[f.name] > since {
        SortedCons(f, rest);
        assert Recent(fs, modified, visible, since)[1..] == rest;
      } else {
        assert Recent(fs, modified, visible, since) == rest;
      }
      if k == f.name { BelowLookup(k, fs[1..]); }
    }
  }

  /** What changed since a revision, laid over what was visible then, is what is visible now. */
  lemma SinceCompletes(images: map<nat, seq<Field>>, modified: map<bytes, nat>, values: seq<Field>, revision: nat,
                       visible: set<bytes>, since: nat)
    requires Stamped(images, modified, values, revision) && Sorted(values) && since in images
    ensures since <= revision
    ensures A.Overlay(Project(images[since], visible), Recent(values, modified, visible, since))
      == Project(values, visible)
  {
    hide Sorted, Recent, Project, A.Overlay, StampedAt;
    RecentCompletes(images[since], modified, values, visible, since);
  }

  lemma RecentCompletes(image: seq<Field>, modified: map<bytes, nat>, values: seq<Field>, visible: set<bytes>,
                        since: nat)
    requires Sorted(image) && Sorted(values) && StampedAt(image, modified, values, since)
    requires forall k :: Has(values, k) ==> k in modified
    ensures A.Overlay(Project(image, visible), Recent(values, modified, visible, since)) == Project(values, visible)
  {
    hide Sorted, Lookup, Recent, Project, A.Overlay;
    var was, now, recent := Project(image, visible), Project(values, visible), Recent(values, modified, visible, since);
    ProjectLookup(image, visible, []);
    ProjectLookup(values, visible, []);
    RecentLookup(values, modified, visible, since, []);
    O.OverlayLookup(was, recent, []);
    forall k ensures Lookup(A.Overlay(was, recent), k) == Lookup(now, k) {
      ProjectLookup(image, visible, k);
      ProjectLookup(values, visible, k);
      RecentLookup(values, modified, visible, since, k);
      O.OverlayLookup(was, recent, k);
      assert (Has(image, k) <==> Has(values, k));
      assert (k in modified && modified[k] <= since ==> Lookup(image, k) == Lookup(values, k));
    }
    O.LookupsEqual(A.Overlay(was, recent), now);
  }

  lemma NoLookups(fs: seq<Field>)
    ensures forall k :: !Has(fs[..0], k)
  {
  }

  lemma {:induction false} AppendLookup(fs: seq<Field>, f: Field, k: bytes)
    ensures Lookup(fs + [f], k) == if Has(fs, k) then Lookup(fs, k) else if k == f.name then Some(f.value) else None
    decreases fs
  {
    if fs != [] {
      assert (fs + [f])[1..] == fs[1..] + [f];
      AppendLookup(fs[1..], f, k);
    } else {
      assert (fs + [f])[1..] == [];
    }
  }

  predicate Extends(now: seq<Field>, was: seq<Field>, f: Field, k: bytes) {
    Lookup(now, k) == if k == f.name then Some(f.value) else Lookup(was, k)
  }

  lemma NextLookupAt(fs: seq<Field>, i: nat, k: bytes)
    requires i < |fs| && Sorted(fs)
    ensures Extends(fs[..i + 1], fs[..i], fs[i], k)
  {
    assert fs[..i + 1] == fs[..i] + [fs[i]];
    AppendLookup(fs[..i], fs[i], k);
    if k == fs[i].name && Has(fs[..i], k) {
      var j := LookupFinds(fs[..i], k);
      assert Less(fs[j].name, fs[i].name);
      LessIrreflexive(k);
      assert false;
    }
  }

  lemma SwapStep(was: seq<Field>, prepared: seq<Field>, i: nat, now: seq<Field>)
    requires i < |prepared| && Sorted(prepared) && Sorted(now) && Swapped(was, prepared[..i], now)
    ensures Swapped(was, prepared[..i + 1], Assign(now, prepared[i].name, prepared[i].value))
    ensures forall k :: Has(now, k) ==> Has(Assign(now, prepared[i].name, prepared[i].value), k)
  {
    hide Lookup, Assign;
    var f := prepared[i];
    var next := Assign(now, f.name, f.value);
    forall k
      ensures Lookup(next, k) == (if Has(prepared[..i + 1], k) then Lookup(prepared[..i + 1], k) else Lookup(was, k))
      ensures Has(now, k) ==> Has(next, k)
    {
      AssignLookup(now, f.name, f.value, k);
      NextLookupAt(prepared, i, k);
      assert Lookup(now, k) == if Has(prepared[..i], k) then Lookup(prepared[..i], k) else Lookup(was, k);
    }
  }

  lemma {:induction false} AssignKnown(schema: Schema, fs: seq<Field>, f: Field)
    requires Known(schema, fs) && f.name in schema && ValidFor(schema[f.name].def, f.value)
    ensures Known(schema, Assign(fs, f.name, f.value))
    decreases fs
  {
    hide Check, Less;
    var a := Assign(fs, f.name, f.value);
    var inner := fs != [] && !Less(f.name, fs[0].name) && fs[0].name != f.name;
    if inner { AssignKnown(schema, fs[1..], f); }
    forall i | 0 <= i < |a| ensures a[i].name in schema && ValidFor(schema[a[i].name].def, a[i].value) {
      if inner {
        assert i > 0 ==> a[i] == Assign(fs[1..], f.name, f.value)[i - 1];
      } else {
        assert a[i] == Field(f.name, f.value) || a[i] in fs;
      }
    }
  }

  lemma {:induction false} PreparedFields(values: seq<Field>, fs: seq<Field>)
    requires Sorted(fs)
    ensures Sorted(Prepared(values, fs))
    ensures forall i :: 0 <= i < |Prepared(values, fs)| ==> Prepared(values, fs)[i] in fs
    decreases fs
  {
    hide Same, Lookup;
    if fs != [] {
      assert fs == [fs[0]] + fs[1..];
      SortedCons(fs[0], fs[1..]);
      PreparedFields(values, fs[1..]);
      assert Below(fs[0].name, Prepared(values, fs[1..]));
      SortedCons(fs[0], Prepared(values, fs[1..]));
    }
  }

  lemma {:induction false} PreparedLookup(values: seq<Field>, fs: seq<Field>, k: bytes)
    requires Sorted(fs)
    ensures Lookup(Prepared(values, fs), k) ==
      if Has(fs, k) && !(Has(values, k) && Same(Lookup(values, k).value, Lookup(fs, k).value)) then Lookup(fs, k)
      else None
    decreases fs
  {
    hide Same;
    if fs != [] {
      assert fs == [fs[0]] + fs[1..];
      SortedCons(fs[0], fs[1..]);
      PreparedLookup(values, fs[1..], k);
      if k == fs[0].name { BelowLookup(k, fs[1..]); }
      var rest := Prepared(values, fs[1..]);
      assert Prepared(values, fs) == rest || Prepared(values, fs)[1..] == rest;
    }
  }
}
