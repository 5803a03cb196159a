/** The pieces records are framed from: integers, blobs, entity keys and keyed lists. */
module Framing {
  import opened Bytes

  const U32: nat := 0x1_0000_0000

  predicate StartsWith(input: bytes, magic: bytes) { |input| >= |magic| && input[..|magic|] == magic }

  /** A 32-bit length and the bytes. */
  function Blob(b: bytes): bytes { Put(|b|, 4) + b }

  function GetBlob(input: bytes): Result<Read<bytes>> {
    var size :- Get(input, 4);
    Take(size.rest, size.value)
  }

  /** A 64-bit length and the bytes, as timers are framed. */
  function LongBlob(b: bytes): bytes { Put(|b|, 8) + b }

  function GetLongBlob(input: bytes, maximum: nat): Result<Read<bytes>> {
    var size :- Get(input, 8);
    if size.value > maximum then Err(Invalid) else Take(size.rest, size.value)
  }

  function GetFlags(input: bytes, maximum: nat): Result<Read<nat>> {
    var flags :- Get(input, 1);
    if flags.value > maximum then Err(Invalid) else Ok(flags)
  }

  lemma BlobFront(b: bytes, rest: bytes)
    requires |b| < U32
    ensures GetBlob(Blob(b) + rest) == Ok(Read(b, rest))
  {
    hide Put, Get;
    Pow256Values();
    GetPut(|b|, 4, b + rest);
    assert Blob(b) + rest == Put(|b|, 4) + (b + rest);
    TakeFront(b, rest);
  }

  lemma LongBlobFront(b: bytes, rest: bytes, maximum: nat)
    requires |b| <= maximum < U64
    ensures GetLongBlob(LongBlob(b) + rest, maximum) == Ok(Read(b, rest))
  {
    hide Put, Get;
    Pow256Values();
    GetPut(|b|, 8, b + rest);
    assert LongBlob(b) + rest == Put(|b|, 8) + (b + rest);
    TakeFront(b, rest);
  }

  lemma IntegerFront(n: nat, rest: bytes)
    requires n < U64
    ensures Get(Put(n, 8) + rest, 8) == Ok(Read(n, rest))
  {
    Pow256Values();
    GetPut(n, 8, rest);
  }

  lemma NumberFront(n: nat, rest: bytes)
    requires n < U32
    ensures Get(Put(n, 4) + rest, 4) == Ok(Read(n, rest))
  {
    Pow256Values();
    GetPut(n, 4, rest);
  }

  lemma FlagsFront(n: nat, maximum: nat, rest: bytes)
    requires n <= maximum < 256
    ensures GetFlags([n] + rest, maximum) == Ok(Read(n, rest))
  {
    Pow256Values();
    assert Put(n, 1) == [n];
    GetPut(n, 1, rest);
  }

  // ---- names and entity keys ----

  /** A type or method name: non-empty, short, without dots or zeros. */
  predicate ValidPart(b: bytes) { 0 < |b| <= 127 && 0x2e !in b && 0 !in b }

  predicate ValidMethod(b: bytes) { ValidPart(b) && b[0] != 0x24 }

  predicate ValidEntity(kind: bytes, id: bytes) { ValidPart(kind) && 0 < |id| <= 256 }

  /** `encode_entity_key`. */
  function EntityKey(kind: bytes, id: bytes): bytes { Put(|kind|, 1) + kind + Put(|id|, 2) + id }

  datatype Entity = Entity(kind: bytes, id: bytes)

  /** `decode_entity_key`. */
  function GetEntity(input: bytes): Result<Read<Entity>> {
    var n :- Get(input, 1);
    var kind :- Take(n.rest, n.value);
    var m :- Get(kind.rest, 2);
    var id :- Take(m.rest, m.value);
    if ValidEntity(kind.value, id.value) then Ok(Read(Entity(kind.value, id.value), id.rest)) else Err(Invalid)
  }

  lemma EntityFront(kind: bytes, id: bytes, rest: bytes)
    requires ValidEntity(kind, id)
    ensures GetEntity(EntityKey(kind, id) + rest) == Ok(Read(Entity(kind, id), rest))
  {
    hide Put, Get;
    Pow256Values();
    var r := Put(|id|, 2) + (id + rest);
    GetPut(|kind|, 1, kind + r);
    TakeFront(kind, r);
    GetPut(|id|, 2, id + rest);
    TakeFront(id, rest);
    assert EntityKey(kind, id) + rest == Put(|kind|, 1) + (kind + r);
  }

  // ---- keyed lists ----

  datatype Entry<V> = Entry(key: bytes, value: V)

  predicate Rising<V>(es: seq<Entry<V>>) { forall i, j :: 0 <= i < j < |es| ==> Less(es[i].key, es[j].key) }

  /** `emplace`, refusing a key that is present. */
  function Emplace<V>(es: seq<Entry<V>>, key: bytes, v: V): Option<seq<Entry<V>>> {
    if es == [] || Less(key, es[0].key) then Some([Entry(key, v)] + es)
    else if es[0].key == key then None
    else match Emplace(es[1..], key, v)
      case None => None
      case Some(rest) => Some([es[0]] + rest)
  }

  lemma LessAsymmetric(a: bytes, b: bytes)
    requires Less(a, b)
    ensures a != b && !Less(b, a)
  {
    LessIrreflexive(a);
    if Less(b, a) { LessTransitive(a, b, a); }
  }

  lemma {:induction false} EmplaceLast<V>(es: seq<Entry<V>>, key: bytes, v: V)
    requires forall i :: 0 <= i < |es| ==> Less(es[i].key, key)
    ensures Emplace(es, key, v) == Some(es + [Entry(key, v)])
    decreases es
  {
    hide Less;
    var e := Entry(key, v);
    if es == [] {
      assert [e] + es == es + [e];
    } else {
      LessAsymmetric(es[0].key, key);
      EmplaceLast(es[1..], key, v);
      assert [es[0]] + (es[1..] + [e]) == es + [e];
    }
  }
}
