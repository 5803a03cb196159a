/** Byte strings, big-endian integers and the lexicographic key order of `std::map<std::string, _>`. */
module Bytes {

  type byte = x: int | 0 <= x < 256
  type bytes = seq<byte>

  const U64: nat := 0x1_0000_0000_0000_0000
  const INT64_MAX: nat := 0x7FFF_FFFF_FFFF_FFFF

  /** The exception families the source distinguishes when it catches. */
  datatype Failure =
    | Invalid      // std::invalid_argument, std::runtime_error
    | TooLong      // std::length_error
    | OutOfRange   // std::out_of_range from `at`
    | WrongKind    // std::bad_variant_access from `std::get`
    | OverBudget   // AttributeReplicaBudget
    | Denied       // authorization failures
    | Exhausted    // std::overflow_error

  datatype Option<+T> = None | Some(value: T)

  datatype Result<+T> = Ok(value: T) | Err(error: Failure) {
    predicate IsFailure() { Err? }
    function PropagateFailure<U>(): Result<U>
      requires Err?
    {
      Err(error)
    }
    function Extract(): T
      requires Ok?
    {
      value
    }
  }

  function Pow256(k: nat): (p: nat)
    ensures p > 0
  {
    if k == 0 then 1 else 256 * Pow256(k - 1)
  }

  lemma Pow256Values()
    ensures Pow256(1) == 0x100 && Pow256(2) == 0x1_0000 && Pow256(4) == 0x1_0000_0000 && Pow256(8) == U64
  {
    assert Pow256(1) == 0x100;
    assert Pow256(2) == 0x1_0000;
    assert Pow256(3) == 0x100_0000;
    assert Pow256(4) == 0x1_0000_0000;
    assert Pow256(5) == 0x100_0000_0000;
    assert Pow256(6) == 0x1_0000_0000_0000;
    assert Pow256(7) == 0x100_0000_0000_0000;
  }

  /** The low `count` bytes of `n`, most significant first. */
  function Put(n: nat, count: nat): (r: bytes)
    ensures |r| == count
  {
    if count == 0 then [] else Put(n / 256, count - 1) + [n % 256]
  }

  /** The most significant byte comes first. */
  lemma NetworkOrder(n: nat)
    ensures Put(n, 2) == [n / 256 % 256, n % 256]
  {
    assert Put(n / 256, 1) == [n / 256 % 256];
  }

  /** The big-endian number spelled by all of `s`. */
  function Number(s: bytes): nat
  {
    if s == [] then 0 else Number(s[..|s| - 1]) * 256 + s[|s| - 1]
  }

  lemma {:induction false} NumberOfPut(n: nat, count: nat)
    requires n < Pow256(count)
    ensures Number(Put(n, count)) == n
  {
    if count > 0 {
      NumberOfPut(n / 256, count - 1);
      assert Put(n, count)[..count - 1] == Put(n / 256, count - 1);
    }
  }

  lemma {:induction false} NumberBound(s: bytes)
    ensures Number(s) < Pow256(|s|)
  {
    if s != [] {
      NumberBound(s[..|s| - 1]);
    }
  }

  /** A value read from the front of a buffer together with what is left of it. */
  datatype Read<+T> = Read(value: T, rest: bytes)

  /** Consumes a `count`-byte big-endian integer. */
  function Get(input: bytes, count: nat): (r: Result<Read<nat>>)
    ensures r.Ok? <==> |input| >= count
    ensures r.Ok? ==> r.value.rest == input[count..] && r.value.value < Pow256(count)
  {
    if |input| < count then Err(Invalid)
    else
      NumberBound(input[..count]);
      Ok(Read(Number(input[..count]), input[count..]))
  }

  lemma GetPut(n: nat, count: nat, rest: bytes)
    requires n < Pow256(count)
    ensures Get(Put(n, count) + rest, count) == Ok(Read(n, rest))
  {
    NumberOfPut(n, count);
    assert (Put(n, count) + rest)[..count] == Put(n, count);
    assert (Put(n, count) + rest)[count..] == rest;
  }

  /** Consumes exactly `n` bytes. */
  function Take(input: bytes, n: nat): (r: Result<Read<bytes>>)
    ensures r.Ok? <==> n <= |input|
    ensures r.Ok? ==> r.value.value == input[..n] && r.value.rest == input[n..]
  {
    if n > |input| then Err(Invalid) else Ok(Read(input[..n], input[n..]))
  }

  lemma TakeFront(s: bytes, rest: bytes)
    ensures Take(s + rest, |s|) == Ok(Read(s, rest))
  {
    assert (s + rest)[..|s|] == s;
    assert (s + rest)[|s|..] == rest;
  }

  /** Lexicographic order on unsigned bytes, the order `std::map` iterates its string keys in. */
  predicate Less(a: bytes, b: bytes) {
    b != [] && (a == [] || a[0] < b[0] || (a[0] == b[0] && Less(a[1..], b[1..])))
  }

  lemma {:induction false} LessTransitive(a: bytes, b: bytes, c: bytes)
    requires Less(a, b) && Less(b, c)
    ensures Less(a, c)
  {
    if a != [] && a[0] == b[0] && b[0] == c[0] {
      LessTransitive(a[1..], b[1..], c[1..]);
    }
  }

  lemma {:induction false} LessIrreflexive(a: bytes)
    ensures !Less(a, a)
  {
    if a != [] {
      LessIrreflexive(a[1..]);
    }
  }

  lemma {:induction false} LessTotal(a: bytes, b: bytes)
    ensures Less(a, b) || a == b || Less(b, a)
  {
    if a != [] && b != [] && a[0] == b[0] {
      LessTotal(a[1..], b[1..]);
      assert a == [a[0]] + a[1..] && b == [b[0]] + b[1..];
    }
  }
}
