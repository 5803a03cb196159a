/** The versioned store under the protocol: `Memory::transact` and the compare-exchange made from it. */
module Database {
  import opened Bytes

  const MAX_VERSION: nat := INT64_MAX

  datatype Mutation = Mutation(key: bytes, expected: nat, value: Option<bytes>, checkOnly: bool)

  datatype Record = Record(value: bytes, version: nat)

  type Records = map<bytes, Record>

  /** Zero where there is no record. */
  function Version(rs: Records, key: bytes): nat { if key in rs then rs[key].version else 0 }

  predicate WellFormed(m: Mutation) {
    m.expected < MAX_VERSION && 0 < |m.key| <= 4096 && (m.value.Some? ==> |m.value.value| <= 16 * 1024 * 1024)
  }

  /** `validate`. */
  predicate ValidBatch(ms: seq<Mutation>) {
    && |ms| <= 1024 && (forall i :: 0 <= i < |ms| ==> WellFormed(ms[i]))
    && forall i, j :: 0 <= i < j < |ms| ==> ms[i].key != ms[j].key
  }

  predicate Passes(rs: Records, m: Mutation) {
    Version(rs, m.key) == m.expected && (m.checkOnly || m.value.Some? || m.expected != 0)
  }

  predicate AllPass(rs: Records, ms: seq<Mutation>) { forall i :: 0 <= i < |ms| ==> Passes(rs, ms[i]) }

  predicate Stamps(m: Mutation) { !m.checkOnly && m.value.Some? }

  /** How many of the first `n` mutations write a value and so take a version. */
  function Stamped(ms: seq<Mutation>, n: nat): (c: nat)
    requires n <= |ms|
    ensures c <= n
  {
    if n == 0 then 0 else Stamped(ms, n - 1) + (if Stamps(ms[n - 1]) then 1 else 0)
  }

  /** What the first `n` mutations make of one key, said of the key alone: a write stamps it with the next free version
      in the order of the mutations, a removal takes it away, and a check or no mention leaves it. */
  predicate Became(was: Records, revision: nat, ms: seq<Mutation>, n: nat, now: Records, key: bytes)
    requires n <= |ms|
  {
    && (forall i :: 0 <= i < n && ms[i].key == key && !ms[i].checkOnly ==>
          if ms[i].value.Some? then key in now && now[key] == Record(ms[i].value.value, revision + Stamped(ms, i) + 1)
          else key !in now)
    && ((forall i :: 0 <= i < n && ms[i].key == key ==> ms[i].checkOnly) ==>
          (key in now <==> key in was) && (key in now ==> now[key] == was[key]))
  }

  /** Versions are at least one, never above the revision, and no two records share one. */
  predicate Versioned(rs: Records, revision: nat) {
    && (forall k :: k in rs ==> 0 < rs[k].version <= revision)
    && forall a, b :: a in rs && b in rs && a != b ==> rs[a].version != rs[b].version
  }

  /** What changed since `start` carries a version above it. */
  predicate Fresh(was: Records, start: nat, now: Records) {
    forall k :: k in now ==> (k in was && now[k] == was[k]) || now[k].version > start
  }

  function Mutated(rs: Records, at: nat, m: Mutation): Records {
    if m.checkOnly then rs else if m.value.Some? then rs[m.key := Record(m.value.value, at + 1)] else rs - {m.key}
  }

  /** Where the loop over the mutations stands after `n` of them. */
  ghost predicate Progress(was: Records, start: nat, ms: seq<Mutation>, n: nat, next: Records, at: nat)
    requires n <= |ms|
  {
    && at == start + Stamped(ms, n) && Versioned(next, at) && Fresh(was, start, next)
    && forall key :: Became(was, start, ms, n, next, key)
  }

  lemma VersionedNext(was: Records, start: nat, next: Records, at: nat, m: Mutation)
    requires Versioned(next, at) && Fresh(was, start, next) && start <= at
    ensures Versioned(Mutated(next, at, m), at + (if Stamps(m) then 1 else 0))
    ensures Fresh(was, start, Mutated(next, at, m))
  {
  }

  lemma BecameNext(was: Records, start: nat, ms: seq<Mutation>, n: nat, next: Records, at: nat, key: bytes)
    requires ValidBatch(ms) && n < |ms| && at == start + Stamped(ms, n) && Became(was, start, ms, n, next, key)
    ensures Became(was, start, ms, n + 1, Mutated(next, at, ms[n]), key)
  {
    hide WellFormed, Stamped;
  }

  lemma ProgressNext(was: Records, start: nat, ms: seq<Mutation>, n: nat, next: Records, at: nat)
    requires ValidBatch(ms) && n < |ms| && Progress(was, start, ms, n, next, at)
    ensures Progress(was, start, ms, n + 1, Mutated(next, at, ms[n]), at + (if Stamps(ms[n]) then 1 else 0))
  {
    hide Became, Versioned, Fresh, Mutated, WellFormed;
    VersionedNext(was, start, next, at, ms[n]);
    var done, now := n + 1, Mutated(next, at, ms[n]);
    forall key ensures Became(was, start, ms, done, now, key) { BecameNext(was, start, ms, n, next, at, key); }
  }

  class Memory {
    var records: Records
    var revision: nat

    ghost predicate Valid()
      reads this
    {
      revision < MAX_VERSION && Versioned(records, revision)
    }

    constructor ()
      ensures Valid() && records == map[] && revision == 0
    {
      records, revision := map[], 0;
    }

    /** `get`. */
    method Get(key: bytes) returns (r: Option<Record>)
      ensures r == if key in records then Some(records[key]) else None
    {
      r := if key in records then Some(records[key]) else None;
    }

    /** All mutations or none: success exactly when every expectation holds; a changed record gets a version above every
        one before. */
    method Transact(ms: seq<Mutation>) returns (r: Result<bool>)
      requires Valid()
      modifies this
      ensures Valid()
      ensures r == Ok(true) <==> ValidBatch(ms) && AllPass(old(records), ms) && |ms| < MAX_VERSION - old(revision)
      ensures r == Ok(false) <==> ValidBatch(ms) && !AllPass(old(records), ms)
      ensures r != Ok(true) ==> unchanged(this)
      ensures r == Ok(true) ==> revision == old(revision) + Stamped(ms, |ms|)
      ensures r == Ok(true) ==> forall key :: Became(old(records), old(revision), ms, |ms|, records, key)
      ensures Fresh(old(records), old(revision), records)
    {
      hide Became, Versioned, Fresh, WellFormed;
      NoProgress(records, revision, ms);
      if !ValidBatch(ms) { return Err(Invalid); }
      var i := 0;
      while i < |ms|
        invariant 0 <= i <= |ms|
        invariant forall j :: 0 <= j < i ==> Passes(records, ms[j])
      {
        if !Passes(records, ms[i]) { return Ok(false); }
        i := i + 1;
      }
      if |ms| >= MAX_VERSION - revision { return Err(Exhausted); }
      var next, at := records, revision;
      i := 0;
      while i < |ms|
        invariant 0 <= i <= |ms| && unchanged(this) && Progress(records, revision, ms, i, next, at)
      {
        ProgressNext(records, revision, ms, i, next, at);
        if !ms[i].checkOnly {
          if ms[i].value.Some? {
            at := at + 1;
            next := next[ms[i].key := Record(ms[i].value.value, at)];
          } else {
            next := next - {ms[i].key};
          }
        }
        i := i + 1;
      }
      records, revision := next, at;
      r := Ok(true);
    }

    /** `compare_exchange`: the one primitive of the protocol. */
    method CompareExchange(key: bytes, expected: nat, value: bytes) returns (r: Result<bool>)
      requires Valid()
      modifies this
      ensures Valid()
      ensures var m := Mutation(key, expected, Some(value), false); var fits := Version(old(records), key) == expected;
        && (r == Ok(true) <==> WellFormed(m) && fits && old(revision) + 1 < MAX_VERSION)
        && (r == Ok(false) <==> WellFormed(m) && !fits)
      ensures r == Ok(true) ==> revision == old(revision) + 1 && records == old(records)[key := Record(value, revision)]
      ensures r != Ok(true) ==> unchanged(this)
    {
      ghost var was, start := records, revision;
      OneMutation(records, Mutation(key, expected, Some(value), false));
      r := Transact([Mutation(key, expected, Some(value), false)]);
      if r == Ok(true) { ExchangedOne(was, start, key, expected, value, records); }
    }

    /** `erase`. */
    method Erase(key: bytes, expected: nat) returns (r: Result<bool>)
      requires Valid()
      modifies this
      ensures Valid()
      ensures var m := Mutation(key, expected, None, false);
        var fits := key in old(records) && old(records)[key].version == expected;
        && (r == Ok(true) <==> WellFormed(m) && fits && old(revision) + 1 < MAX_VERSION)
        && (r == Ok(false) <==> WellFormed(m) && !fits)
      ensures r == Ok(true) ==> records == old(records) - {key} && revision == old(revision)
      ensures r != Ok(true) ==> unchanged(this)
    {
      ghost var was, start := records, revision;
      OneMutation(records, Mutation(key, expected, None, false));
      r := Transact([Mutation(key, expected, None, false)]);
      if r == Ok(true) { ErasedOne(was, start, key, expected, records); }
    }
  }

  lemma OneMutation(rs: Records, m: Mutation)
    ensures (ValidBatch([m]) <==> WellFormed(m)) && (AllPass(rs, [m]) <==> Passes(rs, m))
  {
    assert [m][0] == m;
  }

  lemma NoProgress(rs: Records, revision: nat, ms: seq<Mutation>)
    requires Versioned(rs, revision)
    ensures Progress(rs, revision, ms, 0, rs, revision) && Fresh(rs, revision, rs)
  {
  }

  lemma ExchangedOne(was: Records, revision: nat, key: bytes, expected: nat, value: bytes, now: Records)
    requires var ms := [Mutation(key, expected, Some(value), false)]; forall k :: Became(was, revision, ms, 1, now, k)
    ensures now == was[key := Record(value, revision + 1)]
    ensures Stamped([Mutation(key, expected, Some(value), false)], 1) == 1
  {
    var ms := [Mutation(key, expected, Some(value), false)];
    assert Stamped(ms, 0) == 0 && ms[0].key == key;
    forall k
      ensures (k in now <==> k == key || k in was)
      ensures (k in now ==> now[k] == was[key := Record(value, revision + 1)][k])
    {
      assert Became(was, revision, ms, 1, now, k);
    }
  }

  lemma ErasedOne(was: Records, revision: nat, key: bytes, expected: nat, now: Records)
    requires var ms := [Mutation(key, expected, None, false)]; forall k :: Became(was, revision, ms, 1, now, k)
    ensures now == was - {key} && Stamped([Mutation(key, expected, None, false)], 1) == 0
  {
    var ms := [Mutation(key, expected, None, false)];
    assert Stamped(ms, 0) == 0 && ms[0].key == key;
    forall k ensures (k in now <==> k != key && k in was) && (k in now ==> now[k] == was[k]) {
      assert Became(was, revision, ms, 1, now, k);
    }
  }
}
