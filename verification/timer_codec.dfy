/** The persistent form of an entity's timers. */
module TimerCodec {
  import opened Bytes
  import opened Framing
  import opened TimerState

  const TIMERS_LIMIT: nat := 2 * 1024 * 1024
  const PAYLOAD_LIMIT: nat := 65536
  const FST1: bytes := [0x46, 0x53, 0x54, 0x31]

  type Timer = TimerState.Timer<bytes>
  type Timers = TimerState.Timers<bytes>

  const NO_TIMERS: Timers := TimerState.Timers(0, [], [])

  /** `valid`. */
  predicate ValidTimer(t: Timer) {
    && 0 < |t.key| <= 128 && 0 < |t.generation| <= 64 && ValidMethod(t.method_) && |t.payload| <= PAYLOAD_LIMIT
    && ValidTimes(t)
  }

  function Flags(t: Timer): byte { (if t.missed.CatchUp? then 1 else 0) + (if t.fixedDelay then 2 else 0) }

  function TimerWire(t: Timer): bytes
    requires ValidTimer(t)
  {
    LongBlob(t.key) + LongBlob(t.method_) + LongBlob(t.payload) + LongBlob(t.generation)
    + Put(t.due, 8) + Put(t.interval, 8) + Put(t.remaining, 8) + [Flags(t)]
  }

  function GetTimer(input: bytes): Result<Read<Timer>> {
    var key :- GetLongBlob(input, 128);
    var method_ :- GetLongBlob(key.rest, 127);
    var payload :- GetLongBlob(method_.rest, PAYLOAD_LIMIT);
    var generation :- GetLongBlob(payload.rest, 64);
    var due :- Get(generation.rest, 8);
    var interval :- Get(due.rest, 8);
    if due.value > INT64_MAX || interval.value > INT64_MAX then Err(Invalid)
    else
      var remaining :- Get(interval.rest, 8);
      var flags :- GetFlags(remaining.rest, 3);
      var t := TimerState.Timer(key.value, method_.value, payload.value, generation.value, due.value, interval.value,
                                remaining.value, if flags.value % 2 == 1 then CatchUp else Coalesce, flags.value >= 2);
      if ValidTimer(t) then Ok(Read(t, flags.rest)) else Err(Invalid)
  }

  lemma TimerFront(t: Timer, rest: bytes)
    requires ValidTimer(t)
    ensures GetTimer(TimerWire(t) + rest) == Ok(Read(t, rest))
  {
    hide Put, Get, GetLongBlob, LongBlob, GetFlags;
    var r7 := [Flags(t)] + rest;
    var r6 := Put(t.remaining, 8) + r7;
    var r5 := Put(t.interval, 8) + r6;
    var r4 := Put(t.due, 8) + r5;
    var r3 := LongBlob(t.generation) + r4;
    var r2 := LongBlob(t.payload) + r3;
    var r1 := LongBlob(t.method_) + r2;
    assert TimerWire(t) + rest == LongBlob(t.key) + r1;
    LongBlobFront(t.key, r1, 128);
    LongBlobFront(t.method_, r2, 127);
    LongBlobFront(t.payload, r3, PAYLOAD_LIMIT);
    LongBlobFront(t.generation, r4, 64);
    IntegerFront(t.due, r5);
    IntegerFront(t.interval, r6);
    IntegerFront(t.remaining, r7);
    FlagsFront(Flags(t), 3, rest);
  }

  // ---- the list ----

  predicate Shaped(ts: Timers) {
    && |ts.entries| <= 1024 && |ts.token| <= 64 && (ts.sequence == 0 <==> ts.token == [])
    && (ts.entries != [] ==> ts.sequence != 0)
  }

  predicate AllValid(es: seq<Timer>) { forall i :: 0 <= i < |es| ==> ValidTimer(es[i]) }

  function TimerSize(t: Timer): nat { 57 + |t.key| + |t.method_| + |t.payload| + |t.generation| }

  function EntriesSize(es: seq<Timer>): nat { if es == [] then 0 else TimerSize(es[0]) + EntriesSize(es[1..]) }

  /** `entity_timers_wire_size`: the size, counted without building anything. */
  function WireSize(ts: Timers): Result<nat> {
    if !Shaped(ts) || !AllValid(ts.entries) then Err(Invalid)
    else if 28 + |ts.token| + EntriesSize(ts.entries) > TIMERS_LIMIT then Err(TooLong)
    else Ok(28 + |ts.token| + EntriesSize(ts.entries))
  }

  function EntriesWire(es: seq<Timer>): bytes
    requires AllValid(es)
  {
    if es == [] then [] else TimerWire(es[0]) + EntriesWire(es[1..])
  }

  function TimersWire(ts: Timers): bytes
    requires AllValid(ts.entries)
  {
    FST1 + Put(ts.sequence, 8) + LongBlob(ts.token) + Put(|ts.entries|, 8) + EntriesWire(ts.entries)
  }

  /** `encode_entity_timers`. */
  function Encode(ts: Timers): Result<bytes> {
    var size :- WireSize(ts);
    if |TimersWire(ts)| > TIMERS_LIMIT then Err(TooLong) else Ok(TimersWire(ts))
  }

  lemma {:induction false} EntriesLength(es: seq<Timer>)
    requires AllValid(es)
    ensures |EntriesWire(es)| == EntriesSize(es)
    decreases es
  {
    hide Put, ValidTimer;
    if es != [] { EntriesLength(es[1..]); }
  }

  /** The counted size is the exact length of the encoding, and counting fails exactly when encoding fails. */
  lemma WireSizeExact(ts: Timers)
    ensures WireSize(ts).Ok? <==> Encode(ts).Ok?
    ensures Encode(ts).Ok? ==> WireSize(ts) == Ok(|Encode(ts).value|)
  {
    hide Put, AllValid;
    if AllValid(ts.entries) { EntriesLength(ts.entries); }
  }

  function EmplaceTimer(es: seq<Timer>, t: Timer): Option<seq<Timer>> {
    if Find(es, t.key).Some? then None else Some(Insert(es, t))
  }

  function GetEntries(input: bytes, count: nat, done: seq<Timer>): Result<Read<seq<Timer>>>
    decreases count
  {
    if count == 0 then Ok(Read(done, input))
    else
      var t :- GetTimer(input);
      match EmplaceTimer(done, t.value)
      case None => Err(Invalid)
      case Some(more) => GetEntries(t.rest, count - 1, more)
  }

  /** `decode_entity_timers`. */
  function Decode(input: bytes): Result<Timers> {
    if !StartsWith(input, FST1) || |input| > TIMERS_LIMIT then Err(Invalid)
    else
      var sequence :- Get(input[4..], 8);
      var token :- GetLongBlob(sequence.rest, 64);
      var count :- Get(token.rest, 8);
      if count.value > 1024 || !(sequence.value == 0 <==> token.value == []) then Err(Invalid)
      else if count.value != 0 && sequence.value == 0 then Err(Invalid)
      else
        var entries :- GetEntries(count.rest, count.value, []);
        if entries.rest == [] then Ok(TimerState.Timers(sequence.value, token.value, entries.value)) else Err(Invalid)
  }

  // ---- round trip ----

  predicate Rising(es: seq<Timer>) { forall i, j :: 0 <= i < j < |es| ==> Less(es[i].key, es[j].key) }

  lemma {:induction false} InsertLast(es: seq<Timer>, t: Timer)
    requires forall i :: 0 <= i < |es| ==> Less(es[i].key, t.key)
    ensures EmplaceTimer(es, t) == Some(es + [t])
    decreases es
  {
    hide Less;
    if es == [] {
      assert [t] + es == es + [t];
    } else {
      LessAsymmetric(es[0].key, t.key);
      InsertLast(es[1..], t);
      assert [es[0]] + (es[1..] + [t]) == es + [t];
    }
  }

  lemma {:induction false} EntriesFront(done: seq<Timer>, es: seq<Timer>, rest: bytes)
    requires AllValid(es) && Rising(done + es)
    ensures GetEntries(EntriesWire(es) + rest, |es|, done) == Ok(Read(done + es, rest))
    decreases es
  {
    hide GetTimer, TimerWire, ValidTimer, Less, EmplaceTimer;
    if es == [] {
      assert done + es == done && EntriesWire(es) + rest == rest;
    } else {
      var t := es[0];
      var tail := EntriesWire(es[1..]) + rest;
      assert EntriesWire(es) + rest == TimerWire(t) + tail;
      TimerFront(t, tail);
      assert (done + es)[|done|] == t && forall i :: 0 <= i < |done| ==> (done + es)[i] == done[i];
      InsertLast(done, t);
      assert done + es == (done + [t]) + es[1..];
      EntriesFront(done + [t], es[1..], rest);
    }
  }

  /** Decoding encoded timers returns them. */
  lemma RoundTrip(ts: Timers)
    requires ts.sequence < U64 && Rising(ts.entries) && Encode(ts).Ok?
    ensures Decode(Encode(ts).value) == Ok(ts)
  {
    hide Put, Get, GetLongBlob, LongBlob, EntriesWire, GetEntries, AllValid, Rising;
    var wire := TimersWire(ts);
    var r3 := EntriesWire(ts.entries) + [];
    var r2 := Put(|ts.entries|, 8) + r3;
    var r1 := LongBlob(ts.token) + r2;
    assert wire == FST1 + (Put(ts.sequence, 8) + r1);
    assert wire[..4] == FST1 && wire[4..] == Put(ts.sequence, 8) + r1;
    IntegerFront(ts.sequence, r1);
    LongBlobFront(ts.token, r2, 64);
    IntegerFront(|ts.entries|, r3);
    assert [] + ts.entries == ts.entries;
    EntriesFront([], ts.entries, []);
  }

  // ---- the loops ----

  /** Counts the wire size entry by entry. */
  method CountSize(ts: Timers) returns (r: Result<nat>)
    ensures r.Ok? == WireSize(ts).Ok? && (r.Ok? ==> r == WireSize(ts))
  {
    hide ValidTimer;
    if !Shaped(ts) { return Err(Invalid); }
    var size, i := 28 + |ts.token|, 0;
    assert ts.entries[0..] == ts.entries;
    while i < |ts.entries|
      invariant 0 <= i <= |ts.entries| && AllValid(ts.entries[..i])
      invariant size + EntriesSize(ts.entries[i..]) == 28 + |ts.token| + EntriesSize(ts.entries)
    {
      if !ValidTimer(ts.entries[i]) { return Err(Invalid); }
      assert ts.entries[i..][0] == ts.entries[i] && ts.entries[i..][1..] == ts.entries[i + 1..];
      assert ts.entries[..i + 1] == ts.entries[..i] + [ts.entries[i]];
      size, i := size + TimerSize(ts.entries[i]), i + 1;
    }
    assert ts.entries[..i] == ts.entries && ts.entries[i..] == [];
    if size > TIMERS_LIMIT { return Err(TooLong); }
    r := Ok(size);
  }

  /** Appends timer after timer, checking each as it goes; a key is its timer's own by construction of the list. */
  method WriteEntries(out: bytes, es: seq<Timer>) returns (r: Result<bytes>)
    ensures if AllValid(es) then r == Ok(out + EntriesWire(es)) else r == Err(Invalid)
  {
    hide ValidTimer, TimerWire;
    var done, i := out, 0;
    assert es[0..] == es;
    while i < |es|
      invariant 0 <= i <= |es| && AllValid(es[..i])
      invariant AllValid(es) ==> done + EntriesWire(es[i..]) == out + EntriesWire(es)
    {
      if !ValidTimer(es[i]) { return Err(Invalid); }
      assert es[..i + 1] == es[..i] + [es[i]];
      assert es[i..][0] == es[i] && es[i..][1..] == es[i + 1..];
      if AllValid(es) {
        assert done + (TimerWire(es[i]) + EntriesWire(es[i + 1..]))
          == done + TimerWire(es[i]) + EntriesWire(es[i + 1..]);
      }
      done, i := done + TimerWire(es[i]), i + 1;
    }
    assert es[..i] == es && es[i..] == [] && done + [] == done;
    r := Ok(done);
  }

  /** Consumes the announced number of timers from the view. */
  method ReadEntries(input: bytes, count: nat) returns (r: Result<Read<seq<Timer>>>)
    ensures r == GetEntries(input, count, [])
  {
    hide GetTimer, EmplaceTimer;
    var rest, left: nat, entries: seq<Timer> := input, count, [];
    while left > 0
      invariant 0 <= left <= count && GetEntries(rest, left, entries) == GetEntries(input, count, [])
    {
      var t := GetTimer(rest);
      if t.Err? { return Err(t.error); }
      var more := EmplaceTimer(entries, t.value.value);
      if more.None? { return Err(Invalid); }
      rest, left, entries := t.value.rest, left - 1, more.value;
    }
    r := Ok(Read(entries, rest));
  }
}
