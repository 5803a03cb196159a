/** Whatever the decoders of timers, delivery states, snapshots and records accept is valid, and is written again in no
    more bytes. */
module CodecSoundness {
  import opened Bytes
  import opened Framing
  import opened TimerState
  import T = TimerCodec
  import D = DeliveryCodec
  import R = RecordCodec

  lemma BlobRead(input: bytes)
    requires GetBlob(input).Ok?
    ensures var r := GetBlob(input).value; |r.value| < U32 && |r.rest| + 4 + |r.value| == |input|
  {
    hide Number;
    Pow256Values();
  }

  lemma LongBlobRead(input: bytes, maximum: nat)
    requires GetLongBlob(input, maximum).Ok?
    ensures var r := GetLongBlob(input, maximum).value; |r.value| <= maximum && |r.rest| + 8 + |r.value| == |input|
  {
    hide Number;
  }

  lemma IntegerRead(input: bytes)
    requires Get(input, 8).Ok?
    ensures Get(input, 8).value.value < U64 && |Get(input, 8).value.rest| + 8 == |input|
  {
    hide Number;
    Pow256Values();
  }

  lemma FlagsRead(input: bytes, maximum: nat)
    requires GetFlags(input, maximum).Ok?
    ensures var r := GetFlags(input, maximum).value; r.value <= maximum && |r.rest| + 1 == |input|
  {
    hide Number;
  }

  // ---- timers ----

  lemma TimerRead(input: bytes)
    requires T.GetTimer(input).Ok?
    ensures var r := T.GetTimer(input).value; T.ValidTimer(r.value) && |r.rest| + T.TimerSize(r.value) == |input|
  {
    hide GetLongBlob, Get, GetFlags, ValidMethod, ValidTimes;
    LongBlobRead(input, 128);
    var key := GetLongBlob(input, 128).value;
    LongBlobRead(key.rest, 127);
    var name := GetLongBlob(key.rest, 127).value;
    LongBlobRead(name.rest, T.PAYLOAD_LIMIT);
    var payload := GetLongBlob(name.rest, T.PAYLOAD_LIMIT).value;
    LongBlobRead(payload.rest, 64);
    var generation := GetLongBlob(payload.rest, 64).value;
    IntegerRead(generation.rest);
    var due := Get(generation.rest, 8).value;
    IntegerRead(due.rest);
    var interval := Get(due.rest, 8).value;
    IntegerRead(interval.rest);
    var remaining := Get(interval.rest, 8).value;
    FlagsRead(remaining.rest, 3);
  }

  lemma {:induction false} InsertKeeps(es: seq<T.Timer>, t: T.Timer)
    requires T.AllValid(es) && T.ValidTimer(t) && T.Rising(es) && Find(es, t.key).None?
    ensures var a := Insert(es, t);
      && T.AllValid(a) && T.Rising(a) && |a| == |es| + 1 && T.EntriesSize(a) == T.EntriesSize(es) + T.TimerSize(t)
      && forall x :: x in a ==> x == t || x in es
    decreases es
  {
    hide T.ValidTimer, T.TimerSize, Less, T.Rising;
    var a := Insert(es, t);
    if es == [] || Less(t.key, es[0].key) {
      assert a == [t] + es && a[1..] == es;
      AheadOf(t, es);
    } else {
      LessTotal(t.key, es[0].key);
      Behind(es);
      InsertKeeps(es[1..], t);
      var rest := Insert(es[1..], t);
      assert a == [es[0]] + rest && a[1..] == rest;
      RisingFront(es[0], rest);
    }
  }

  lemma AheadOf(t: T.Timer, es: seq<T.Timer>)
    requires T.Rising(es) && (es != [] ==> Less(t.key, es[0].key))
    ensures T.Rising([t] + es)
  {
    hide Less;
    forall i | 0 <= i < |es| ensures Less(t.key, es[i].key) {
      if i > 0 { LessTransitive(t.key, es[0].key, es[i].key); }
    }
  }

  lemma Behind(es: seq<T.Timer>)
    requires es != [] && T.Rising(es)
    ensures T.Rising(es[1..]) && forall x :: x in es[1..] ==> Less(es[0].key, x.key)
  {
    hide Less;
  }

  lemma RisingFront(t: T.Timer, es: seq<T.Timer>)
    requires T.Rising(es) && forall x :: x in es ==> Less(t.key, x.key)
    ensures T.Rising([t] + es)
  {
    hide Less;
  }

  lemma {:induction false} EntriesRead(input: bytes, count: nat, done: seq<T.Timer>)
    requires T.AllValid(done) && T.Rising(done) && T.GetEntries(input, count, done).Ok?
    ensures var r := T.GetEntries(input, count, done).value;
      && T.AllValid(r.value) && T.Rising(r.value) && |r.value| == |done| + count
      && |r.rest| + T.EntriesSize(r.value) == |input| + T.EntriesSize(done)
    decreases count
  {
    hide T.GetTimer, T.ValidTimer, T.TimerSize, Less, Insert, Find, T.EntriesSize, T.AllValid, T.Rising;
    if count > 0 {
      TimerRead(input);
      var t := T.GetTimer(input).value;
      InsertKeeps(done, t.value);
      EntriesRead(t.rest, count - 1, Insert(done, t.value));
    }
  }

  /** Timers that are accepted are valid, in key order, and as long as the bytes they were read from. */
  lemma TimersSound(input: bytes)
    requires T.Decode(input).Ok?
    ensures var ts := T.Decode(input).value;
      && ts.sequence < U64 && T.Rising(ts.entries) && T.WireSize(ts) == Ok(|input|)
      && T.Encode(ts).Ok? && |T.Encode(ts).value| == |input| && T.Decode(T.Encode(ts).value) == Ok(ts)
  {
    hide Get, GetLongBlob, T.GetEntries, T.Rising, T.TimersWire, T.ValidTimer, T.EntriesSize;
    IntegerRead(input[4..]);
    var sequence := Get(input[4..], 8).value;
    LongBlobRead(sequence.rest, 64);
    var token := GetLongBlob(sequence.rest, 64).value;
    IntegerRead(token.rest);
    var count := Get(token.rest, 8).value;
    NoTimers();
    EntriesRead(count.rest, count.value, []);
    var ts := T.Decode(input).value;
    T.WireSizeExact(ts);
    T.RoundTrip(ts);
  }

  lemma NoTimers()
    ensures T.AllValid([]) && T.Rising([]) && T.EntriesSize([]) == 0
  {
  }

  // ---- keyed lists ----

  predicate Above<V>(key: bytes, es: seq<Entry<V>>) { forall i :: 0 <= i < |es| ==> Less(key, es[i].key) }

  /** A new key goes to one place, and the list stays in order. */
  lemma {:induction false} EmplacePlaces<V>(es: seq<Entry<V>>, key: bytes, v: V) returns (i: nat)
    requires Rising(es) && Emplace(es, key, v).Some?
    ensures i <= |es| && Emplace(es, key, v).value == es[..i] + [Entry(key, v)] + es[i..]
    ensures Rising(Emplace(es, key, v).value)
    ensures forall k :: Less(k, key) && Above(k, es) ==> Above(k, Emplace(es, key, v).value)
    decreases es
  {
    var a := Emplace(es, key, v).value;
    if es == [] || Less(key, es[0].key) {
      i := 0;
      assert a == [Entry(key, v)] + es;
      forall x | 0 <= x < |es| ensures Less(key, es[x].key) {
        if x > 0 { LessTransitive(key, es[0].key, es[x].key); }
      }
    } else {
      LessTotal(key, es[0].key);
      var j := EmplacePlaces(es[1..], key, v);
      i := j + 1;
      var rest := Emplace(es[1..], key, v).value;
      assert a == [es[0]] + rest;
      assert es[..i] == [es[0]] + es[1..][..j] && es[i..] == es[1..][j..];
      assert forall x :: 0 <= x < |es[1..]| ==> es[1..][x] == es[x + 1];
      assert Above(es[0].key, es[1..]);
      assert Above(es[0].key, rest);
    }
  }

  // ---- delivery states ----

  function ReplySize(r: D.Reply): nat { 5 + |r.data| }

  lemma ReplyRead(input: bytes)
    requires D.GetReply(input).Ok?
    ensures var r := D.GetReply(input).value; D.ValidReply(r.value) && |r.rest| + ReplySize(r.value) == |input|
  {
    hide GetBlob, GetFlags;
    FlagsRead(input, D.LAST_STATUS);
    BlobRead(GetFlags(input, D.LAST_STATUS).value.rest);
  }

  lemma EntityRead(input: bytes)
    requires GetEntity(input).Ok?
    ensures var r := GetEntity(input).value;
      ValidEntity(r.value.kind, r.value.id) && |r.rest| + 3 + |r.value.kind| + |r.value.id| == |input|
  {
    hide Number;
  }

  function MessageSize(m: D.Message): nat {
    32 + |m.ticket| + |m.kind| + |m.id| + |m.method_| + |m.payload| + ReplySize(m.reply)
  }

  lemma MessageRead(input: bytes)
    requires D.GetMessage(input).Ok?
    ensures var r := D.GetMessage(input).value;
      D.ValidMessage(r.value) && D.TypedMessage(r.value) && |r.rest| + MessageSize(r.value) == |input|
  {
    hide GetBlob, Get, GetFlags, GetEntity, D.GetReply, ReplySize, D.ValidMessage;
    BlobRead(input);
    var ticket := GetBlob(input).value;
    EntityRead(ticket.rest);
    var entity := GetEntity(ticket.rest).value;
    BlobRead(entity.rest);
    var name := GetBlob(entity.rest).value;
    BlobRead(name.rest);
    var payload := GetBlob(name.rest).value;
    IntegerRead(payload.rest);
    var epoch := Get(payload.rest, 8).value;
    IntegerRead(epoch.rest);
    var sequence := Get(epoch.rest, 8).value;
    FlagsRead(sequence.rest, 1);
    ReplyRead(GetFlags(sequence.rest, 1).value.rest);
  }

  lemma MessageLength(m: D.Message)
    requires D.ValidMessage(m)
    ensures |D.MessageWire(m)| == MessageSize(m)
  {
    hide Put;
  }

  function SentSize(es: seq<Entry<nat>>): nat { if es == [] then 0 else 12 + |es[0].key| + SentSize(es[1..]) }

  lemma {:induction false} SentLength(es: seq<Entry<nat>>)
    ensures |D.SentWire(es)| == SentSize(es)
    decreases es
  {
    hide Put;
    if es != [] { SentLength(es[1..]); }
  }

  lemma {:induction false} SentConcat(a: seq<Entry<nat>>, b: seq<Entry<nat>>)
    ensures SentSize(a + b) == SentSize(a) + SentSize(b)
    decreases a
  {
    if a == [] {
      assert a + b == b;
    } else {
      assert (a + b)[1..] == a[1..] + b;
      SentConcat(a[1..], b);
    }
  }

  predicate SentOk(es: seq<Entry<nat>>) { D.ValidSent(es) && D.TypedSent(es) && Rising(es) }

  lemma SentMore(es: seq<Entry<nat>>, key: bytes, n: nat)
    requires SentOk(es) && D.ValidChannel(key) && 0 < n < U64 && Emplace(es, key, n).Some?
    ensures var a := Emplace(es, key, n).value; SentOk(a) && |a| == |es| + 1 && SentSize(a) == SentSize(es) + 12 + |key|
  {
    hide D.ValidChannel, Emplace, Rising, SentSize;
    var i := EmplacePlaces(es, key, n);
    var e := [Entry(key, n)];
    SentConcat(es[..i] + e, es[i..]);
    SentConcat(es[..i], e);
    SentConcat(es[..i], es[i..]);
    assert es[..i] + es[i..] == es;
    OneSent(key, n);
  }

  lemma OneSent(key: bytes, n: nat)
    ensures SentSize([Entry(key, n)]) == 12 + |key|
  {
    assert [Entry(key, n)][1..] == [];
  }

  lemma {:induction false} SentRead(input: bytes, count: nat, done: seq<Entry<nat>>)
    requires SentOk(done) && D.GetSent(input, count, done).Ok?
    ensures var r := D.GetSent(input, count, done).value;
      && SentOk(r.value) && |r.value| == |done| + count && |r.rest| + SentSize(r.value) == |input| + SentSize(done)
    decreases count
  {
    hide GetBlob, Get, D.ValidChannel, Emplace, SentOk, SentSize;
    if count > 0 {
      BlobRead(input);
      var key := GetBlob(input).value;
      IntegerRead(key.rest);
      var n := Get(key.rest, 8).value;
      SentMore(done, key.value, n.value);
      SentRead(n.rest, count - 1, Emplace(done, key.value, n.value).value);
    }
  }

  function CursorSize(c: D.Cursor): nat { 12 + |c.digest| + ReplySize(c.reply) }

  function InboxSize(es: seq<Entry<D.Cursor>>): nat {
    if es == [] then 0 else 4 + |es[0].key| + CursorSize(es[0].value) + InboxSize(es[1..])
  }

  lemma {:induction false} InboxLength(es: seq<Entry<D.Cursor>>)
    requires D.ValidInbox(es)
    ensures |D.InboxWire(es)| == InboxSize(es)
    decreases es
  {
    hide Put, D.ValidChannel;
    if es != [] { InboxLength(es[1..]); }
  }

  lemma {:induction false} InboxConcat(a: seq<Entry<D.Cursor>>, b: seq<Entry<D.Cursor>>)
    ensures InboxSize(a + b) == InboxSize(a) + InboxSize(b)
    decreases a
  {
    hide CursorSize;
    if a == [] {
      assert a + b == b;
    } else {
      assert (a + b)[1..] == a[1..] + b;
      InboxConcat(a[1..], b);
    }
  }

  predicate InboxOk(es: seq<Entry<D.Cursor>>) { D.ValidInbox(es) && D.TypedInbox(es) && Rising(es) }

  lemma InboxMore(es: seq<Entry<D.Cursor>>, key: bytes, c: D.Cursor)
    requires InboxOk(es) && D.ValidChannel(key) && D.ValidCursor(c) && c.sequence < U64 && Emplace(es, key, c).Some?
    ensures var a := Emplace(es, key, c).value;
      InboxOk(a) && |a| == |es| + 1 && InboxSize(a) == InboxSize(es) + 4 + |key| + CursorSize(c)
  {
    hide D.ValidChannel, D.ValidCursor, Emplace, Rising, InboxSize, CursorSize;
    var i := EmplacePlaces(es, key, c);
    var e := [Entry(key, c)];
    InboxConcat(es[..i] + e, es[i..]);
    InboxConcat(es[..i], e);
    InboxConcat(es[..i], es[i..]);
    assert es[..i] + es[i..] == es;
    OneInbox(key, c);
  }

  lemma OneInbox(key: bytes, c: D.Cursor)
    ensures InboxSize([Entry(key, c)]) == 4 + |key| + CursorSize(c)
  {
    hide CursorSize;
    assert [Entry(key, c)][1..] == [];
  }

  lemma CursorRead(input: bytes)
    requires D.GetCursor(input).Ok?
    ensures var r := D.GetCursor(input).value;
      D.ValidReply(r.value.reply) && r.value.sequence < U64 && |r.rest| + CursorSize(r.value) == |input|
  {
    hide GetBlob, Get, D.GetReply, ReplySize, D.ValidReply;
    IntegerRead(input);
    var sequence := Get(input, 8).value;
    BlobRead(sequence.rest);
    ReplyRead(GetBlob(sequence.rest).value.rest);
  }

  lemma {:induction false} InboxRead(input: bytes, count: nat, done: seq<Entry<D.Cursor>>)
    requires InboxOk(done) && D.GetInbox(input, count, done).Ok?
    ensures var r := D.GetInbox(input, count, done).value;
      && InboxOk(r.value) && |r.value| == |done| + count && |r.rest| + InboxSize(r.value) == |input| + InboxSize(done)
    decreases count
  {
    hide GetBlob, D.GetCursor, D.ValidChannel, Emplace, InboxOk, InboxSize, CursorSize, D.ValidReply;
    if count > 0 {
      BlobRead(input);
      var key := GetBlob(input).value;
      CursorRead(key.rest);
      var c := D.GetCursor(key.rest).value;
      InboxMore(done, key.value, c.value);
      InboxRead(c.rest, count - 1, Emplace(done, key.value, c.value).value);
    }
  }

  function OutboxSize(ms: seq<D.Message>): nat { if ms == [] then 0 else MessageSize(ms[0]) + OutboxSize(ms[1..]) }

  lemma {:induction false} OutboxLength(ms: seq<D.Message>)
    requires D.ValidOutbox(ms)
    ensures |D.OutboxWire(ms)| == OutboxSize(ms)
    decreases ms
  {
    hide D.MessageWire, MessageSize, D.ValidMessage;
    if ms != [] {
      MessageLength(ms[0]);
      OutboxLength(ms[1..]);
    }
  }

  lemma {:induction false} OutboxAppend(ms: seq<D.Message>, m: D.Message)
    ensures OutboxSize(ms + [m]) == OutboxSize(ms) + MessageSize(m)
    decreases ms
  {
    hide MessageSize;
    if ms == [] {
      assert ms + [m] == [m] && [m][1..] == [];
    } else {
      assert (ms + [m])[1..] == ms[1..] + [m];
      OutboxAppend(ms[1..], m);
    }
  }

  lemma {:induction false} OutboxRead(input: bytes, count: nat, done: seq<D.Message>)
    requires D.ValidOutbox(done) && D.TypedOutbox(done) && D.GetOutbox(input, count, done).Ok?
    ensures var r := D.GetOutbox(input, count, done).value;
      && D.ValidOutbox(r.value) && D.TypedOutbox(r.value) && |r.value| == |done| + count
      && |r.rest| + OutboxSize(r.value) == |input| + OutboxSize(done)
    decreases count
  {
    hide D.GetMessage, D.ValidMessage, D.TypedMessage, MessageSize, OutboxSize;
    if count > 0 {
      MessageRead(input);
      var m := D.GetMessage(input).value;
      OutboxAppend(done, m.value);
      OutboxRead(m.rest, count - 1, done + [m.value]);
    }
  }

  lemma DeliveryLength(d: D.Delivery)
    requires D.ValidDelivery(d)
    ensures |D.DeliveryWire(d)| == 24 + SentSize(d.sent) + InboxSize(d.inbox) + OutboxSize(d.outbox)
  {
    hide Put, D.SentWire, D.InboxWire, D.OutboxWire, SentSize, InboxSize, OutboxSize, D.ValidSent, D.ValidInbox,
         D.ValidOutbox;
    SentLength(d.sent);
    InboxLength(d.inbox);
    OutboxLength(d.outbox);
  }

  lemma NoDelivery()
    ensures SentOk([]) && InboxOk([]) && D.ValidOutbox([]) && D.TypedOutbox([])
    ensures SentSize([]) == 0 && InboxSize([]) == 0 && OutboxSize([]) == 0
  {
  }

  lemma NumberRead(input: bytes)
    requires Get(input, 4).Ok?
    ensures |Get(input, 4).value.rest| + 4 == |input|
  {
    hide Number;
  }

  /** A delivery state that is accepted is valid, its counters and cursors are in key order, and it is as long as the
      bytes it was read from. */
  lemma DeliverySound(input: bytes)
    requires D.Decode(input).Ok?
    ensures var d := D.Decode(input).value;
      && D.TypedDelivery(d) && D.Encode(d).Ok? && |D.Encode(d).value| == |input|
      && D.Decode(D.Encode(d).value) == Ok(d) && d.epoch != 0
  {
    hide Get, D.GetSent, D.GetInbox, D.GetOutbox, SentSize, InboxSize, OutboxSize, D.DeliveryWire, D.ValidSent,
         D.ValidInbox, D.ValidOutbox, D.TypedSent, D.TypedInbox, D.TypedOutbox, Rising;
    IntegerRead(input[4..]);
    var epoch := Get(input[4..], 8).value;
    NumberRead(epoch.rest);
    var sents := Get(epoch.rest, 4).value;
    NoDelivery();
    SentRead(sents.rest, sents.value, []);
    var sent := D.GetSent(sents.rest, sents.value, []).value;
    NumberRead(sent.rest);
    var inboxes := Get(sent.rest, 4).value;
    InboxRead(inboxes.rest, inboxes.value, []);
    var inbox := D.GetInbox(inboxes.rest, inboxes.value, []).value;
    NumberRead(inbox.rest);
    var outboxes := Get(inbox.rest, 4).value;
    OutboxRead(outboxes.rest, outboxes.value, []);
    var d := D.Decode(input).value;
    DeliveryLength(d);
    D.RoundTrip(d);
  }

  // ---- snapshots ----

  function ReceiptSize(r: R.Receipt): nat { 16 + |r.id| + |r.route| + |r.request| + |r.response| }

  function ReceiptsSize(rs: seq<R.Receipt>): nat {
    if rs == [] then 0 else ReceiptSize(rs[0]) + ReceiptsSize(rs[1..])
  }

  lemma {:induction false} ReceiptsLength(rs: seq<R.Receipt>)
    ensures |R.ReceiptsWire(rs)| == ReceiptsSize(rs)
    decreases rs
  {
    hide Put;
    if rs != [] { ReceiptsLength(rs[1..]); }
  }

  lemma ReceiptRead(input: bytes)
    requires R.GetReceipt(input).Ok?
    ensures var r := R.GetReceipt(input).value; R.ValidReceipt(r.value) && |r.rest| + ReceiptSize(r.value) == |input|
  {
    hide GetBlob;
    BlobRead(input);
    var id := GetBlob(input).value;
    BlobRead(id.rest);
    var route := GetBlob(id.rest).value;
    BlobRead(route.rest);
    BlobRead(GetBlob(route.rest).value.rest);
  }

  lemma {:induction false} ReceiptsRead(input: bytes, count: nat)
    requires R.GetReceipts(input, count).Ok?
    ensures var r := R.GetReceipts(input, count).value;
      R.ValidReceipts(r.value) && |r.value| == count && |r.rest| + ReceiptsSize(r.value) == |input|
    decreases count
  {
    hide R.GetReceipt, R.ValidReceipt, ReceiptSize;
    if count > 0 {
      ReceiptRead(input);
      var r := R.GetReceipt(input).value;
      ReceiptsRead(r.rest, count - 1);
      var all := R.GetReceipts(input, count).value.value;
      assert all[1..] == R.GetReceipts(r.rest, count - 1).value.value;
    }
  }

  function PartSize(b: Option<bytes>): nat { match b case None => 0 case Some(x) => 4 + |x| }

  lemma PartsRead(input: bytes, withTimers: bool, withDelivery: bool)
    requires R.GetParts(input, withTimers, withDelivery).Ok?
    ensures var p := R.GetParts(input, withTimers, withDelivery).value;
      && p.timers.Some? == withTimers && (!withTimers ==> p.delivery.Some? == withDelivery)
      && (if withTimers then 1 else 0) + PartSize(p.delivery) + PartSize(p.timers) == |input|
  {
    hide GetBlob, GetFlags;
    if withTimers { FlagsRead(input, 1); }
    var flag := if withTimers then GetFlags(input, 1).value else Read(if withDelivery then 1 else 0, input);
    if flag.value == 1 { BlobRead(flag.rest); }
    var rest := if flag.value == 1 then GetBlob(flag.rest).value.rest else flag.rest;
    if withTimers { BlobRead(rest); }
  }

  function SnapshotSize(s: R.Snapshot): nat
    requires R.ValidSnapshot(s)
  {
    12 + |s.state| + ReceiptsSize(s.receipts) + (if R.HasTimers(s) then 5 + |T.Encode(s.timers).value| else 0)
    + (if R.HasDelivery(s) then 4 + |D.Encode(s.delivery).value| else 0)
  }

  lemma SnapshotLength(s: R.Snapshot)
    requires R.ValidSnapshot(s)
    ensures |R.SnapshotWire(s)| == SnapshotSize(s)
  {
    hide Put, R.ReceiptsWire, ReceiptsSize, T.Encode, D.Encode, R.ValidReceipts;
    ReceiptsLength(s.receipts);
  }

  /** A snapshot that is accepted is valid in all its parts, and is written in no more bytes than it was read from. */
  lemma SnapshotSound(input: bytes)
    requires R.DecodeSnapshot(input).Ok?
    ensures var s := R.DecodeSnapshot(input).value;
      && R.TypedSnapshot(s) && R.ValidSnapshot(s) && |R.SnapshotWire(s)| <= |input|
      && R.DecodeSnapshot(R.SnapshotWire(s)) == Ok(s)
  {
    hide Get, GetBlob, R.GetReceipts, R.GetParts, T.Decode, T.Encode, D.Decode, D.Encode, T.Rising, D.TypedDelivery,
         R.ValidReceipts, R.SnapshotWire, ReceiptsSize;
    BlobRead(input[4..]);
    var state := GetBlob(input[4..]).value;
    NumberRead(state.rest);
    var count := Get(state.rest, 4).value;
    ReceiptsRead(count.rest, count.value);
    var receipts := R.GetReceipts(count.rest, count.value).value;
    PartsRead(receipts.rest, StartsWith(input, R.FSP3), StartsWith(input, R.FSP2));
    var parts := R.GetParts(receipts.rest, StartsWith(input, R.FSP3), StartsWith(input, R.FSP2)).value;
    if parts.delivery.Some? { DeliverySound(parts.delivery.value); }
    if parts.timers.Some? { TimersSound(parts.timers.value); }
    NothingTyped();
    var s := R.DecodeSnapshot(input).value;
    SnapshotLength(s);
    R.SnapshotTrip(s);
  }

  lemma NothingTyped()
    ensures D.TypedDelivery(D.NO_DELIVERY) && T.Rising(T.NO_TIMERS.entries)
  {
  }

  // ---- records ----

  function MetadataSize(m: R.Metadata): nat { 21 + |m.kind| + |m.connection| + |m.initial| + |m.digest| }

  lemma MetadataRead(input: bytes)
    requires R.GetMetadata(input).Ok?
    ensures var r := R.GetMetadata(input).value;
      R.ValidMetadata(r.value) && r.value.ownerRevision < U64 && |r.rest| + MetadataSize(r.value) == |input|
  {
    hide GetBlob, Get, GetFlags, R.ValidMetadata;
    BlobRead(input);
    var kind := GetBlob(input).value;
    BlobRead(kind.rest);
    var connection := GetBlob(kind.rest).value;
    FlagsRead(connection.rest, 3);
    var flags := GetFlags(connection.rest, 3).value;
    BlobRead(flags.rest);
    var initial := GetBlob(flags.rest).value;
    IntegerRead(Take(initial.rest, 32).value.rest);
  }

  predicate HeaderOk(h: R.Header) {
    && |h.owner| <= 256 && h.expires <= INT64_MAX && h.fence < INT64_MAX && R.ValidPlacement(h.placement, h.transfer)
    && R.ValidMetadata(h.metadata) && h.transfer < U64 && h.metadata.ownerRevision < U64
  }

  lemma HeaderRead(input: bytes)
    requires R.DecodeHeader(input).Ok?
    ensures var h := R.DecodeHeader(input).value;
      && HeaderOk(h)
      && 37 + |h.owner| + |h.placement| + MetadataSize(h.metadata) + |h.snapshot| == |input|
  {
    hide GetBlob, Get, GetFlags, R.GetMetadata, R.ValidMetadata, R.ValidPlacement, MetadataSize;
    BlobRead(input[4..]);
    var owner := GetBlob(input[4..]).value;
    IntegerRead(owner.rest);
    var expires := Get(owner.rest, 8).value;
    IntegerRead(expires.rest);
    var fence := Get(expires.rest, 8).value;
    FlagsRead(fence.rest, 1);
    var initialized := GetFlags(fence.rest, 1).value;
    BlobRead(initialized.rest);
    var placement := GetBlob(initialized.rest).value;
    IntegerRead(placement.rest);
    MetadataRead(Get(placement.rest, 8).value.rest);
  }

  lemma HeaderLength(r: R.Record, snapshot: bytes)
    ensures |R.HeaderWire(r, snapshot)|
      == 37 + |r.owner| + |r.placement| + MetadataSize(r.metadata) + |snapshot|
  {
    hide Put;
  }

  /** A record that is accepted is valid in every field and part, and is written again in no more bytes, from which the
      same record is read. */
  lemma RecordSound(input: bytes)
    requires R.Decode(input).Ok?
    ensures var r := R.Decode(input).value;
      && R.ValidRecord(r) && R.TypedRecord(r) && R.Encode(r).Ok? && |R.Encode(r).value| <= |input|
      && R.Decode(R.Encode(r).value) == Ok(r)
  {
    hide R.DecodeHeader, R.DecodeSnapshot, R.ValidSnapshot, R.TypedSnapshot, R.SnapshotWire, R.HeaderWire,
         R.ValidMetadata, R.ValidPlacement, MetadataSize;
    HeaderRead(input);
    var h := R.DecodeHeader(input).value;
    SnapshotSound(h.snapshot);
    var r := R.Decode(input).value;
    HeaderLength(r, R.SnapshotWire(r.snapshot));
    R.RoundTrip(r);
  }
}
