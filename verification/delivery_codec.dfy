/** The persistent form of an entity's outbox, counters and inbox cursors. */
module DeliveryCodec {
  import opened Bytes
  import opened Framing

  const STATE_LIMIT: nat := 8 * 1024 * 1024
  const PAYLOAD_LIMIT: nat := 65536
  const LAST_STATUS: nat := 6
  const FDS1: bytes := [0x46, 0x44, 0x53, 0x31]

  datatype Reply = Reply(status: nat, data: bytes)

  datatype Message = Message(
    ticket: bytes, kind: bytes, id: bytes, method_: bytes, payload: bytes, epoch: nat, sequence: nat, done: bool,
    reply: Reply)

  datatype Cursor = Cursor(sequence: nat, digest: bytes, reply: Reply)

  datatype Delivery = Delivery(epoch: nat, sent: seq<Entry<nat>>, inbox: seq<Entry<Cursor>>, outbox: seq<Message>)

  const NO_DELIVERY := Delivery(0, [], [], [])

  // ---- results ----

  predicate ValidReply(r: Reply) { r.status <= LAST_STATUS && |r.data| <= PAYLOAD_LIMIT }

  function ReplyWire(r: Reply): bytes
    requires ValidReply(r)
  {
    [r.status] + Blob(r.data)
  }

  function GetReply(input: bytes): Result<Read<Reply>> {
    var status :- GetFlags(input, LAST_STATUS);
    var data :- GetBlob(status.rest);
    if |data.value| > PAYLOAD_LIMIT then Err(Invalid) else Ok(Read(Reply(status.value, data.value), data.rest))
  }

  lemma ReplyFront(r: Reply, rest: bytes)
    requires ValidReply(r)
    ensures GetReply(ReplyWire(r) + rest) == Ok(Read(r, rest))
  {
    hide GetFlags, GetBlob, Blob;
    assert ReplyWire(r) + rest == [r.status] + (Blob(r.data) + rest);
    FlagsFront(r.status, LAST_STATUS, Blob(r.data) + rest);
    BlobFront(r.data, rest);
  }

  // ---- messages ----

  predicate ValidMessage(m: Message) {
    && ValidEntity(m.kind, m.id) && ValidMethod(m.method_) && m.epoch != 0 && m.sequence != 0 && |m.ticket| == 64
    && |m.payload| <= PAYLOAD_LIMIT && ValidReply(m.reply)
  }

  predicate TypedMessage(m: Message) { m.epoch < U64 && m.sequence < U64 }

  function MessageWire(m: Message): bytes
    requires ValidMessage(m)
  {
    Blob(m.ticket) + EntityKey(m.kind, m.id) + Blob(m.method_) + Blob(m.payload) + Put(m.epoch, 8) + Put(m.sequence, 8)
    + [if m.done then 1 else 0] + ReplyWire(m.reply)
  }

  function GetMessage(input: bytes): Result<Read<Message>> {
    var ticket :- GetBlob(input);
    var entity :- GetEntity(ticket.rest);
    var method_ :- GetBlob(entity.rest);
    var payload :- GetBlob(method_.rest);
    var epoch :- Get(payload.rest, 8);
    var sequence :- Get(epoch.rest, 8);
    var done :- GetFlags(sequence.rest, 1);
    var reply :- GetReply(done.rest);
    var m := Message(ticket.value, entity.value.kind, entity.value.id, method_.value, payload.value, epoch.value,
                     sequence.value, done.value == 1, reply.value);
    if ValidMessage(m) then Ok(Read(m, reply.rest)) else Err(Invalid)
  }

  lemma MessageFront(m: Message, rest: bytes)
    requires ValidMessage(m) && TypedMessage(m)
    ensures GetMessage(MessageWire(m) + rest) == Ok(Read(m, rest))
  {
    hide Put, Get, GetBlob, Blob, GetFlags, GetReply, ReplyWire, GetEntity, EntityKey;
    var flag := if m.done then 1 else 0;
    var r7 := ReplyWire(m.reply) + rest;
    var r6 := [flag] + r7;
    var r5 := Put(m.sequence, 8) + r6;
    var r4 := Put(m.epoch, 8) + r5;
    var r3 := Blob(m.payload) + r4;
    var r2 := Blob(m.method_) + r3;
    var r1 := EntityKey(m.kind, m.id) + r2;
    assert MessageWire(m) + rest == Blob(m.ticket) + r1;
    BlobFront(m.ticket, r1);
    EntityFront(m.kind, m.id, r2);
    BlobFront(m.method_, r3);
    BlobFront(m.payload, r4);
    IntegerFront(m.epoch, r5);
    IntegerFront(m.sequence, r6);
    FlagsFront(flag, 1, r7);
    ReplyFront(m.reply, rest);
  }

  // ---- channels ----

  /** `channel_key`: an entity key, an epoch that is not zero, and nothing more. */
  predicate ValidChannel(key: bytes) {
    var entity := GetEntity(key);
    && entity.Ok? && Get(entity.value.rest, 8).Ok?
    && Get(entity.value.rest, 8).value.value != 0 && Get(entity.value.rest, 8).value.rest == []
  }

  /** The check on the length of a channel can never fail. */
  lemma ChannelShort(key: bytes)
    requires ValidChannel(key)
    ensures |key| <= 394
  {
    var n := Get(key, 1).value;
    var kind := Take(n.rest, n.value).value;
    var m := Get(kind.rest, 2).value;
    var id := Take(m.rest, m.value).value;
    assert id.rest == GetEntity(key).value.rest && |id.rest| == 8;
  }

  // ---- counters ----

  predicate ValidSent(es: seq<Entry<nat>>) { forall i :: 0 <= i < |es| ==> ValidChannel(es[i].key) && es[i].value != 0 }

  predicate TypedSent(es: seq<Entry<nat>>) { forall i :: 0 <= i < |es| ==> es[i].value < U64 }

  function SentWire(es: seq<Entry<nat>>): bytes {
    if es == [] then [] else Blob(es[0].key) + Put(es[0].value, 8) + SentWire(es[1..])
  }

  function GetSent(input: bytes, count: nat, done: seq<Entry<nat>>): Result<Read<seq<Entry<nat>>>>
    decreases count
  {
    if count == 0 then Ok(Read(done, input))
    else
      var key :- GetBlob(input);
      if !ValidChannel(key.value) then Err(Invalid)
      else
        var n :- Get(key.rest, 8);
        if |key.value| > 512 || n.value == 0 then Err(Invalid)
        else match Emplace(done, key.value, n.value)
          case None => Err(Invalid)
          case Some(more) => GetSent(n.rest, count - 1, more)
  }

  lemma LastKey<V>(done: seq<Entry<V>>, es: seq<Entry<V>>)
    requires es != [] && Rising(done + es)
    ensures Emplace(done, es[0].key, es[0].value) == Some(done + [es[0]]) && done + es == (done + [es[0]]) + es[1..]
  {
    hide Less;
    assert (done + es)[|done|] == es[0] && forall i :: 0 <= i < |done| ==> (done + es)[i] == done[i];
    EmplaceLast(done, es[0].key, es[0].value);
  }

  lemma {:induction false} SentFront(done: seq<Entry<nat>>, es: seq<Entry<nat>>, rest: bytes)
    requires ValidSent(es) && TypedSent(es) && Rising(done + es)
    ensures GetSent(SentWire(es) + rest, |es|, done) == Ok(Read(done + es, rest))
    decreases es
  {
    hide Put, Get, GetBlob, Blob, ValidChannel, Less, Emplace;
    if es == [] {
      assert done + es == done && SentWire(es) + rest == rest;
    } else {
      var tail := SentWire(es[1..]) + rest;
      assert SentWire(es) + rest == Blob(es[0].key) + (Put(es[0].value, 8) + tail);
      ChannelShort(es[0].key);
      BlobFront(es[0].key, Put(es[0].value, 8) + tail);
      IntegerFront(es[0].value, tail);
      LastKey(done, es);
      SentFront(done + [es[0]], es[1..], rest);
    }
  }

  // ---- cursors ----

  predicate ValidCursor(c: Cursor) { c.sequence != 0 && |c.digest| == 64 && ValidReply(c.reply) }

  predicate ValidInbox(es: seq<Entry<Cursor>>) {
    forall i :: 0 <= i < |es| ==> ValidChannel(es[i].key) && ValidCursor(es[i].value)
  }

  predicate TypedInbox(es: seq<Entry<Cursor>>) { forall i :: 0 <= i < |es| ==> es[i].value.sequence < U64 }

  function CursorWire(c: Cursor): bytes
    requires ValidCursor(c)
  {
    Put(c.sequence, 8) + Blob(c.digest) + ReplyWire(c.reply)
  }

  function InboxWire(es: seq<Entry<Cursor>>): bytes
    requires ValidInbox(es)
  {
    if es == [] then [] else Blob(es[0].key) + CursorWire(es[0].value) + InboxWire(es[1..])
  }

  function GetCursor(input: bytes): Result<Read<Cursor>> {
    var sequence :- Get(input, 8);
    var digest :- GetBlob(sequence.rest);
    var reply :- GetReply(digest.rest);
    Ok(Read(Cursor(sequence.value, digest.value, reply.value), reply.rest))
  }

  function GetInbox(input: bytes, count: nat, done: seq<Entry<Cursor>>): Result<Read<seq<Entry<Cursor>>>>
    decreases count
  {
    if count == 0 then Ok(Read(done, input))
    else
      var key :- GetBlob(input);
      if !ValidChannel(key.value) then Err(Invalid)
      else
        var c :- GetCursor(key.rest);
        if |key.value| > 512 || c.value.sequence == 0 || |c.value.digest| != 64 then Err(Invalid)
        else match Emplace(done, key.value, c.value)
          case None => Err(Invalid)
          case Some(more) => GetInbox(c.rest, count - 1, more)
  }

  lemma CursorFront(c: Cursor, rest: bytes)
    requires ValidCursor(c) && c.sequence < U64
    ensures GetCursor(CursorWire(c) + rest) == Ok(Read(c, rest))
  {
    hide Put, Get, GetBlob, Blob, GetReply, ReplyWire;
    var r2 := ReplyWire(c.reply) + rest;
    var r1 := Blob(c.digest) + r2;
    assert CursorWire(c) + rest == Put(c.sequence, 8) + r1;
    IntegerFront(c.sequence, r1);
    BlobFront(c.digest, r2);
    ReplyFront(c.reply, rest);
  }

  lemma {:induction false} InboxFront(done: seq<Entry<Cursor>>, es: seq<Entry<Cursor>>, rest: bytes)
    requires ValidInbox(es) && TypedInbox(es) && Rising(done + es)
    ensures GetInbox(InboxWire(es) + rest, |es|, done) == Ok(Read(done + es, rest))
    decreases es
  {
    hide GetBlob, Blob, ValidChannel, Less, Emplace, GetCursor, CursorWire;
    if es == [] {
      assert done + es == done && InboxWire(es) + rest == rest;
    } else {
      var tail := InboxWire(es[1..]) + rest;
      assert InboxWire(es) + rest == Blob(es[0].key) + (CursorWire(es[0].value) + tail);
      ChannelShort(es[0].key);
      BlobFront(es[0].key, CursorWire(es[0].value) + tail);
      CursorFront(es[0].value, tail);
      LastKey(done, es);
      InboxFront(done + [es[0]], es[1..], rest);
    }
  }

  // ---- the outbox ----

  predicate Ticketed(ms: seq<Message>, ticket: bytes) { exists i :: 0 <= i < |ms| && ms[i].ticket == ticket }

  predicate ValidOutbox(ms: seq<Message>) {
    && (forall i :: 0 <= i < |ms| ==> ValidMessage(ms[i]))
    && forall i, j :: 0 <= i < j < |ms| ==> ms[i].ticket != ms[j].ticket
  }

  predicate TypedOutbox(ms: seq<Message>) { forall i :: 0 <= i < |ms| ==> TypedMessage(ms[i]) }

  function OutboxWire(ms: seq<Message>): bytes
    requires ValidOutbox(ms)
  {
    if ms == [] then [] else MessageWire(ms[0]) + OutboxWire(ms[1..])
  }

  function GetOutbox(input: bytes, count: nat, done: seq<Message>): Result<Read<seq<Message>>>
    decreases count
  {
    if count == 0 then Ok(Read(done, input))
    else
      var m :- GetMessage(input);
      if Ticketed(done, m.value.ticket) then Err(Invalid) else GetOutbox(m.rest, count - 1, done + [m.value])
  }

  lemma {:induction false} OutboxFront(done: seq<Message>, ms: seq<Message>, rest: bytes)
    requires ValidOutbox(done + ms) && ValidOutbox(ms) && TypedOutbox(ms)
    ensures GetOutbox(OutboxWire(ms) + rest, |ms|, done) == Ok(Read(done + ms, rest))
    decreases ms
  {
    hide GetMessage, MessageWire, ValidMessage, TypedMessage;
    if ms == [] {
      assert done + ms == done && OutboxWire(ms) + rest == rest;
    } else {
      var tail := OutboxWire(ms[1..]) + rest;
      assert OutboxWire(ms) + rest == MessageWire(ms[0]) + tail;
      MessageFront(ms[0], tail);
      assert (done + ms)[|done|] == ms[0] && forall i :: 0 <= i < |done| ==> (done + ms)[i] == done[i];
      assert done + ms == (done + [ms[0]]) + ms[1..];
      OutboxFront(done + [ms[0]], ms[1..], rest);
    }
  }

  // ---- the whole state ----

  predicate ValidDelivery(d: Delivery) {
    && d.epoch != 0 && |d.sent| <= 4096 && |d.inbox| <= 4096 && |d.outbox| <= 1024
    && ValidSent(d.sent) && ValidInbox(d.inbox) && ValidOutbox(d.outbox)
  }

  predicate TypedDelivery(d: Delivery) {
    && d.epoch < U64 && TypedSent(d.sent) && TypedInbox(d.inbox) && TypedOutbox(d.outbox) && Rising(d.sent)
    && Rising(d.inbox)
  }

  function DeliveryWire(d: Delivery): bytes
    requires ValidDelivery(d)
  {
    FDS1 + Put(d.epoch, 8) + Put(|d.sent|, 4) + SentWire(d.sent) + Put(|d.inbox|, 4) + InboxWire(d.inbox)
    + Put(|d.outbox|, 4) + OutboxWire(d.outbox)
  }

  /** `encode_delivery_state`. */
  function Encode(d: Delivery): Result<bytes> {
    if !ValidDelivery(d) then Err(Invalid)
    else if |DeliveryWire(d)| > STATE_LIMIT then Err(TooLong) else Ok(DeliveryWire(d))
  }

  /** `decode_delivery_state`. */
  function Decode(input: bytes): Result<Delivery> {
    if !StartsWith(input, FDS1) || |input| > STATE_LIMIT then Err(Invalid)
    else
      var epoch :- Get(input[4..], 8);
      var sents :- Get(epoch.rest, 4);
      if sents.value > 4096 then Err(Invalid)
      else
        var sent :- GetSent(sents.rest, sents.value, []);
        var inboxes :- Get(sent.rest, 4);
        if inboxes.value > 4096 then Err(Invalid)
        else
          var inbox :- GetInbox(inboxes.rest, inboxes.value, []);
          var outboxes :- Get(inbox.rest, 4);
          if outboxes.value > 1024 then Err(Invalid)
          else
            var outbox :- GetOutbox(outboxes.rest, outboxes.value, []);
            if outbox.rest != [] || epoch.value == 0 then Err(Invalid)
            else Ok(Delivery(epoch.value, sent.value, inbox.value, outbox.value))
  }

  /** Decoding an encoded delivery state returns it. */
  lemma RoundTrip(d: Delivery)
    requires TypedDelivery(d) && Encode(d).Ok?
    ensures Decode(Encode(d).value) == Ok(d)
  {
    hide Put, Get, SentWire, GetSent, InboxWire, GetInbox, OutboxWire, GetOutbox, ValidSent, ValidInbox, ValidOutbox,
         TypedSent, TypedInbox, TypedOutbox, Rising;
    var wire := DeliveryWire(d);
    var r6 := OutboxWire(d.outbox) + [];
    var r5 := Put(|d.outbox|, 4) + r6;
    var r4 := InboxWire(d.inbox) + r5;
    var r3 := Put(|d.inbox|, 4) + r4;
    var r2 := SentWire(d.sent) + r3;
    var r1 := Put(|d.sent|, 4) + r2;
    assert wire == FDS1 + (Put(d.epoch, 8) + r1);
    assert wire[..4] == FDS1 && wire[4..] == Put(d.epoch, 8) + r1;
    IntegerFront(d.epoch, r1);
    NumberFront(|d.sent|, r2);
    assert [] + d.sent == d.sent && [] + d.inbox == d.inbox && [] + d.outbox == d.outbox;
    SentFront([], d.sent, r3);
    NumberFront(|d.inbox|, r4);
    InboxFront([], d.inbox, r5);
    NumberFront(|d.outbox|, r6);
    OutboxFront([], d.outbox, []);
  }

  // ---- the loops ----

  /** Appends counter after counter, checking each channel as it goes. */
  method WriteSent(out: bytes, es: seq<Entry<nat>>) returns (r: Result<bytes>)
    ensures if ValidSent(es) then r == Ok(out + SentWire(es)) else r == Err(Invalid)
  {
    hide ValidChannel, Blob, Put;
    var done, i := out, 0;
    assert es[0..] == es;
    while i < |es|
      invariant 0 <= i <= |es| && ValidSent(es[..i]) && done + SentWire(es[i..]) == out + SentWire(es)
    {
      if !ValidChannel(es[i].key) || es[i].value == 0 { return Err(Invalid); }
      assert es[..i + 1] == es[..i] + [es[i]];
      assert es[i..][0] == es[i] && es[i..][1..] == es[i + 1..];
      var one := Blob(es[i].key) + Put(es[i].value, 8);
      assert done + (one + SentWire(es[i + 1..])) == done + one + SentWire(es[i + 1..]);
      done, i := done + one, i + 1;
    }
    assert es[..i] == es && es[i..] == [] && done + [] == done;
    r := Ok(done);
  }

  method WriteInbox(out: bytes, es: seq<Entry<Cursor>>) returns (r: Result<bytes>)
    ensures if ValidInbox(es) then r == Ok(out + InboxWire(es)) else r == Err(Invalid)
  {
    hide ValidChannel, ValidCursor, Blob, CursorWire;
    var done, i := out, 0;
    assert es[0..] == es;
    while i < |es|
      invariant 0 <= i <= |es| && ValidInbox(es[..i])
      invariant (ValidInbox(es) ==> done + InboxWire(es[i..]) == out + InboxWire(es))
    {
      if !ValidChannel(es[i].key) || !ValidCursor(es[i].value) { return Err(Invalid); }
      assert es[..i + 1] == es[..i] + [es[i]];
      assert es[i..][0] == es[i] && es[i..][1..] == es[i + 1..];
      var one := Blob(es[i].key) + CursorWire(es[i].value);
      if ValidInbox(es) { assert done + (one + InboxWire(es[i + 1..])) == done + one + InboxWire(es[i + 1..]); }
      done, i := done + one, i + 1;
    }
    assert es[..i] == es && es[i..] == [] && done + [] == done;
    r := Ok(done);
  }

  /** Appends message after message, refusing a ticket seen before. */
  method WriteOutbox(out: bytes, ms: seq<Message>) returns (r: Result<bytes>)
    ensures if ValidOutbox(ms) then r == Ok(out + OutboxWire(ms)) else r == Err(Invalid)
  {
    hide ValidMessage, MessageWire;
    var done, i, tickets: set<bytes> := out, 0, {};
    assert ms[0..] == ms;
    while i < |ms|
      invariant 0 <= i <= |ms| && ValidOutbox(ms[..i]) && (forall t :: t in tickets <==> Ticketed(ms[..i], t))
      invariant ValidOutbox(ms) ==> done + OutboxWire(ms[i..]) == out + OutboxWire(ms)
    {
      assert Ticketed(ms[..i], ms[i].ticket) ==> !ValidOutbox(ms);
      if ms[i].ticket in tickets || !ValidMessage(ms[i]) { return Err(Invalid); }
      assert ms[..i + 1] == ms[..i] + [ms[i]];
      assert ms[i..][0] == ms[i] && ms[i..][1..] == ms[i + 1..];
      TicketedMore(ms[..i], ms[i]);
      if ValidOutbox(ms) {
        assert done + (MessageWire(ms[i]) + OutboxWire(ms[i + 1..]))
          == done + MessageWire(ms[i]) + OutboxWire(ms[i + 1..]);
      }
      done, i, tickets := done + MessageWire(ms[i]), i + 1, tickets + {ms[i].ticket};
    }
    assert ms[..i] == ms && ms[i..] == [] && done + [] == done;
    r := Ok(done);
  }

  lemma TicketedMore(ms: seq<Message>, m: Message)
    ensures forall t :: Ticketed(ms + [m], t) <==> Ticketed(ms, t) || t == m.ticket
    ensures ValidOutbox(ms) && ValidMessage(m) && !Ticketed(ms, m.ticket) ==> ValidOutbox(ms + [m])
  {
    hide ValidMessage;
    assert (ms + [m])[|ms|] == m && forall i :: 0 <= i < |ms| ==> (ms + [m])[i] == ms[i];
  }

  method ReadSent(input: bytes, count: nat) returns (r: Result<Read<seq<Entry<nat>>>>)
    ensures r == GetSent(input, count, [])
  {
    hide GetBlob, Get, ValidChannel, Emplace;
    var rest, left: nat, es: seq<Entry<nat>> := input, count, [];
    while left > 0
      invariant 0 <= left <= count && GetSent(rest, left, es) == GetSent(input, count, [])
    {
      var key := GetBlob(rest);
      if key.Err? { return Err(key.error); }
      if !ValidChannel(key.value.value) { return Err(Invalid); }
      var n := Get(key.value.rest, 8);
      if n.Err? { return Err(n.error); }
      if |key.value.value| > 512 || n.value.value == 0 { return Err(Invalid); }
      var more := Emplace(es, key.value.value, n.value.value);
      if more.None? { return Err(Invalid); }
      rest, left, es := n.value.rest, left - 1, more.value;
    }
    r := Ok(Read(es, rest));
  }

  method ReadInbox(input: bytes, count: nat) returns (r: Result<Read<seq<Entry<Cursor>>>>)
    ensures r == GetInbox(input, count, [])
  {
    hide GetBlob, GetCursor, ValidChannel, Emplace;
    var rest, left: nat, es: seq<Entry<Cursor>> := input, count, [];
    while left > 0
      invariant 0 <= left <= count && GetInbox(rest, left, es) == GetInbox(input, count, [])
    {
      var key := GetBlob(rest);
      if key.Err? { return Err(key.error); }
      if !ValidChannel(key.value.value) { return Err(Invalid); }
      var c := GetCursor(key.value.rest);
      if c.Err? { return Err(c.error); }
      if |key.value.value| > 512 || c.value.value.sequence == 0 || |c.value.value.digest| != 64 { return Err(Invalid); }
      var more := Emplace(es, key.value.value, c.value.value);
      if more.None? { return Err(Invalid); }
      rest, left, es := c.value.rest, left - 1, more.value;
    }
    r := Ok(Read(es, rest));
  }

  method ReadOutbox(input: bytes, count: nat) returns (r: Result<Read<seq<Message>>>)
    ensures r == GetOutbox(input, count, [])
  {
    hide GetMessage, ValidMessage;
    var rest, left: nat, ms: seq<Message> := input, count, [];
    var tickets: set<bytes> := {};
    while left > 0
      invariant 0 <= left <= count && GetOutbox(rest, left, ms) == GetOutbox(input, count, [])
      invariant forall t :: t in tickets <==> Ticketed(ms, t)
    {
      var m := GetMessage(rest);
      if m.Err? { return Err(m.error); }
      if m.value.value.ticket in tickets { return Err(Invalid); }
      TicketedMore(ms, m.value.value);
      rest, left, ms, tickets := m.value.rest, left - 1, ms + [m.value.value], tickets + {m.value.value.ticket};
    }
    r := Ok(Read(ms, rest));
  }
}
