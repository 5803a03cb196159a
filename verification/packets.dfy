/** Replication packets: a header naming the subscription and the entity, around an encoded update. */
module Packets {
  import opened Bytes
  import opened Framing
  import opened ValueCodec
  import opened UpdateCodec
  import opened UpdateDecoder

  const FSN1: bytes := [0x46, 0x53, 0x4e, 0x31]

  datatype Name = Name(subscription: nat, kind: bytes, id: bytes)

  datatype Packet = Packet(name: Name, status: nat, lease: nat, update: Option<Update>)

  /** `Status::ok` is zero and `Status::internal` the last. */
  const LAST_STATUS: nat := 6

  predicate ValidPacketName(n: Name) { 0 < n.subscription < U64 && ValidEntity(n.kind, n.id) }

  function Frame(n: Name, status: byte, lease: nat, body: bytes): bytes {
    FSN1 + ([status] + (Put(n.subscription, 8) + (Put(lease, 4) + (EntityKey(n.kind, n.id) + body))))
  }

  /** `encode_replication_packet` of an update. */
  function EncodePacket(n: Name, lease: nat, u: Update): Result<bytes> {
    if !ValidEntity(n.kind, n.id) then Err(Invalid)
    else
      var body :- Encode(u);
      Ok(Frame(n, 0, lease, body))
  }

  /** What follows the header: an update, or nothing when the packet ends the subscription. */
  function GetBody(status: nat, input: bytes): Result<Option<Update>> {
    if status == 0 then
      var u :- Decode(input);
      Ok(Some(u))
    else if input == [] then Ok(None)
    else Err(Invalid)
  }

  /** `decode_replication_packet`. */
  function DecodePacket(input: bytes): Result<Packet> {
    if |input| > LIMIT || !StartsWith(input, FSN1) then Err(Invalid)
    else
      var status :- GetFlags(input[4..], LAST_STATUS);
      var subscription :- Get(status.rest, 8);
      if subscription.value == 0 then Err(Invalid)
      else
        var lease :- Get(subscription.rest, 4);
        var entity :- GetEntity(lease.rest);
        var update :- GetBody(status.value, entity.rest);
        Ok(Packet(Name(subscription.value, entity.value.kind, entity.value.id), status.value, lease.value, update))
  }

  /** A framed body is opened exactly when the frame is no longer than a record may be and the body is good. */
  lemma FrameOpens(n: Name, status: byte, lease: nat, body: bytes)
    requires ValidPacketName(n) && status <= LAST_STATUS && lease < U32
    ensures |Frame(n, status, lease, body)| <= |body| + 403
    ensures DecodePacket(Frame(n, status, lease, body)) ==
      if |Frame(n, status, lease, body)| > LIMIT then Err(Invalid)
      else match GetBody(status, body)
        case Ok(u) => Ok(Packet(n, status, lease, u))
        case Err(e) => Err(e)
  {
    hide Put, Get, GetFlags, GetEntity, EntityKey, GetBody;
    var wire := Frame(n, status, lease, body);
    var r3 := EntityKey(n.kind, n.id) + body;
    var r2 := Put(lease, 4) + r3;
    var r1 := Put(n.subscription, 8) + r2;
    assert wire == FSN1 + ([status] + r1);
    assert wire[..4] == FSN1 && wire[4..] == [status] + r1;
    KeyLength(n);
    FlagsFront(status, LAST_STATUS, r1);
    IntegerFront(n.subscription, r2);
    NumberFront(lease, r3);
    EntityFront(n.kind, n.id, body);
  }

  lemma KeyLength(n: Name)
    requires ValidPacketName(n)
    ensures |EntityKey(n.kind, n.id)| <= 386
  {
  }

  /** The header adds at most 403 bytes, and a packet comes back exactly when it is no longer than a record may be. */
  lemma PacketTrip(n: Name, lease: nat, u: Update)
    requires ValidPacketName(n) && lease < U32 && TypedUpdate(u) && Encode(u).Ok?
    ensures EncodePacket(n, lease, u).Ok? && |EncodePacket(n, lease, u).value| <= |Encode(u).value| + 403
    ensures DecodePacket(EncodePacket(n, lease, u).value) ==
      if |EncodePacket(n, lease, u).value| <= LIMIT then Ok(Packet(n, 0, lease, Some(u))) else Err(Invalid)
  {
    hide Frame, DecodePacket, Encode, Decode, TypedUpdate;
    FrameOpens(n, 0, lease, Encode(u).value);
    RoundTrip(u);
  }

  // ---- every packet that is accepted ----

  lemma {:induction false} PutNumber(s: bytes)
    ensures Put(Number(s), |s|) == s
    decreases s
  {
    if s != [] {
      var n := Number(s[..|s| - 1]);
      PutNumber(s[..|s| - 1]);
      assert (n * 256 + s[|s| - 1]) / 256 == n && (n * 256 + s[|s| - 1]) % 256 == s[|s| - 1];
      assert s[..|s| - 1] + [s[|s| - 1]] == s;
    }
  }

  lemma Reframed(input: bytes, count: nat)
    requires Get(input, count).Ok?
    ensures var r := Get(input, count).value; Put(r.value, count) + r.rest == input
  {
    hide Put, Number;
    PutNumber(input[..count]);
  }

  lemma EntityReframed(input: bytes)
    requires GetEntity(input).Ok?
    ensures var r := GetEntity(input).value;
      ValidEntity(r.value.kind, r.value.id) && EntityKey(r.value.kind, r.value.id) + r.rest == input
  {
    hide Put, Number;
    Reframed(input, 1);
    var n := Get(input, 1).value;
    var kind := Take(n.rest, n.value).value;
    Reframed(kind.rest, 2);
    var m := Get(kind.rest, 2).value;
    var id := Take(m.rest, m.value).value;
    assert n.rest == kind.value + kind.rest && m.rest == id.value + id.rest;
    Regrouped(Put(n.value, 1), kind.value, Put(m.value, 2), id.value + id.rest);
    Regrouped(Put(n.value, 1) + kind.value, Put(m.value, 2), id.value, id.rest);
  }

  lemma Regrouped(a: bytes, b: bytes, c: bytes, d: bytes)
    ensures a + b + c + d == a + (b + (c + d)) == a + b + (c + d)
  {
  }

  lemma StatusReframed(input: bytes)
    requires GetFlags(input, LAST_STATUS).Ok?
    ensures var r := GetFlags(input, LAST_STATUS).value; r.value <= LAST_STATUS && [r.value] + r.rest == input
  {
    assert input[..1] == [input[0]] && input[..1][..0] == [];
    assert Number(input[..1]) == input[0];
  }

  /** Whatever is accepted is a frame with a valid header, byte for byte, around an encoded update, or
      around nothing if it ends the subscription. */
  lemma PacketSound(input: bytes) returns (body: bytes)
    requires DecodePacket(input).Ok?
    ensures var p := DecodePacket(input).value;
      && ValidPacketName(p.name) && p.status <= LAST_STATUS && p.lease < U32 && |input| <= LIMIT
      && input == Frame(p.name, p.status, p.lease, body) && GetBody(p.status, body) == Ok(p.update)
      && (if p.status == 0 then p.update.Some? && Decode(body) == Ok(p.update.value) else p.update.None? && body == [])
  {
    hide Put, Number, GetFlags, GetEntity, EntityKey, Decode;
    Pow256Values();
    var status := GetFlags(input[4..], LAST_STATUS).value;
    StatusReframed(input[4..]);
    Reframed(status.rest, 8);
    var subscription := Get(status.rest, 8).value;
    Reframed(subscription.rest, 4);
    var lease := Get(subscription.rest, 4).value;
    EntityReframed(lease.rest);
    body := GetEntity(lease.rest).value.rest;
    assert input == FSN1 + input[4..];
  }

  // ---- forwarding ----

  /** What `remap_replication_subscription` accepts. */
  predicate Remappable(packet: bytes, id: nat, prefix: nat) {
    id != 0 && prefix + 17 <= |packet| && packet[prefix..prefix + 4] == FSN1
  }

  /** The packet behind the prefix with another subscription. */
  function Remapped(packet: bytes, id: nat, prefix: nat): bytes
    requires Remappable(packet, id, prefix)
  {
    packet[..prefix + 5] + Put(id, 8) + packet[prefix + 13..]
  }

  /** `remap_replication_subscription`: writes the eight bytes in place. */
  method Remap(packet: array<byte>, id: nat, prefix: nat) returns (r: Result<bool>)
    modifies packet
    ensures r.Ok? <==> old(Remappable(packet[..], id, prefix))
    ensures packet[..] == if r.Ok? then old(Remapped(packet[..], id, prefix)) else old(packet[..])
  {
    hide Put;
    if id == 0 || prefix + 17 > packet.Length || packet[prefix..prefix + 4] != FSN1 {
      return Err(Invalid);
    }
    ghost var was, at := packet[..], prefix + 5;
    var i := 0;
    while i < 8
      invariant 0 <= i <= 8 && packet[..] == was[..at] + Put(id, 8)[..i] + was[at + i..]
    {
      PutAt(id, 8, i);
      packet[prefix + 5 + i] := id / Pow256(7 - i) % 256;
      assert Put(id, 8)[..i + 1] == Put(id, 8)[..i] + [Put(id, 8)[i]];
      i := i + 1;
    }
    assert Put(id, 8)[..8] == Put(id, 8);
    r := Ok(true);
  }

  lemma Quotient(n: nat, p: nat)
    requires p > 0
    ensures n / 256 / p == n / (256 * p)
  {
    var q, r := n / 256 / p, n / 256 % p;
    assert n / 256 == p * q + r && n == 256 * (n / 256) + n % 256;
    var rest := 256 * r + n % 256;
    assert n == 256 * p * q + rest && 0 <= rest < 256 * p;
    Divides(256 * p, q, rest);
  }

  lemma Divides(d: nat, q: nat, r: nat)
    requires r < d
    ensures (d * q + r) / d == q
  {
    var n := d * q + r;
    var k, m := n / d, n % d;
    assert n == d * k + m && 0 <= m < d;
    if k < q {
      Apart(d, k, q);
    } else if k > q {
      Apart(d, q, k);
    }
  }

  lemma {:induction false} Apart(d: nat, a: nat, b: nat)
    requires a < b
    ensures d * a + d <= d * b
    decreases b
  {
    assert d * b == d * (b - 1) + d;
    if a < b - 1 { Apart(d, a, b - 1); }
  }

  lemma {:induction false} PutAt(n: nat, count: nat, i: nat)
    requires i < count
    ensures Put(n, count)[i] == n / Pow256(count - 1 - i) % 256
    decreases count
  {
    if i < count - 1 {
      PutAt(n / 256, count - 1, i);
      Quotient(n, Pow256(count - 2 - i));
    }
  }

  /** A forwarded packet opens to what it did, for the new subscription, and nothing in front of it changes. */
  lemma RemapOpens(input: bytes, id: nat, front: bytes)
    requires DecodePacket(input).Ok? && 0 < id < U64
    ensures Remappable(front + input, id, |front|)
    ensures var p, out := DecodePacket(input).value, Remapped(front + input, id, |front|);
      && |out| == |front| + |input| && out[..|front|] == front
      && DecodePacket(out[|front|..]) == Ok(p.(name := p.name.(subscription := id)))
  {
    hide Put, DecodePacket, EntityKey, GetBody;
    var p := DecodePacket(input).value;
    var body := PacketSound(input);
    var rest := Put(p.lease, 4) + (EntityKey(p.name.kind, p.name.id) + body);
    Regrouped(FSN1, [p.status], Put(p.name.subscription, 8), rest);
    RemapsFrame(front, p.status, Put(p.name.subscription, 8), rest, id);
    var name := p.name.(subscription := id);
    Regrouped(FSN1, [p.status], Put(id, 8), rest);
    var out := Frame(name, p.status, p.lease, body);
    assert Remapped(front + input, id, |front|) == front + out;
    TakeFront(front, out);
    hide Frame;
    FrameOpens(name, p.status, p.lease, body);
  }

  lemma RemapsFrame(front: bytes, status: byte, was: bytes, rest: bytes, id: nat)
    requires |was| == 8 && |rest| >= 4 && id != 0
    ensures var packet := front + (FSN1 + [status] + was + rest);
      && Remappable(packet, id, |front|)
      && Remapped(packet, id, |front|) == front + (FSN1 + [status] + Put(id, 8) + rest)
  {
    hide Put;
    var packet, n := front + (FSN1 + [status] + was + rest), |front|;
    assert packet[n..n + 4] == FSN1;
    assert packet[..n + 5] == front + FSN1 + [status];
    assert packet[n + 13..] == rest;
  }
}
