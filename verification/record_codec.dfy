/** The single record an entity is stored as: header, receipts, delivery state and timers, with the decoders that read
    all of it and the ones that skip. */
module RecordCodec {
  import opened Bytes
  import opened Framing
  import T = TimerCodec
  import D = DeliveryCodec

  const FSP1: bytes := [0x46, 0x53, 0x50, 0x31]
  const FSP2: bytes := [0x46, 0x53, 0x50, 0x32]
  const FSP3: bytes := [0x46, 0x53, 0x50, 0x33]
  const FER5: bytes := [0x46, 0x45, 0x52, 0x35]

  datatype Receipt = Receipt(id: bytes, route: bytes, request: bytes, response: bytes)

  datatype Snapshot = Snapshot(state: bytes, receipts: seq<Receipt>, delivery: D.Delivery, timers: T.Timers)

  // ---- receipts ----

  predicate ValidReceipt(r: Receipt) { |r.id| < U32 && |r.route| < U32 && |r.request| < U32 && |r.response| < U32 }

  predicate ValidReceipts(rs: seq<Receipt>) { forall i :: 0 <= i < |rs| ==> ValidReceipt(rs[i]) }

  function ReceiptWire(r: Receipt): bytes { Blob(r.id) + Blob(r.route) + Blob(r.request) + Blob(r.response) }

  function ReceiptsWire(rs: seq<Receipt>): bytes { if rs == [] then [] else ReceiptWire(rs[0]) + ReceiptsWire(rs[1..]) }

  function GetReceipt(input: bytes): Result<Read<Receipt>> {
    var id :- GetBlob(input);
    var route :- GetBlob(id.rest);
    var request :- GetBlob(route.rest);
    var response :- GetBlob(request.rest);
    Ok(Read(Receipt(id.value, route.value, request.value, response.value), response.rest))
  }

  function GetReceipts(input: bytes, count: nat): Result<Read<seq<Receipt>>>
    decreases count
  {
    if count == 0 then Ok(Read([], input))
    else
      var r :- GetReceipt(input);
      var more :- GetReceipts(r.rest, count - 1);
      Ok(Read([r.value] + more.value, more.rest))
  }

  /** Passes over blobs without keeping them. */
  function SkipBlobs(input: bytes, count: nat): Result<bytes>
    decreases count
  {
    if count == 0 then Ok(input)
    else
      var b :- GetBlob(input);
      SkipBlobs(b.rest, count - 1)
  }

  lemma ReceiptFront(r: Receipt, rest: bytes)
    requires ValidReceipt(r)
    ensures GetReceipt(ReceiptWire(r) + rest) == Ok(Read(r, rest))
  {
    hide GetBlob, Blob;
    var r3 := Blob(r.response) + rest;
    var r2 := Blob(r.request) + r3;
    var r1 := Blob(r.route) + r2;
    assert ReceiptWire(r) + rest == Blob(r.id) + r1;
    BlobFront(r.id, r1);
    BlobFront(r.route, r2);
    BlobFront(r.request, r3);
    BlobFront(r.response, rest);
  }

  lemma {:induction false} ReceiptsFront(rs: seq<Receipt>, rest: bytes)
    requires ValidReceipts(rs)
    ensures GetReceipts(ReceiptsWire(rs) + rest, |rs|) == Ok(Read(rs, rest))
    decreases rs
  {
    hide GetReceipt, ReceiptWire, ValidReceipt;
    if rs == [] {
      assert ReceiptsWire(rs) + rest == rest;
    } else {
      var tail := ReceiptsWire(rs[1..]) + rest;
      assert ReceiptsWire(rs) + rest == ReceiptWire(rs[0]) + tail;
      ReceiptFront(rs[0], tail);
      ReceiptsFront(rs[1..], rest);
      assert [rs[0]] + rs[1..] == rs;
    }
  }

  /** Skipping four blobs a receipt ends where reading the receipts ends, and fails where it fails. */
  lemma {:induction false} SkipReceipts(input: bytes, count: nat)
    ensures SkipBlobs(input, 4 * count).Ok? <==> GetReceipts(input, count).Ok?
    ensures GetReceipts(input, count).Ok? ==> SkipBlobs(input, 4 * count) == Ok(GetReceipts(input, count).value.rest)
    decreases count
  {
    hide GetBlob;
    if count > 0 {
      SkipFour(input, 4 * (count - 1));
      var r := GetReceipt(input);
      if r.Ok? { SkipReceipts(r.value.rest, count - 1); }
    }
  }

  lemma SkipFour(input: bytes, count: nat)
    ensures GetReceipt(input).Err? ==> SkipBlobs(input, count + 4).Err?
    ensures GetReceipt(input).Ok? ==> SkipBlobs(input, count + 4) == SkipBlobs(GetReceipt(input).value.rest, count)
  {
    hide GetBlob;
    var id := GetBlob(input);
    if id.Ok? {
      assert SkipBlobs(input, count + 4) == SkipBlobs(id.value.rest, count + 3);
      var route := GetBlob(id.value.rest);
      if route.Ok? {
        assert SkipBlobs(id.value.rest, count + 3) == SkipBlobs(route.value.rest, count + 2);
        var request := GetBlob(route.value.rest);
        if request.Ok? { assert SkipBlobs(route.value.rest, count + 2) == SkipBlobs(request.value.rest, count + 1); }
      }
    }
  }

  // ---- snapshots ----

  predicate HasTimers(s: Snapshot) { s.timers.token != [] || s.timers.sequence != 0 || s.timers.entries != [] }

  predicate HasDelivery(s: Snapshot) { s.delivery.epoch != 0 }

  predicate ValidSnapshot(s: Snapshot) {
    && (!HasDelivery(s) ==> s.delivery == D.NO_DELIVERY) && |s.state| < U32 && |s.receipts| <= 1024
    && ValidReceipts(s.receipts)
    && (HasDelivery(s) ==> D.Encode(s.delivery).Ok?) && (HasTimers(s) ==> T.Encode(s.timers).Ok?)
  }

  predicate TypedSnapshot(s: Snapshot) {
    D.TypedDelivery(s.delivery) && s.timers.sequence < U64 && T.Rising(s.timers.entries)
  }

  function Magic(s: Snapshot): bytes { if HasTimers(s) then FSP3 else if HasDelivery(s) then FSP2 else FSP1 }

  /** What follows the receipts: a flag when there are timers, then the delivery state and the timers that are present.
      */
  function TailWire(s: Snapshot): bytes
    requires ValidSnapshot(s)
  {
    (if HasTimers(s) then [if HasDelivery(s) then 1 else 0] else [])
    + (if HasDelivery(s) then Blob(D.Encode(s.delivery).value) else [])
    + (if HasTimers(s) then Blob(T.Encode(s.timers).value) else [])
  }

  function SnapshotWire(s: Snapshot): bytes
    requires ValidSnapshot(s)
  {
    Magic(s) + Blob(s.state) + Put(|s.receipts|, 4) + ReceiptsWire(s.receipts) + TailWire(s)
  }

  /** `encode_snapshot`. */
  function EncodeSnapshot(s: Snapshot): Result<bytes> { if ValidSnapshot(s) then Ok(SnapshotWire(s)) else Err(Invalid) }

  datatype Parts = Parts(delivery: Option<bytes>, timers: Option<bytes>)

  /** The blobs after the receipts, unread. */
  function GetParts(input: bytes, withTimers: bool, withDelivery: bool): Result<Parts> {
    var flag :- if withTimers then GetFlags(input, 1) else Ok(Read(if withDelivery then 1 else 0, input));
    var delivery :- if flag.value == 1 then GetBlob(flag.rest) else Ok(Read([], flag.rest));
    var timers :- if withTimers then GetBlob(delivery.rest) else Ok(Read([], delivery.rest));
    if timers.rest != [] then Err(Invalid)
    else
      Ok(Parts(
           if flag.value == 1 then Some(delivery.value) else None, if withTimers then Some(timers.value) else None))
  }

  predicate Known(input: bytes) { StartsWith(input, FSP1) || StartsWith(input, FSP2) || StartsWith(input, FSP3) }

  /** `decode_snapshot`. */
  function DecodeSnapshot(input: bytes): Result<Snapshot> {
    if !Known(input) then Err(Invalid)
    else
      var state :- GetBlob(input[4..]);
      var count :- Get(state.rest, 4);
      if count.value > 1024 then Err(Invalid)
      else
        var receipts :- GetReceipts(count.rest, count.value);
        var parts :- GetParts(receipts.rest, StartsWith(input, FSP3), StartsWith(input, FSP2));
        var delivery :- match parts.delivery case None => Ok(D.NO_DELIVERY) case Some(b) => D.Decode(b);
        var timers :- match parts.timers case None => Ok(T.NO_TIMERS) case Some(b) => T.Decode(b);
        Ok(Snapshot(state.value, receipts.value, delivery, timers))
  }

  /** The walk both skipping decoders share: over the state and the receipts, to the parts. */
  function Skim(input: bytes): Result<Parts> {
    if !Known(input) then Err(Invalid)
    else
      var state :- SkipBlobs(input[4..], 1);
      var count :- Get(state, 4);
      if count.value > 1024 then Err(Invalid)
      else
        var rest :- SkipBlobs(count.rest, 4 * count.value);
        GetParts(rest, StartsWith(input, FSP3), StartsWith(input, FSP2))
  }

  /** `validate_snapshot_framing`. */
  predicate Framed(input: bytes) { Skim(input).Ok? }

  /** `decode_snapshot_timers`. */
  function DecodeTimers(input: bytes): Result<T.Timers> {
    var parts :- Skim(input);
    match parts.timers
    case None => Ok(T.NO_TIMERS)
    case Some(b) => T.Decode(b)
  }

  /** The blobs after the receipts decode. */
  predicate PartsDecode(p: Parts) {
    && (p.delivery.Some? ==> D.Decode(p.delivery.value).Ok?) && (p.timers.Some? ==> T.Decode(p.timers.value).Ok?)
  }

  /** For every input: the full decoder accepts exactly what is framed and whose parts decode, and the skipping decoder
      then returns the timers the full one returns. */
  lemma TimersAgree(input: bytes)
    ensures DecodeSnapshot(input).Ok? <==> Framed(input) && PartsDecode(Skim(input).value)
    ensures DecodeSnapshot(input).Ok? ==> DecodeTimers(input) == Ok(DecodeSnapshot(input).value.timers)
  {
    hide Get, GetBlob, GetReceipts, GetParts, SkipBlobs, D.Decode, T.Decode;
    if Known(input) {
      SkipOne(input[4..]);
      var state := GetBlob(input[4..]);
      if state.Ok? && Get(state.value.rest, 4).Ok? {
        var count := Get(state.value.rest, 4).value;
        SkipReceipts(count.rest, count.value);
      }
    }
  }

  lemma SkipOne(input: bytes)
    ensures SkipBlobs(input, 1).Ok? <==> GetBlob(input).Ok?
    ensures GetBlob(input).Ok? ==> SkipBlobs(input, 1) == Ok(GetBlob(input).value.rest)
  {
    hide GetBlob;
    if GetBlob(input).Ok? { assert SkipBlobs(GetBlob(input).value.rest, 0) == Ok(GetBlob(input).value.rest); }
  }

  lemma PartsFront(s: Snapshot)
    requires ValidSnapshot(s)
    ensures GetParts(TailWire(s), HasTimers(s), !HasTimers(s) && HasDelivery(s))
      == Ok(Parts(if HasDelivery(s) then Some(D.Encode(s.delivery).value) else None,
                  if HasTimers(s) then Some(T.Encode(s.timers).value) else None))
  {
    hide GetFlags, GetBlob, Blob, D.Encode, T.Encode;
    var d := if HasDelivery(s) then Blob(D.Encode(s.delivery).value) else [];
    var t := if HasTimers(s) then Blob(T.Encode(s.timers).value) else [];
    if HasTimers(s) {
      FlagsFront(if HasDelivery(s) then 1 else 0, 1, d + t);
      assert TailWire(s) == [if HasDelivery(s) then 1 else 0] + (d + t);
      EncodedShort(s);
      BlobFront(T.Encode(s.timers).value, []);
      assert t + [] == t;
    } else {
      assert TailWire(s) == d;
    }
    if HasDelivery(s) {
      EncodedShort(s);
      BlobFront(D.Encode(s.delivery).value, t);
      assert d + t == Blob(D.Encode(s.delivery).value) + t;
      assert !HasTimers(s) ==> d + t == d;
    } else {
      assert d + t == t;
    }
  }

  lemma EncodedShort(s: Snapshot)
    requires ValidSnapshot(s)
    ensures HasDelivery(s) ==> |D.Encode(s.delivery).value| < U32
    ensures HasTimers(s) ==> |T.Encode(s.timers).value| < U32
  {
    hide D.DeliveryWire, T.TimersWire, T.WireSize;
  }

  lemma SnapshotTrip(s: Snapshot)
    requires TypedSnapshot(s) && ValidSnapshot(s)
    ensures DecodeSnapshot(SnapshotWire(s)) == Ok(s)
  {
    hide Put, Get, GetBlob, Blob, GetReceipts, ReceiptsWire, GetParts, TailWire, D.Encode, T.Encode, D.Decode, T.Decode,
         ValidReceipts, T.Rising, D.TypedDelivery;
    var wire := SnapshotWire(s);
    var r3 := TailWire(s);
    var r2 := ReceiptsWire(s.receipts) + r3;
    var r1 := Put(|s.receipts|, 4) + r2;
    assert wire == Magic(s) + (Blob(s.state) + r1);
    assert wire[..4] == Magic(s) && wire[4..] == Blob(s.state) + r1;
    MagicApart(wire, s);
    BlobFront(s.state, r1);
    NumberFront(|s.receipts|, r2);
    ReceiptsFront(s.receipts, r3);
    PartsFront(s);
    if HasDelivery(s) { D.RoundTrip(s.delivery); }
    if HasTimers(s) { T.RoundTrip(s.timers); }
  }

  lemma MagicApart(wire: bytes, s: Snapshot)
    requires |wire| >= 4 && wire[..4] == Magic(s)
    ensures Known(wire) && (StartsWith(wire, FSP3) <==> HasTimers(s))
    ensures (StartsWith(wire, FSP2) <==> !HasTimers(s) && HasDelivery(s))
  {
    assert wire[..4][3] == wire[3];
  }

  // ---- records ----

  datatype Metadata = Metadata(
    kind: bytes, connection: bytes, digest: bytes, rebuildable: bool, destroyed: bool, initial: bytes,
    ownerRevision: nat)

  /** What the view decoder returns: every header field, and the snapshot still encoded. */
  datatype Header = Header(
    owner: bytes, expires: nat, fence: nat, initialized: bool, placement: bytes, transfer: nat, metadata: Metadata,
    snapshot: bytes)

  datatype Record = Record(
    owner: bytes, expires: nat, fence: nat, snapshot: Snapshot, initialized: bool, placement: bytes, transfer: nat,
    metadata: Metadata)

  /** `valid_entity_node`. */
  predicate ValidNode(b: bytes) { 0 < |b| <= 127 && 0x2f !in b && 0 !in b }

  function DigitsValue(b: bytes): nat {
    if b == [] then 0 else DigitsValue(b[..|b| - 1]) * 10 + (if b[|b| - 1] >= 0x30 then b[|b| - 1] - 0x30 else 0)
  }

  const CONNECTION: bytes := [0x63, 0x6f, 0x6e, 0x6e, 0x65, 0x63, 0x74, 0x69, 0x6f, 0x6e, 0x2f]

  /** `valid_connection_key`: the prefix, thirty-two hexadecimal digits, a slash, and a 64-bit generation without
      leading zeros. */
  predicate ValidConnection(b: bytes) {
    && 45 <= |b| <= 64 && b[..11] == CONNECTION && b[43] == 0x2f && b[44] != 0x30
    && (forall i :: 11 <= i < 43 ==> 0x30 <= b[i] <= 0x39 || 0x61 <= b[i] <= 0x66)
    && (forall i :: 44 <= i < |b| ==> 0x30 <= b[i] <= 0x39) && 0 < DigitsValue(b[44..]) < U64
  }

  /** `valid_entity_metadata`. */
  predicate ValidMetadata(m: Metadata) {
    && ValidPart(m.kind) && (m.connection == [] || ValidConnection(m.connection)) && m.ownerRevision != 0
    && |m.digest| == 32
    && |m.initial| <= 8 * 1024 * 1024 && (m.rebuildable || m.initial == [])
  }

  predicate ValidPlacement(placement: bytes, transfer: nat) {
    if placement == [] then transfer == 0 else ValidNode(placement)
  }

  predicate ValidRecord(r: Record) {
    && |r.owner| <= 256 && r.expires <= INT64_MAX && r.fence < INT64_MAX && ValidPlacement(r.placement, r.transfer)
    && ValidMetadata(r.metadata) && ValidSnapshot(r.snapshot)
  }

  predicate TypedRecord(r: Record) { r.transfer < U64 && r.metadata.ownerRevision < U64 && TypedSnapshot(r.snapshot) }

  function MetadataWire(m: Metadata): bytes {
    Blob(m.kind) + Blob(m.connection) + [(if m.rebuildable then 1 else 0) + (if m.destroyed then 2 else 0)]
    + Blob(m.initial) + m.digest + Put(m.ownerRevision, 8)
  }

  /** The header in front of an encoded snapshot. */
  function HeaderWire(r: Record, snapshot: bytes): bytes {
    FER5 + (Blob(r.owner) + (Put(r.expires, 8) + (Put(r.fence, 8) + ([if r.initialized then 1 else 0]
    + (Blob(r.placement) + (Put(r.transfer, 8) + (MetadataWire(r.metadata) + snapshot)))))))
  }

  /** `encode_entity_record`. */
  function Encode(r: Record): Result<bytes> {
    if ValidRecord(r) then Ok(HeaderWire(r, SnapshotWire(r.snapshot))) else Err(Invalid)
  }

  function GetMetadata(input: bytes): Result<Read<Metadata>> {
    var kind :- GetBlob(input);
    var connection :- GetBlob(kind.rest);
    var flags :- GetFlags(connection.rest, 3);
    var initial :- GetBlob(flags.rest);
    var digest :- Take(initial.rest, 32);
    var revision :- Get(digest.rest, 8);
    var m := Metadata(kind.value, connection.value, digest.value, flags.value % 2 == 1, flags.value >= 2, initial.value,
        revision.value);
    if ValidMetadata(m) then Ok(Read(m, revision.rest)) else Err(Invalid)
  }

  /** `header`. */
  function DecodeHeader(input: bytes): Result<Header> {
    if !StartsWith(input, FER5) then Err(Invalid)
    else
      var owner :- GetBlob(input[4..]);
      var expires :- Get(owner.rest, 8);
      var fence :- Get(expires.rest, 8);
      if |owner.value| > 256 || expires.value > INT64_MAX || fence.value >= INT64_MAX then Err(Invalid)
      else
        var initialized :- GetFlags(fence.rest, 1);
        var placement :- GetBlob(initialized.rest);
        var transfer :- Get(placement.rest, 8);
        if !ValidPlacement(placement.value, transfer.value) then Err(Invalid)
        else
          var metadata :- GetMetadata(transfer.rest);
          Ok(Header(
               owner.value, expires.value, fence.value, initialized.value == 1, placement.value, transfer.value,
               metadata.value, metadata.rest))
  }

  /** `decode_entity_record_view`. */
  function DecodeView(input: bytes): Result<Header> {
    var h :- DecodeHeader(input);
    if Framed(h.snapshot) then Ok(h) else Err(Invalid)
  }

  /** `decode_entity_record`. */
  function Decode(input: bytes): Result<Record> {
    var h :- DecodeHeader(input);
    var s :- DecodeSnapshot(h.snapshot);
    Ok(Record(h.owner, h.expires, h.fence, s, h.initialized, h.placement, h.transfer, h.metadata))
  }

  lemma MetadataFront(m: Metadata, rest: bytes)
    requires ValidMetadata(m) && m.ownerRevision < U64
    ensures GetMetadata(MetadataWire(m) + rest) == Ok(Read(m, rest))
  {
    hide Put, Get, GetBlob, Blob, GetFlags, ValidConnection;
    var flags := (if m.rebuildable then 1 else 0) + (if m.destroyed then 2 else 0);
    var r5 := Put(m.ownerRevision, 8) + rest;
    var r4 := m.digest + r5;
    var r3 := Blob(m.initial) + r4;
    var r2 := [flags] + r3;
    var r1 := Blob(m.connection) + r2;
    assert MetadataWire(m) + rest == Blob(m.kind) + r1;
    BlobFront(m.kind, r1);
    ConnectionShort(m);
    BlobFront(m.connection, r2);
    FlagsFront(flags, 3, r3);
    BlobFront(m.initial, r4);
    TakeFront(m.digest, r5);
    IntegerFront(m.ownerRevision, rest);
  }

  lemma ConnectionShort(m: Metadata)
    requires ValidMetadata(m)
    ensures |m.connection| <= 64
  {
  }

  lemma HeaderFront(r: Record, rest: bytes)
    requires ValidRecord(r) && TypedRecord(r)
    ensures DecodeHeader(HeaderWire(r, rest))
      == Ok(Header(r.owner, r.expires, r.fence, r.initialized, r.placement, r.transfer, r.metadata, rest))
  {
    hide Put, Get, GetBlob, Blob, GetFlags, GetMetadata, MetadataWire, ValidMetadata, ValidSnapshot, TypedSnapshot,
         ValidNode;
    var flag := if r.initialized then 1 else 0;
    var r6 := MetadataWire(r.metadata) + rest;
    var r5 := Put(r.transfer, 8) + r6;
    var r4 := Blob(r.placement) + r5;
    var r3 := [flag] + r4;
    var r2 := Put(r.fence, 8) + r3;
    var r1 := Put(r.expires, 8) + r2;
    var wire := HeaderWire(r, rest);
    assert wire[..4] == FER5 && wire[4..] == Blob(r.owner) + r1;
    BlobFront(r.owner, r1);
    IntegerFront(r.expires, r2);
    IntegerFront(r.fence, r3);
    FlagsFront(flag, 1, r4);
    PlacementShort(r);
    BlobFront(r.placement, r5);
    IntegerFront(r.transfer, r6);
    MetadataFront(r.metadata, rest);
  }

  lemma PlacementShort(r: Record)
    requires ValidRecord(r)
    ensures |r.placement| <= 127
  {
  }

  /** Decoding an encoded entity record returns it, through every layer. */
  lemma RoundTrip(r: Record)
    requires TypedRecord(r) && Encode(r).Ok?
    ensures Decode(Encode(r).value) == Ok(r)
  {
    hide DecodeHeader, HeaderWire, DecodeSnapshot, SnapshotWire, ValidMetadata, ValidSnapshot, TypedSnapshot;
    HeaderFront(r, SnapshotWire(r.snapshot));
    SnapshotTrip(r.snapshot);
  }

  /** For every input: the owning decoder accepts exactly what the view decoder accepts and whose snapshot's parts
      decode, and then they agree on every header field and on the snapshot and timers the view leads to. */
  lemma ViewAgrees(input: bytes)
    ensures Decode(input).Ok? <==> DecodeView(input).Ok? && PartsDecode(Skim(DecodeView(input).value.snapshot).value)
    ensures Decode(input).Ok? ==>
      var r := Decode(input).value; var v := DecodeView(input).value;
      && v == Header(r.owner, r.expires, r.fence, r.initialized, r.placement, r.transfer, r.metadata, v.snapshot)
      && DecodeSnapshot(v.snapshot) == Ok(r.snapshot) && DecodeTimers(v.snapshot) == Ok(r.snapshot.timers)
  {
    hide DecodeHeader, DecodeSnapshot, DecodeTimers, Skim, PartsDecode;
    if DecodeHeader(input).Ok? { TimersAgree(DecodeHeader(input).value.snapshot); }
  }

  // ---- the loops ----

  /** Appends the receipts to the output. */
  method WriteReceipts(out: bytes, rs: seq<Receipt>) returns (r: bytes)
    ensures r == out + ReceiptsWire(rs)
  {
    hide ReceiptWire;
    r := out;
    var i := 0;
    assert rs[0..] == rs;
    while i < |rs|
      invariant 0 <= i <= |rs| && r + ReceiptsWire(rs[i..]) == out + ReceiptsWire(rs)
    {
      assert rs[i..][0] == rs[i] && rs[i..][1..] == rs[i + 1..];
      assert r + (ReceiptWire(rs[i]) + ReceiptsWire(rs[i + 1..])) == r + ReceiptWire(rs[i]) + ReceiptsWire(rs[i + 1..]);
      r := r + ReceiptWire(rs[i]);
      i := i + 1;
    }
    assert rs[i..] == [] && r + [] == r;
  }

  /** Consumes the announced number of receipts from the view. */
  method ReadReceipts(input: bytes, count: nat) returns (r: Result<Read<seq<Receipt>>>)
    ensures r.Ok? == GetReceipts(input, count).Ok? && (r.Ok? ==> r == GetReceipts(input, count))
  {
    hide GetReceipt;
    var rest, left: nat, rs: seq<Receipt> := input, count, [];
    assert GetReceipts(input, count).Ok? ==>
      rs + GetReceipts(input, count).value.value == GetReceipts(input, count).value.value;
    while left > 0
      invariant 0 <= left <= count && GetReceipts(input, count).Ok? == GetReceipts(rest, left).Ok?
      invariant GetReceipts(rest, left).Ok? ==>
        GetReceipts(input, count).value == Read(rs + GetReceipts(rest, left).value.value,
            GetReceipts(rest, left).value.rest)
    {
      var one := GetReceipt(rest);
      if one.Err? { return Err(one.error); }
      ghost var more := GetReceipts(one.value.rest, left - 1);
      if more.Ok? { assert rs + ([one.value.value] + more.value.value) == (rs + [one.value.value]) + more.value.value; }
      rest, left, rs := one.value.rest, left - 1, rs + [one.value.value];
    }
    assert rs + [] == rs;
    r := Ok(Read(rs, rest));
  }

  /** Advances a view over blobs without copying them. */
  method AdvanceOver(input: bytes, count: nat) returns (r: Result<bytes>)
    ensures r == SkipBlobs(input, count)
  {
    hide GetBlob;
    var rest, left: nat := input, count;
    while left > 0
      invariant 0 <= left <= count && SkipBlobs(rest, left) == SkipBlobs(input, count)
    {
      var b := GetBlob(rest);
      if b.Err? { return Err(b.error); }
      rest, left := b.value.rest, left - 1;
    }
    r := Ok(rest);
  }
}
