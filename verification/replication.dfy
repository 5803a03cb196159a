/** One attribute subscription: the server's `committed`, a FIFO link of packets, and the client's `receive`. */
module Replication {
  import opened Bytes
  import opened Values
  import opened ValueCodec
  import opened UpdateCodec
  import opened UpdateDecoder
  import opened Framing
  import opened Packets
  import opened Sameness
  import opened Deltas
  import opened DeltaSoundness
  import opened Applying
  import opened DeltaTheorem
  import opened DeltaApplication
  import opened Staging

  /** `current` is the latest committed image as this subscriber may see it; `last` is the one the server remembers
      sending. `regressed` records that a commit with a lower revision was sent, `oversized` that a packet longer than a
      record was, `refused` that the client could not use a packet. */
  datatype Session = Session(
    name: Name, visible: set<bytes>, owner: bool, current: Update, last: Update, link: seq<bytes>,
    replica: Option<Image>,
    open: bool, regressed: bool, oversized: bool, refused: bool)

  /** A commit tells whether the subscriber owned the entity, whether the image budget had room and whether the send
      worked. */
  datatype Event =
    | Commit(image: Update, owner: bool, room: bool, sent: bool)
    | Deliver(budget: nat)
    | Close

  predicate ValidEvent(e: Event) {
    (e.Commit? ==> ValidImage(e.image)) && (e.Deliver? ==> e.budget <= SIZE_MAX)
  }

  /** `filtered`: the roots the subscriber may read. */
  function View(image: Update, visible: set<bytes>): Update { Snapshot(image.revision, Project(image.values, visible)) }

  predicate Nothing(u: Update) { !u.snapshot && u.values == [] && u.patches == [] }

  const WATCH_LIMIT: nat := 512 * 1024
  const SHORTEST_LEASE: nat := 3000

  /** The reply to `watch` is the first packet on the link; an image that is too large, or larger than what other
      subscriptions have left of the budget, is refused. */
  function Start(name: Name, lease: nat, image: Update, visible: set<bytes>, owner: bool, room: nat): Option<Session> {
    var first := View(image, visible);
    match (SnapshotCharge(first), EncodePacket(name, lease, first))
    case (Ok(charge), Ok(packet)) =>
      if charge > WATCH_LIMIT || charge > room then None
      else Some(Session(name, visible, owner, first, first, [packet], None, true, false, false, false))
    case _ => None
  }

  function Committed(s: Session, next: Update, owner: bool, room: bool, sent: bool): Session {
    match Delta(s.last, next)
    case Err(_) => s.(open := false)
    case Ok(u) =>
      var packet := EncodePacket(s.name, 0, u);
      if Nothing(u) && (next.revision == s.last.revision || !owner) then s.(current := next, owner := owner)
      else if WireLength(next).Err? || !room || packet.Err? || !sent then s.(open := false)
      else s.(current := next, last := next, owner := owner, link := s.link + [packet.value],
              regressed := s.regressed || next.revision < s.last.revision,
              oversized := s.oversized || |packet.value| > LIMIT)
  }

  /** What the client takes from a packet: an update for its own projection; the first must be a snapshot with a real
      lease. */
  function Opened(name: Name, first: bool, input: bytes): Result<Update> {
    var p :- DecodePacket(input);
    if p.name != name || p.update.None? then Err(Invalid)
    else if first && (p.lease < SHORTEST_LEASE || !p.update.value.snapshot) then Err(Invalid)
    else Ok(p.update.value)
  }

  function Received(s: Session, budget: nat): Session
    requires s.link != []
  {
    match Opened(s.name, s.replica.None?, s.link[0])
    case Err(_) => s.(open := false, refused := true)
    case Ok(u) =>
      match Apply(s.replica, u, budget)
      case Ok(Applied(image, _)) => s.(replica := Some(image), link := s.link[1..])
      case Err(OverBudget) => s.(open := false)
      case _ => s.(open := false, refused := true)
  }

  function Next(s: Session, e: Event): Session {
    if !s.open then s
    else match e
      case Commit(image, owner, room, sent) => Committed(s, View(image, s.visible), owner, room, sent)
      case Deliver(budget) => if s.link == [] then s else Received(s, budget)
      case Close => s.(open := false)
  }

  function Run(s: Session, es: seq<Event>): Session
    decreases es
  {
    if es == [] then s else Run(Next(s, es[0]), es[1..])
  }

  // ---- what is in flight ----

  predicate Holds(replica: Option<Image>, image: Update) {
    replica.Some? && replica.value.revision == image.revision && SameFields(replica.value.values, image.values)
  }

  /** Applying every packet in flight, in order, to the client's replica yields the server's image. */
  predicate Drains(name: Name, replica: Option<Image>, link: seq<bytes>, last: Update)
    decreases |link|
  {
    if link == [] then Holds(replica, last)
    else
      match Opened(name, replica.None?, link[0])
      case Err(_) => false
      case Ok(u) =>
        match Apply(replica, u, SIZE_MAX)
        case Ok(Applied(image, _)) => Drains(name, Some(image), link[1..], last)
        case _ => false
  }

  // ---- projections and single packets ----

  lemma ViewValid(image: Update, visible: set<bytes>)
    requires ValidImage(image)
    ensures ValidImage(View(image, visible))
  {
    hide Encodable, Sorted, Lookup, Typed, Project;
    var part := Project(image.values, visible);
    ProjectLookup(image.values, visible, []);
    forall i | 0 <= i < |part|
      ensures Lookup(image.values, part[i].name) == Some(part[i].value) && Typed(part[i].value)
    {
      LookupAt(part, i);
      ProjectLookup(image.values, visible, part[i].name);
      var j := LookupFinds(image.values, part[i].name);
    }
    PartEncodable(image, 0, part);
    FullPart(image.revision, part);
  }

  /** A delta has a wire form and a typed one. */
  lemma DeltaEncodes(prev: Update, next: Update)
    requires ValidImage(prev) && ValidImage(next)
    ensures Delta(prev, next).Ok? && Encode(Delta(prev, next).value).Ok? && TypedUpdate(Delta(prev, next).value)
    ensures next.revision < prev.revision ==> Delta(prev, next).value == next
  {
    hide FieldChoices, WireLength, Encode, Full, Within, Delivers, Encodable, UpdateSize, TypedPatches, Sorted, Typed,
         Sparse, ContainerDelta;
    SnapshotTyped(next);
    if prev.revision <= next.revision {
      DeltaGood(prev, next);
      var u := Delta(prev, next).value;
      if !u.snapshot { WithinTyped(u.values, next.values); }
      WireLengthExact(u);
    } else {
      RegressedDelta(prev, next);
      WireLengthExact(next);
    }
  }

  /** The packet of a delta opens to the delta, exactly when it is not too long. */
  lemma DeltaPacket(name: Name, prev: Update, next: Update)
    requires ValidImage(prev) && ValidImage(next) && ValidPacketName(name)
    ensures Delta(prev, next).Ok? && EncodePacket(name, 0, Delta(prev, next).value).Ok?
    ensures var packet := EncodePacket(name, 0, Delta(prev, next).value).value;
      if |packet| <= LIMIT then Opened(name, false, packet) == Delta(prev, next) else Opened(name, false, packet).Err?
    ensures next.revision < prev.revision ==> Delta(prev, next).value == next
  {
    hide Delta, Encode, TypedUpdate, EncodePacket, DecodePacket, ValidImage;
    DeltaEncodes(prev, next);
    PacketTrip(name, 0, Delta(prev, next).value);
  }

  lemma SnapshotTyped(u: Update)
    requires ValidImage(u)
    ensures TypedUpdate(u)
  {
    hide Typed, Sorted, FieldShapes, FieldsNodes, FieldsHeight, UpdateSize;
  }

  lemma RegressedDelta(prev: Update, next: Update)
    requires FullImage(prev) && FullImage(next) && next.revision < prev.revision
    ensures Delta(prev, next) == Ok(next)
  {
  }

  lemma WithinTyped(part: seq<Field>, whole: seq<Field>)
    requires Within(part, whole) && TypedFields(whole) && Sorted(part)
    ensures TypedFields(part)
  {
    hide Typed, Sorted, Lookup;
    forall i | 0 <= i < |part| ensures Typed(part[i].value) { var j := LookupFinds(whole, part[i].name); }
  }

  /** A delta that carries nothing means that nothing visible changed. */
  lemma NothingMissed(prev: Update, next: Update)
    requires ValidImage(prev) && ValidImage(next) && Delta(prev, next).Ok? && Nothing(Delta(prev, next).value)
    ensures SameFields(prev.values, next.values) && prev.revision <= next.revision
  {
    hide Delta, Full, Within, Encodable, UpdateSize, TypedPatches, Lookup, Same, Sorted, Typed, TurnsAll;
    if next.revision < prev.revision {
      RegressedDelta(prev, next);
      assert false;
    }
    DeltaGood(prev, next);
    var u := Delta(prev, next).value;
    forall k ensures SameOption(Lookup(prev.values, k), Lookup(next.values, k)) {
      assert RootOk(u, prev.values, next.values, k);
      NothingAt(k);
    }
    LookupsSameFields(prev.values, next.values);
  }

  lemma NothingAt(k: bytes)
    ensures !Has([], k) && On([], k) == []
  {
  }

  /** The budget decides only whether an update is refused for size. */
  lemma BudgetOnly(h: Option<Image>, u: Update, budget: nat)
    requires budget <= SIZE_MAX && Apply(h, u, SIZE_MAX).Ok?
    ensures Apply(h, u, budget) == Apply(h, u, SIZE_MAX) || Apply(h, u, budget) == Err(OverBudget)
    decreases |u.patches|
  {
    hide WireLength, Materialize, ValidateOverlay, Overlay;
    if !Stale(h, u) && u.patches != [] {
      BudgetOnly(h, Update(u.base, u.revision, false, Materialize(Held(h), u.values, u.patches).value, []), budget);
    }
  }

  /** Queueing the delta to the next image keeps the link draining to the server's image exactly when the revision does
      not fall and the packet is no longer than a record may be. */
  lemma {:induction false} DrainsOn(name: Name, replica: Option<Image>, link: seq<bytes>, last: Update, next: Update)
    requires Drains(name, replica, link, last) && ValidImage(last) && ValidImage(next) && ValidPacketName(name)
    ensures Delta(last, next).Ok? && EncodePacket(name, 0, Delta(last, next).value).Ok?
    ensures var packet := EncodePacket(name, 0, Delta(last, next).value).value;
      Drains(name, replica, link + [packet], next) <==> last.revision <= next.revision && |packet| <= LIMIT
    decreases |link|
  {
    hide Delta, EncodePacket, Opened, Apply, ValidImage, SameFields;
    DeltaPacket(name, last, next);
    var packet := EncodePacket(name, 0, Delta(last, next).value).value;
    if link == [] {
      assert (link + [packet])[0] == packet && (link + [packet])[1..] == [];
      LastPacket(replica.value, last, next);
    } else {
      assert (link + [packet])[0] == link[0] && (link + [packet])[1..] == link[1..] + [packet];
      DrainsOn(name, Some(Apply(replica, Opened(name, replica.None?, link[0]).value, SIZE_MAX).value.image), link[1..],
               last, next);
    }
  }

  lemma LastPacket(held: Image, last: Update, next: Update)
    requires Holds(Some(held), last) && ValidImage(last) && ValidImage(next) && Delta(last, next).Ok?
    requires next.revision < last.revision ==> Delta(last, next).value == next
    ensures var r := Apply(Some(held), Delta(last, next).value, SIZE_MAX);
      (last.revision <= next.revision <==> r.Ok? && r.value.Applied? && Holds(Some(r.value.image), next))
    ensures next.revision < last.revision ==> Apply(Some(held), next, SIZE_MAX) == Ok(Rejected)
  {
    hide Delta, WireLength, Charge, SameFields, Encodable, TypedFields;
    if last.revision <= next.revision {
      DeltaArrives(last, next, held, SIZE_MAX);
      ChargeBound(next);
    } else {
      WireLengthExact(next);
    }
  }

  // ---- every run ----

  predicate Tracked(s: Session) {
    && ValidImage(s.last) && ValidImage(s.current) && s.last.revision <= s.current.revision
    && SameFields(s.last.values, s.current.values) && (s.owner ==> s.last.revision == s.current.revision)
    && Drains(s.name, s.replica, s.link, s.last)
  }

  /** As long as no lower revision and no overlong packet was sent, the subscription is intact and the client has
      refused nothing. */
  predicate Inv(s: Session) {
    ValidPacketName(s.name) && (!s.regressed && !s.oversized ==> !s.refused && (s.open ==> Tracked(s)))
  }

  /** A watch is accepted exactly when the visible image is within the watch limit and what is left of the budget. */
  lemma StartTracked(name: Name, lease: nat, image: Update, visible: set<bytes>, owner: bool, room: nat)
    requires ValidImage(image) && ValidPacketName(name) && SHORTEST_LEASE <= lease < U32
    ensures Start(name, lease, image, visible, owner, room).Some? <==>
            Charge(View(image, visible).values) <= WATCH_LIMIT && Charge(View(image, visible).values) <= room
    ensures Start(name, lease, image, visible, owner, room).Some? ==>
      Inv(Start(name, lease, image, visible, owner, room).value)
  {
    hide Encode, DecodePacket, EncodePacket, Apply, Encodable, SameFields, TypedFields, UpdateSize, WireLength,
         ImageBytes, View;
    var first := View(image, visible);
    ViewValid(image, visible);
    WireLengthExact(first);
    SnapshotTyped(first);
    PacketTrip(name, lease, first);
    FirstCharge(first);
    var packet := EncodePacket(name, lease, first).value;
    var link: seq<bytes> := [packet];
    assert link[1..] == [];
    if Charge(first.values) <= WATCH_LIMIT {
      SnapshotInstalled(first);
      ValuesReflexive(first);
      var image := Apply(None, first, SIZE_MAX).value.image;
      assert Drains(name, Some(image), [], first);
      assert Opened(name, true, packet) == Ok(first);
      assert Drains(name, None, link, first);
    }
  }

  lemma FirstCharge(first: Update)
    requires ValidImage(first)
    ensures SnapshotCharge(first) == Ok(Charge(first.values)) && Encode(first).Ok?
    ensures |Encode(first).value| <= Charge(first.values)
  {
    hide FieldShapes, FieldsSize, FieldsHeight, FieldsNodes, ImageBytes, EncodeUpdate;
    WireLengthExact(first);
    SnapshotSize(first);
  }

  lemma CommitTracked(s: Session, image: Update, owner: bool, room: bool, sent: bool)
    requires s.open && Inv(s) && ValidImage(image)
    ensures Inv(Committed(s, View(image, s.visible), owner, room, sent))
  {
    hide Delta, EncodePacket, WireLength, ValidImage, SameFields, Drains, View;
    var next := View(image, s.visible);
    ViewValid(image, s.visible);
    if !s.regressed && !s.oversized {
      DeltaPacket(s.name, s.last, next);
      var u := Delta(s.last, next).value;
      if Nothing(u) { NothingMissed(s.last, next); }
      DrainsOn(s.name, s.replica, s.link, s.last, next);
      ValuesReflexive(next);
    }
  }

  lemma ReceiveTracked(s: Session, budget: nat)
    requires s.open && Inv(s) && s.link != [] && budget <= SIZE_MAX
    ensures Inv(Received(s, budget))
  {
    hide Opened, Apply, ValidImage, SameFields;
    if !s.regressed && !s.oversized {
      BudgetOnly(s.replica, Opened(s.name, s.replica.None?, s.link[0]).value, budget);
    }
  }

  lemma {:induction false} RunTracked(s: Session, es: seq<Event>)
    requires Inv(s) && forall i :: 0 <= i < |es| ==> ValidEvent(es[i])
    ensures Inv(Run(s, es))
    decreases es
  {
    hide Inv, Committed, Received;
    if es != [] {
      var e := es[0];
      if s.open {
        if e.Commit? { CommitTracked(s, e.image, e.owner, e.room, e.sent); }
        else if e.Deliver? { if s.link != [] { ReceiveTracked(s, e.budget); } }
        else { ClosedInv(s); }
      }
      RunTracked(Next(s, e), es[1..]);
    }
  }

  lemma ClosedInv(s: Session)
    requires Inv(s)
    ensures Inv(s.(open := false))
  {
  }

  /** Over every run of commits (some skipped for subscribers who do not own the entity), deliveries under any budgets
      and closings: unless a lower revision or an overlong packet was sent, the client never refuses a packet, and on a
      live subscription the replica with everything in flight applied holds the server's last image, whose values are
      those of the latest commit; for an owner the revision is the latest too. */
  lemma RunReplicates(name: Name, lease: nat, image: Update, visible: set<bytes>, owner: bool, room: nat,
                      es: seq<Event>)
    requires ValidImage(image) && ValidPacketName(name) && SHORTEST_LEASE <= lease < U32
    requires Start(name, lease, image, visible, owner, room).Some? && forall i :: 0 <= i < |es| ==> ValidEvent(es[i])
    ensures var s := Run(Start(name, lease, image, visible, owner, room).value, es);
      !s.regressed && !s.oversized ==> !s.refused && (s.open ==>
        && Drains(s.name, s.replica, s.link, s.last) && SameFields(s.last.values, s.current.values)
        && (s.owner ==> s.last.revision == s.current.revision))
  {
    hide Run, Drains, SameFields, Start, Charge, View;
    StartTracked(name, lease, image, visible, owner, room);
    RunTracked(Start(name, lease, image, visible, owner, room).value, es);
  }

  // ---- a packet that cannot be used ----

  /** A replica that holds the server's image can do nothing with this packet. */
  predicate Useless(name: Name, held: Image, packet: bytes) {
    match Opened(name, false, packet)
    case Err(_) => true
    case Ok(u) => Apply(Some(held), u, SIZE_MAX) == Ok(Rejected)
  }

  /** Every packet on the link is delivered. */
  function Deliveries(n: nat): (es: seq<Event>)
    ensures |es| == n && forall i :: 0 <= i < n ==> es[i] == Deliver(SIZE_MAX)
  {
    seq(n, _ => Deliver(SIZE_MAX))
  }

  /** Once everything before it has arrived, a useless packet ends the subscription. */
  lemma {:induction false} UselessRefused(s: Session, link: seq<bytes>, packet: bytes, last: Update)
    requires s.open && s.link == link + [packet] && Drains(s.name, s.replica, link, last)
    requires forall held :: Holds(Some(held), last) ==> Useless(s.name, held, packet)
    ensures Run(s, Deliveries(|s.link|)).refused
    decreases |link|
  {
    hide Opened, Apply, Holds;
    var es := Deliveries(|s.link|);
    var t := Next(s, es[0]);
    assert es[1..] == Deliveries(|s.link| - 1);
    if link == [] {
      assert s.link[0] == packet && Holds(s.replica, last);
      HeldSome(s.replica, last);
      ClosedStays(t, es[1..]);
    } else {
      assert s.link[0] == link[0] && s.link[1..] == link[1..] + [packet];
      UselessRefused(t, link[1..], packet, last);
    }
  }

  lemma HeldSome(replica: Option<Image>, last: Update)
    requires Holds(replica, last)
    ensures replica.Some? && Holds(Some(replica.value), last)
  {
  }

  lemma {:induction false} ClosedStays(s: Session, es: seq<Event>)
    requires !s.open
    ensures Run(s, es) == s
    decreases es
  {
    if es != [] { ClosedStays(s, es[1..]); }
  }

  /** The other direction of `RunReplicates`: in any intact subscription a commit that is sent with a lower revision, or
      in a packet that is too long, ends with the client's refusal once the link has been delivered. */
  lemma BadCommitRefused(s: Session, image: Update, owner: bool)
    requires s.open && Inv(s) && !s.regressed && !s.oversized && ValidImage(image)
    requires var next := View(image, s.visible);
      && Delta(s.last, next).Ok? && EncodePacket(s.name, 0, Delta(s.last, next).value).Ok?
      && (next.revision < s.last.revision || |EncodePacket(s.name, 0, Delta(s.last, next).value).value| > LIMIT)
    ensures Run(s, [Commit(image, owner, true, true)] + Deliveries(|s.link| + 1)).refused
  {
    hide Delta, EncodePacket, Opened, Apply, WireLength, ValidImage, SameFields, Drains, View, Run, Deliveries, Holds;
    var next := View(image, s.visible);
    ViewValid(image, s.visible);
    DeltaPacket(s.name, s.last, next);
    var packet := EncodePacket(s.name, 0, Delta(s.last, next).value).value;
    SentAnyway(s, next);
    ViewSized(next);
    var t := Next(s, Commit(image, owner, true, true));
    assert t.link == s.link + [packet] && t.open && t.name == s.name && t.replica == s.replica;
    forall held | Holds(Some(held), s.last) ensures Useless(s.name, held, packet) { PacketUseless(s, next, held); }
    UselessRefused(t, s.link, packet, s.last);
    RunFirst(s, Commit(image, owner, true, true), Deliveries(|s.link| + 1));
  }

  lemma RunFirst(s: Session, e: Event, es: seq<Event>)
    ensures Run(s, [e] + es) == Run(Next(s, e), es)
  {
    hide Next;
    assert ([e] + es)[1..] == es;
  }

  lemma ViewSized(next: Update)
    requires ValidImage(next)
    ensures WireLength(next).Ok?
  {
    hide WireLength, Encodable;
    WireLengthExact(next);
  }

  /** Such a commit is never skipped for carrying nothing. */
  lemma SentAnyway(s: Session, next: Update)
    requires ValidPacketName(s.name) && ValidImage(s.last) && ValidImage(next)
    requires Delta(s.last, next).Ok? && EncodePacket(s.name, 0, Delta(s.last, next).value).Ok?
    requires next.revision < s.last.revision || |EncodePacket(s.name, 0, Delta(s.last, next).value).value| > LIMIT
    ensures !Nothing(Delta(s.last, next).value)
  {
    hide Delta, EncodePacket, Encode, TypedUpdate, Encodable, UpdateWire;
    var u := Delta(s.last, next).value;
    DeltaEncodes(s.last, next);
    if Nothing(u) {
      NothingMissed(s.last, next);
      WireLengthExact(u);
      UpdateExact(SizeOnly(0), u);
      PacketTrip(s.name, 0, u);
      assert false;
    }
  }

  lemma PacketUseless(s: Session, next: Update, held: Image)
    requires ValidPacketName(s.name) && ValidImage(s.last) && ValidImage(next) && Holds(Some(held), s.last)
    requires Delta(s.last, next).Ok? && EncodePacket(s.name, 0, Delta(s.last, next).value).Ok?
    requires next.revision < s.last.revision || |EncodePacket(s.name, 0, Delta(s.last, next).value).value| > LIMIT
    ensures Useless(s.name, held, EncodePacket(s.name, 0, Delta(s.last, next).value).value)
  {
    hide Delta, EncodePacket, Opened, Apply, ValidImage, Holds;
    DeltaPacket(s.name, s.last, next);
    LastPacket(held, s.last, next);
  }
}
