/** What a subscriber gets to see: exactly the roots it may read, and nothing about any other root on any packet. */
module Visibility {
  import opened Bytes
  import opened Values
  import opened ValueCodec
  import opened UpdateCodec
  import opened UpdateDecoder
  import opened Framing
  import opened Packets
  import Diffs
  import opened Deltas
  import opened DeltaSoundness
  import opened Applying
  import opened DeltaTheorem
  import opened DeltaApplication
  import opened Replication

  /** The image as this subscriber may see it: every readable root with its value, and no other. */
  ghost predicate Shows(u: Update, image: Update, visible: set<bytes>) {
    && u.snapshot && u.patches == [] && u.revision == image.revision
    && forall k :: Lookup(u.values, k) == if k in visible then Lookup(image.values, k) else None
  }

  lemma ViewShows(image: Update, visible: set<bytes>)
    requires Sorted(image.values)
    ensures Shows(View(image, visible), image, visible)
  {
    hide Lookup, Project, Sorted;
    forall k ensures Lookup(View(image, visible).values, k) == if k in visible then Lookup(image.values, k) else None {
      ProjectLookup(image.values, visible, k);
    }
  }

  /** An update names readable roots only. */
  ghost predicate Discreet(u: Update, visible: set<bytes>) {
    forall k :: Has(u.values, k) || On(u.patches, k) != [] ==> k in visible
  }

  /** Whatever a packet carries is discreet. */
  ghost predicate Sealed(packet: bytes, visible: set<bytes>) {
    match DecodePacket(packet)
    case Ok(p) => p.update.Some? ==> Discreet(p.update.value, visible)
    case Err(_) => true
  }

  ghost predicate Confined(values: seq<Field>, visible: set<bytes>) { forall k :: Has(values, k) ==> k in visible }

  ghost predicate Private(s: Session) {
    && ValidPacketName(s.name) && ValidImage(s.last) && Confined(s.last.values, s.visible)
    && Confined(s.current.values, s.visible) && (forall i :: 0 <= i < |s.link| ==> Sealed(s.link[i], s.visible))
  }

  lemma ShowsConfined(u: Update, image: Update, visible: set<bytes>)
    requires Shows(u, image, visible)
    ensures Confined(u.values, visible) && Discreet(u, visible)
  {
    hide Lookup;
    forall k ensures On(u.patches, k) == [] { NothingAt(k); }
  }

  /** A delta between images of readable roots names readable roots. */
  lemma DeltaDiscreet(prev: Update, next: Update, visible: set<bytes>)
    requires ValidImage(prev) && ValidImage(next) && Confined(next.values, visible)
    ensures Delta(prev, next).Ok? && Discreet(Delta(prev, next).value, visible)
  {
    hide Delta, Full, UpdateSize, Encodable, TypedPatches, Sorted, Lookup, Typed, TurnsAll, Same;
    if next.revision < prev.revision {
      RegressedDelta(prev, next);
      forall k ensures On(next.patches, k) == [] { NothingAt(k); }
    } else {
      DeltaGood(prev, next);
      var u := Delta(prev, next).value;
      if u.snapshot {
        forall k ensures On(next.patches, k) == [] { NothingAt(k); }
      } else {
        forall k | Has(u.values, k) || On(u.patches, k) != [] ensures k in visible {
          assert RootOk(u, prev.values, next.values, k);
          if Has(u.values, k) { var i := LookupFinds(u.values, k); }
        }
      }
    }
  }

  lemma PacketSealed(name: Name, lease: nat, u: Update, visible: set<bytes>)
    requires ValidPacketName(name) && lease < U32 && TypedUpdate(u) && Encode(u).Ok? && Discreet(u, visible)
    ensures EncodePacket(name, lease, u).Ok? && Sealed(EncodePacket(name, lease, u).value, visible)
  {
    hide EncodePacket, DecodePacket, Encode, TypedUpdate, Discreet;
    PacketTrip(name, lease, u);
  }

  /** An accepted watch starts with exactly the readable roots, and its first packet says so. */
  lemma StartShows(name: Name, lease: nat, image: Update, visible: set<bytes>, owner: bool, room: nat)
    requires ValidImage(image) && ValidPacketName(name) && SHORTEST_LEASE <= lease < U32
    requires Start(name, lease, image, visible, owner, room).Some?
    ensures var s := Start(name, lease, image, visible, owner, room).value;
      && Shows(s.last, image, visible) && s.current == s.last && Private(s) && s.visible == visible && s.replica.None?
      && |s.link| == 1 && Opened(name, true, s.link[0]) == Ok(s.last)
  {
    hide Encode, DecodePacket, EncodePacket, Encodable, TypedFields, UpdateSize, WireLength, ImageBytes, View, Shows,
         Discreet, Confined, Charge;
    var first := View(image, visible);
    SortedValues(image);
    ViewValid(image, visible);
    ViewShows(image, visible);
    ShowsConfined(first, image, visible);
    SnapshotTyped(first);
    FirstCharge(first);
    PacketTrip(name, lease, first);
    PacketSealed(name, lease, first, visible);
    FirstShort(name, lease, first);
    SnapshotForm(first);
  }

  lemma SnapshotForm(u: Update)
    requires ValidImage(u)
    ensures u.snapshot
  {
  }

  lemma SortedValues(u: Update)
    requires ValidImage(u)
    ensures Sorted(u.values)
  {
  }

  /** A watched image is half a record, so that its packet is never too long. */
  lemma FirstShort(name: Name, lease: nat, first: Update)
    requires ValidImage(first) && ValidPacketName(name) && lease < U32 && Charge(first.values) <= WATCH_LIMIT
    ensures EncodePacket(name, lease, first).Ok? && |EncodePacket(name, lease, first).value| <= LIMIT
  {
    hide EncodePacket, Encode, TypedUpdate, ValidImage, Charge;
    SnapshotTyped(first);
    FirstCharge(first);
    PacketTrip(name, lease, first);
  }

  lemma CommitPrivate(s: Session, image: Update, owner: bool, room: bool, sent: bool)
    requires s.open && Private(s) && ValidImage(image)
    ensures var t := Committed(s, View(image, s.visible), owner, room, sent);
      && Private(t) && t.visible == s.visible && t.name == s.name
      && (t.open ==> Shows(t.current, image, s.visible)) && (t.link != s.link ==> t.last == t.current)
  {
    hide Delta, EncodePacket, DecodePacket, WireLength, ValidImage, View, Shows, Discreet, Confined, Encode,
         TypedUpdate;
    var next := View(image, s.visible);
    SortedValues(image);
    ViewValid(image, s.visible);
    ViewShows(image, s.visible);
    ShowsConfined(next, image, s.visible);
    DeltaEncodes(s.last, next);
    DeltaDiscreet(s.last, next, s.visible);
    PacketSealed(s.name, 0, Delta(s.last, next).value, s.visible);
    var t := Committed(s, next, owner, room, sent);
    forall i | 0 <= i < |t.link| ensures Sealed(t.link[i], s.visible) {
      if i < |s.link| { assert t.link[i] == s.link[i]; }
    }
  }

  lemma {:induction false} AllSkipped(prev: seq<Field>, roots: seq<Field>)
    requires forall i :: 0 <= i < |roots| ==> Deltas.Unchanged(prev, roots[i])
    ensures ValuesOf(roots, WholeChoices(prev, roots)) == [] && PatchesOf(WholeChoices(prev, roots)) == []
    ensures PatchesOf(ContainerChoices(prev, roots)) == []
    ensures var r := FieldChoices(prev, roots, 0); r.Ok? && r.value.Some? && PatchesOf(r.value.value) == []
    decreases roots
  {
    hide Deltas.Unchanged, Diffs.Diff;
    if roots != [] {
      assert forall i :: 0 <= i < |roots[1..]| ==> roots[1..][i] == roots[i + 1];
      AllSkipped(prev, roots[1..]);
      SkippedChoice(prev, roots[0]);
      assert FieldChoices(prev, roots, 0).value.value[1..] == FieldChoices(prev, roots[1..], 0).value.value;
      assert WholeChoices(prev, roots)[1..] == WholeChoices(prev, roots[1..]);
      assert ContainerChoices(prev, roots)[1..] == ContainerChoices(prev, roots[1..]);
    }
  }

  lemma SkippedChoice(prev: seq<Field>, f: Field)
    requires Deltas.Unchanged(prev, f)
    ensures WholeChoice(prev, f) == Skip && ContainerChoice(prev, f) == Skip && FieldChoice(prev, f) == Ok(Skip)
  {
    hide Diffs.Diff;
  }

  /** A delta carries nothing exactly when no root has changed and the revision has not fallen. */
  lemma NothingExact(prev: Update, next: Update)
    requires ValidImage(prev) && ValidImage(next)
    ensures Delta(prev, next).Ok?
    ensures Nothing(Delta(prev, next).value) <==> SameFields(prev.values, next.values) && prev.revision <= next.revision
  {
    hide Delta, ValidImage, SameFields, Sorted;
    DeltaEncodes(prev, next);
    if Nothing(Delta(prev, next).value) { NothingMissed(prev, next); }
    if SameFields(prev.values, next.values) && prev.revision <= next.revision { NothingChanged(prev, next); }
  }

  lemma NothingChanged(prev: Update, next: Update)
    requires ValidImage(prev) && ValidImage(next)
    requires SameFields(prev.values, next.values) && prev.revision <= next.revision
    ensures Delta(prev, next).Ok? && Nothing(Delta(prev, next).value)
  {
    hide WireLength, Encodable, Lookup, WholeChoices, ContainerChoices, FieldChoices, ValuesOf, PatchesOf, Typed, Same,
         Sorted;
    forall i | 0 <= i < |next.values| ensures Deltas.Unchanged(prev.values, next.values[i]) {
      LookupAt(prev.values, i);
    }
    forall i | 0 <= i < |prev.values| ensures Has(next.values, prev.values[i].name) { LookupAt(next.values, i); }
    AllSkipped(prev.values, next.values);
  }

  /** A commit goes out exactly when it shows something new or, to the owner, has another revision; one that has to go
      out and cannot ends the subscription; one that has not leaves the link alone. */
  lemma SentExactly(s: Session, image: Update, owner: bool, room: bool, sent: bool)
    requires s.open && Private(s) && ValidImage(image)
    ensures var next := View(image, s.visible); var t := Committed(s, next, owner, room, sent);
      var news := !(&& SameFields(s.last.values, next.values) && s.last.revision <= next.revision
                    && (next.revision == s.last.revision || !owner));
      && (t.open <==> !news || (room && sent))
      && (if news && room && sent then |t.link| == |s.link| + 1 && s.link <= t.link && t.last == next
          else t.link == s.link && t.last == s.last)
  {
    hide Delta, EncodePacket, WireLength, ValidImage, View, SameFields, Confined, Sealed, Nothing, Encodable, Encode,
         TypedUpdate;
    var next := View(image, s.visible);
    ViewValid(image, s.visible);
    NothingExact(s.last, next);
    DeltaPacket(s.name, s.last, next);
    ViewSized(next);
  }

  lemma ReceivePrivate(s: Session, budget: nat)
    requires Private(s) && s.link != []
    ensures Private(Received(s, budget)) && Received(s, budget).visible == s.visible
    ensures Received(s, budget).current == s.current && Received(s, budget).name == s.name
  {
    hide Opened, Apply, ValidImage, Sealed, Confined;
    var t := Received(s, budget);
    forall i | 0 <= i < |t.link| ensures Sealed(t.link[i], s.visible) {
      if t.link != s.link { assert t.link[i] == s.link[i + 1]; }
    }
  }

  /** The image of the last commit in a run, or the first one. */
  function Latest(image: Update, es: seq<Event>): Update
    decreases es
  {
    if es == [] then image
    else if es[|es| - 1].Commit? then es[|es| - 1].image else Latest(image, es[..|es| - 1])
  }

  lemma {:induction false} RunPrivate(s: Session, es: seq<Event>, image: Update)
    requires Private(s) && (s.open ==> Shows(s.current, image, s.visible))
    requires forall i :: 0 <= i < |es| ==> ValidEvent(es[i])
    ensures var t := Run(s, es);
      Private(t) && t.visible == s.visible && (t.open ==> Shows(t.current, Latest(image, es), s.visible))
    decreases es
  {
    hide Private, Shows, Committed, Received, View;
    if es != [] {
      var e, rest := es[0], es[1..];
      var t := Next(s, e);
      var now := if e.Commit? then e.image else image;
      if s.open {
        if e.Commit? { CommitPrivate(s, e.image, e.owner, e.room, e.sent); }
        else if e.Deliver? { if s.link != [] { ReceivePrivate(s, e.budget); } }
        else { ClosedPrivate(s); }
      }
      RunPrivate(t, rest, now);
      LatestFirst(image, es);
    }
  }

  lemma ClosedPrivate(s: Session)
    requires Private(s)
    ensures Private(s.(open := false))
  {
    hide Sealed, Confined, ValidImage;
  }

  lemma {:induction false} LatestFirst(image: Update, es: seq<Event>)
    requires es != []
    ensures Latest(image, es) == Latest(if es[0].Commit? then es[0].image else image, es[1..])
    decreases es
  {
    var front := es[..|es| - 1];
    if !es[|es| - 1].Commit? && |es| > 1 {
      LatestFirst(image, front);
      assert front[1..] == es[1..][..|es[1..]| - 1] && es[1..][|es[1..]| - 1] == es[|es| - 1];
    }
  }

  /** Over every run from an accepted watch: every packet that is left on the link names readable roots only, and what
      an open subscription is to show is the latest commit with exactly its readable roots. */
  lemma RunShows(name: Name, lease: nat, image: Update, visible: set<bytes>, owner: bool, room: nat, es: seq<Event>)
    requires ValidImage(image) && ValidPacketName(name) && SHORTEST_LEASE <= lease < U32
    requires Start(name, lease, image, visible, owner, room).Some? && forall i :: 0 <= i < |es| ==> ValidEvent(es[i])
    ensures var s := Run(Start(name, lease, image, visible, owner, room).value, es);
      && (forall i :: 0 <= i < |s.link| ==> Sealed(s.link[i], visible))
      && (s.open ==> Shows(s.current, Latest(image, es), visible))
  {
    hide Run, Start, Shows, Sealed, Latest;
    StartShows(name, lease, image, visible, owner, room);
    RunPrivate(Start(name, lease, image, visible, owner, room).value, es, image);
  }
}
