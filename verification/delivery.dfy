/** Exactly-once messages: every channel's cursor rises by one per committed execution, and a result recorded at the
    source is the one the receiver committed. */
module Deliveries {
  import opened Bytes
  import opened TimerState
  import opened Protocol
  import L = Leases
  import opened Chains

  type Store = map<Id, Stored<Entity>>
  type Executions = map<Ticket, Cursor>

  function DeliveryOf(at: Stored<Entity>): Delivery { at.value.snap.delivery }

  predicate Tombstone(store: Store, id: Id) { id in store && store[id].value.destroyed }

  // ---- facts that last ----

  /** The channel's entity epoch is its epoch for good, or the entity is a tombstone. */
  predicate Reachable(store: Store, c: Channel) {
    && c.epoch != 0 && c.peer in store
    && (|| store[c.peer].value.destroyed
        || (store[c.peer].value.initialized && DeliveryOf(store[c.peer]).epoch == c.epoch))
  }

  /** The result of this very message, or the answer of a tombstone. */
  predicate Known(store: Store, ex: Executions, t: Ticket, body: bytes, reply: Reply) {
    || (t in ex && ex[t].reply == reply && ex[t].digest.body == body)
    || (reply == GONE && Tombstone(store, t.to.peer))
  }

  /** A later message of the same channel was executed. */
  ghost predicate Superseded(ex: Executions, t: Ticket) {
    exists u :: u in ex && u.source == t.source && u.to == t.to && u.sequence > t.sequence
  }

  ghost predicate AckOk(store: Store, ex: Executions, t: Ticket, reply: Reply) {
    (t in ex && ex[t].reply == reply) || (reply == GONE && Tombstone(store, t.to.peer)) || Superseded(ex, t)
  }

  // ---- records and envelopes ----

  /** Sequences of a channel rise along the outbox and never exceed what was counted. */
  predicate Ordered(d: Delivery) {
    && (d.epoch == 0 ==> d.outbox == [] && d.sent == map[] && d.inbox == map[])
    && (forall i :: 0 <= i < |d.outbox| ==>
          d.outbox[i].to in d.sent && 0 < d.outbox[i].sequence <= d.sent[d.outbox[i].to])
    && (forall i, j :: 0 <= i < j < |d.outbox| && d.outbox[i].to == d.outbox[j].to ==>
          d.outbox[i].sequence < d.outbox[j].sequence)
  }

  /** The source is past this envelope: it is counted, everything before it in its channel is done, and its number is
      its own. */
  predicate Passed(d: Delivery, e: Envelope) {
    && e.ticket.to in d.sent && e.ticket.sequence <= d.sent[e.ticket.to]
    && forall i :: 0 <= i < |d.outbox| && d.outbox[i].to == e.ticket.to ==>
         && (d.outbox[i].sequence < e.ticket.sequence ==> d.outbox[i].done)
         && (d.outbox[i].sequence == e.ticket.sequence ==> d.outbox[i].body == e.body)
  }

  predicate WireOk(store: Store, e: Envelope) {
    var source := e.ticket.source;
    && Reachable(store, e.ticket.to) && source.epoch != 0 && source.peer in store
    && (store[source.peer].value.destroyed
        || (DeliveryOf(store[source.peer]).epoch == source.epoch && Passed(DeliveryOf(store[source.peer]), e)))
  }

  predicate Answered(id: Id, d: Delivery, store: Store, ex: Executions) {
    forall i :: 0 <= i < |d.outbox| ==>
      Reachable(store, d.outbox[i].to)
      && (d.outbox[i].done ==>
            Known(store, ex, TicketOf(id, d.epoch, d.outbox[i]), d.outbox[i].body, d.outbox[i].reply))
  }

  /** The tickets of one of an entity's inbound channels. */
  function Inbound(source: Channel, id: Id, epoch: nat, sequence: nat): Ticket {
    Ticket(source, Channel(id, epoch), sequence)
  }

  /** Exactly the messages up to each cursor were executed, and the cursor is the last execution. */
  ghost predicate Counted(id: Id, d: Delivery, ex: Executions) {
    && (forall t :: t in ex && t.to == Channel(id, d.epoch) ==>
          t.source in d.inbox && 0 < t.sequence <= d.inbox[t.source].sequence)
    && (forall c, q :: c in d.inbox && 0 < q <= d.inbox[c].sequence ==> Inbound(c, id, d.epoch, q) in ex)
    && (forall c :: c in d.inbox ==> 0 < d.inbox[c].sequence && Inbound(c, id, d.epoch, d.inbox[c].sequence) in ex
                                     && ex[Inbound(c, id, d.epoch, d.inbox[c].sequence)] == d.inbox[c])
  }

  ghost predicate RecordOk(id: Id, at: Stored<Entity>, store: Store, ex: Executions) {
    && Ordered(DeliveryOf(at)) && Answered(id, DeliveryOf(at), store, ex)
    && (!at.value.destroyed ==> Counted(id, DeliveryOf(at), ex))
  }

  predicate ExecOk(t: Ticket, c: Cursor, wire: set<Envelope>) {
    c.digest.ticket == t && c.digest in wire && c.sequence == t.sequence && |c.reply.data| <= PAYLOAD_LIMIT
  }

  // ---- jobs ----

  predicate SameMessage(a: Message, b: Message) { a.to == b.to && a.sequence == b.sequence && a.body == b.body }

  /** `m` comes from `n`: unchanged if that was done, and newly done only by the acknowledgement the job carries. */
  predicate From(id: Id, epoch: nat, r: Request, n: Message, m: Message) {
    && SameMessage(n, m) && (n.done ==> m == n)
    && (m.done && !n.done ==> r.Acknowledge? && TicketOf(id, epoch, m) == r.ticket && m.reply == r.reply)
  }

  ghost predicate Derived(id: Id, was: Delivery, r: Request, m: Message) {
    || (!m.done && m.sequence > (if m.to in was.sent then was.sent[m.to] else 0))
    || exists n :: n in was.outbox && From(id, was.epoch, r, n, m)
  }

  /** A pending message stays, and stays pending unless the job carries an acknowledgement. */
  ghost predicate Kept(r: Request, outbox: seq<Message>, m: Message) {
    exists n :: n in outbox && SameMessage(m, n) && (n.done ==> r.Acknowledge?)
  }

  ghost predicate Evolves(id: Id, was: Delivery, now: Delivery, r: Request) {
    && (was.epoch != 0 ==> now.epoch == was.epoch)
    && (forall c :: c in was.sent ==> c in now.sent && was.sent[c] <= now.sent[c])
    && (forall m :: m in now.outbox ==> Derived(id, was, r, m))
    && (forall m :: m in was.outbox && !m.done ==> Kept(r, now.outbox, m))
  }

  /** The expected envelope of a job that executes one, and what it does to the inbox. */
  predicate Expected(k: Key, j: Job) {
    var was := j.base.snap.delivery;
    && (j.request.Receive? && !j.replay ==>
          var t := j.request.envelope.ticket;
          && was.epoch != 0 && t.to == Channel(k.id, was.epoch)
          && t.sequence == (if t.source in was.inbox then was.inbox[t.source].sequence + 1 else 1))
    && (L.Decided(j.phase) ==> !j.replay && (j.request.Receive? ==> |j.answer.data| <= PAYLOAD_LIMIT))
    && j.work.delivery.inbox ==
         (if j.request.Receive? && L.Decided(j.phase) then
            var e := j.request.envelope;
            was.inbox[e.ticket.source := Cursor(e.ticket.sequence, e, j.answer)]
          else was.inbox)
  }

  ghost predicate JobLocal(k: Key, j: Job) {
    && Ordered(j.work.delivery) && Evolves(k.id, j.base.snap.delivery, j.work.delivery, j.request)
    && Ordered(j.start.delivery) && Evolves(k.id, j.base.snap.delivery, j.start.delivery, j.request)
    && Expected(k, j)
  }

  /** The messages a job may send or answer with, in terms of facts that last. */
  ghost predicate JobGlobal(k: Key, j: Job, store: Store, ex: Executions, wire: set<Envelope>, acks: set<Acked>) {
    && (forall c :: c in j.targets ==> Reachable(store, c))
    && (forall m :: m in j.work.delivery.outbox ==> Reachable(store, m.to))
    && (forall m :: m in j.start.delivery.outbox ==> Reachable(store, m.to))
    && (j.request.Receive? ==>
          j.request.envelope in wire && (j.replay ==> AckOk(store, ex, j.request.envelope.ticket, j.answer)))
    && (j.request.Acknowledge? ==> Acked(j.request.ticket, j.request.reply) in acks)
  }

  ghost predicate Inv(s: State) {
    && (forall e :: e in s.wire ==> WireOk(s.store, e))
    && (forall a :: a in s.acks ==> AckOk(s.store, s.executed, a.ticket, a.reply))
    && (forall t :: t in s.executed ==> ExecOk(t, s.executed[t], s.wire))
    && (forall id :: id in s.store ==> RecordOk(id, s.store[id], s.store, s.executed))
    && (forall k :: k in s.jobs ==>
          JobLocal(k, s.jobs[k]) && JobGlobal(k, s.jobs[k], s.store, s.executed, s.wire, s.acks))
  }

  lemma JobAt(s: State, k: Key)
    requires Inv(s) && k in s.jobs
    ensures JobLocal(k, s.jobs[k]) && JobGlobal(k, s.jobs[k], s.store, s.executed, s.wire, s.acks)
  {
    hide WireOk, AckOk, RecordOk, JobLocal, JobGlobal;
  }

  lemma RecordAt(s: State, id: Id)
    requires Inv(s) && id in s.store
    ensures RecordOk(id, s.store[id], s.store, s.executed)
  {
    hide WireOk, AckOk, RecordOk, JobLocal, JobGlobal;
  }

  lemma WireAt(s: State, e: Envelope)
    requires Inv(s) && e in s.wire
    ensures WireOk(s.store, e)
  {
    hide WireOk, AckOk, RecordOk, JobLocal, JobGlobal;
  }

  // ---- steps that leave store and history alone ----

  lemma OtherStep(s: State, t: State)
    requires Inv(s) && t.store == s.store && t.jobs == s.jobs && t.wire == s.wire && t.acks == s.acks
    requires t.executed == s.executed
    ensures Inv(t)
  {
    hide WireOk, AckOk, RecordOk, JobLocal, JobGlobal;
  }

  lemma DropStep(s: State, k: Key)
    requires Inv(s)
    ensures Inv(Drop(s, k))
  {
    hide WireOk, AckOk, RecordOk, JobLocal, JobGlobal;
  }

  lemma SetStep(s: State, k: Key, j: Job)
    requires Inv(s) && JobLocal(k, j) && JobGlobal(k, j, s.store, s.executed, s.wire, s.acks)
    ensures Inv(SetJob(s, k, j))
  {
    hide WireOk, AckOk, RecordOk, JobLocal, JobGlobal;
  }

  /** New acknowledgements and envelopes that are in order. */
  lemma MessageStep(s: State, wire: set<Envelope>, acks: set<Acked>)
    requires Inv(s) && s.wire <= wire && s.acks <= acks
    requires forall e :: e in wire && e !in s.wire ==> WireOk(s.store, e)
    requires forall a :: a in acks && a !in s.acks ==> AckOk(s.store, s.executed, a.ticket, a.reply)
    ensures Inv(s.(wire := wire, acks := acks))
  {
    hide WireOk, AckOk, RecordOk, JobLocal;
    forall k | k in s.jobs ensures JobGlobal(k, s.jobs[k], s.store, s.executed, wire, acks) { JobAt(s, k); }
    forall t | t in s.executed ensures ExecOk(t, s.executed[t], wire) { assert ExecOk(t, s.executed[t], s.wire); }
  }

  // ---- loading ----

  lemma SameEvolves(id: Id, d: Delivery, r: Request)
    ensures Evolves(id, d, d, r)
  {
    forall m | m in d.outbox ensures Derived(id, d, r, m) { assert From(id, d.epoch, r, m, m); }
    forall m | m in d.outbox && !m.done ensures Kept(r, d.outbox, m) { assert SameMessage(m, m); }
  }

  /** Marking keeps every message in its place; only the acknowledged one becomes done. */
  lemma {:induction false} MarkedAt(id: Id, epoch: nat, outbox: seq<Message>, ticket: Ticket, reply: Reply)
    requires Marked(id, epoch, outbox, ticket, reply).Some?
    ensures var now := Marked(id, epoch, outbox, ticket, reply).value;
      |now| == |outbox| && forall i :: 0 <= i < |now| ==> From(id, epoch, Acknowledge(ticket, reply), outbox[i], now[i])
    decreases outbox
  {
    if outbox != [] && TicketOf(id, epoch, outbox[0]) != ticket { MarkedAt(id, epoch, outbox[1..], ticket, reply); }
  }

  lemma MarkedEvolves(id: Id, d: Delivery, ticket: Ticket, reply: Reply)
    requires Ordered(d) && Marked(id, d.epoch, d.outbox, ticket, reply).Some?
    ensures var now := d.(outbox := Marked(id, d.epoch, d.outbox, ticket, reply).value);
      && Ordered(now) && Evolves(id, d, now, Acknowledge(ticket, reply))
      && (forall m :: m in now.outbox ==> exists n :: n in d.outbox && SameMessage(n, m))
  {
    hide Marked;
    MarkedAt(id, d.epoch, d.outbox, ticket, reply);
    var r := Acknowledge(ticket, reply);
    var outbox := Marked(id, d.epoch, d.outbox, ticket, reply).value;
    forall m | m in outbox ensures Derived(id, d, r, m) && exists n :: n in d.outbox && SameMessage(n, m) {
      var i :| 0 <= i < |outbox| && outbox[i] == m;
      assert d.outbox[i] in d.outbox && From(id, d.epoch, r, d.outbox[i], m);
    }
    forall m | m in d.outbox && !m.done ensures Kept(r, outbox, m) {
      var i :| 0 <= i < |d.outbox| && d.outbox[i] == m;
      assert outbox[i] in outbox && From(id, d.epoch, r, m, outbox[i]);
    }
  }

  lemma OpenEvolves(id: Id, r: Entity, request: Request, time: int, limits: Limits)
    requires Ordered(r.snap.delivery) && Open(id, r, request, time, limits).Some?
    ensures var o := Open(id, r, request, time, limits).value;
      && Ordered(o.snap.delivery) && Evolves(id, r.snap.delivery, o.snap.delivery, request)
      && o.snap.delivery.inbox == r.snap.delivery.inbox
      && (forall m :: m in o.snap.delivery.outbox ==> exists n :: n in r.snap.delivery.outbox && SameMessage(n, m))
  {
    hide Marked, Find, Ordered, Evolves;
    SameEvolves(id, r.snap.delivery, request);
    var d := r.snap.delivery;
    if request.Acknowledge? && d.epoch == request.ticket.source.epoch
       && Marked(id, d.epoch, d.outbox, request.ticket, request.reply).Some? {
      MarkedEvolves(id, d, request.ticket, request.reply);
    }
    forall m | m in d.outbox ensures exists n :: n in d.outbox && SameMessage(n, m) { assert SameMessage(m, m); }
  }

  lemma LoadedLocal(k: Key, at: Stored<Entity>, request: Request, time: int, limits: Limits, o: Opening)
    requires Ordered(DeliveryOf(at)) && Open(k.id, at.value, request, time, limits) == Some(o)
    requires request.Receive? ==>
      request.envelope.ticket.to == Channel(k.id, DeliveryOf(at).epoch) && DeliveryOf(at).epoch != 0
    ensures JobLocal(k, NewJob(request, Loaded, time, at, o, at.value))
  {
    hide Ordered, Evolves, OpenAck, Find, AllDone;
    OpenEvolves(k.id, at.value, request, time, limits);
  }

  lemma LoadedGlobal(s: State, k: Key, request: Request, time: int, limits: Limits, o: Opening)
    requires Inv(s) && k.id in s.store && Addressed(s, k, request) && !s.store[k.id].value.destroyed
    requires Open(k.id, s.store[k.id].value, request, time, limits) == Some(o)
    requires request.Receive? ==> request.envelope.ticket.to == Channel(k.id, DeliveryOf(s.store[k.id]).epoch)
    ensures JobGlobal(k, NewJob(request, Loaded, time, s.store[k.id], o, s.store[k.id].value), s.store, s.executed,
                      s.wire, s.acks)
  {
    hide Inv, Ordered, Evolves, OpenAck, Find, AllDone, Reachable, Known, Matches;
    RecordAt(s, k.id);
    var at := s.store[k.id];
    OpenEvolves(k.id, at.value, request, time, limits);
    var d := DeliveryOf(at);
    forall m | m in d.outbox ensures Reachable(s.store, m.to) { var i :| 0 <= i < |d.outbox| && d.outbox[i] == m; }
    forall m | m in o.snap.delivery.outbox ensures Reachable(s.store, m.to) {
      var n :| n in d.outbox && SameMessage(n, m);
    }
    if request.Receive? && o.replay { ReplayAck(k.id, at, s.store, s.executed, request.envelope, limits); }
  }

  /** A replay answers with the recorded result, or with one that a later execution has made irrelevant. */
  lemma ReplayAck(id: Id, at: Stored<Entity>, store: Store, ex: Executions, e: Envelope, limits: Limits)
    requires Counted(id, DeliveryOf(at), ex) && e.ticket.to == Channel(id, DeliveryOf(at).epoch)
    requires OpenReceive(at.value, e, limits).Some? && OpenReceive(at.value, e, limits).value.replay
    ensures AckOk(store, ex, e.ticket, OpenReceive(at.value, e, limits).value.answer)
  {
    var d, source := DeliveryOf(at), e.ticket.source;
    var last := Inbound(source, id, d.epoch, d.inbox[source].sequence);
    assert last in ex && ex[last] == d.inbox[source];
    if e.ticket.sequence == d.inbox[source].sequence { assert e.ticket == last; }
  }

  lemma GoneAck(s: State, k: Key, e: Envelope, time: int)
    requires Inv(s) && e in s.wire && e.ticket.to.peer == k.id && Missing(s, k, e, time)
    ensures AckOk(s.store, s.executed, e.ticket, GONE)
  {
    hide Inv, Passed, Matches;
    WireAt(s, e);
  }

  lemma LoadStep(s: State, k: Key, request: Request, time: int, limits: Limits)
    requires Inv(s)
    ensures Inv(Load(s, k, request, time, limits))
  {
    hide Inv, Open, Missing, Admitted, JobLocal, JobGlobal, WireOk, AckOk, NewJob;
    if k in s.jobs || k.owner == [] || !Addressed(s, k, request) {
    } else if request.Receive? && Missing(s, k, request.envelope, time) {
      GoneAck(s, k, request.envelope, time);
      MessageStep(s, s.wire, s.acks + {Acked(request.envelope.ticket, GONE)});
    } else if k.id in s.store && !s.store[k.id].value.destroyed && Admitted(k, s.store[k.id].value, request, time) {
      var at := s.store[k.id];
      var o := Open(k.id, at.value, request, time, limits);
      if o.Some? {
        RecordAt(s, k.id);
        if request.Receive? { PresentEpoch(s, k, request.envelope, time); }
        LoadedLocal(k, at, request, time, limits, o.value);
        LoadedGlobal(s, k, request, time, limits, o.value);
        SetStep(s, k, NewJob(request, Loaded, time, at, o.value, at.value));
      }
    }
  }

  lemma PresentEpoch(s: State, k: Key, e: Envelope, time: int)
    requires Inv(s) && e in s.wire && e.ticket.to.peer == k.id && !Missing(s, k, e, time)
    requires Admitted(k, s.store[k.id].value, Receive(e), time)
    ensures e.ticket.to == Channel(k.id, DeliveryOf(s.store[k.id]).epoch) && DeliveryOf(s.store[k.id]).epoch != 0
  {
    hide Inv, Passed, Matches;
    WireAt(s, e);
  }

  // ---- acquiring ----

  lemma BegunPosts(k: Key, j: Job, version: nat, base: Entity, enabled: bool, s: State)
    requires JobLocal(k, j) && JobGlobal(k, j, s.store, s.executed, s.wire, s.acks) && !L.Owning(j.phase)
    requires j.work == j.start
    requires base.snap == j.base.snap && version > 0
    ensures JobLocal(k, Begun(j, version, base, enabled))
    ensures JobGlobal(k, Begun(j, version, base, enabled), s.store, s.executed, s.wire, s.acks)
  {
    hide AckOk, Reachable, Derived, Kept;
  }

  lemma AcquireStep(s: State, k: Key, timeout: nat, enabled: bool)
    requires Inv(s) && L.Inv(s)
    ensures Inv(Verify(s, k)) && Inv(Reuse(s, k, timeout, enabled)) && Inv(Confirm(s, k, enabled))
  {
    hide Inv, L.Inv, StillPending, L.Sound, Reusable, Begun, JobLocal, JobGlobal;
    DropStep(s, k);
    if k in s.jobs {
      L.JobAt(s, k);
      JobAt(s, k);
      var j, at := s.jobs[k], s.store[k.id];
      if !L.Owning(j.phase) {
        VerifiedPosts(k, j, s);
        SetStep(s, k, j.(phase := Verified));
        BegunPosts(k, j, j.version, j.base, enabled, s);
        SetStep(s, k, Begun(j, j.version, j.base, enabled));
        if j.phase == Renewed {
          BegunPosts(k, j, at.version, j.next, enabled, s);
          SetStep(s, k, Begun(j, at.version, j.next, enabled));
        }
      }
    }
  }

  lemma VerifiedPosts(k: Key, j: Job, s: State)
    requires JobLocal(k, j) && JobGlobal(k, j, s.store, s.executed, s.wire, s.acks) && !L.Owning(j.phase)
    ensures JobLocal(k, j.(phase := Verified))
    ensures JobGlobal(k, j.(phase := Verified), s.store, s.executed, s.wire, s.acks)
  {
    hide AckOk, Reachable, Ordered, Evolves;
  }

  // ---- the handler ----

  lemma StageOrdered(d: Delivery, to: Channel, body: bytes)
    requires Ordered(d) && d.epoch != 0
    ensures Ordered(Staged(d, to, body))
  {
  }

  lemma StageEvolves(id: Id, was: Delivery, d: Delivery, r: Request, to: Channel, body: bytes)
    requires Evolves(id, was, d, r)
    ensures Evolves(id, was, Staged(d, to, body), r)
  {
    hide From;
    var now := Staged(d, to, body);
    forall m | m in now.outbox ensures Derived(id, was, r, m) { if m in d.outbox { assert Derived(id, was, r, m); } }
    forall m | m in was.outbox && !m.done ensures Kept(r, now.outbox, m) {
      assert Kept(r, d.outbox, m);
      var n :| n in d.outbox && SameMessage(m, n) && (n.done ==> r.Acknowledge?);
      assert n in now.outbox;
    }
  }

  function Without(d: Delivery, i: nat): Delivery
    requires i < |d.outbox|
  {
    d.(outbox := d.outbox[..i] + d.outbox[i + 1..])
  }

  lemma ForgetOrdered(d: Delivery, i: nat)
    requires Ordered(d) && i < |d.outbox|
    ensures Ordered(Without(d, i))
  {
    var now := Without(d, i).outbox;
    assert forall x :: 0 <= x < |now| ==> now[x] == d.outbox[if x < i then x else x + 1];
  }

  lemma ForgetEvolves(id: Id, was: Delivery, d: Delivery, r: Request, i: nat)
    requires Evolves(id, was, d, r) && i < |d.outbox| && d.outbox[i].done && !r.Acknowledge?
    ensures Evolves(id, was, Without(d, i), r)
  {
    hide From;
    var now := Without(d, i).outbox;
    forall m | m in now ensures m in d.outbox {}
    forall m | m in was.outbox && !m.done ensures Kept(r, now, m) {
      assert Kept(r, d.outbox, m);
      var n :| n in d.outbox && SameMessage(m, n) && (n.done ==> r.Acknowledge?);
      var x :| 0 <= x < |d.outbox| && d.outbox[x] == n;
      assert now[if x < i then x else x - 1] == n;
    }
  }

  lemma StagePosts(k: Key, j: Job, s: State, to: Channel, body: bytes)
    requires JobLocal(k, j) && JobGlobal(k, j, s.store, s.executed, s.wire, s.acks) && j.phase == Ready
    requires to in j.targets && j.work.delivery.epoch != 0
    ensures var now := j.(work := j.work.(delivery := Staged(j.work.delivery, to, body)));
      JobLocal(k, now) && JobGlobal(k, now, s.store, s.executed, s.wire, s.acks)
  {
    hide AckOk, Reachable, Ordered, Evolves;
    StageOrdered(j.work.delivery, to, body);
    StageEvolves(k.id, j.base.snap.delivery, j.work.delivery, j.request, to, body);
  }

  lemma ForgetPosts(k: Key, j: Job, s: State, i: nat)
    requires JobLocal(k, j) && JobGlobal(k, j, s.store, s.executed, s.wire, s.acks) && j.phase == Ready
    requires !j.request.Acknowledge?
    requires i < |j.work.delivery.outbox| && j.work.delivery.outbox[i].done
    ensures var now := j.(work := j.work.(delivery := Without(j.work.delivery, i)));
      JobLocal(k, now) && JobGlobal(k, now, s.store, s.executed, s.wire, s.acks)
  {
    hide AckOk, Reachable, Ordered, Evolves;
    ForgetOrdered(j.work.delivery, i);
    ForgetEvolves(k.id, j.base.snap.delivery, j.work.delivery, j.request, i);
  }

  lemma WorkPosts(k: Key, j: Job, now: Job, s: State)
    requires JobLocal(k, j) && JobGlobal(k, j, s.store, s.executed, s.wire, s.acks) && j.phase == Ready
    requires L.Worked(j, now) && now.work.delivery == j.work.delivery
    requires forall c :: c in now.targets ==>
      Reachable(s.store, c)
    ensures JobLocal(k, now) && JobGlobal(k, now, s.store, s.executed, s.wire, s.acks)
  {
    hide AckOk, Reachable, Ordered, Evolves;
  }

  lemma HandlerPosts(s: State, k: Key, a: HandlerStep, j: Job)
    requires DoHandle(s, k, a) != s && k in s.jobs && s.jobs[k].phase == Ready && L.Worked(s.jobs[k], j)
    requires DoHandle(s, k, a).jobs == SetJob(s, k, j).jobs
    requires JobLocal(k, s.jobs[k]) && JobGlobal(k, s.jobs[k], s.store, s.executed, s.wire, s.acks)
    ensures JobLocal(k, j) && JobGlobal(k, j, s.store, s.executed, s.wire, s.acks)
  {
    hide JobLocal, Insert, Remove, Find, AckOk;
    var was := s.jobs[k];
    assert j == DoHandle(s, k, a).jobs[k];
    match a
    case DoStage(to, body) => StagePosts(k, was, s, to, body);
    case DoForget(i) => ForgetPosts(k, was, s, i);
    case _ => WorkPosts(k, was, j, s);
  }

  lemma HandlerStep(s: State, k: Key, a: HandlerStep)
    requires Inv(s)
    ensures Inv(DoHandle(s, k, a))
  {
    hide Inv, DoHandle, L.Worked, JobLocal, JobGlobal;
    var t := DoHandle(s, k, a);
    if t != s {
      var j := L.HandlerWorks(s, k, a);
      JobAt(s, k);
      HandlerPosts(s, k, a, j);
      SetStep(s, k, j);
      OtherStep(SetJob(s, k, j), t);
    }
  }

  // ---- the commit's preparation ----

  lemma PreparedPosts(k: Key, j: Job, s: State, reply: Reply, limits: Limits, now: int)
    requires JobLocal(k, j) && JobGlobal(k, j, s.store, s.executed, s.wire, s.acks) && j.phase == Ready && !j.replay
    requires L.Started(j)
    requires Finished(j, reply, limits, now).Some?
    ensures var p := PreparedJob(k, j, Finished(j, reply, limits, now).value, reply);
      JobLocal(k, p) && JobGlobal(k, p, s.store, s.executed, s.wire, s.acks)
  {
    hide AckOk, Reachable, AfterFire, Earliest, AllDone, Committed, Derived, Kept;
  }

  lemma PrepareStep(s: State, k: Key, reply: Reply, limits: Limits, now: int)
    requires Inv(s) && L.Inv(s)
    ensures Inv(Prepare(s, k, reply, limits, now))
  {
    hide Inv, L.Inv, Finished, PreparedJob, L.Sound, JobLocal, JobGlobal;
    DropStep(s, k);
    if k in s.jobs && s.jobs[k].phase == Ready && !s.jobs[k].replay {
      L.JobAt(s, k);
      JobAt(s, k);
      var f := Finished(s.jobs[k], reply, limits, now);
      if f.Some? {
        PreparedPosts(k, s.jobs[k], s, reply, limits, now);
        SetStep(s, k, PreparedJob(k, s.jobs[k], f.value, reply));
      }
    }
  }

  lemma ArmingPosts(k: Key, j: Job, s: State, phase: Phase, bucket: Stored<map<Id, Entry>>)
    requires JobLocal(k, j) && JobGlobal(k, j, s.store, s.executed, s.wire, s.acks) && L.Decided(j.phase)
    requires L.Decided(phase)
    ensures var p := j.(phase := phase, bucket := bucket);
      JobLocal(k, p) && JobGlobal(k, p, s.store, s.executed, s.wire, s.acks)
  {
    hide AckOk, Reachable, Ordered, Evolves;
  }

  lemma ArmStep(s: State, k: Key)
    requires Inv(s)
    ensures Inv(ArmCheck(s, k)) && Inv(ArmRead(s, k)) && Inv(ArmWrite(s, k))
  {
    hide Inv, Bucket, Shard, JobLocal, JobGlobal;
    DropStep(s, k);
    if k in s.jobs && L.Decided(s.jobs[k].phase) {
      JobAt(s, k);
      var j := s.jobs[k];
      var b := Bucket(s, Shard(k.id));
      ArmingPosts(k, j, s, Checked, j.bucket);
      SetStep(s, k, j.(phase := Checked));
      ArmingPosts(k, j, s, Listed, b);
      SetStep(s, k, j.(phase := Listed, bucket := b));
      ArmingPosts(k, j, s, Arming, j.bucket);
      SetStep(s, k, j.(phase := Arming));
      ArmingPosts(k, j, s, Armed, j.bucket);
      SetStep(s, k, j.(phase := Armed));
      var t := SetJob(s, k, j.(phase := Armed));
      OtherStep(t, WriteBucket(t, Shard(k.id), j.bucket.value[k.id := j.entry]));
    }
  }

  lemma AnswerStep(s: State, k: Key)
    requires Inv(s)
    ensures Inv(Answer(s, k))
  {
    hide Inv, JobLocal, AckOk, WireOk;
    DropStep(s, k);
    if k in s.jobs && s.jobs[k].phase == Ready && s.jobs[k].replay && s.jobs[k].request.Receive? {
      JobAt(s, k);
      var t := Drop(s, k);
      MessageStep(t, s.wire, s.acks + {Acked(s.jobs[k].request.envelope.ticket, s.jobs[k].answer)});
    }
  }

  lemma ReadReleaseStep(s: State, k: Key)
    requires Inv(s)
    ensures Inv(ReadRelease(s, k))
  {
    hide Inv, Reachable, Known, Evolves, Ordered;
    if k !in s.jobs && k.owner != [] && k.id in s.store && s.store[k.id].value.owner == k.owner {
      RecordAt(s, k.id);
      var at := s.store[k.id];
      SameEvolves(k.id, DeliveryOf(at), Deactivate);
      forall m | m in DeliveryOf(at).outbox ensures Reachable(s.store, m.to) {
        var i :| 0 <= i < |DeliveryOf(at).outbox| && DeliveryOf(at).outbox[i] == m;
      }
      SetStep(s, k,
              NewJob(Deactivate, Releasing, 0, at, Opening(false, REPLAYED, at.value.snap),
                     at.value.(owner := [], expires := 0)));
    }
  }

  // ---- sending ----

  lemma {:induction false} FirstPendingAt(id: Id, d: Delivery, i: nat) returns (x: nat)
    requires i <= |d.outbox| && FirstPending(id, d, i).Some? && forall y :: 0 <= y < i ==> d.outbox[y].done
    ensures x < |d.outbox| && !d.outbox[x].done && FirstPending(id, d, i).value == EnvelopeOf(id, d.epoch, d.outbox[x])
    ensures forall y :: 0 <= y < x ==> d.outbox[y].done
    decreases |d.outbox| - i
  {
    if !d.outbox[i].done { x := i; } else { x := FirstPendingAt(id, d, i + 1); }
  }

  /** Only the first pending message is sent, so everything before it in its channel is done. */
  lemma FirstPassed(id: Id, d: Delivery)
    requires Ordered(d) && FirstPending(id, d, 0).Some?
    ensures var e := FirstPending(id, d, 0).value;
      && Passed(d, e) && d.epoch != 0 && e.ticket.source == Channel(id, d.epoch)
      && exists i :: 0 <= i < |d.outbox| && d.outbox[i].to == e.ticket.to
  {
    var x := FirstPendingAt(id, d, 0);
    var e := FirstPending(id, d, 0).value;
    forall i | 0 <= i < |d.outbox| && d.outbox[i].to == e.ticket.to
      ensures d.outbox[i].sequence < e.ticket.sequence ==> d.outbox[i].done
      ensures d.outbox[i].sequence == e.ticket.sequence ==> d.outbox[i].body == e.body
    {
      if i > x { assert d.outbox[x].sequence < d.outbox[i].sequence; }
    }
  }

  lemma SendStep(s: State, id: Id)
    requires Inv(s)
    ensures Inv(Send(s, id))
  {
    hide Inv, Ordered, Passed, Known, Reachable, FirstPending, AckOk;
    if id in s.store && !s.store[id].value.destroyed && FirstPending(id, DeliveryOf(s.store[id]), 0).Some? {
      RecordAt(s, id);
      FirstPassed(id, DeliveryOf(s.store[id]));
      MessageStep(s, s.wire + {FirstPending(id, DeliveryOf(s.store[id]), 0).value}, s.acks);
    }
  }

  // ---- what a write keeps ----

  predicate StoreLater(store: Store, now: Store) {
    forall id :: id in store ==> id in now && LaterRecord(store[id], now[id])
  }

  predicate MoreExecuted(ex: Executions, more: Executions) { forall t :: t in ex ==> t in more && more[t] == ex[t] }

  lemma ReachableLater(store: Store, now: Store, c: Channel)
    requires StoreLater(store, now) && Reachable(store, c)
    ensures Reachable(now, c)
  {
  }

  lemma KnownLater(store: Store, now: Store, ex: Executions, more: Executions, t: Ticket, body: bytes, reply: Reply)
    requires StoreLater(store, now) && MoreExecuted(ex, more) && Known(store, ex, t, body, reply)
    ensures Known(now, more, t, body, reply)
  {
  }

  lemma AckLater(store: Store, now: Store, ex: Executions, more: Executions, t: Ticket, reply: Reply)
    requires StoreLater(store, now) && MoreExecuted(ex, more) && AckOk(store, ex, t, reply)
    ensures AckOk(now, more, t, reply)
  {
    if Superseded(ex, t) {
      var u :| u in ex && u.source == t.source && u.to == t.to && u.sequence > t.sequence;
      assert u in more;
    }
  }

  lemma AnsweredLater(id: Id, d: Delivery, store: Store, now: Store, ex: Executions, more: Executions)
    requires StoreLater(store, now) && MoreExecuted(ex, more) && Answered(id, d, store, ex)
    ensures Answered(id, d, now, more)
  {
    hide StoreLater, MoreExecuted, Reachable, Known;
    forall i | 0 <= i < |d.outbox|
      ensures Reachable(now, d.outbox[i].to)
      ensures d.outbox[i].done ==>
        Known(now, more, TicketOf(id, d.epoch, d.outbox[i]), d.outbox[i].body, d.outbox[i].reply)
    {
      ReachableLater(store, now, d.outbox[i].to);
      if d.outbox[i].done {
        KnownLater(store, now, ex, more, TicketOf(id, d.epoch, d.outbox[i]), d.outbox[i].body, d.outbox[i].reply);
      }
    }
  }

  lemma CountedLater(id: Id, d: Delivery, ex: Executions, more: Executions)
    requires Counted(id, d, ex) && MoreExecuted(ex, more) && forall t :: t in more && t !in ex ==> t.to.peer != id
    ensures Counted(id, d, more)
  {
  }

  lemma GlobalLater(k: Key, j: Job, store: Store, now: Store, ex: Executions, more: Executions, wire: set<Envelope>,
                    acks: set<Acked>, moreAcks: set<Acked>)
    requires JobGlobal(k, j, store, ex, wire, acks) && StoreLater(store, now) && MoreExecuted(ex, more)
    requires acks <= moreAcks
    ensures JobGlobal(k, j, now, more, wire, moreAcks)
  {
    hide StoreLater, MoreExecuted, Reachable, AckOk;
    forall c | c in j.targets ensures Reachable(now, c) { ReachableLater(store, now, c); }
    forall m | m in j.work.delivery.outbox ensures Reachable(now, m.to) { ReachableLater(store, now, m.to); }
    forall m | m in j.start.delivery.outbox ensures Reachable(now, m.to) { ReachableLater(store, now, m.to); }
    if j.request.Receive? && j.replay { AckLater(store, now, ex, more, j.request.envelope.ticket, j.answer); }
  }

  lemma WireLater(store: Store, now: Store, e: Envelope)
    requires StoreLater(store, now) && WireOk(store, e)
    requires e.ticket.source.peer in store ==> now[e.ticket.source.peer] == store[e.ticket.source.peer]
    ensures WireOk(now, e)
  {
    hide StoreLater, Reachable, Passed;
    ReachableLater(store, now, e.ticket.to);
    assert e.ticket.source.peer in now by { InLater(store, now, e.ticket.source.peer); }
  }

  lemma InLater(store: Store, now: Store, id: Id)
    requires StoreLater(store, now) && id in store
    ensures id in now
  {
  }

  /** One record is written; new executions are on that entity. */
  lemma WriteStep(s: State, id: Id, r: Entity, more: Executions, acks: set<Acked>)
    requires Inv(s) && StoreLater(s.store, Write(s, id, r).store) && MoreExecuted(s.executed, more) && s.acks <= acks
    requires forall t :: t in more && t !in s.executed ==> t.to.peer == id && ExecOk(t, more[t], s.wire)
    requires RecordOk(id, Stored(s.revision + 1, r), Write(s, id, r).store, more)
    requires forall e :: e in s.wire && e.ticket.source.peer == id ==> WireOk(Write(s, id, r).store, e)
    requires forall a :: a in acks && a !in s.acks ==> AckOk(Write(s, id, r).store, more, a.ticket, a.reply)
    ensures Inv(Write(s, id, r).(executed := more, acks := acks))
  {
    hide WireOk, AckOk, JobLocal, JobGlobal, Ordered, Answered, Counted, StoreLater;
    var t := Write(s, id, r).(executed := more, acks := acks);
    forall e | e in t.wire ensures WireOk(t.store, e) {
      if e.ticket.source.peer != id { WireLater(s.store, t.store, e); }
    }
    forall a | a in t.acks ensures AckOk(t.store, t.executed, a.ticket, a.reply) {
      if a in s.acks { AckLater(s.store, t.store, s.executed, more, a.ticket, a.reply); }
    }
    forall x | x in t.executed ensures ExecOk(x, t.executed[x], t.wire) {
      if x in s.executed { assert ExecOk(x, s.executed[x], s.wire); }
    }
    forall i | i in t.store ensures RecordOk(i, t.store[i], t.store, t.executed) {
      if i != id {
        RecordAt(s, i);
        AnsweredLater(i, DeliveryOf(s.store[i]), s.store, t.store, s.executed, more);
        if !s.store[i].value.destroyed { CountedLater(i, DeliveryOf(s.store[i]), s.executed, more); }
      }
    }
    forall k | k in t.jobs
      ensures JobLocal(k, t.jobs[k]) && JobGlobal(k, t.jobs[k], t.store, t.executed, t.wire, t.acks)
    {
      GlobalLater(k, s.jobs[k], s.store, t.store, s.executed, more, s.wire, s.acks, acks);
    }
  }

  lemma WrittenLater(s: State, id: Id, r: Entity)
    requires id in s.store ==> LaterRecord(s.store[id], Stored(s.revision + 1, r))
    ensures StoreLater(s.store, Write(s, id, r).store)
  {
    hide LaterRecord;
    forall i | i in s.store ensures LaterRecord(s.store[i], s.store[i]) { SameRecord(s.store[i]); }
  }

  /** A lease or a release leaves the snapshot as it is. */
  lemma SameSnapStep(s: State, id: Id, r: Entity)
    requires Inv(s) && id in s.store && LaterRecord(s.store[id], Stored(s.revision + 1, r))
    requires r.snap == s.store[id].value.snap
    requires r.destroyed == s.store[id].value.destroyed
    ensures Inv(Write(s, id, r))
  {
    hide Inv, AckOk, Ordered, Answered, Counted, Reachable, Passed, StoreLater, LaterRecord;
    RecordAt(s, id);
    WrittenLater(s, id, r);
    var t := Write(s, id, r);
    AnsweredLater(id, DeliveryOf(s.store[id]), s.store, t.store, s.executed, s.executed);
    forall e | e in s.wire && e.ticket.source.peer == id ensures WireOk(t.store, e) {
      WireAt(s, e);
      ReachableLater(s.store, t.store, e.ticket.to);
    }
    WriteStep(s, id, r, s.executed, s.acks);
    assert t.(executed := s.executed, acks := s.acks) == t;
  }

  lemma RenewStep(s: State, k: Key, timeout: nat, lease: nat)
    requires Inv(s) && L.Inv(s)
    ensures Inv(Renew(s, k, timeout, lease))
  {
    hide Inv, L.Inv, L.Fits, L.Sound, LaterRecord, JobLocal, JobGlobal;
    DropStep(s, k);
    if k in s.jobs && Acquiring(s.jobs[k]) && !Reusable(k, s.jobs[k], timeout) && Current(s, k.id, s.jobs[k].version) {
      L.JobAt(s, k);
      var j := s.jobs[k];
      var r := L.Lease(j.base, k.owner, j.time + lease);
      L.LevelBase(k, j, s.store[k.id], s.holders);
      RenewedLater(k, j, s.store[k.id], s.holders, s.revision + 1, j.time + lease);
      SameSnapStep(s, k.id, r);
      var t := Write(s, k.id, r);
      JobAt(t, k);
      RenewedPosts(k, j, t, r);
      SetStep(t, k, j.(phase := Renewed, next := r));
      var u := SetJob(t, k, j.(phase := Renewed, next := r));
      OtherStep(u, u.(holders := s.holders[Held(k.id, r.fence) := k.owner]));
    }
  }

  lemma RenewedPosts(k: Key, j: Job, s: State, r: Entity)
    requires JobLocal(k, j) && JobGlobal(k, j, s.store, s.executed, s.wire, s.acks) && Acquiring(j)
    ensures var p := j.(phase := Renewed, next := r);
      JobLocal(k, p) && JobGlobal(k, p, s.store, s.executed, s.wire, s.acks)
  {
    hide AckOk, Reachable, Ordered, Evolves;
  }

  lemma WriteReleaseStep(s: State, k: Key)
    requires Inv(s) && L.Inv(s)
    ensures Inv(WriteRelease(s, k))
  {
    hide Inv, L.Inv, L.Sound, LaterRecord, Matches;
    DropStep(s, k);
    if k in s.jobs && s.jobs[k].phase == Releasing && Current(s, k.id, s.jobs[k].version) {
      L.JobAt(s, k);
      CommittedLater(k, s.jobs[k], s.store[k.id], s.holders, s.revision + 1);
      SameSnapStep(s, k.id, s.jobs[k].next);
      DropStep(Write(s, k.id, s.jobs[k].next), k);
    }
  }

  // ---- committing ----

  /** An envelope the source is past stays so, however the outbox evolved. */
  lemma PassedOn(id: Id, was: Delivery, now: Delivery, r: Request, e: Envelope)
    requires Evolves(id, was, now, r) && Passed(was, e)
    ensures Passed(now, e)
  {
    hide Kept;
    forall i | 0 <= i < |now.outbox| && now.outbox[i].to == e.ticket.to
      ensures now.outbox[i].sequence < e.ticket.sequence ==> now.outbox[i].done
      ensures now.outbox[i].sequence == e.ticket.sequence ==> now.outbox[i].body == e.body
    {
      var m := now.outbox[i];
      assert Derived(id, was, r, m);
      if exists n :: n in was.outbox && From(id, was.epoch, r, n, m) {
        var n :| n in was.outbox && From(id, was.epoch, r, n, m);
        var x :| 0 <= x < |was.outbox| && was.outbox[x] == n;
      }
    }
  }

  /** The acknowledgement a job carries is the result of the message it marks. */
  lemma AckKnown(s: State, id: Id, r: Request, n: Message)
    requires Inv(s) && id in s.store && !s.store[id].value.destroyed && n in DeliveryOf(s.store[id]).outbox && !n.done
    requires r.Acknowledge? && Acked(r.ticket, r.reply) in s.acks
    requires TicketOf(id, DeliveryOf(s.store[id]).epoch, n) == r.ticket
    ensures Known(s.store, s.executed, r.ticket, n.body, r.reply)
  {
    hide RecordOk, JobLocal, JobGlobal, Reachable;
    var d := DeliveryOf(s.store[id]);
    var x :| 0 <= x < |d.outbox| && d.outbox[x] == n;
    assert AckOk(s.store, s.executed, r.ticket, r.reply);
    if r.ticket in s.executed && s.executed[r.ticket].reply == r.reply {
      assert ExecOk(r.ticket, s.executed[r.ticket], s.wire);
      assert WireOk(s.store, s.executed[r.ticket].digest);
    } else if Superseded(s.executed, r.ticket) {
      var u :| u in s.executed && u.source == r.ticket.source && u.to == r.ticket.to && u.sequence > r.ticket.sequence;
      LaterDone(s, id, x, u);
    }
  }

  /** Once a later message of a channel was executed, the earlier ones are done at the source. */
  lemma LaterDone(s: State, id: Id, x: nat, u: Ticket)
    requires Inv(s) && id in s.store && !s.store[id].value.destroyed && x < |DeliveryOf(s.store[id]).outbox|
    requires u in s.executed
    requires u.source == Channel(id, DeliveryOf(s.store[id]).epoch) && u.to == DeliveryOf(s.store[id]).outbox[x].to
    requires u.sequence > DeliveryOf(s.store[id]).outbox[x].sequence
    ensures DeliveryOf(s.store[id]).outbox[x].done
  {
    hide RecordOk, JobLocal, JobGlobal, Reachable, AckOk;
    assert ExecOk(u, s.executed[u], s.wire);
    assert WireOk(s.store, s.executed[u].digest);
  }

  lemma CommittedAnswered(s: State, k: Key, store: Store, more: Executions)
    requires Inv(s) && L.Inv(s) && k in s.jobs && k.id in s.store && s.jobs[k].version == s.store[k.id].version
    requires StoreLater(s.store, store) && MoreExecuted(s.executed, more)
    ensures Answered(k.id, s.jobs[k].work.delivery, store, more)
  {
    hide Inv, L.Inv, L.Sound, Ordered, StoreLater, MoreExecuted, Known, Reachable, Expected, Kept, L.Entitled,
         L.Outcome;
    L.JobAt(s, k);
    JobAt(s, k);
    RecordAt(s, k.id);
    var j := s.jobs[k];
    var was, now := j.base.snap.delivery, j.work.delivery;
    forall i | 0 <= i < |now.outbox|
      ensures Reachable(store, now.outbox[i].to)
      ensures now.outbox[i].done ==>
        Known(store, more, TicketOf(k.id, now.epoch, now.outbox[i]), now.outbox[i].body, now.outbox[i].reply)
    {
      var m := now.outbox[i];
      assert m in now.outbox && Derived(k.id, was, j.request, m);
      ReachableLater(s.store, store, m.to);
      if m.done {
        var n :| n in was.outbox && From(k.id, was.epoch, j.request, n, m);
        var x :| 0 <= x < |was.outbox| && was.outbox[x] == n;
        NonEmptyEpoch(was);
        if !n.done { AckKnown(s, k.id, j.request, n); }
        KnownLater(s.store, store, s.executed, more, TicketOf(k.id, now.epoch, m), m.body, m.reply);
      }
    }
  }

  lemma NonEmptyEpoch(d: Delivery)
    requires Ordered(d) && d.outbox != []
    ensures d.epoch != 0
  {
  }

  function ExecutedBy(s: State, j: Job): Executions {
    if j.request.Receive? then
      s.executed[j.request.envelope.ticket := Cursor(j.request.envelope.ticket.sequence, j.request.envelope, j.answer)]
    else s.executed
  }

  /** No execution names another epoch of a live entity. */
  lemma OneEpoch(s: State, id: Id, t: Ticket)
    requires Inv(s) && t in s.executed && t.to.peer == id && id in s.store && !s.store[id].value.destroyed
    ensures t.to == Channel(id, DeliveryOf(s.store[id]).epoch) && t.to.epoch != 0
  {
    hide RecordOk, JobLocal, JobGlobal, AckOk;
    assert ExecOk(t, s.executed[t], s.wire);
    assert WireOk(s.store, s.executed[t].digest);
  }

  /** A message is executed only when it was not, and the cursor then counts it. */
  lemma CommittedCounted(s: State, k: Key)
    requires Inv(s) && L.Inv(s) && k in s.jobs && k.id in s.store && s.jobs[k].version == s.store[k.id].version
    requires L.Decided(s.jobs[k].phase)
    ensures Counted(k.id, s.jobs[k].work.delivery, ExecutedBy(s, s.jobs[k]))
    ensures MoreExecuted(s.executed, ExecutedBy(s, s.jobs[k]))
    ensures s.jobs[k].request.Receive? ==> s.jobs[k].request.envelope.ticket !in s.executed
    ensures forall t :: t in ExecutedBy(s, s.jobs[k]) && t !in s.executed ==>
      t.to.peer == k.id && ExecOk(t, ExecutedBy(s, s.jobs[k])[t], s.wire)
  {
    hide Inv, L.Inv, L.Sound, Answered, L.Entitled, L.Outcome, Evolves;
    L.JobAt(s, k);
    JobAt(s, k);
    RecordAt(s, k.id);
    forall t | t in s.executed && t.to.peer == k.id
      ensures t.to == Channel(k.id, DeliveryOf(s.store[k.id]).epoch) && t.to.epoch != 0
    {
      OneEpoch(s, k.id, t);
    }
    EpochKept(k, s.jobs[k]);
    var was, now := s.jobs[k].base.snap.delivery, s.jobs[k].work.delivery;
    var ex, more := s.executed, ExecutedBy(s, s.jobs[k]);
    if s.jobs[k].request.Receive? {
      CountedOne(k.id, was, now, ex, s.jobs[k].request.envelope, s.jobs[k].answer);
    } else {
      CountedSame(k.id, was, now, ex);
    }
  }

  lemma EpochKept(k: Key, j: Job)
    requires JobLocal(k, j)
    ensures j.base.snap.delivery.epoch != 0 ==> j.work.delivery.epoch == j.base.snap.delivery.epoch
  {
  }

  lemma CountedSame(id: Id, was: Delivery, now: Delivery, ex: Executions)
    requires Counted(id, was, ex) && now.inbox == was.inbox && (was.epoch != 0 ==> now.epoch == was.epoch)
    requires (was.epoch == 0 ==> was.inbox == map[])
    requires forall t :: t in ex && t.to.peer == id ==> t.to == Channel(id, was.epoch) && t.to.epoch != 0
    ensures Counted(id, now, ex)
  {
  }

  lemma CountedOne(id: Id, was: Delivery, now: Delivery, ex: Executions, e: Envelope, reply: Reply)
    requires Counted(id, was, ex) && was.epoch != 0 && now.epoch == was.epoch && e.ticket.to == Channel(id, was.epoch)
    requires e.ticket.sequence == (if e.ticket.source in was.inbox then was.inbox[e.ticket.source].sequence + 1 else 1)
    requires now.inbox == was.inbox[e.ticket.source := Cursor(e.ticket.sequence, e, reply)]
    ensures Counted(id, now, ex[e.ticket := Cursor(e.ticket.sequence, e, reply)]) && e.ticket !in ex
  {
    var t, more := e.ticket, ex[e.ticket := Cursor(e.ticket.sequence, e, reply)];
    assert t == Inbound(t.source, id, was.epoch, t.sequence);
    forall c, q | c in now.inbox && 0 < q <= now.inbox[c].sequence ensures Inbound(c, id, now.epoch, q) in more {
      if c == t.source && q == t.sequence {
        assert Inbound(c, id, now.epoch, q) == t;
      } else {
        assert c in was.inbox;
        assert Inbound(c, id, was.epoch, q) in ex;
      }
    }
  }

  lemma CommittedWire(s: State, k: Key, e: Envelope, store: Store)
    requires Inv(s) && L.Inv(s) && k in s.jobs && k.id in s.store && s.jobs[k].version == s.store[k.id].version
    requires L.Decided(s.jobs[k].phase)
    requires e in s.wire && e.ticket.source.peer == k.id && StoreLater(s.store, store) && k.id in store
    requires store[k.id].value == s.jobs[k].next
    ensures WireOk(store, e)
  {
    hide Inv, L.Inv, L.Sound, StoreLater, Ordered, Expected, L.Entitled, Passed, Reachable;
    L.JobAt(s, k);
    JobAt(s, k);
    WireAt(s, e);
    ReachableLater(s.store, store, e.ticket.to);
    var j := s.jobs[k];
    if Passed(j.base.snap.delivery, e) { PassedOn(k.id, j.base.snap.delivery, j.work.delivery, j.request, e); }
  }

  lemma CommitStep(s: State, k: Key, clock: int)
    requires Inv(s) && L.Inv(s)
    ensures Inv(Commit(s, k, clock))
  {
    hide Inv, L.Inv, L.Sound, L.Fits, LaterRecord, StoreLater, MoreExecuted, Counted, WireOk, AckOk, ExecutedBy,
         RecordOk;
    DropStep(s, k);
    if Publishable(s, k, clock) {
      L.JobAt(s, k);
      JobAt(s, k);
      var j := s.jobs[k];
      var w, more := Write(s, k.id, j.next), ExecutedBy(s, j);
      CommittedLater(k, j, s.store[k.id], s.holders, s.revision + 1);
      WrittenLater(s, k.id, j.next);
      CommittedCounted(s, k);
      CommittedAnswered(s, k, w.store, more);
      CommittedRecordOk(s, k, w.store, more);
      forall e | e in s.wire && e.ticket.source.peer == k.id ensures WireOk(w.store, e) {
        CommittedWire(s, k, e, w.store);
      }
      var t := Recorded(Drop(w, k), k.id, j);
      RecordedAcks(s, k.id, j, w, k);
      WriteStep(s, k.id, j.next, more, t.acks);
      DropStep(w.(executed := more, acks := t.acks), k);
      OtherStep(Drop(w.(executed := more, acks := t.acks), k), t);
    }
  }

  lemma CommittedRecordOk(s: State, k: Key, store: Store, more: Executions)
    requires Inv(s) && L.Inv(s) && k in s.jobs && k.id in s.store && s.jobs[k].phase == Armed
    requires Answered(k.id, s.jobs[k].work.delivery, store, more) && Counted(k.id, s.jobs[k].work.delivery, more)
    ensures forall version :: RecordOk(k.id, Stored(version, s.jobs[k].next), store, more)
  {
    hide Inv, L.Inv, L.Sound, Answered, Counted, Evolves, Expected, L.Level, L.Entitled, L.Started;
    L.JobAt(s, k);
    JobAt(s, k);
    EmptyAnswered(k.id, store, more);
  }

  lemma EmptyAnswered(id: Id, store: Store, ex: Executions)
    ensures Answered(id, EMPTY.delivery, store, ex)
  {
  }

  lemma RecordedAcks(s: State, id: Id, j: Job, w: State, k: Key)
    requires w.acks == s.acks && w.executed == s.executed
    ensures var t := Recorded(Drop(w, k), id, j);
      && s.acks <= t.acks && t.executed == ExecutedBy(s, j)
      && forall a :: a in t.acks && a !in s.acks ==> AckOk(w.store, t.executed, a.ticket, a.reply)
  {
    hide AckOk;
    if j.request.Receive? { AnswerOk(w.store, ExecutedBy(s, j), j.request.envelope.ticket, j.answer); }
  }

  lemma AnswerOk(store: Store, ex: Executions, t: Ticket, reply: Reply)
    requires t in ex && ex[t].reply == reply
    ensures AckOk(store, ex, t, reply)
  {
  }

  lemma CreateStep(s: State, id: Id, placement: bytes, state: bytes)
    requires Inv(s)
    ensures Inv(Create(s, id, placement, state))
  {
    hide Inv, AckOk, JobLocal, JobGlobal, StoreLater, Reachable, Passed;
    if id !in s.store {
      var r := NOBODY.(placement := placement, snap := EMPTY.(state := state));
      WrittenLater(s, id, r);
      var t := Write(s, id, r);
      forall e | e in s.wire ensures WireOk(t.store, e) {
        WireAt(s, e);
        WireLater(s.store, t.store, e);
      }
      forall x | x in s.executed ensures x.to != Channel(id, 0) { NoExecution(s, id, x); }
      WriteStep(s, id, r, s.executed, s.acks);
      assert t.(executed := s.executed, acks := s.acks) == t;
    }
  }

  lemma NoExecution(s: State, id: Id, x: Ticket)
    requires Inv(s) && x in s.executed
    ensures x.to.epoch != 0
  {
    hide RecordOk, JobLocal, JobGlobal, AckOk;
    assert ExecOk(x, s.executed[x], s.wire);
    assert WireOk(s.store, s.executed[x].digest);
  }

  // ---- every step ----

  lemma TaskInv(s: State, k: Key, a: TaskStep)
    requires Inv(s) && L.Inv(s)
    ensures Inv(DoTask(s, k, a))
  {
    hide Inv, L.Inv, Load, Verify, Reuse, Renew, Confirm, Prepare, ArmCheck, ArmRead, ArmWrite, Commit, Answer,
         ReadRelease, WriteRelease, Drop;
    match a
    case DoLoad(request, time, limits) => LoadStep(s, k, request, time, limits);
    case DoVerify => AcquireStep(s, k, 0, false);
    case DoReuse(timeout, enabled) => AcquireStep(s, k, timeout, enabled);
    case DoRenew(timeout, lease) => RenewStep(s, k, timeout, lease);
    case DoConfirm(enabled) => AcquireStep(s, k, 0, enabled);
    case DoPrepare(reply, limits, now) => PrepareStep(s, k, reply, limits, now);
    case DoArmCheck => ArmStep(s, k);
    case DoArmRead => ArmStep(s, k);
    case DoArmWrite => ArmStep(s, k);
    case DoCommit(clock) => CommitStep(s, k, clock);
    case DoAnswer => AnswerStep(s, k);
    case DoDrop => DropStep(s, k);
    case DoReadRelease => ReadReleaseStep(s, k);
    case DoWriteRelease => WriteReleaseStep(s, k);
  }

  lemma ServeInv(s: State, a: WorkerStep)
    requires Inv(s)
    ensures Inv(DoServe(s, a))
  {
    hide Inv, Create, JoinLate, ScanBucket, ScanRecord, ScanWrite, Send, ReadRetired, ListRetired, WriteRetired;
    match a
    case DoCreate(id, placement, state) => CreateStep(s, id, placement, state);
    case DoSend(id) => SendStep(s, id);
    case _ => OtherStep(s, DoServe(s, a));
  }

  lemma InvStep(s: State, a: Action)
    requires Inv(s) && L.Inv(s)
    ensures Inv(Do(s, a))
  {
    hide Inv, L.Inv, DoTask, DoHandle, DoServe;
    match a
    case Task(k, task) => TaskInv(s, k, task);
    case Handle(k, work) => HandlerStep(s, k, work);
    case Serve(serve) => ServeInv(s, serve);
  }

  lemma {:induction false} InvRun(s: State, actions: seq<Action>)
    requires Inv(s) && L.Inv(s)
    ensures Inv(Run(s, actions)) && L.Inv(Run(s, actions))
    decreases actions
  {
    hide Inv, L.Inv, Do;
    if actions != [] {
      InvStep(s, actions[0]);
      L.InvStep(s, actions[0]);
      InvRun(Do(s, actions[0]), actions[1..]);
    }
  }

  lemma ReachedInv(actions: seq<Action>)
    ensures Inv(Reached(actions)) && L.Inv(Reached(actions))
  {
    hide Run;
    StartInv();
    InvRun(START, actions);
  }

  /** Over every run: a result recorded done at the source is the outcome the receiver committed for that very message,
      unless the receiver is a tombstone. */
  lemma ResultsAgree(actions: seq<Action>, id: Id, i: nat)
    requires var s := Reached(actions);
      id in s.store && i < |DeliveryOf(s.store[id]).outbox| && DeliveryOf(s.store[id]).outbox[i].done
    ensures var s := Reached(actions); var d := DeliveryOf(s.store[id]); var m := d.outbox[i];
      var t := TicketOf(id, d.epoch, m);
      || (t in s.executed && s.executed[t].digest.body == m.body && s.executed[t].reply == m.reply)
      || (m.reply == GONE && Tombstone(s.store, m.to.peer))
  {
    hide Run, Inv, L.Inv;
    ReachedInv(actions);
    RecordAt(Reached(actions), id);
  }

  /** Over every run: a committed execution is of a message never executed before, it is the next one of its channel,
      and it moves that channel's cursor by exactly one and no other cursor at all. */
  lemma CursorRises(actions: seq<Action>, k: Key, clock: int)
    requires var s := Reached(actions); Publishable(s, k, clock) && s.jobs[k].request.Receive?
    ensures var s := Reached(actions); var e := s.jobs[k].request.envelope; var c := e.ticket.source;
      var was := DeliveryOf(s.store[k.id]).inbox;
      var t := Commit(s, k, clock);
      var now := DeliveryOf(t.store[k.id]).inbox;
      && e.ticket !in s.executed && e.ticket in t.executed && t.executed[e.ticket].digest == e
      && c in now && now == was[c := now[c]] && now[c] == t.executed[e.ticket]
      && now[c].sequence == e.ticket.sequence == (if c in was then was[c].sequence else 0) + 1
  {
    hide Run, Inv, L.Inv, Counted, MoreExecuted, Evolves, Ordered, L.Level;
    ReachedInv(actions);
    var s := Reached(actions);
    L.JobAt(s, k);
    JobAt(s, k);
    L.LevelBase(k, s.jobs[k], s.store[k.id], s.holders);
    CommittedCounted(s, k);
  }

  /** Every other commit leaves the inbox alone, or clears it for good with the entity. */
  lemma OthersKeepCursors(actions: seq<Action>, k: Key, clock: int)
    requires var s := Reached(actions); Publishable(s, k, clock) && !s.jobs[k].request.Receive?
    ensures var s := Reached(actions); var t := Commit(s, k, clock);
      && t.executed == s.executed
      && (t.store[k.id].value.destroyed || DeliveryOf(t.store[k.id]).inbox == DeliveryOf(s.store[k.id]).inbox)
  {
    hide Run, Inv, L.Inv, Evolves, Ordered, L.Level;
    ReachedInv(actions);
    var s := Reached(actions);
    L.JobAt(s, k);
    JobAt(s, k);
    L.LevelBase(k, s.jobs[k], s.store[k.id], s.holders);
  }

  /** What was executed stays as it was executed: no step ever executes a message a second time. */
  lemma ExecutedOnce(actions: seq<Action>, a: Action)
    ensures MoreExecuted(Reached(actions).executed, Do(Reached(actions), a).executed)
  {
    hide Run, Inv, L.Inv, MoreExecuted;
    ReachedInv(actions);
    var s := Reached(actions);
    ExecutedSame(s, a);
    if a.Task? && a.task.DoCommit? && Publishable(s, a.k, a.task.clock) {
      L.JobAt(s, a.k);
      CommittedCounted(s, a.k);
      RecordedAcks(s, a.k.id, s.jobs[a.k], Write(s, a.k.id, s.jobs[a.k].next), a.k);
    }
  }

  lemma ExecutedSame(s: State, a: Action)
    ensures MoreExecuted(s.executed, s.executed)
    ensures !(a.Task? && a.task.DoCommit?) ==> Do(s, a).executed == s.executed
    ensures a.Task? && a.task.DoCommit? && !Publishable(s, a.k, a.task.clock) ==>
      Do(s, a).executed == s.executed
  {
    hide DoTask, DoHandle, DoServe;
    match a
    case Task(k, task) => TaskExecutes(s, k, task);
    case Handle(k, work) => if DoHandle(s, k, work) != s { var j := L.HandlerWorks(s, k, work); }
    case Serve(serve) => ServeExecutes(s, serve);
  }

  lemma TaskExecutes(s: State, k: Key, a: TaskStep)
    ensures !(a.DoCommit? && Publishable(s, k, a.clock)) ==>
      DoTask(s, k, a).executed == s.executed
  {
    hide Load, Verify, Reuse, Renew, Confirm, Prepare, ArmCheck, ArmRead, ArmWrite, Answer, ReadRelease, WriteRelease,
         Recorded;
  }

  lemma ServeExecutes(s: State, a: WorkerStep)
    ensures DoServe(s, a).executed == s.executed
  {
    hide Create, JoinLate, ScanBucket, ScanRecord, ScanWrite, Send, ReadRetired, ListRetired, WriteRetired;
  }
}
