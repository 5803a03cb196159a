/** What happens when a receiver has no channel left: the message is refused for as long as the receiver lives, and
    everything its source has still to send waits behind it. */
module Stalls {
  import opened Bytes
  import opened TimerState
  import opened Protocol
  import L = Leases
  import opened Chains
  import D = Deliveries
  import R = Registries

  // ---- the first pending message ----

  /** The message at `x` is the first that is not done. */
  predicate FirstAt(d: Delivery, x: nat) {
    x < |d.outbox| && !d.outbox[x].done && forall y :: 0 <= y < x ==> d.outbox[y].done
  }

  lemma {:induction false} FirstFound(id: Id, d: Delivery, x: nat, i: nat)
    requires FirstAt(d, x) && i <= x
    ensures FirstPending(id, d, i) == Some(EnvelopeOf(id, d.epoch, d.outbox[x]))
    decreases x - i
  {
    if i < x { FirstFound(id, d, x, i + 1); }
  }

  lemma FirstIs(id: Id, d: Delivery) returns (x: nat)
    requires FirstPending(id, d, 0).Some?
    ensures FirstAt(d, x) && FirstPending(id, d, 0) == Some(EnvelopeOf(id, d.epoch, d.outbox[x]))
  {
    hide FirstPending;
    x := D.FirstPendingAt(id, d, 0);
  }

  /** The first pending message stays first, unless the job acknowledges it. */
  predicate Leads(id: Id, was: Delivery, now: Delivery, r: Request) {
    var first := FirstPending(id, was, 0);
    first.Some? ==> FirstPending(id, now, 0) == first || (r.Acknowledge? && r.ticket == first.value.ticket)
  }

  lemma LeadsOn(id: Id, was: Delivery, d: Delivery, now: Delivery, r: Request)
    requires Leads(id, was, d, r)
    requires FirstPending(id, d, 0).Some? ==> FirstPending(id, now, 0) == FirstPending(id, d, 0)
    ensures Leads(id, was, now, r)
  {
    hide FirstPending;
  }

  lemma SameFirst(id: Id, a: Delivery, b: Delivery)
    requires a.epoch == b.epoch && a.outbox == b.outbox && FirstPending(id, a, 0).Some?
    ensures FirstPending(id, b, 0) == FirstPending(id, a, 0)
  {
    hide FirstPending;
    var x := FirstIs(id, a);
    FirstFound(id, b, x, 0);
  }

  lemma MarkedLeads(id: Id, d: Delivery, ticket: Ticket, reply: Reply)
    requires Marked(id, d.epoch, d.outbox, ticket, reply).Some?
    ensures Leads(id, d, d.(outbox := Marked(id, d.epoch, d.outbox, ticket, reply).value), Acknowledge(ticket, reply))
  {
    hide Marked, FirstPending;
    var first := FirstPending(id, d, 0);
    if first.Some? && first.value.ticket != ticket {
      var now := d.(outbox := Marked(id, d.epoch, d.outbox, ticket, reply).value);
      D.MarkedAt(id, d.epoch, d.outbox, ticket, reply);
      var x := FirstIs(id, d);
      assert D.From(id, d.epoch, Acknowledge(ticket, reply), d.outbox[x], now.outbox[x]);
      forall y | 0 <= y < x ensures now.outbox[y].done {
        assert D.From(id, d.epoch, Acknowledge(ticket, reply), d.outbox[y], now.outbox[y]);
      }
      FirstFound(id, now, x, 0);
    }
  }

  lemma StagedFirst(id: Id, d: Delivery, to: Channel, body: bytes)
    requires FirstPending(id, d, 0).Some?
    ensures FirstPending(id, Staged(d, to, body), 0) == FirstPending(id, d, 0)
  {
    hide FirstPending;
    var x := FirstIs(id, d);
    FirstFound(id, Staged(d, to, body), x, 0);
  }

  lemma ForgottenFirst(id: Id, d: Delivery, i: nat)
    requires FirstPending(id, d, 0).Some? && i < |d.outbox| && d.outbox[i].done
    ensures FirstPending(id, D.Without(d, i), 0) == FirstPending(id, d, 0)
  {
    hide FirstPending;
    var x := FirstIs(id, d);
    var now := D.Without(d, i);
    assert forall y :: 0 <= y < |now.outbox| ==> now.outbox[y] == d.outbox[if y < i then y else y + 1];
    FirstFound(id, now, if i < x then x - 1 else x, 0);
  }

  // ---- jobs ----

  /** A job that opens a channel found one free below the limit. */
  predicate Spares(j: Job, channels: nat) {
    j.request.Receive? && !j.replay && j.request.envelope.ticket.source !in j.base.snap.delivery.inbox ==>
      |j.base.snap.delivery.inbox| < channels
  }

  predicate JobWaits(k: Key, j: Job, channels: nat) {
    && D.Ordered(j.base.snap.delivery) && Spares(j, channels)
    && Leads(k.id, j.base.snap.delivery, j.work.delivery, j.request)
    && Leads(k.id, j.base.snap.delivery, j.start.delivery, j.request)
  }

  predicate Inv(s: State, channels: nat) { forall k :: k in s.jobs ==> JobWaits(k, s.jobs[k], channels) }

  /** No host is configured for more than `channels` channels. */
  predicate Within(a: Action, channels: nat) { a.Task? && a.task.DoLoad? ==> a.task.limits.channels <= channels }

  predicate Capped(actions: seq<Action>, channels: nat) {
    forall i :: 0 <= i < |actions| ==> Within(actions[i], channels)
  }

  lemma JobAt(s: State, k: Key, channels: nat)
    requires Inv(s, channels) && k in s.jobs
    ensures JobWaits(k, s.jobs[k], channels)
  {
    hide JobWaits;
  }

  lemma SetStep(s: State, k: Key, j: Job, channels: nat)
    requires Inv(s, channels) && JobWaits(k, j, channels)
    ensures Inv(SetJob(s, k, j), channels)
  {
    hide JobWaits;
  }

  lemma DropStep(s: State, k: Key, channels: nat)
    requires Inv(s, channels)
    ensures Inv(Drop(s, k), channels)
  {
    hide JobWaits;
  }

  lemma OpenLeads(id: Id, r: Entity, request: Request, time: int, limits: Limits)
    requires Open(id, r, request, time, limits).Some?
    ensures Leads(id, r.snap.delivery, Open(id, r, request, time, limits).value.snap.delivery, request)
  {
    hide Marked, Find, AllDone, Leads;
    var d := r.snap.delivery;
    SelfLeads(id, d, request);
    if request.Acknowledge? && d.epoch == request.ticket.source.epoch
       && Marked(id, d.epoch, d.outbox, request.ticket, request.reply).Some? {
      MarkedLeads(id, d, request.ticket, request.reply);
    }
  }

  lemma SelfLeads(id: Id, d: Delivery, r: Request)
    ensures Leads(id, d, d, r)
  {
  }

  lemma LoadStep(s: State, k: Key, request: Request, time: int, limits: Limits, channels: nat)
    requires Inv(s, channels) && D.Inv(s) && limits.channels <= channels
    ensures Inv(Load(s, k, request, time, limits), channels)
  {
    hide Inv, D.Inv, Missing, Admitted, Addressed, D.Ordered, D.Answered, D.Counted, Leads, OpenAck, Find, AllDone;
    if k !in s.jobs && k.owner != [] && k.id in s.store
       && Open(k.id, s.store[k.id].value, request, time, limits).Some? {
      var at := s.store[k.id];
      var o := Open(k.id, at.value, request, time, limits).value;
      D.RecordAt(s, k.id);
      OpenLeads(k.id, at.value, request, time, limits);
      SetStep(s, k, NewJob(request, Loaded, time, at, o, at.value), channels);
    }
    SameJobs(s, Load(s, k, request, time, limits), channels);
  }

  lemma SameJobs(s: State, t: State, channels: nat)
    requires Inv(s, channels)
    ensures t.jobs == s.jobs ==> Inv(t, channels)
  {
    hide JobWaits;
  }

  lemma BegunWaits(k: Key, j: Job, version: nat, base: Entity, enabled: bool, channels: nat)
    requires JobWaits(k, j, channels) && base.snap == j.base.snap && j.work == j.start && version > 0
    ensures JobWaits(k, Begun(j, version, base, enabled), channels)
  {
    hide FirstPending;
    if FirstPending(k.id, j.base.snap.delivery, 0).Some? {
      FirstEpoch(k.id, j.base.snap.delivery);
      var y := FirstIs(k.id, j.base.snap.delivery);
    }
    if FirstPending(k.id, j.work.delivery, 0).Some? {
      var x := FirstIs(k.id, j.work.delivery);
      if j.work.delivery.epoch != 0 {
        SameFirst(k.id, j.work.delivery, Begun(j, version, base, enabled).work.delivery);
      }
    }
  }

  lemma FirstEpoch(id: Id, d: Delivery)
    requires D.Ordered(d) && FirstPending(id, d, 0).Some?
    ensures d.epoch != 0
  {
  }

  lemma PhaseWaits(k: Key, j: Job, now: Job, channels: nat)
    requires JobWaits(k, j, channels) && now.request == j.request && now.replay == j.replay && now.base == j.base
    requires now.start == j.start && now.work == j.work
    ensures JobWaits(k, now, channels)
  {
    hide Leads, D.Ordered;
  }

  /** A job moves on without touching what it started from or works on. */
  lemma MoveStep(s: State, k: Key, now: Job, channels: nat)
    requires Inv(s, channels) && k in s.jobs && now.request == s.jobs[k].request && now.replay == s.jobs[k].replay
    requires now.base == s.jobs[k].base && now.start == s.jobs[k].start && now.work == s.jobs[k].work
    ensures Inv(SetJob(s, k, now), channels)
  {
    hide Inv, JobWaits;
    JobAt(s, k, channels);
    PhaseWaits(k, s.jobs[k], now, channels);
    SetStep(s, k, now, channels);
  }

  lemma RenewStep(s: State, k: Key, timeout: nat, lease: nat, channels: nat)
    requires Inv(s, channels)
    ensures Inv(Renew(s, k, timeout, lease), channels) && Inv(Verify(s, k), channels)
  {
    hide Inv, StillPending, Reusable, Acquiring;
    DropStep(s, k, channels);
    if k in s.jobs {
      var j := s.jobs[k];
      var r := L.Lease(j.base, k.owner, j.time + lease);
      MoveStep(s, k, j.(phase := Verified), channels);
      MoveStep(s, k, j.(phase := Renewed, next := r), channels);
      SameJobs(SetJob(s, k, j.(phase := Renewed, next := r)), Renew(s, k, timeout, lease), channels);
    }
  }

  lemma AcquireStep(s: State, k: Key, timeout: nat, enabled: bool, channels: nat)
    requires Inv(s, channels) && L.Inv(s)
    ensures Inv(Reuse(s, k, timeout, enabled), channels) && Inv(Confirm(s, k, enabled), channels)
  {
    hide Inv, L.Inv, L.Sound, Reusable, Begun, JobWaits;
    DropStep(s, k, channels);
    if k in s.jobs {
      L.JobAt(s, k);
      JobAt(s, k, channels);
      var j, at := s.jobs[k], s.store[k.id];
      if !L.Owning(j.phase) {
        BegunWaits(k, j, j.version, j.base, enabled, channels);
        SetStep(s, k, Begun(j, j.version, j.base, enabled), channels);
        if j.phase == Renewed {
          BegunWaits(k, j, at.version, j.next, enabled, channels);
          SetStep(s, k, Begun(j, at.version, j.next, enabled), channels);
        }
      }
    }
  }

  lemma HandlerWaits(s: State, k: Key, a: HandlerStep, j: Job, channels: nat)
    requires DoHandle(s, k, a) != s && k in s.jobs && L.Worked(s.jobs[k], j)
    requires DoHandle(s, k, a).jobs == SetJob(s, k, j).jobs && JobWaits(k, s.jobs[k], channels)
    ensures JobWaits(k, j, channels)
  {
    hide Insert, Remove, Find, D.Ordered, FirstPending, Leads;
    var was := s.jobs[k];
    assert j == DoHandle(s, k, a).jobs[k];
    var d := was.work.delivery;
    if FirstPending(k.id, d, 0).Some? {
      match a
      case DoStage(to, body) => StagedFirst(k.id, d, to, body);
      case DoForget(i) => ForgottenFirst(k.id, d, i);
      case _ =>
    }
    LeadsOn(k.id, was.base.snap.delivery, d, j.work.delivery, was.request);
  }

  lemma HandlerStep(s: State, k: Key, a: HandlerStep, channels: nat)
    requires Inv(s, channels)
    ensures Inv(DoHandle(s, k, a), channels)
  {
    hide Inv, DoHandle, L.Worked, JobWaits;
    var t := DoHandle(s, k, a);
    if t != s {
      var j := L.HandlerWorks(s, k, a);
      JobAt(s, k, channels);
      HandlerWaits(s, k, a, j, channels);
      SetStep(s, k, j, channels);
      SameJobs(SetJob(s, k, j), t, channels);
    }
  }

  lemma PreparedWaits(k: Key, j: Job, reply: Reply, limits: Limits, now: int, channels: nat)
    requires JobWaits(k, j, channels) && Finished(j, reply, limits, now).Some?
    ensures JobWaits(k, PreparedJob(k, j, Finished(j, reply, limits, now).value, reply), channels)
  {
    hide Leads, FirstPending, D.Ordered, AfterFire, Earliest, AllDone, Committed, Allowed;
    var p := PreparedJob(k, j, Finished(j, reply, limits, now).value, reply);
    var from := if j.request.Receive? && reply.status != Success then j.start.delivery else j.work.delivery;
    if FirstPending(k.id, from, 0).Some? { SameFirst(k.id, from, p.work.delivery); }
    LeadsOn(k.id, j.base.snap.delivery, from, p.work.delivery, j.request);
  }

  lemma PrepareStep(s: State, k: Key, reply: Reply, limits: Limits, now: int, channels: nat)
    requires Inv(s, channels)
    ensures Inv(Prepare(s, k, reply, limits, now), channels)
  {
    hide Inv, Finished, PreparedJob, JobWaits;
    DropStep(s, k, channels);
    if k in s.jobs {
      JobAt(s, k, channels);
      var f := Finished(s.jobs[k], reply, limits, now);
      if f.Some? {
        PreparedWaits(k, s.jobs[k], reply, limits, now, channels);
        SetStep(s, k, PreparedJob(k, s.jobs[k], f.value, reply), channels);
      }
    }
  }

  lemma ArmStep(s: State, k: Key, channels: nat)
    requires Inv(s, channels)
    ensures Inv(ArmCheck(s, k), channels) && Inv(ArmRead(s, k), channels)
  {
    hide Inv, Bucket, Shard;
    DropStep(s, k, channels);
    if k in s.jobs {
      var j, b := s.jobs[k], Bucket(s, Shard(k.id));
      MoveStep(s, k, j.(phase := Checked), channels);
      MoveStep(s, k, j.(phase := Listed, bucket := b), channels);
    }
  }

  lemma ArmWriteStep(s: State, k: Key, channels: nat)
    requires Inv(s, channels)
    ensures Inv(ArmWrite(s, k), channels) && Inv(Answer(s, k), channels)
  {
    hide Inv, Bucket, Shard, WriteBucket;
    DropStep(s, k, channels);
    SameJobs(Drop(s, k), Answer(s, k), channels);
    if k in s.jobs {
      var j := s.jobs[k];
      MoveStep(s, k, j.(phase := Arming), channels);
      MoveStep(s, k, j.(phase := Armed), channels);
      var t := SetJob(s, k, j.(phase := Armed));
      BucketJobs(t, Shard(k.id), j.bucket.value[k.id := j.entry]);
      SameJobs(t, WriteBucket(t, Shard(k.id), j.bucket.value[k.id := j.entry]), channels);
    }
  }

  lemma BucketJobs(s: State, shard: nat, entries: map<Id, Entry>)
    ensures WriteBucket(s, shard, entries).jobs == s.jobs
  {
  }

  lemma ReleaseStep(s: State, k: Key, clock: int, channels: nat)
    requires Inv(s, channels) && D.Inv(s)
    ensures Inv(ReadRelease(s, k), channels) && Inv(WriteRelease(s, k), channels) && Inv(Commit(s, k, clock), channels)
  {
    hide Inv, D.Inv, Leads, D.Ordered, D.Answered, D.Counted, Recorded;
    DropStep(s, k, channels);
    SameJobs(Drop(s, k), WriteRelease(s, k), channels);
    SameJobs(Drop(s, k), Commit(s, k, clock), channels);
    if k !in s.jobs && k.owner != [] && k.id in s.store && s.store[k.id].value.owner == k.owner {
      var at := s.store[k.id];
      D.RecordAt(s, k.id);
      SelfLeads(k.id, D.DeliveryOf(at), Deactivate);
      var o := Opening(false, REPLAYED, at.value.snap);
      SetStep(s, k, NewJob(Deactivate, Releasing, 0, at, o, at.value.(owner := [], expires := 0)), channels);
    }
  }

  lemma TaskInv(s: State, k: Key, a: TaskStep, channels: nat)
    requires Inv(s, channels) && D.Inv(s) && L.Inv(s) && (a.DoLoad? ==> a.limits.channels <= channels)
    ensures Inv(DoTask(s, k, a), channels)
  {
    hide Inv, D.Inv, L.Inv, Load, Verify, Reuse, Renew, Confirm, Prepare, ArmCheck, ArmRead, ArmWrite, Commit, Answer,
         ReadRelease, WriteRelease, Drop;
    match a
    case DoLoad(request, time, limits) => LoadStep(s, k, request, time, limits, channels);
    case DoVerify => RenewStep(s, k, 0, 0, channels);
    case DoReuse(timeout, enabled) => AcquireStep(s, k, timeout, enabled, channels);
    case DoRenew(timeout, lease) => RenewStep(s, k, timeout, lease, channels);
    case DoConfirm(enabled) => AcquireStep(s, k, 0, enabled, channels);
    case DoPrepare(reply, limits, now) => PrepareStep(s, k, reply, limits, now, channels);
    case DoArmCheck => ArmStep(s, k, channels);
    case DoArmRead => ArmStep(s, k, channels);
    case DoArmWrite => ArmWriteStep(s, k, channels);
    case DoCommit(clock) => ReleaseStep(s, k, clock, channels);
    case DoAnswer => ArmWriteStep(s, k, channels);
    case DoDrop => DropStep(s, k, channels);
    case DoReadRelease => ReleaseStep(s, k, 0, channels);
    case DoWriteRelease => ReleaseStep(s, k, 0, channels);
  }

  lemma ServeInv(s: State, a: WorkerStep, channels: nat)
    requires Inv(s, channels)
    ensures Inv(DoServe(s, a), channels)
  {
    hide Inv, Create, JoinLate, ScanBucket, ScanRecord, ScanWrite, Send, ReadRetired, ListRetired, WriteRetired;
    SameJobs(s, DoServe(s, a), channels);
  }

  /** Every step of hosts that keep to the limit keeps each job's free channel and its first pending message. */
  lemma InvStep(s: State, a: Action, channels: nat)
    requires Inv(s, channels) && D.Inv(s) && L.Inv(s) && Within(a, channels)
    ensures Inv(Do(s, a), channels)
  {
    hide Inv, D.Inv, L.Inv, DoTask, DoHandle, DoServe;
    match a
    case Task(k, task) => TaskInv(s, k, task, channels);
    case Handle(k, work) => HandlerStep(s, k, work, channels);
    case Serve(serve) => ServeInv(s, serve, channels);
  }

  // ---- a message without a channel ----

  predicate Full(d: Delivery, source: Channel, channels: nat) { source !in d.inbox && |d.inbox| >= channels }

  /** Source `id` waits with `e` before a live receiver that has no channel left for it. */
  predicate Stalled(s: State, id: Id, e: Envelope, channels: nat) {
    && id in s.store && !s.store[id].value.destroyed && FirstPending(id, D.DeliveryOf(s.store[id]), 0) == Some(e)
    && e.ticket.to.peer in s.store && !s.store[e.ticket.to.peer].value.destroyed
    && Full(D.DeliveryOf(s.store[e.ticket.to.peer]), e.ticket.source, channels)
  }

  ghost predicate Sound(s: State, channels: nat) { Inv(s, channels) && D.Inv(s) && L.Inv(s) && R.Inv(s) }

  /** Without a channel nothing of the source was executed, so nobody can have acknowledged the message. */
  lemma NeverAcked(s: State, id: Id, e: Envelope, reply: Reply, channels: nat)
    requires D.Inv(s) && Stalled(s, id, e, channels)
    ensures e.ticket !in s.executed && Acked(e.ticket, reply) !in s.acks
  {
    hide D.Inv, FirstPending, D.Ordered, D.Answered, D.Known, D.Reachable, D.Passed;
    var d, b := D.DeliveryOf(s.store[id]), e.ticket.to.peer;
    D.RecordAt(s, id);
    D.RecordAt(s, b);
    D.FirstPassed(id, d);
    var x := FirstIs(id, d);
    if e.ticket in s.executed {
      D.OneEpoch(s, b, e.ticket);
      assert false;
    }
    if Acked(e.ticket, reply) in s.acks {
      D.AckKnown(s, id, Acknowledge(e.ticket, reply), d.outbox[x]);
      KnownExecuted(s, e, d.outbox[x].body, reply);
      assert false;
    }
  }

  lemma KnownExecuted(s: State, e: Envelope, body: bytes, reply: Reply)
    requires D.Known(s.store, s.executed, e.ticket, body, reply) && !D.Tombstone(s.store, e.ticket.to.peer)
    ensures e.ticket in s.executed
  {
  }

  /** A commit of the source leaves the message first, and cannot be the source's destruction. */
  lemma SourceCommits(s: State, k: Key, clock: int, e: Envelope, channels: nat)
    requires Sound(s, channels) && Stalled(s, k.id, e, channels) && Publishable(s, k, clock)
    ensures var r := Commit(s, k, clock).store[k.id].value;
      !r.destroyed && FirstPending(k.id, r.snap.delivery, 0) == Some(e)
  {
    hide Inv, D.Inv, L.Inv, R.Inv, D.Ordered, FirstPending, Full, Commit, Current, R.Listed, R.Snapshot, D.JobLocal;
    CommitWrites(s, k, clock);
    JobAt(s, k, channels);
    D.JobAt(s, k);
    R.JobAt(s, k);
    var j := s.jobs[k];
    if j.request.Acknowledge? { NeverAcked(s, k.id, e, j.request.reply, channels); }
    assert FirstPending(k.id, j.work.delivery, 0) == Some(e);
    var x := FirstIs(k.id, j.work.delivery);
  }

  /** A commit of the receiver opens no channel. */
  lemma ReceiverCommits(s: State, k: Key, clock: int, id: Id, e: Envelope, channels: nat)
    requires Sound(s, channels) && Stalled(s, id, e, channels) && Publishable(s, k, clock) && k.id == e.ticket.to.peer
    ensures var r := Commit(s, k, clock).store[k.id].value;
      r.destroyed || Full(r.snap.delivery, e.ticket.source, channels)
  {
    hide Inv, D.Inv, L.Inv, R.Inv, D.Ordered, FirstPending, Commit, Current, D.Evolves, D.JobGlobal, Leads;
    CommitWrites(s, k, clock);
    JobAt(s, k, channels);
    D.JobAt(s, k);
    var j := s.jobs[k];
    var was := j.base.snap.delivery.inbox;
    if j.request.Receive? {
      var c := j.request.envelope.ticket.source;
      assert c in was;
      SameSize(was, c, Cursor(j.request.envelope.ticket.sequence, j.request.envelope, j.answer));
    }
  }

  lemma SameSize(m: map<Channel, Cursor>, c: Channel, v: Cursor)
    requires c in m
    ensures |m[c := v]| == |m| && m[c := v].Keys == m.Keys
  {
    assert m[c := v].Keys == m.Keys;
    assert |m[c := v].Keys| == |m.Keys|;
  }

  // ---- every continuation ----

  lemma StillStalled(s: State, t: State, id: Id, e: Envelope, channels: nat)
    requires Stalled(s, id, e, channels) && R.SameSnap(s, t, id) && R.SameSnap(s, t, e.ticket.to.peer)
    ensures Stalled(t, id, e, channels)
  {
    hide FirstPending, Full;
  }

  /** The receiver is gone, or the message still waits. */
  predicate Waits(t: State, id: Id, e: Envelope, channels: nat) {
    e.ticket.to.peer in t.store && (t.store[e.ticket.to.peer].value.destroyed || Stalled(t, id, e, channels))
  }

  lemma CommitStalled(s: State, k: Key, clock: int, id: Id, e: Envelope, channels: nat)
    requires Sound(s, channels) && Stalled(s, id, e, channels)
    ensures Waits(Commit(s, k, clock), id, e, channels)
  {
    hide Sound, FirstPending, Full, Recorded, Current;
    var t := Commit(s, k, clock);
    if Publishable(s, k, clock) {
      assert t.store == s.store[k.id := t.store[k.id]];
      if k.id == id { SourceCommits(s, k, clock, e, channels); }
      if k.id == e.ticket.to.peer { ReceiverCommits(s, k, clock, id, e, channels); }
    } else {
      StillStalled(s, t, id, e, channels);
    }
  }

  /** What was sent in the meantime by the source is what was sent before, or the message itself. */
  predicate OnlySent(s: State, t: State, id: Id, e: Envelope) {
    forall x :: x in t.wire && x.ticket.source.peer == id ==> x in s.wire || x == e
  }

  lemma StalledStep(s: State, a: Action, id: Id, e: Envelope, channels: nat)
    requires Sound(s, channels) && Stalled(s, id, e, channels) && Within(a, channels)
    ensures Waits(Do(s, a), id, e, channels) && OnlySent(s, Do(s, a), id, e)
  {
    hide Inv, D.Inv, L.Inv, R.Inv, Commit, Renew, WriteRelease, FirstPending, Full, DoHandle;
    SendsFirst(s, a, id, e, channels);
    if !Writes(a) {
      ReadsOnly(s, a);
      StillStalled(s, Do(s, a), id, e, channels);
    } else if a.Serve? {
      StillStalled(s, Do(s, a), id, e, channels);
    } else {
      match a.task
      case DoRenew(timeout, lease) =>
        R.RenewKept(s, a.k, timeout, lease, id);
        R.RenewKept(s, a.k, timeout, lease, e.ticket.to.peer);
        StillStalled(s, Renew(s, a.k, timeout, lease), id, e, channels);
      case DoCommit(clock) => CommitStalled(s, a.k, clock, id, e, channels);
      case DoWriteRelease =>
        R.ReleaseKept(s, a.k, id);
        R.ReleaseKept(s, a.k, e.ticket.to.peer);
        StillStalled(s, WriteRelease(s, a.k), id, e, channels);
    }
  }

  lemma SendsFirst(s: State, a: Action, id: Id, e: Envelope, channels: nat)
    requires Stalled(s, id, e, channels)
    ensures OnlySent(s, Do(s, a), id, e)
  {
    hide DoTask, DoHandle, DoServe, Full, Stalled;
    match a
    case Task(k, task) => TaskSends(s, k, task);
    case Handle(k, work) => if DoHandle(s, k, work) != s { var j := L.HandlerWorks(s, k, work); }
    case Serve(serve) => ServeSends(s, serve, id, e, channels);
  }

  lemma ServeSends(s: State, a: WorkerStep, id: Id, e: Envelope, channels: nat)
    requires Stalled(s, id, e, channels)
    ensures OnlySent(s, DoServe(s, a), id, e)
  {
    hide Create, JoinLate, ScanBucket, ScanRecord, ScanWrite, ReadRetired, ListRetired, WriteRetired, FirstPending,
         Full;
    if a.DoSend? && FirstPendingOf(s, a.id).Some? {
      var x := FirstIs(a.id, D.DeliveryOf(s.store[a.id]));
    }
  }

  function FirstPendingOf(s: State, id: Id): Option<Envelope> {
    if id in s.store then FirstPending(id, D.DeliveryOf(s.store[id]), 0) else None
  }

  lemma TaskSends(s: State, k: Key, a: TaskStep)
    ensures DoTask(s, k, a).wire == s.wire
  {
    hide Load, Verify, Reuse, Renew, Confirm, Prepare, ArmCheck, ArmRead, ArmWrite, Answer, ReadRelease, WriteRelease,
         Recorded;
  }

  lemma SoundStep(s: State, a: Action, channels: nat)
    requires Sound(s, channels) && Within(a, channels)
    ensures Sound(Do(s, a), channels)
  {
    hide Inv, D.Inv, L.Inv, R.Inv, Do, Within;
    InvStep(s, a, channels);
    D.InvStep(s, a);
    L.InvStep(s, a);
    R.InvStep(s, a);
  }

  lemma {:induction false} SoundRun(s: State, actions: seq<Action>, channels: nat)
    requires Sound(s, channels) && Capped(actions, channels)
    ensures Sound(Run(s, actions), channels)
    decreases actions
  {
    hide Sound, Do, Within;
    if actions != [] {
      assert Within(actions[0], channels);
      SoundStep(s, actions[0], channels);
      SoundRun(Do(s, actions[0]), actions[1..], channels);
    }
  }

  lemma {:induction false} StalledRun(s: State, more: seq<Action>, id: Id, e: Envelope, channels: nat)
    requires Sound(s, channels) && Stalled(s, id, e, channels) && Capped(more, channels)
    requires var b := e.ticket.to.peer; b in Run(s, more).store ==> !Run(s, more).store[b].value.destroyed
    ensures Stalled(Run(s, more), id, e, channels) && OnlySent(s, Run(s, more), id, e) && Sound(Run(s, more), channels)
    decreases more
  {
    hide Sound, Stalled, Do, Within;
    if more != [] {
      var t, b := Do(s, more[0]), e.ticket.to.peer;
      assert Within(more[0], channels);
      StalledStep(s, more[0], id, e, channels);
      SoundStep(s, more[0], channels);
      if t.store[b].value.destroyed {
        GoneStays(t, more[1..], b, channels);
      } else {
        StalledRun(t, more[1..], id, e, channels);
      }
    }
  }

  lemma GoneStays(s: State, more: seq<Action>, b: Id, channels: nat)
    requires Sound(s, channels) && b in s.store && s.store[b].value.destroyed
    ensures b in Run(s, more).store && Run(s, more).store[b].value.destroyed
  {
    hide Inv, D.Inv, L.Inv, R.Inv, Run;
    LaterRun(s, more);
  }

  lemma ReachedSound(actions: seq<Action>, channels: nat)
    requires Capped(actions, channels)
    ensures Sound(Reached(actions), channels)
  {
    hide Run;
    StartInv();
    SoundRun(START, actions, channels);
  }

  /** Among hosts that allow at most `channels` channels: once the first pending message of a source has reached a
      receiver without a channel for it, then in every continuation in which the receiver lives the message is never
      executed and never acknowledged, every host refuses it, it stays the source's first pending message, the source
      sends nothing else, and the source cannot be destroyed. */
  lemma StallsForGood(actions: seq<Action>, more: seq<Action>, id: Id, e: Envelope, limits: Limits)
    requires Capped(actions, limits.channels) && Capped(more, limits.channels)
    requires Stalled(Reached(actions), id, e, limits.channels)
    requires var t := Run(Reached(actions), more); var b := e.ticket.to.peer;
      b in t.store ==> !t.store[b].value.destroyed
    ensures var s := Reached(actions); var t := Run(s, more);
      && Stalled(t, id, e, limits.channels) && OnlySent(s, t, id, e) && e.ticket !in t.executed
      && OpenReceive(t.store[e.ticket.to.peer].value, e, limits).None?
      && (forall reply :: Acked(e.ticket, reply) !in t.acks)
      && (forall time :: Open(id, t.store[id].value, Destroy, time, limits).None?)
  {
    hide Run, Inv, D.Inv, L.Inv, R.Inv, FirstPending, OnlySent;
    ReachedSound(actions, limits.channels);
    var s := Reached(actions);
    StalledRun(s, more, id, e, limits.channels);
    var t := Run(s, more);
    forall reply ensures Acked(e.ticket, reply) !in t.acks && e.ticket !in t.executed {
      NeverAcked(t, id, e, reply, limits.channels);
    }
    NeverAcked(t, id, e, GONE, limits.channels);
    var x := FirstIs(id, D.DeliveryOf(t.store[id]));
  }
}
