/** Channels have no gaps: a number that was counted is still in the outbox or was settled by the receiver, so the
    receiver refuses a source's first pending message for one reason only, that it has no channel left for that source.
    */
module Gaps {
  import opened Bytes
  import opened TimerState
  import opened Protocol
  import L = Leases
  import opened Chains
  import D = Deliveries

  predicate Lists(outbox: seq<Message>, c: Channel, q: nat) {
    exists i :: 0 <= i < |outbox| && outbox[i].to == c && outbox[i].sequence == q
  }

  predicate Done(outbox: seq<Message>, c: Channel, q: nat) {
    exists i :: 0 <= i < |outbox| && outbox[i].to == c && outbox[i].sequence == q && outbox[i].done
  }

  predicate Settled(id: Id, epoch: nat, c: Channel, q: nat, store: D.Store, ex: D.Executions) {
    Ticket(Channel(id, epoch), c, q) in ex || D.Tombstone(store, c.peer)
  }

  /** Every number up to the channel's count is listed or settled. */
  ghost predicate Whole(id: Id, d: Delivery, store: D.Store, ex: D.Executions) {
    forall c, q :: c in d.sent && 0 < q <= d.sent[c] ==> Lists(d.outbox, c, q) || Settled(id, d.epoch, c, q, store, ex)
  }

  /** A job lists every number it counts, except those its record had let go or had done. */
  ghost predicate Covers(was: Delivery, now: Delivery) {
    forall c, q :: c in now.sent && 0 < q <= now.sent[c] ==>
      || Lists(now.outbox, c, q)
      || (c in was.sent && q <= was.sent[c] && (Lists(was.outbox, c, q) ==> Done(was.outbox, c, q)))
  }

  ghost predicate JobCovers(j: Job) {
    && D.Ordered(j.base.snap.delivery) && Covers(j.base.snap.delivery, j.work.delivery)
    && Covers(j.base.snap.delivery, j.start.delivery)
  }

  ghost predicate Inv(s: State) {
    && (forall id :: id in s.store ==> Whole(id, D.DeliveryOf(s.store[id]), s.store, s.executed))
    && (forall k :: k in s.jobs ==> JobCovers(s.jobs[k]))
  }

  lemma JobAt(s: State, k: Key)
    requires Inv(s) && k in s.jobs
    ensures JobCovers(s.jobs[k])
  {
    hide Whole, JobCovers;
  }

  lemma RecordAt(s: State, id: Id)
    requires Inv(s) && id in s.store
    ensures Whole(id, D.DeliveryOf(s.store[id]), s.store, s.executed)
  {
    hide Whole, JobCovers;
  }

  lemma OtherStep(s: State, t: State)
    requires Inv(s) && t.store == s.store && t.jobs == s.jobs && t.executed == s.executed
    ensures Inv(t)
  {
    hide Whole, JobCovers;
  }

  lemma DropStep(s: State, k: Key)
    requires Inv(s)
    ensures Inv(Drop(s, k))
  {
    hide Whole, JobCovers;
  }

  lemma SetStep(s: State, k: Key, j: Job)
    requires Inv(s) && JobCovers(j)
    ensures Inv(SetJob(s, k, j))
  {
    hide Whole, JobCovers;
  }

  // ---- jobs ----

  lemma CoversSame(was: Delivery, a: Delivery, b: Delivery)
    requires Covers(was, a) && b.sent == a.sent && b.outbox == a.outbox
    ensures Covers(was, b)
  {
  }

  /** Marking a message keeps every place. */
  lemma MarkedCovers(id: Id, d: Delivery, ticket: Ticket, reply: Reply)
    requires Marked(id, d.epoch, d.outbox, ticket, reply).Some?
    ensures Covers(d, d.(outbox := Marked(id, d.epoch, d.outbox, ticket, reply).value))
  {
    hide Marked;
    D.MarkedAt(id, d.epoch, d.outbox, ticket, reply);
    var now := Marked(id, d.epoch, d.outbox, ticket, reply).value;
    forall c, q | Lists(d.outbox, c, q) ensures Lists(now, c, q) {
      var i :| 0 <= i < |d.outbox| && d.outbox[i].to == c && d.outbox[i].sequence == q;
      assert now[i].to == c && now[i].sequence == q;
    }
  }

  lemma OpenCovers(id: Id, r: Entity, request: Request, time: int, limits: Limits)
    requires Open(id, r, request, time, limits).Some?
    ensures Covers(r.snap.delivery, Open(id, r, request, time, limits).value.snap.delivery)
  {
    hide Marked, Find, AllDone, Covers;
    var d := r.snap.delivery;
    SelfCovers(d);
    if request.Acknowledge? && d.epoch == request.ticket.source.epoch
       && Marked(id, d.epoch, d.outbox, request.ticket, request.reply).Some? {
      MarkedCovers(id, d, request.ticket, request.reply);
    }
  }

  lemma SelfCovers(d: Delivery)
    ensures Covers(d, d)
  {
  }

  lemma StageCovers(was: Delivery, d: Delivery, to: Channel, body: bytes)
    requires Covers(was, d)
    ensures Covers(was, Staged(d, to, body))
  {
    var now := Staged(d, to, body);
    forall c, q | c in now.sent && 0 < q <= now.sent[c]
      ensures || Lists(now.outbox, c, q)
              || (c in was.sent && q <= was.sent[c] && (Lists(was.outbox, c, q) ==> Done(was.outbox, c, q)))
    {
      if c == to && q == now.sent[c] {
        assert now.outbox[|d.outbox|].to == c && now.outbox[|d.outbox|].sequence == q;
      } else if Lists(d.outbox, c, q) {
        var i :| 0 <= i < |d.outbox| && d.outbox[i].to == c && d.outbox[i].sequence == q;
        assert now.outbox[i] == d.outbox[i];
      }
    }
  }

  /** Only what was done in the record can be forgotten: no handler runs on an acknowledgement. */
  lemma ForgetCovers(id: Id, was: Delivery, d: Delivery, r: Request, i: nat)
    requires Covers(was, d) && D.Evolves(id, was, d, r) && !r.Acknowledge? && i < |d.outbox| && d.outbox[i].done
    requires D.Ordered(was)
    ensures Covers(was, D.Without(d, i))
  {
    var now := D.Without(d, i);
    forall c, q | c in now.sent && 0 < q <= now.sent[c]
      ensures || Lists(now.outbox, c, q)
              || (c in was.sent && q <= was.sent[c] && (Lists(was.outbox, c, q) ==> Done(was.outbox, c, q)))
    {
      if Lists(d.outbox, c, q) {
        var x :| 0 <= x < |d.outbox| && d.outbox[x].to == c && d.outbox[x].sequence == q;
        if x == i {
          assert D.Derived(id, was, r, d.outbox[i]);
          var n :| n in was.outbox && D.From(id, was.epoch, r, n, d.outbox[i]);
          var y :| 0 <= y < |was.outbox| && was.outbox[y] == n;
          assert Done(was.outbox, c, q);
        } else {
          assert now.outbox[if x < i then x else x - 1] == d.outbox[x];
        }
      }
    }
  }

  // ---- steps that leave the store alone ----

  lemma LoadStep(s: State, k: Key, request: Request, time: int, limits: Limits)
    requires Inv(s) && D.Inv(s)
    ensures Inv(Load(s, k, request, time, limits))
  {
    hide Inv, D.Inv, Open, Missing, Admitted, Addressed, D.Ordered, D.Answered, D.Counted, Covers;
    if k in s.jobs || k.owner == [] || !Addressed(s, k, request) {
    } else if request.Receive? && Missing(s, k, request.envelope, time) {
      OtherStep(s, Load(s, k, request, time, limits));
    } else if k.id in s.store && !s.store[k.id].value.destroyed && Admitted(k, s.store[k.id].value, request, time) {
      var at := s.store[k.id];
      var o := Open(k.id, at.value, request, time, limits);
      if o.Some? {
        D.RecordAt(s, k.id);
        OpenCovers(k.id, at.value, request, time, limits);
        SetStep(s, k, NewJob(request, Loaded, time, at, o.value, at.value));
      }
    }
  }

  lemma BegunCovers(j: Job, version: nat, base: Entity, enabled: bool)
    requires JobCovers(j) && base.snap == j.base.snap && j.work == j.start && version > 0
    ensures JobCovers(Begun(j, version, base, enabled))
  {
    hide Covers, D.Ordered;
    CoversSame(j.base.snap.delivery, j.work.delivery, Begun(j, version, base, enabled).work.delivery);
  }

  lemma AcquireStep(s: State, k: Key, timeout: nat, enabled: bool)
    requires Inv(s) && L.Inv(s)
    ensures Inv(Verify(s, k)) && Inv(Reuse(s, k, timeout, enabled)) && Inv(Confirm(s, k, enabled))
  {
    hide Inv, L.Inv, StillPending, L.Sound, Reusable, Begun, Covers, D.Ordered;
    DropStep(s, k);
    if k in s.jobs {
      L.JobAt(s, k);
      JobAt(s, k);
      var j, at := s.jobs[k], s.store[k.id];
      SetStep(s, k, j.(phase := Verified));
      if !L.Owning(j.phase) {
        BegunCovers(j, j.version, j.base, enabled);
        SetStep(s, k, Begun(j, j.version, j.base, enabled));
        if j.phase == Renewed {
          BegunCovers(j, at.version, j.next, enabled);
          SetStep(s, k, Begun(j, at.version, j.next, enabled));
        }
      }
    }
  }

  lemma HandlerCovers(s: State, k: Key, a: HandlerStep, j: Job)
    requires DoHandle(s, k, a) != s && k in s.jobs && L.Worked(s.jobs[k], j)
    requires DoHandle(s, k, a).jobs == SetJob(s, k, j).jobs
    requires JobCovers(s.jobs[k]) && D.JobLocal(k, s.jobs[k])
    ensures JobCovers(j)
  {
    hide Insert, Remove, Find, Covers, D.Ordered, D.Evolves, D.Expected;
    var was := s.jobs[k];
    assert j == DoHandle(s, k, a).jobs[k];
    match a
    case DoStage(to, body) => StageCovers(was.base.snap.delivery, was.work.delivery, to, body);
    case DoForget(i) => ForgetCovers(k.id, was.base.snap.delivery, was.work.delivery, was.request, i);
    case _ =>
  }

  lemma HandlerStep(s: State, k: Key, a: HandlerStep)
    requires Inv(s) && D.Inv(s)
    ensures Inv(DoHandle(s, k, a))
  {
    hide Inv, D.Inv, DoHandle, L.Worked, JobCovers, D.JobLocal, D.JobGlobal;
    var t := DoHandle(s, k, a);
    if t != s {
      var j := L.HandlerWorks(s, k, a);
      JobAt(s, k);
      D.JobAt(s, k);
      HandlerCovers(s, k, a, j);
      SetStep(s, k, j);
      OtherStep(SetJob(s, k, j), t);
    }
  }

  lemma PreparedCovers(k: Key, j: Job, reply: Reply, limits: Limits, now: int)
    requires JobCovers(j) && Finished(j, reply, limits, now).Some?
    ensures JobCovers(PreparedJob(k, j, Finished(j, reply, limits, now).value, reply))
  {
    hide Covers, D.Ordered, AfterFire, Earliest, AllDone, Committed;
    var p := PreparedJob(k, j, Finished(j, reply, limits, now).value, reply);
    CoversSame(j.base.snap.delivery,
               if j.request.Receive? && reply.status != Success then j.start.delivery else j.work.delivery,
               p.work.delivery);
  }

  lemma PrepareStep(s: State, k: Key, reply: Reply, limits: Limits, now: int)
    requires Inv(s)
    ensures Inv(Prepare(s, k, reply, limits, now))
  {
    hide Inv, Finished, PreparedJob, JobCovers;
    DropStep(s, k);
    if k in s.jobs {
      JobAt(s, k);
      var f := Finished(s.jobs[k], reply, limits, now);
      if f.Some? {
        PreparedCovers(k, s.jobs[k], reply, limits, now);
        SetStep(s, k, PreparedJob(k, s.jobs[k], f.value, reply));
      }
    }
  }

  lemma ArmStep(s: State, k: Key)
    requires Inv(s)
    ensures Inv(ArmCheck(s, k)) && Inv(ArmRead(s, k)) && Inv(ArmWrite(s, k)) && Inv(Answer(s, k))
  {
    hide Inv, Bucket, Shard, Covers, D.Ordered;
    DropStep(s, k);
    OtherStep(Drop(s, k), Drop(s, k).(acks := Answer(s, k).acks));
    if k in s.jobs {
      JobAt(s, k);
      var j, b := s.jobs[k], Bucket(s, Shard(k.id));
      SetStep(s, k, j.(phase := Checked));
      SetStep(s, k, j.(phase := Listed, bucket := b));
      SetStep(s, k, j.(phase := Arming));
      SetStep(s, k, j.(phase := Armed));
      var t := SetJob(s, k, j.(phase := Armed));
      OtherStep(t, WriteBucket(t, Shard(k.id), j.bucket.value[k.id := j.entry]));
    }
  }

  lemma ReadReleaseStep(s: State, k: Key)
    requires Inv(s) && D.Inv(s)
    ensures Inv(ReadRelease(s, k))
  {
    hide Inv, D.Inv, Covers, D.Ordered, D.Answered, D.Counted;
    if k !in s.jobs && k.owner != [] && k.id in s.store && s.store[k.id].value.owner == k.owner {
      var at := s.store[k.id];
      D.RecordAt(s, k.id);
      SelfCovers(D.DeliveryOf(at));
      SetStep(s, k,
              NewJob(Deactivate, Releasing, 0, at, Opening(false, REPLAYED, at.value.snap),
                     at.value.(owner := [], expires := 0)));
    }
  }

  // ---- writes ----

  lemma WholeLater(id: Id, d: Delivery, store: D.Store, now: D.Store, ex: D.Executions, more: D.Executions)
    requires Whole(id, d, store, ex) && D.StoreLater(store, now) && D.MoreExecuted(ex, more)
    ensures Whole(id, d, now, more)
  {
    hide Lists;
    forall c, q | c in d.sent && 0 < q <= d.sent[c]
      ensures Lists(d.outbox, c, q) || Settled(id, d.epoch, c, q, now, more)
    {
      assert Lists(d.outbox, c, q) || Settled(id, d.epoch, c, q, store, ex);
    }
  }

  lemma WriteStep(s: State, id: Id, r: Entity, more: D.Executions)
    requires Inv(s) && D.StoreLater(s.store, Write(s, id, r).store) && D.MoreExecuted(s.executed, more)
    requires Whole(id, r.snap.delivery, Write(s, id, r).store, more)
    ensures Inv(Write(s, id, r).(executed := more))
  {
    hide Whole, JobCovers, D.StoreLater, D.MoreExecuted;
    var t := Write(s, id, r).(executed := more);
    forall i | i in t.store ensures Whole(i, D.DeliveryOf(t.store[i]), t.store, t.executed) {
      if i != id { WholeLater(i, D.DeliveryOf(s.store[i]), s.store, t.store, s.executed, more); }
    }
  }

  lemma SameSnapStep(s: State, id: Id, r: Entity)
    requires Inv(s) && id in s.store && LaterRecord(s.store[id], Stored(s.revision + 1, r))
    requires r.snap == s.store[id].value.snap
    ensures Inv(Write(s, id, r))
  {
    hide Inv, Whole, D.StoreLater, LaterRecord;
    RecordAt(s, id);
    D.WrittenLater(s, id, r);
    WholeLater(id, r.snap.delivery, s.store, Write(s, id, r).store, s.executed, s.executed);
    WriteStep(s, id, r, s.executed);
    assert Write(s, id, r).(executed := s.executed) == Write(s, id, r);
  }

  lemma RenewStep(s: State, k: Key, timeout: nat, lease: nat)
    requires Inv(s) && L.Inv(s)
    ensures Inv(Renew(s, k, timeout, lease))
  {
    hide Inv, L.Inv, L.Fits, L.Sound, LaterRecord, JobCovers;
    DropStep(s, k);
    if k in s.jobs && Acquiring(s.jobs[k]) && !Reusable(k, s.jobs[k], timeout) && Current(s, k.id, s.jobs[k].version) {
      L.JobAt(s, k);
      JobAt(s, k);
      var j := s.jobs[k];
      var r := L.Lease(j.base, k.owner, j.time + lease);
      L.LevelBase(k, j, s.store[k.id], s.holders);
      RenewedLater(k, j, s.store[k.id], s.holders, s.revision + 1, j.time + lease);
      SameSnapStep(s, k.id, r);
      var t := Write(s, k.id, r);
      RenewedCovers(j, r);
      SetStep(t, k, j.(phase := Renewed, next := r));
      var u := SetJob(t, k, j.(phase := Renewed, next := r));
      OtherStep(u, u.(holders := s.holders[Held(k.id, r.fence) := k.owner]));
    }
  }

  lemma RenewedCovers(j: Job, r: Entity)
    requires JobCovers(j)
    ensures JobCovers(j.(phase := Renewed, next := r))
  {
    hide Covers, D.Ordered;
  }

  lemma WriteReleaseStep(s: State, k: Key)
    requires Inv(s) && L.Inv(s)
    ensures Inv(WriteRelease(s, k))
  {
    hide Inv, L.Inv, L.Sound, LaterRecord, Matches;
    DropStep(s, k);
    if k in s.jobs && s.jobs[k].phase == Releasing && Current(s, k.id, s.jobs[k].version) {
      L.JobAt(s, k);
      CommittedLater(k, s.jobs[k], s.store[k.id], s.holders, s.revision + 1);
      SameSnapStep(s, k.id, s.jobs[k].next);
      DropStep(Write(s, k.id, s.jobs[k].next), k);
    }
  }

  /** What a job lets go was settled: it was gone from the record, or done there and so answered. */
  lemma CommittedWhole(s: State, k: Key, store: D.Store, more: D.Executions)
    requires Inv(s) && D.Inv(s) && L.Inv(s) && k in s.jobs && k.id in s.store
    requires s.jobs[k].version == s.store[k.id].version
    requires D.StoreLater(s.store, store) && D.MoreExecuted(s.executed, more)
    ensures Whole(k.id, s.jobs[k].work.delivery, store, more)
  {
    hide Inv, D.Inv, L.Inv, L.Fits, L.Sound, D.StoreLater, D.MoreExecuted, Lists, Done, D.Evolves, D.Expected,
         D.Ordered, D.Counted, D.JobGlobal;
    L.JobAt(s, k);
    JobAt(s, k);
    D.JobAt(s, k);
    RecordAt(s, k.id);
    D.RecordAt(s, k.id);
    L.LevelBase(k, s.jobs[k], s.store[k.id], s.holders);
    D.EpochKept(k, s.jobs[k]);
    var was, now := s.jobs[k].base.snap.delivery, s.jobs[k].work.delivery;
    WholeLater(k.id, was, s.store, store, s.executed, more);
    D.AnsweredLater(k.id, was, s.store, store, s.executed, more);
    forall c, q | c in now.sent && 0 < q <= now.sent[c]
      ensures Lists(now.outbox, c, q) || Settled(k.id, now.epoch, c, q, store, more)
    {
      if !Lists(now.outbox, c, q) {
        CountedEpoch(was, c);
        if Done(was.outbox, c, q) { DoneSettled(k.id, was, c, q, store, more); }
      }
    }
  }

  lemma CountedEpoch(d: Delivery, c: Channel)
    requires D.Ordered(d) && c in d.sent
    ensures d.epoch != 0
  {
  }

  lemma DoneSettled(id: Id, d: Delivery, c: Channel, q: nat, store: D.Store, ex: D.Executions)
    requires D.Answered(id, d, store, ex) && Done(d.outbox, c, q)
    ensures Settled(id, d.epoch, c, q, store, ex)
  {
    hide D.Reachable;
    var i :| 0 <= i < |d.outbox| && d.outbox[i].to == c && d.outbox[i].sequence == q && d.outbox[i].done;
    assert D.Known(store, ex, TicketOf(id, d.epoch, d.outbox[i]), d.outbox[i].body, d.outbox[i].reply);
  }

  lemma CommitStep(s: State, k: Key, clock: int)
    requires Inv(s) && D.Inv(s) && L.Inv(s)
    ensures Inv(Commit(s, k, clock))
  {
    hide Inv, D.Inv, L.Inv, L.Sound, L.Level, L.Entitled, L.Started, LaterRecord, D.StoreLater, D.MoreExecuted,
         D.ExecutedBy, D.Counted, Whole, Recorded;
    DropStep(s, k);
    if Publishable(s, k, clock) {
      L.JobAt(s, k);
      var j := s.jobs[k];
      var w, more := Write(s, k.id, j.next), D.ExecutedBy(s, j);
      CommittedLater(k, j, s.store[k.id], s.holders, s.revision + 1);
      D.WrittenLater(s, k.id, j.next);
      D.CommittedCounted(s, k);
      CommittedWhole(s, k, w.store, more);
      NothingCounted(k.id, w.store, more);
      WriteStep(s, k.id, j.next, more);
      DropStep(w.(executed := more), k);
      var t := Commit(s, k, clock);
      D.RecordedAcks(s, k.id, j, w, k);
      OtherStep(Drop(w.(executed := more), k), t);
    }
  }

  lemma NothingCounted(id: Id, store: D.Store, ex: D.Executions)
    ensures Whole(id, EMPTY.delivery, store, ex)
  {
  }

  lemma CreateStep(s: State, id: Id, placement: bytes, state: bytes)
    requires Inv(s)
    ensures Inv(Create(s, id, placement, state))
  {
    hide Inv, Whole, D.StoreLater;
    if id !in s.store {
      var r := NOBODY.(placement := placement, snap := EMPTY.(state := state));
      D.WrittenLater(s, id, r);
      NothingCounted(id, Write(s, id, r).store, s.executed);
      WriteStep(s, id, r, s.executed);
      assert Write(s, id, r).(executed := s.executed) == Write(s, id, r);
    }
  }

  // ---- every step ----

  lemma TaskInv(s: State, k: Key, a: TaskStep)
    requires Inv(s) && D.Inv(s) && L.Inv(s)
    ensures Inv(DoTask(s, k, a))
  {
    hide Inv, D.Inv, L.Inv, Load, Verify, Reuse, Renew, Confirm, Prepare, ArmCheck, ArmRead, ArmWrite, Commit, Answer,
         ReadRelease, WriteRelease, Drop;
    match a
    case DoLoad(request, time, limits) => LoadStep(s, k, request, time, limits);
    case DoVerify => AcquireStep(s, k, 0, false);
    case DoReuse(timeout, enabled) => AcquireStep(s, k, timeout, enabled);
    case DoRenew(timeout, lease) => RenewStep(s, k, timeout, lease);
    case DoConfirm(enabled) => AcquireStep(s, k, 0, enabled);
    case DoPrepare(reply, limits, now) => PrepareStep(s, k, reply, limits, now);
    case DoArmCheck => ArmStep(s, k);
    case DoArmRead => ArmStep(s, k);
    case DoArmWrite => ArmStep(s, k);
    case DoCommit(clock) => CommitStep(s, k, clock);
    case DoAnswer => ArmStep(s, k);
    case DoDrop => DropStep(s, k);
    case DoReadRelease => ReadReleaseStep(s, k);
    case DoWriteRelease => WriteReleaseStep(s, k);
  }

  lemma ServeInv(s: State, a: WorkerStep)
    requires Inv(s)
    ensures Inv(DoServe(s, a))
  {
    hide Inv, Create, JoinLate, ScanBucket, ScanRecord, ScanWrite, Send, ReadRetired, ListRetired, WriteRetired;
    match a
    case DoCreate(id, placement, state) => CreateStep(s, id, placement, state);
    case _ => OtherStep(s, DoServe(s, a));
  }

  lemma InvStep(s: State, a: Action)
    requires Inv(s) && D.Inv(s) && L.Inv(s)
    ensures Inv(Do(s, a))
  {
    hide Inv, D.Inv, L.Inv, DoTask, DoHandle, DoServe;
    match a
    case Task(k, task) => TaskInv(s, k, task);
    case Handle(k, work) => HandlerStep(s, k, work);
    case Serve(serve) => ServeInv(s, serve);
  }

  lemma {:induction false} InvRun(s: State, actions: seq<Action>)
    requires Inv(s) && D.Inv(s) && L.Inv(s)
    ensures Inv(Run(s, actions)) && D.Inv(Run(s, actions))
    decreases actions
  {
    hide Inv, D.Inv, L.Inv, Do;
    if actions != [] {
      InvStep(s, actions[0]);
      D.InvStep(s, actions[0]);
      L.InvStep(s, actions[0]);
      InvRun(Do(s, actions[0]), actions[1..]);
    }
  }

  lemma ReachedInv(actions: seq<Action>)
    ensures Inv(Reached(actions)) && D.Inv(Reached(actions))
  {
    hide Run;
    StartInv();
    InvRun(START, actions);
  }

  // ---- the first pending message ----

  /** The number the receiver expects next on the ticket's channel. */
  predicate NextOf(d: Delivery, t: Ticket) {
    t.sequence == (if t.source in d.inbox then d.inbox[t.source].sequence + 1 else 1)
  }

  /** The message is the last one the receiver executed on its channel. */
  predicate LastOf(d: Delivery, e: Envelope, ex: D.Executions) {
    && e.ticket.source in d.inbox && d.inbox[e.ticket.source].sequence == e.ticket.sequence
    && d.inbox[e.ticket.source].digest == e
    && e.ticket in ex && ex[e.ticket] == d.inbox[e.ticket.source]
  }

  ghost predicate Offered(s: State, id: Id, e: Envelope) {
    && Inv(s) && D.Inv(s) && id in s.store && !s.store[id].value.destroyed
    && FirstPending(id, D.DeliveryOf(s.store[id]), 0) == Some(e)
    && e.ticket.to.peer in s.store && !s.store[e.ticket.to.peer].value.destroyed
  }

  lemma OfferedAt(s: State, id: Id, e: Envelope) returns (x: nat)
    requires Offered(s, id, e)
    ensures var d := D.DeliveryOf(s.store[id]); var r := s.store[e.ticket.to.peer].value;
      && x < |d.outbox| && !d.outbox[x].done && EnvelopeOf(id, d.epoch, d.outbox[x]) == e
      && (forall y :: 0 <= y < x ==> d.outbox[y].done)
      && D.Ordered(d) && D.Answered(id, d, s.store, s.executed) && D.Passed(d, e) && d.epoch != 0
      && e.ticket.sequence > 0
      && r.initialized && r.snap.delivery.epoch == e.ticket.to.epoch != 0
      && D.Counted(e.ticket.to.peer, r.snap.delivery, s.executed)
  {
    hide Inv, D.Inv, D.Counted, D.Known, FirstPending, D.Passed;
    D.RecordAt(s, id);
    D.RecordAt(s, e.ticket.to.peer);
    x := D.FirstPendingAt(id, D.DeliveryOf(s.store[id]), 0);
    D.FirstPassed(id, D.DeliveryOf(s.store[id]));
    assert D.Reachable(s.store, e.ticket.to);
  }

  /** The number before it was executed: it is done in the outbox, or gone from it, and the receiver is no tombstone. */
  lemma EarlierExecuted(s: State, id: Id, e: Envelope)
    requires Offered(s, id, e) && e.ticket.sequence > 1
    ensures e.ticket.(sequence := e.ticket.sequence - 1) in s.executed
  {
    hide Offered, D.Counted, D.Known, D.Reachable;
    OfferedWhole(s, id, e);
    var x := OfferedAt(s, id, e);
    var d, q := D.DeliveryOf(s.store[id]), e.ticket.sequence - 1;
    assert Lists(d.outbox, e.ticket.to, q) || Settled(id, d.epoch, e.ticket.to, q, s.store, s.executed);
    if Lists(d.outbox, e.ticket.to, q) {
      var y :| 0 <= y < |d.outbox| && d.outbox[y].to == e.ticket.to && d.outbox[y].sequence == q;
      assert y < x;
      DoneSettled(id, d, e.ticket.to, q, s.store, s.executed);
    }
  }

  lemma OfferedWhole(s: State, id: Id, e: Envelope)
    requires Offered(s, id, e)
    ensures id in s.store && Whole(id, D.DeliveryOf(s.store[id]), s.store, s.executed)
    ensures !D.Tombstone(s.store, e.ticket.to.peer)
  {
    hide Inv, D.Inv;
    RecordAt(s, id);
  }

  /** A receiver that has counted up to the message has not counted past it, and what it counted is this message. */
  lemma NotPast(s: State, id: Id, e: Envelope)
    requires Offered(s, id, e)
    requires var d := D.DeliveryOf(s.store[e.ticket.to.peer]);
      e.ticket.source in d.inbox && d.inbox[e.ticket.source].sequence >= e.ticket.sequence
    ensures LastOf(D.DeliveryOf(s.store[e.ticket.to.peer]), e, s.executed)
  {
    hide Inv, D.Inv, D.Ordered, D.Answered, D.Passed, FirstPending;
    var x := OfferedAt(s, id, e);
    var d, c := D.DeliveryOf(s.store[e.ticket.to.peer]), e.ticket.source;
    var u := D.Inbound(c, e.ticket.to.peer, d.epoch, d.inbox[c].sequence);
    assert u in s.executed && s.executed[u] == d.inbox[c];
    if u.sequence > e.ticket.sequence {
      D.LaterDone(s, id, x, u);
    } else {
      assert u == e.ticket;
      SameEnvelope(s, id, e, x);
    }
  }

  lemma SameEnvelope(s: State, id: Id, e: Envelope, x: nat)
    requires D.Inv(s) && id in s.store && !s.store[id].value.destroyed && e.ticket in s.executed
    requires x < |D.DeliveryOf(s.store[id]).outbox|
    requires EnvelopeOf(id, D.DeliveryOf(s.store[id]).epoch, D.DeliveryOf(s.store[id]).outbox[x]) == e
    ensures s.executed[e.ticket].digest == e
  {
    hide D.RecordOk, D.JobLocal, D.JobGlobal, D.AckOk, D.Reachable;
    assert D.ExecOk(e.ticket, s.executed[e.ticket], s.wire);
    assert D.WireOk(s.store, s.executed[e.ticket].digest);
  }

  /** In every reachable state the first pending message to a live receiver is either the very next one it expects or
      the last one it executed, never out of order and never another message; it is refused exactly when it would open a
      channel beyond the limit. */
  lemma FirstAccepted(actions: seq<Action>, id: Id, e: Envelope, limits: Limits)
    requires var s := Reached(actions);
      id in s.store && !s.store[id].value.destroyed && FirstPending(id, D.DeliveryOf(s.store[id]), 0) == Some(e)
    requires var s := Reached(actions); e.ticket.to.peer in s.store && !s.store[e.ticket.to.peer].value.destroyed
    ensures var s := Reached(actions); var r := s.store[e.ticket.to.peer].value;
      && r.initialized && r.snap.delivery.epoch == e.ticket.to.epoch
      && (NextOf(r.snap.delivery, e.ticket) || LastOf(r.snap.delivery, e, s.executed))
      && (OpenReceive(r, e, limits).Some?
          <==> e.ticket.source in r.snap.delivery.inbox || |r.snap.delivery.inbox| < limits.channels)
      && (OpenReceive(r, e, limits).Some? ==> (OpenReceive(r, e, limits).value.replay <==> e.ticket in s.executed))
  {
    hide Run, Inv, D.Inv, FirstPending;
    ReachedInv(actions);
    OfferedAccepted(Reached(actions), id, e, limits);
  }

  lemma OfferedAccepted(s: State, id: Id, e: Envelope, limits: Limits)
    requires Offered(s, id, e)
    ensures var r := s.store[e.ticket.to.peer].value;
      && r.initialized && r.snap.delivery.epoch == e.ticket.to.epoch != 0
      && (NextOf(r.snap.delivery, e.ticket) || LastOf(r.snap.delivery, e, s.executed))
      && (OpenReceive(r, e, limits).Some?
          <==> e.ticket.source in r.snap.delivery.inbox || |r.snap.delivery.inbox| < limits.channels)
      && (OpenReceive(r, e, limits).Some? ==> (OpenReceive(r, e, limits).value.replay <==> e.ticket in s.executed))
  {
    hide Inv, D.Inv, D.Ordered, D.Answered, D.Passed, FirstPending;
    var x := OfferedAt(s, id, e);
    var d, c := D.DeliveryOf(s.store[e.ticket.to.peer]), e.ticket.source;
    assert e.ticket in s.executed ==> c in d.inbox && e.ticket.sequence <= d.inbox[c].sequence;
    if c in d.inbox && d.inbox[c].sequence >= e.ticket.sequence {
      NotPast(s, id, e);
    } else if e.ticket.sequence > 1 {
      EarlierExecuted(s, id, e);
      var t := e.ticket.(sequence := e.ticket.sequence - 1);
      assert t in s.executed && t.to == Channel(e.ticket.to.peer, d.epoch);
    }
  }
}
