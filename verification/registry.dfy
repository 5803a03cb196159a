/** Accepted messages stay discoverable: their source is registered before they are committed and retired only as a
    tombstone. */
module Registries {
  import opened Bytes
  import opened TimerState
  import opened Protocol
  import L = Leases
  import opened Chains
  import D = Deliveries

  type Registry = Stored<set<Id>>

  function Outbox(at: Stored<Entity>): seq<Message> { at.value.snap.delivery.outbox }

  /** What was read earlier is what is there, unless the version has moved on. */
  predicate Snapshot(was: Registry, now: Registry) {
    was.version <= now.version && (was.version == now.version ==> was == now)
  }

  predicate Listed(id: Id, outbox: seq<Message>, ids: set<Id>) { !AllDone(outbox) ==> id in ids }

  predicate JobListed(k: Key, j: Job, at: Stored<Entity>, g: Registry) {
    && Snapshot(j.listed, g)
    && (AllDone(j.base.snap.delivery.outbox) ==> AllDone(j.start.delivery.outbox))
    && (L.Decided(j.phase) && j.request.Destroy? ==> AllDone(j.work.delivery.outbox))
    && (!L.Owning(j.phase) ==> !j.registered)
    && (j.version == at.version ==>
          && (j.registered ==> k.id in g.value)
          && (L.Owning(j.phase) ==>
                Listed(k.id, j.work.delivery.outbox, g.value) && Listed(k.id, j.start.delivery.outbox, g.value)))
  }

  predicate RetireOk(r: Retire, store: map<Id, Stored<Entity>>, g: Registry) {
    r.id in store && store[r.id].value.destroyed && AllDone(Outbox(store[r.id])) && Snapshot(r.listed, g)
  }

  predicate Inv(s: State) {
    && s.registry.version <= s.revision && (s.registry.version == 0 ==> s.registry.value == {})
    && (forall id :: id in s.store ==> Listed(id, Outbox(s.store[id]), s.registry.value))
    && (forall k :: k in s.jobs && k.id in s.store ==> JobListed(k, s.jobs[k], s.store[k.id], s.registry))
    && (forall w :: w in s.retires ==> RetireOk(s.retires[w], s.store, s.registry))
  }

  lemma JobAt(s: State, k: Key)
    requires Inv(s) && k in s.jobs && k.id in s.store
    ensures JobListed(k, s.jobs[k], s.store[k.id], s.registry) && Listed(k.id, Outbox(s.store[k.id]), s.registry.value)
  {
    hide JobListed, Listed, RetireOk;
  }

  lemma OtherStep(s: State, t: State)
    requires Inv(s) && t.store == s.store && t.jobs == s.jobs && t.registry == s.registry && t.retires == s.retires
    requires t.revision >= s.revision
    ensures Inv(t)
  {
    hide JobListed, Listed, RetireOk;
  }

  lemma DropStep(s: State, k: Key)
    requires Inv(s)
    ensures Inv(Drop(s, k))
  {
    hide JobListed, Listed, RetireOk;
  }

  lemma SetStep(s: State, k: Key, j: Job)
    requires Inv(s) && k.id in s.store && JobListed(k, j, s.store[k.id], s.registry)
    ensures Inv(SetJob(s, k, j))
  {
    hide JobListed, Listed, RetireOk;
  }

  // ---- jobs ----

  lemma {:induction false} MarkedDone(id: Id, epoch: nat, outbox: seq<Message>, ticket: Ticket, reply: Reply)
    requires Marked(id, epoch, outbox, ticket, reply).Some? && AllDone(outbox)
    ensures AllDone(Marked(id, epoch, outbox, ticket, reply).value)
    decreases outbox
  {
    if outbox != [] && TicketOf(id, epoch, outbox[0]) != ticket { MarkedDone(id, epoch, outbox[1..], ticket, reply); }
  }

  lemma OpenDone(id: Id, r: Entity, request: Request, time: int, limits: Limits)
    requires Open(id, r, request, time, limits).Some? && AllDone(r.snap.delivery.outbox)
    ensures AllDone(Open(id, r, request, time, limits).value.snap.delivery.outbox)
  {
    hide Marked, AllDone, Find;
    if request.Acknowledge? {
      var d := r.snap.delivery;
      if Marked(id, d.epoch, d.outbox, request.ticket, request.reply).Some? {
        MarkedDone(id, d.epoch, d.outbox, request.ticket, request.reply);
      }
    }
  }

  lemma LoadStep(s: State, k: Key, request: Request, time: int, limits: Limits)
    requires Inv(s)
    ensures Inv(Load(s, k, request, time, limits))
  {
    hide Open, Addressed, Missing, Admitted, AllDone, RetireOk;
    if k in s.jobs || k.owner == [] || !Addressed(s, k, request) {
    } else if request.Receive? && Missing(s, k, request.envelope, time) {
      OtherStep(s, Load(s, k, request, time, limits));
    } else if k.id in s.store && !s.store[k.id].value.destroyed && Admitted(k, s.store[k.id].value, request, time) {
      var at := s.store[k.id];
      var o := Open(k.id, at.value, request, time, limits);
      if o.Some? {
        if AllDone(Outbox(at)) { OpenDone(k.id, at.value, request, time, limits); }
        SetStep(s, k, NewJob(request, Loaded, time, at, o.value, at.value));
      }
    }
  }

  lemma BegunListed(k: Key, j: Job, at: Stored<Entity>, g: Registry, version: nat, base: Entity, enabled: bool)
    requires JobListed(k, j, at, g) && Listed(k.id, Outbox(at), g.value) && j.work == j.start && !L.Owning(j.phase)
    requires base.snap == j.base.snap && (version == at.version ==> at.value.snap == base.snap)
    ensures JobListed(k, Begun(j, version, base, enabled), at, g)
  {
    hide AllDone, Snapshot;
  }

  lemma AcquireStep(s: State, k: Key, timeout: nat, enabled: bool)
    requires Inv(s) && L.Inv(s)
    ensures Inv(Verify(s, k)) && Inv(Reuse(s, k, timeout, enabled)) && Inv(Confirm(s, k, enabled))
  {
    hide Inv, L.Inv, StillPending, L.Sound, Reusable, Begun, JobListed, Listed, Matches;
    DropStep(s, k);
    if k in s.jobs {
      L.JobAt(s, k);
      JobAt(s, k);
      var j, at := s.jobs[k], s.store[k.id];
      if !L.Owning(j.phase) {
        VerifiedListed(k, j, at, s.registry);
        SetStep(s, k, j.(phase := Verified));
        BegunListed(k, j, at, s.registry, j.version, j.base, enabled);
        SetStep(s, k, Begun(j, j.version, j.base, enabled));
        if j.phase == Renewed && at.value == j.next {
          BegunListed(k, j, at, s.registry, at.version, j.next, enabled);
          SetStep(s, k, Begun(j, at.version, j.next, enabled));
        }
      }
    }
  }

  lemma VerifiedListed(k: Key, j: Job, at: Stored<Entity>, g: Registry)
    requires JobListed(k, j, at, g) && !L.Owning(j.phase)
    ensures JobListed(k, j.(phase := Verified), at, g)
  {
    hide AllDone, Snapshot;
  }

  // ---- the handler ----

  lemma HandlerListed(s: State, k: Key, a: HandlerStep, j: Job)
    requires DoHandle(s, k, a) != s && k in s.jobs && s.jobs[k].phase == Ready && L.Worked(s.jobs[k], j)
    requires k.id in s.store
    requires DoHandle(s, k, a).jobs == SetJob(s, k, j).jobs && !a.DoJoinRegistry?
    requires JobListed(k, s.jobs[k], s.store[k.id], s.registry)
    ensures JobListed(k, j, s.store[k.id], s.registry)
  {
    hide Insert, Remove, Find;
    assert j == DoHandle(s, k, a).jobs[k];
    if a.DoForget? && AllDone(s.jobs[k].work.delivery.outbox) { ForgetDone(s.jobs[k].work.delivery, a.i); }
  }

  lemma ForgetDone(d: Delivery, i: nat)
    requires i < |d.outbox| && AllDone(d.outbox)
    ensures AllDone(d.outbox[..i] + d.outbox[i + 1..])
  {
  }

  /** The registry gains members. */
  lemma GrowStep(s: State, ids: set<Id>)
    requires Inv(s) && s.registry.value <= ids
    ensures Inv(s.(revision := s.revision + 1, registry := Stored(s.revision + 1, ids)))
  {
    hide AllDone;
    var t := s.(revision := s.revision + 1, registry := Stored(s.revision + 1, ids));
    forall k | k in t.jobs && k.id in t.store ensures JobListed(k, t.jobs[k], t.store[k.id], t.registry) {
      JobAt(s, k);
    }
    forall w | w in t.retires ensures RetireOk(t.retires[w], t.store, t.registry) {
      assert RetireOk(s.retires[w], s.store, s.registry);
    }
  }

  lemma JoinStep(s: State, k: Key)
    requires Inv(s) && L.Inv(s)
    ensures Inv(JoinRegistry(s, k))
  {
    hide Inv, L.Inv, L.Fits, L.Sound, AllDone;
    if Working(s, k) && s.registry.version == s.jobs[k].listed.version {
      L.JobAt(s, k);
      JobAt(s, k);
      var ids := s.jobs[k].listed.value + {k.id};
      GrowStep(s, ids);
      var t := s.(revision := s.revision + 1, registry := Stored(s.revision + 1, ids));
      JobAt(t, k);
      SetStep(t, k, s.jobs[k].(registered := true));
    }
  }

  lemma HandlerStep(s: State, k: Key, a: HandlerStep)
    requires Inv(s) && L.Inv(s)
    ensures Inv(DoHandle(s, k, a))
  {
    hide Inv, L.Inv, L.Fits, L.Sound, L.Worked, JobListed, Listed, Compute, Resolve, ReadRegistry, JoinRegistry, Stage,
         Forget, Schedule, Cancel;
    if a.DoJoinRegistry? {
      JoinStep(s, k);
    } else if DoHandle(s, k, a) != s {
      var j := L.HandlerWorks(s, k, a);
      L.JobAt(s, k);
      JobAt(s, k);
      HandlerListed(s, k, a, j);
      SetStep(s, k, j);
      HandlerRegistry(s, k, a);
      OtherStep(SetJob(s, k, j), DoHandle(s, k, a));
    }
  }

  lemma HandlerRegistry(s: State, k: Key, a: HandlerStep)
    requires !a.DoJoinRegistry?
    ensures DoHandle(s, k, a).registry == s.registry && DoHandle(s, k, a).retires == s.retires
  {
    hide Insert, Remove, Find;
  }

  // ---- committing ----

  lemma PreparedListed(k: Key, j: Job, at: Stored<Entity>, g: Registry, reply: Reply, limits: Limits, now: int)
    requires JobListed(k, j, at, g) && j.phase == Ready && Finished(j, reply, limits, now).Some?
    ensures JobListed(k, PreparedJob(k, j, Finished(j, reply, limits, now).value, reply), at, g)
  {
    hide AllDone, Snapshot, AfterFire, Earliest, Committed;
  }

  lemma PrepareStep(s: State, k: Key, reply: Reply, limits: Limits, now: int)
    requires Inv(s) && L.Inv(s)
    ensures Inv(Prepare(s, k, reply, limits, now))
  {
    hide Inv, L.Inv, Finished, PreparedJob, L.Fits, L.Sound, JobListed, Listed;
    DropStep(s, k);
    if k in s.jobs && s.jobs[k].phase == Ready && !s.jobs[k].replay {
      L.JobAt(s, k);
      JobAt(s, k);
      var f := Finished(s.jobs[k], reply, limits, now);
      if f.Some? {
        PreparedListed(k, s.jobs[k], s.store[k.id], s.registry, reply, limits, now);
        SetStep(s, k, PreparedJob(k, s.jobs[k], f.value, reply));
      }
    }
  }

  lemma ArmingListed(k: Key, j: Job, at: Stored<Entity>, g: Registry, phase: Phase, bucket: Stored<map<Id, Entry>>)
    requires JobListed(k, j, at, g) && L.Decided(j.phase) && L.Decided(phase)
    ensures JobListed(k, j.(phase := phase, bucket := bucket), at, g)
  {
    hide AllDone, Snapshot;
  }

  lemma ArmStep(s: State, k: Key)
    requires Inv(s) && L.Inv(s)
    ensures Inv(ArmCheck(s, k)) && Inv(ArmRead(s, k)) && Inv(ArmWrite(s, k)) && Inv(Answer(s, k))
  {
    hide Inv, L.Inv, Bucket, Shard, JobListed, Listed, L.Fits, L.Sound;
    DropStep(s, k);
    OtherStep(Drop(s, k), Drop(s, k).(acks := Answer(s, k).acks));
    if k in s.jobs && L.Decided(s.jobs[k].phase) {
      L.JobAt(s, k);
      JobAt(s, k);
      var j := s.jobs[k];
      var b := Bucket(s, Shard(k.id));
      ArmingListed(k, j, s.store[k.id], s.registry, Checked, j.bucket);
      SetStep(s, k, j.(phase := Checked));
      ArmingListed(k, j, s.store[k.id], s.registry, Phase.Listed, b);
      SetStep(s, k, j.(phase := Phase.Listed, bucket := b));
      ArmingListed(k, j, s.store[k.id], s.registry, Arming, j.bucket);
      SetStep(s, k, j.(phase := Arming));
      ArmingListed(k, j, s.store[k.id], s.registry, Armed, j.bucket);
      SetStep(s, k, j.(phase := Armed));
      var t := SetJob(s, k, j.(phase := Armed));
      OtherStep(t, WriteBucket(t, Shard(k.id), j.bucket.value[k.id := j.entry]));
    }
  }

  lemma ReadReleaseStep(s: State, k: Key)
    requires Inv(s)
    ensures Inv(ReadRelease(s, k))
  {
    hide AllDone, RetireOk;
    if k !in s.jobs && k.owner != [] && k.id in s.store && s.store[k.id].value.owner == k.owner {
      var at := s.store[k.id];
      SetStep(s, k,
              NewJob(Deactivate, Releasing, 0, at, Opening(false, REPLAYED, at.value.snap),
                     at.value.(owner := [], expires := 0)));
    }
  }

  lemma WrittenListed(k: Key, j: Job, at: Stored<Entity>, h: L.Holders, g: Registry, now: Stored<Entity>)
    requires JobListed(k, j, at, g) && L.Fits(k, j, at, h) && at.version < now.version
    ensures JobListed(k, j, now, g)
  {
    hide AllDone, Snapshot, L.Started, L.Entitled, L.Outcome;
  }

  lemma WriteStep(s: State, id: Id, r: Entity)
    requires Inv(s) && L.Inv(s) && Listed(id, r.snap.delivery.outbox, s.registry.value)
    requires (id in s.store ==> !s.store[id].value.destroyed)
    ensures Inv(Write(s, id, r))
  {
    hide JobListed, Listed, L.Fits, L.Sound, AllDone;
    var t := Write(s, id, r);
    if id in s.store { L.RecordAt(s, id); }
    forall k | k in t.jobs && k.id in t.store ensures JobListed(k, t.jobs[k], t.store[k.id], t.registry) {
      L.JobAt(s, k);
      if k.id == id { WrittenListed(k, s.jobs[k], s.store[id], s.holders, s.registry, t.store[id]); }
    }
    forall w | w in t.retires ensures RetireOk(t.retires[w], t.store, t.registry) {
      assert RetireOk(s.retires[w], s.store, s.registry);
    }
  }

  lemma RenewStep(s: State, k: Key, timeout: nat, lease: nat)
    requires Inv(s) && L.Inv(s)
    ensures Inv(Renew(s, k, timeout, lease))
  {
    hide Inv, L.Inv, L.Sound, JobListed, Listed, L.Started, L.Entitled, L.Outcome;
    DropStep(s, k);
    if k in s.jobs && Acquiring(s.jobs[k]) && !Reusable(k, s.jobs[k], timeout) && Current(s, k.id, s.jobs[k].version) {
      L.JobAt(s, k);
      JobAt(s, k);
      var j := s.jobs[k];
      var r := L.Lease(j.base, k.owner, j.time + lease);
      WriteStep(s, k.id, r);
      var t := Write(s, k.id, r);
      JobAt(t, k);
      RenewedListed(k, j, t.store[k.id], s.registry, r);
      SetStep(t, k, j.(phase := Renewed, next := r));
      var u := SetJob(t, k, j.(phase := Renewed, next := r));
      OtherStep(u, u.(holders := s.holders[Held(k.id, r.fence) := k.owner]));
    }
  }

  lemma RenewedListed(k: Key, j: Job, at: Stored<Entity>, g: Registry, r: Entity)
    requires JobListed(k, j, at, g) && Acquiring(j)
    ensures JobListed(k, j.(phase := Renewed, next := r), at, g)
  {
    hide AllDone, Snapshot;
  }

  lemma CommittedListed(k: Key, j: Job, at: Stored<Entity>, h: L.Holders, g: Registry)
    requires JobListed(k, j, at, g) && Listed(k.id, Outbox(at), g.value) && L.Fits(k, j, at, h)
    requires (j.phase == Armed || j.phase == Releasing) && j.version == at.version
    ensures Listed(k.id, j.next.snap.delivery.outbox, g.value) && !at.value.destroyed
  {
    hide L.Started, L.Entitled;
  }

  lemma PublishStep(s: State, k: Key, clock: int)
    requires Inv(s) && L.Inv(s)
    ensures Inv(Commit(s, k, clock)) && Inv(WriteRelease(s, k))
  {
    hide Inv, L.Inv, L.Fits, L.Sound, JobListed, Listed, Recorded;
    DropStep(s, k);
    if k in s.jobs && (Publishable(s, k, clock) || s.jobs[k].phase == Releasing)
       && Current(s, k.id, s.jobs[k].version) {
      L.JobAt(s, k);
      JobAt(s, k);
      var j := s.jobs[k];
      CommittedListed(k, j, s.store[k.id], s.holders, s.registry);
      WriteStep(s, k.id, j.next);
      var t := Write(s, k.id, j.next);
      DropStep(t, k);
      if j.phase == Armed { OtherStep(Drop(t, k), Commit(s, k, clock)); }
    }
  }

  lemma CreateStep(s: State, id: Id, placement: bytes, state: bytes)
    requires Inv(s) && L.Inv(s)
    ensures Inv(Create(s, id, placement, state))
  {
    hide Inv, L.Inv;
    if id !in s.store { WriteStep(s, id, NOBODY.(placement := placement, snap := EMPTY.(state := state))); }
  }

  // ---- retirement ----

  lemma ReadRetiredStep(s: State, w: nat, id: Id)
    requires Inv(s)
    ensures Inv(ReadRetired(s, w, id)) && Inv(ListRetired(s, w))
  {
    hide JobListed, Listed, AllDone;
  }

  /** Retiring a tombstone hides nothing: no job is level with a destroyed record. */
  lemma WriteRetiredStep(s: State, w: nat)
    requires Inv(s) && L.Inv(s)
    ensures Inv(WriteRetired(s, w))
  {
    hide AllDone, L.Sound, L.Started, L.Entitled, L.Outcome;
    if w in s.retires && s.registry.version == s.retires[w].listed.version {
      var t, id := WriteRetired(s, w), s.retires[w].id;
      forall k | k in t.jobs && k.id in t.store ensures JobListed(k, t.jobs[k], t.store[k.id], t.registry) {
        L.JobAt(s, k);
        JobAt(s, k);
      }
      forall v | v in t.retires ensures RetireOk(t.retires[v], t.store, t.registry) {
        assert RetireOk(s.retires[v], s.store, s.registry);
      }
    }
  }

  // ---- every step ----

  lemma TaskInv(s: State, k: Key, a: TaskStep)
    requires Inv(s) && L.Inv(s)
    ensures Inv(DoTask(s, k, a))
  {
    hide Inv, L.Inv, Load, Verify, Reuse, Renew, Confirm, Prepare, ArmCheck, ArmRead, ArmWrite, Commit, Answer,
         ReadRelease, WriteRelease, Drop;
    match a
    case DoLoad(request, time, limits) => LoadStep(s, k, request, time, limits);
    case DoVerify => AcquireStep(s, k, 0, false);
    case DoReuse(timeout, enabled) => AcquireStep(s, k, timeout, enabled);
    case DoRenew(timeout, lease) => RenewStep(s, k, timeout, lease);
    case DoConfirm(enabled) => AcquireStep(s, k, 0, enabled);
    case DoPrepare(reply, limits, now) => PrepareStep(s, k, reply, limits, now);
    case DoArmCheck => ArmStep(s, k);
    case DoArmRead => ArmStep(s, k);
    case DoArmWrite => ArmStep(s, k);
    case DoCommit(clock) => PublishStep(s, k, clock);
    case DoAnswer => ArmStep(s, k);
    case DoDrop => DropStep(s, k);
    case DoReadRelease => ReadReleaseStep(s, k);
    case DoWriteRelease => PublishStep(s, k, 0);
  }

  lemma ServeInv(s: State, a: WorkerStep)
    requires Inv(s) && L.Inv(s)
    ensures Inv(DoServe(s, a))
  {
    hide Inv, L.Inv, Create, ScanBucket, ScanRecord, ScanWrite, Send, ReadRetired, ListRetired, WriteRetired;
    match a
    case DoCreate(id, placement, state) => CreateStep(s, id, placement, state);
    case DoJoinLate(id) => GrowStep(s, s.registry.value + {id});
    case DoReadRetired(w, id) => ReadRetiredStep(s, w, id);
    case DoListRetired(w) => ReadRetiredStep(s, w, 0);
    case DoWriteRetired(w) => WriteRetiredStep(s, w);
    case _ => OtherStep(s, DoServe(s, a));
  }

  lemma InvStep(s: State, a: Action)
    requires Inv(s) && L.Inv(s)
    ensures Inv(Do(s, a))
  {
    hide Inv, L.Inv, DoTask, DoHandle, DoServe;
    match a
    case Task(k, task) => TaskInv(s, k, task);
    case Handle(k, work) => HandlerStep(s, k, work);
    case Serve(serve) => ServeInv(s, serve);
  }

  lemma {:induction false} InvRun(s: State, actions: seq<Action>)
    requires Inv(s) && L.Inv(s)
    ensures Inv(Run(s, actions)) && L.Inv(Run(s, actions))
    decreases actions
  {
    hide Inv, L.Inv, Do;
    if actions != [] {
      InvStep(s, actions[0]);
      L.InvStep(s, actions[0]);
      InvRun(Do(s, actions[0]), actions[1..]);
    }
  }

  lemma ReachedInv(actions: seq<Action>)
    ensures Inv(Reached(actions)) && L.Inv(Reached(actions)) && D.Inv(Reached(actions))
  {
    hide Run;
    StartInv();
    InvRun(START, actions);
    D.ReachedInv(actions);
  }

  /** In every reachable store the source of a pending message is registered, however registrations and retirements
      raced. */
  lemma PendingRegistered(actions: seq<Action>, id: Id, i: nat)
    requires var s := Reached(actions); id in s.store && i < |Outbox(s.store[id])| && !Outbox(s.store[id])[i].done
    ensures id in Reached(actions).registry.value
  {
    hide Run, L.Inv, D.Inv;
    ReachedInv(actions);
    assert Listed(id, Outbox(Reached(actions).store[id]), Reached(actions).registry.value);
  }

  // ---- a pending message leaves the outbox only once done ----

  ghost predicate Present(s: State, id: Id, m: Message, done: bool) {
    id in s.store && exists n :: n in Outbox(s.store[id]) && D.SameMessage(m, n) && n.done == done
  }

  lemma CommitKeeps(s: State, k: Key, clock: int, m: Message)
    requires Inv(s) && L.Inv(s) && D.Inv(s) && Publishable(s, k, clock)
    requires Present(s, k.id, m, false)
    ensures Present(Commit(s, k, clock), k.id, m, false) || Present(Commit(s, k, clock), k.id, m, true)
  {
    hide Inv, L.Inv, D.Inv, D.Ordered, D.Expected, D.Derived, D.JobGlobal, Commit, Snapshot, Listed, Current;
    CommitWrites(s, k, clock);
    D.JobAt(s, k);
    JobAt(s, k);
    var j := s.jobs[k];
    var n :| n in Outbox(s.store[k.id]) && D.SameMessage(m, n) && !n.done;
    assert D.Kept(j.request, j.work.delivery.outbox, n);
    var o :| o in j.work.delivery.outbox && D.SameMessage(n, o) && (o.done ==> j.request.Acknowledge?);
    var x :| 0 <= x < |j.work.delivery.outbox| && j.work.delivery.outbox[x] == o;
  }

  /** One step: a pending message is still there afterwards, pending or done. */
  lemma PendingStays(s: State, a: Action, id: Id, m: Message)
    requires Inv(s) && L.Inv(s) && D.Inv(s) && Present(s, id, m, false)
    ensures Present(Do(s, a), id, m, false) || Present(Do(s, a), id, m, true)
  {
    hide Inv, L.Inv, L.Sound, D.Inv, DoHandle;
    if !Writes(a) {
      ReadsOnly(s, a);
    } else if a.Serve? {
      assert a.serve.id in s.store || Do(s, a).store[id] == s.store[id];
    } else {
      WritePresent(s, a.k, a.task, id, m);
    }
  }

  lemma WritePresent(s: State, k: Key, a: TaskStep, id: Id, m: Message)
    requires Inv(s) && L.Inv(s) && D.Inv(s) && Present(s, id, m, false)
    requires (a.DoRenew? || a.DoCommit? || a.DoWriteRelease?)
    ensures Present(DoTask(s, k, a), id, m, false) || Present(DoTask(s, k, a), id, m, true)
  {
    hide Inv, L.Inv, D.Inv, Renew, Commit, WriteRelease, Present, Current;
    if a.DoCommit? && id == k.id && Publishable(s, k, a.clock) {
      CommitKeeps(s, k, a.clock, m);
    } else {
      PresentStored(s, id, m);
      OutboxKept(s, k, a, id);
      SameOutbox(s, DoTask(s, k, a), id, m);
    }
  }

  lemma PresentStored(s: State, id: Id, m: Message)
    requires Present(s, id, m, false)
    ensures id in s.store
  {
  }

  lemma SameOutbox(s: State, t: State, id: Id, m: Message)
    requires Present(s, id, m, false) && id in t.store && Outbox(t.store[id]) == Outbox(s.store[id])
    ensures Present(t, id, m, false)
  {
  }

  /** A lease, a release and the commit of another entity leave the outbox as it is. */
  lemma OutboxKept(s: State, k: Key, a: TaskStep, id: Id)
    requires L.Inv(s) && id in s.store && (a.DoRenew? || a.DoCommit? || a.DoWriteRelease?)
    requires a.DoCommit? && id == k.id ==> !Publishable(s, k, a.clock)
    ensures id in DoTask(s, k, a).store && Outbox(DoTask(s, k, a).store[id]) == Outbox(s.store[id])
  {
    hide L.Inv, Renew, Commit, WriteRelease, Current;
    match a
    case DoRenew(timeout, lease) => RenewKept(s, k, timeout, lease, id);
    case DoCommit(clock) => CommitElsewhere(s, k, clock, id);
    case DoWriteRelease => ReleaseKept(s, k, id);
  }

  /** The record was at most leased or released. */
  predicate SameSnap(s: State, t: State, id: Id)
    requires id in s.store
  {
    && id in t.store && t.store[id].value.snap == s.store[id].value.snap
    && t.store[id].value.destroyed == s.store[id].value.destroyed
  }

  lemma RenewKept(s: State, k: Key, timeout: nat, lease: nat, id: Id)
    requires L.Inv(s) && id in s.store
    ensures SameSnap(s, Renew(s, k, timeout, lease), id)
  {
    hide L.Inv, L.Fits, L.Sound, Renew;
    if Renew(s, k, timeout, lease).store != s.store {
      RenewWrites(s, k, timeout, lease);
      L.JobAt(s, k);
      L.LevelBase(k, s.jobs[k], s.store[k.id], s.holders);
    }
  }

  lemma ReleaseKept(s: State, k: Key, id: Id)
    requires L.Inv(s) && id in s.store
    ensures SameSnap(s, WriteRelease(s, k), id)
  {
    hide L.Inv, L.Sound, Matches, L.Started, L.Entitled;
    if k in s.jobs { L.JobAt(s, k); }
  }

  lemma CommitElsewhere(s: State, k: Key, clock: int, id: Id)
    requires id in s.store && !(id == k.id && Publishable(s, k, clock))
    ensures id in Commit(s, k, clock).store && Commit(s, k, clock).store[id] == s.store[id]
  {
    hide Recorded, Current;
    if Publishable(s, k, clock) {
      assert Commit(s, k, clock).store == Write(s, k.id, s.jobs[k].next).store;
    }
  }

  /** Over every run: if a message that was pending is gone, it was done in some state on the way. */
  lemma {:induction false} LeavesOnlyDone(s: State, more: seq<Action>, id: Id, m: Message) returns (i: nat)
    requires Inv(s) && L.Inv(s) && D.Inv(s) && Present(s, id, m, false)
    ensures i <= |more| && (Present(Run(s, more), id, m, false) || Present(Run(s, more[..i]), id, m, true))
    decreases more
  {
    hide Inv, L.Inv, D.Inv, Do, Present;
    if more == [] {
      i := 0;
    } else {
      PendingStays(s, more[0], id, m);
      var t := Do(s, more[0]);
      if Present(t, id, m, false) {
        InvStep(s, more[0]);
        L.InvStep(s, more[0]);
        D.InvStep(s, more[0]);
        var x := LeavesOnlyDone(t, more[1..], id, m);
        i := x + 1;
        assert more[..i][0] == more[0] && more[..i][1..] == more[1..][..x];
      } else {
        i := 1;
        assert more[..1][0] == more[0] && more[..1][1..] == [];
        assert Run(s, more[..1]) == Run(t, []);
      }
    }
  }

  /** The same, from the start of any run: `i` further actions on, the message is done at its source. */
  lemma PendingLeavesDone(actions: seq<Action>, more: seq<Action>, id: Id, m: Message) returns (i: nat)
    requires Present(Reached(actions), id, m, false)
    ensures i <= |more|
    ensures !Present(Run(Reached(actions), more), id, m, false) ==>
      Present(Run(Reached(actions), more[..i]), id, m, true)
  {
    hide Run, Inv, L.Inv, D.Inv, Present;
    ReachedInv(actions);
    i := LeavesOnlyDone(Reached(actions), more, id, m);
  }
}
