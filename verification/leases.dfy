/** Ownership: every commit replaces the record its job started from, fences rise and are held by one owner each, owners
    sit where the record is placed, and tombstones never change. */
module Leases {
  import opened Bytes
  import opened TimerState
  import opened Protocol

  type Holders = map<Held, bytes>

  // ---- the invariant ----

  predicate HeldBy(h: Holders, id: Id, fence: nat, owner: bytes) { Held(id, fence) in h && h[Held(id, fence)] == owner }

  /** A stored record: its owner holds the fence and sits where the record is placed; its handoff ticket is older than
      itself. */
  predicate Sound(id: Id, at: Stored<Entity>, h: Holders) {
    var r := at.value;
    && 0 < at.version && r.transfer < at.version
    && (r.owner != [] ==>
          HeldBy(h, id, r.fence, r.owner) && !r.destroyed && (r.placement != [] ==> Matches(r.owner, r.placement)))
  }

  predicate Owning(p: Phase) { p in {Ready, Arming, Checked, Listed, Armed} }

  predicate Decided(p: Phase) { p in {Arming, Checked, Listed, Armed} }

  /** The handler gets the persisted snapshot; only a first epoch or the acknowledged message is filled in. */
  predicate Started(j: Job) {
    var was, now := j.base.snap, j.start;
    && now.state == was.state && now.timers == was.timers
    && now.delivery.inbox == was.delivery.inbox && now.delivery.sent == was.delivery.sent
    && (|| now.delivery.epoch == was.delivery.epoch
        || (was.delivery.epoch == 0 && now.delivery.epoch == j.version && Owning(j.phase)))
    && (!j.request.Acknowledge? ==> now.delivery.outbox == was.delivery.outbox)
    && (if Owning(j.phase) then j.work.delivery.epoch == now.delivery.epoch else j.work == now)
  }

  function Lease(r: Entity, owner: bytes, expires: int): Entity {
    r.(owner := owner, expires := expires, fence := r.fence + 1)
  }

  /** A job is never ahead of the record; while it is level with it, it started from exactly that record. */
  predicate Level(j: Job, at: Stored<Entity>) {
    && 0 < j.version <= at.version && (j.version == at.version ==> j.base == at.value)
    && j.base.fence <= at.value.fence && j.base.transfer < j.version && !j.base.destroyed
  }

  predicate Entitled(k: Key, j: Job, h: Holders) {
    && k.owner != [] && (j.base.placement != [] ==> Matches(k.owner, j.base.placement))
    && (j.base.owner == k.owner ==> HeldBy(h, k.id, j.base.fence, k.owner))
    && (Owning(j.phase) ==> j.base.owner == k.owner)
    && (j.base.owner == k.owner || j.base.expires <= j.time)
    && (j.request.Accept? ==> j.base.placement != [] && j.base.transfer == j.request.transfer)
  }

  predicate Outcome(k: Key, j: Job, at: Stored<Entity>, h: Holders) {
    && (Decided(j.phase) ==> j.next == Committed(k, j, j.work))
    && (j.phase == Renewed ==>
          && j.next == Lease(j.base, k.owner, j.next.expires) && HeldBy(h, k.id, j.next.fence, k.owner)
          && j.version < at.version)
    && (j.phase == Releasing ==> j.base.owner == k.owner && j.next == j.base.(owner := [], expires := 0))
  }

  predicate Fits(k: Key, j: Job, at: Stored<Entity>, h: Holders) {
    Level(j, at) && Entitled(k, j, h) && Started(j) && Outcome(k, j, at, h)
  }

  predicate Inv(s: State) {
    && (forall id :: id in s.store ==> s.store[id].version <= s.revision && Sound(id, s.store[id], s.holders))
    && (forall k :: k in s.jobs ==> k.id in s.store && Fits(k, s.jobs[k], s.store[k.id], s.holders))
    && (forall h :: h in s.holders ==> h.id in s.store && h.fence <= s.store[h.id].value.fence)
  }

  lemma JobAt(s: State, k: Key)
    requires Inv(s) && k in s.jobs
    ensures k.id in s.store && Fits(k, s.jobs[k], s.store[k.id], s.holders) && Sound(k.id, s.store[k.id], s.holders)
    ensures s.store[k.id].version <= s.revision
  {
    hide Fits, Sound;
  }

  lemma RecordAt(s: State, id: Id)
    requires Inv(s) && id in s.store
    ensures Sound(id, s.store[id], s.holders) && s.store[id].version <= s.revision
  {
    hide Fits, Sound;
  }

  // ---- steps that leave the store alone ----

  lemma OtherStep(s: State, t: State)
    requires Inv(s) && t.store == s.store && t.revision >= s.revision && t.holders == s.holders && t.jobs == s.jobs
    ensures Inv(t)
  {
    hide Fits, Sound;
  }

  lemma DropStep(s: State, k: Key)
    requires Inv(s)
    ensures Inv(Drop(s, k))
  {
    hide Fits, Sound;
  }

  lemma SetStep(s: State, k: Key, j: Job)
    requires Inv(s) && k.id in s.store && Fits(k, j, s.store[k.id], s.holders)
    ensures Inv(SetJob(s, k, j))
  {
    hide Fits, Sound;
  }

  // ---- acquiring ----

  lemma OpenStarts(id: Id, r: Entity, request: Request, time: int, limits: Limits)
    requires Open(id, r, request, time, limits).Some?
    ensures var o := Open(id, r, request, time, limits).value.snap;
      && o.state == r.snap.state && o.timers == r.snap.timers
      && o.delivery == r.snap.delivery.(outbox := o.delivery.outbox)
      && (!request.Acknowledge? ==> o == r.snap)
  {
    hide Marked, Find;
  }

  lemma LoadedFits(k: Key, at: Stored<Entity>, h: Holders, request: Request, time: int, limits: Limits, o: Opening)
    requires k.owner != [] && Sound(k.id, at, h) && !at.value.destroyed && Admitted(k, at.value, request, time)
    requires Open(k.id, at.value, request, time, limits) == Some(o)
    ensures Fits(k, NewJob(request, Loaded, time, at, o, at.value), at, h)
  {
    hide Open, Matches;
    OpenStarts(k.id, at.value, request, time, limits);
  }

  lemma LoadStep(s: State, k: Key, request: Request, time: int, limits: Limits)
    requires Inv(s)
    ensures Inv(Load(s, k, request, time, limits))
  {
    hide Inv, Open, Addressed, Missing, Admitted, NewJob, Fits, Sound;
    if k in s.jobs || k.owner == [] || !Addressed(s, k, request) {
    } else if request.Receive? && Missing(s, k, request.envelope, time) {
      OtherStep(s, Load(s, k, request, time, limits));
    } else if k.id in s.store && !s.store[k.id].value.destroyed && Admitted(k, s.store[k.id].value, request, time) {
      RecordAt(s, k.id);
      var at := s.store[k.id];
      var o := Open(k.id, at.value, request, time, limits);
      if o.Some? {
        LoadedFits(k, at, s.holders, request, time, limits, o.value);
        SetStep(s, k, NewJob(request, Loaded, time, at, o.value, at.value));
      }
    }
  }

  lemma BegunFits(k: Key, j: Job, at: Stored<Entity>, h: Holders, enabled: bool)
    requires Fits(k, j, at, h) && !Owning(j.phase) && Sound(k.id, at, h)
    ensures j.base.owner == k.owner ==> Fits(k, Begun(j, j.version, j.base, enabled), at, h)
    ensures j.phase == Renewed && at.value == j.next ==> Fits(k, Begun(j, at.version, j.next, enabled), at, h)
    ensures j.phase == Loaded ==> Fits(k, j.(phase := Verified), at, h)
  {
    hide Matches;
  }

  lemma AcquireStep(s: State, k: Key, timeout: nat, enabled: bool)
    requires Inv(s)
    ensures Inv(Verify(s, k)) && Inv(Reuse(s, k, timeout, enabled)) && Inv(Confirm(s, k, enabled))
  {
    hide Inv, StillPending, Begun, Fits, Sound;
    DropStep(s, k);
    if k in s.jobs {
      JobAt(s, k);
      var j, at := s.jobs[k], s.store[k.id];
      if !Owning(j.phase) {
        BegunFits(k, j, at, s.holders, enabled);
        if j.phase == Loaded { SetStep(s, k, j.(phase := Verified)); }
        if j.base.owner == k.owner { SetStep(s, k, Begun(j, j.version, j.base, enabled)); }
        if j.phase == Renewed && at.value == j.next { SetStep(s, k, Begun(j, at.version, j.next, enabled)); }
      }
    }
  }

  // ---- the handler and the commit's preparation ----

  /** Handler steps touch only the working copy and what the sends have gathered. */
  predicate Worked(j: Job, now: Job) {
    && now == j.(work := now.work, targets := now.targets, listed := now.listed, registered := now.registered)
    && now.work.delivery.epoch == j.work.delivery.epoch
  }

  /** What a handler step does to the job and to nothing else but the registry. */
  lemma HandlerWorks(s: State, k: Key, a: HandlerStep) returns (j: Job)
    requires DoHandle(s, k, a) != s
    ensures k in s.jobs && s.jobs[k].phase == Ready && Worked(s.jobs[k], j)
    ensures DoHandle(s, k, a)
      == SetJob(s, k, j).(revision := DoHandle(s, k, a).revision, registry := DoHandle(s, k, a).registry)
    ensures DoHandle(s, k, a).revision >= s.revision
  {
    hide Insert, Remove, Find;
    j := DoHandle(s, k, a).jobs[k];
  }

  lemma WorkFits(k: Key, j: Job, now: Job, at: Stored<Entity>, h: Holders)
    requires Fits(k, j, at, h) && j.phase == Ready && Worked(j, now)
    ensures Fits(k, now, at, h)
  {
    hide Matches, Committed;
  }

  lemma HandlerStep(s: State, k: Key, a: HandlerStep)
    requires Inv(s)
    ensures Inv(DoHandle(s, k, a))
  {
    hide Inv, DoHandle, Fits, Sound, Worked;
    if DoHandle(s, k, a) != s {
      var j := HandlerWorks(s, k, a);
      JobAt(s, k);
      WorkFits(k, s.jobs[k], j, s.store[k.id], s.holders);
      SetStep(s, k, j);
      OtherStep(SetJob(s, k, j), DoHandle(s, k, a));
    }
  }

  lemma FinishedEpoch(j: Job, reply: Reply, limits: Limits, now: int)
    requires Started(j) && Owning(j.phase) && Finished(j, reply, limits, now).Some?
    ensures Finished(j, reply, limits, now).value.delivery.epoch == j.start.delivery.epoch
  {
    hide AfterFire;
  }

  lemma PreparedFits(k: Key, j: Job, at: Stored<Entity>, h: Holders, reply: Reply, limits: Limits, now: int)
    requires Fits(k, j, at, h) && j.phase == Ready && Finished(j, reply, limits, now).Some?
    ensures Fits(k, PreparedJob(k, j, Finished(j, reply, limits, now).value, reply), at, h)
  {
    hide Finished, Earliest, Matches;
    FinishedEpoch(j, reply, limits, now);
  }

  lemma PrepareStep(s: State, k: Key, reply: Reply, limits: Limits, now: int)
    requires Inv(s)
    ensures Inv(Prepare(s, k, reply, limits, now))
  {
    hide Inv, Finished, PreparedJob, Fits, Sound;
    DropStep(s, k);
    if k in s.jobs && s.jobs[k].phase == Ready && !s.jobs[k].replay {
      JobAt(s, k);
      var f := Finished(s.jobs[k], reply, limits, now);
      if f.Some? {
        PreparedFits(k, s.jobs[k], s.store[k.id], s.holders, reply, limits, now);
        SetStep(s, k, PreparedJob(k, s.jobs[k], f.value, reply));
      }
    }
  }

  lemma ArmingFits(k: Key, j: Job, at: Stored<Entity>, h: Holders, phase: Phase, bucket: Stored<map<Id, Entry>>)
    requires Fits(k, j, at, h) && Decided(j.phase) && Decided(phase)
    ensures Fits(k, j.(phase := phase, bucket := bucket), at, h)
  {
    hide Matches;
  }

  /** The reads and the write of `arm`. */
  lemma ArmStep(s: State, k: Key)
    requires Inv(s)
    ensures Inv(ArmCheck(s, k)) && Inv(ArmRead(s, k)) && Inv(ArmWrite(s, k)) && Inv(Answer(s, k))
  {
    hide Inv, Bucket, Shard, Fits, Sound;
    DropStep(s, k);
    OtherStep(Drop(s, k), Drop(s, k).(acks := Answer(s, k).acks));
    if k in s.jobs && Decided(s.jobs[k].phase) {
      JobAt(s, k);
      var j := s.jobs[k];
      var b := Bucket(s, Shard(k.id));
      ArmingFits(k, j, s.store[k.id], s.holders, Checked, j.bucket);
      SetStep(s, k, j.(phase := Checked));
      ArmingFits(k, j, s.store[k.id], s.holders, Listed, b);
      SetStep(s, k, j.(phase := Listed, bucket := b));
      ArmingFits(k, j, s.store[k.id], s.holders, Arming, j.bucket);
      SetStep(s, k, j.(phase := Arming));
      ArmingFits(k, j, s.store[k.id], s.holders, Armed, j.bucket);
      SetStep(s, k, j.(phase := Armed));
      var t := SetJob(s, k, j.(phase := Armed));
      OtherStep(t, WriteBucket(t, Shard(k.id), j.bucket.value[k.id := j.entry]));
    }
  }

  lemma ReadReleaseStep(s: State, k: Key)
    requires Inv(s)
    ensures Inv(ReadRelease(s, k))
  {
    hide Inv, Matches;
    if k !in s.jobs && k.owner != [] && k.id in s.store && s.store[k.id].value.owner == k.owner {
      RecordAt(s, k.id);
      var at := s.store[k.id];
      SetStep(s, k,
              NewJob(Deactivate, Releasing, 0, at, Opening(false, REPLAYED, at.value.snap),
                     at.value.(owner := [], expires := 0)));
    }
  }

  // ---- steps that write a record ----

  predicate Grows(h: Holders, later: Holders) { forall x :: x in h ==> x in later && later[x] == h[x] }

  lemma StillSound(id: Id, at: Stored<Entity>, h: Holders, later: Holders)
    requires Sound(id, at, h) && Grows(h, later)
    ensures Sound(id, at, later)
  {
    hide Matches;
  }

  lemma StillFits(k: Key, j: Job, at: Stored<Entity>, h: Holders, now: Stored<Entity>, later: Holders)
    requires Fits(k, j, at, h) && Grows(h, later)
    requires now == at || (at.version < now.version && at.value.fence <= now.value.fence)
    ensures Fits(k, j, now, later)
  {
    hide Matches, Committed, Started;
  }

  /** Writing a record with no lower fence keeps every other job in order. */
  lemma WriteStep(s: State, id: Id, r: Entity, later: Holders)
    requires Inv(s) && Grows(s.holders, later)
    requires forall x :: x in later && x !in s.holders ==> x == Held(id, r.fence)
    requires Sound(id, Stored(s.revision + 1, r), later) && (id in s.store ==> s.store[id].value.fence <= r.fence)
    ensures Inv(Write(s, id, r).(holders := later))
  {
    hide Fits, Sound;
    var t := Write(s, id, r).(holders := later);
    forall i | i in t.store ensures t.store[i].version <= t.revision && Sound(i, t.store[i], t.holders) {
      if i != id { StillSound(i, s.store[i], s.holders, later); }
    }
    forall k | k in t.jobs ensures k.id in t.store && Fits(k, t.jobs[k], t.store[k.id], t.holders) {
      StillFits(k, s.jobs[k], s.store[k.id], s.holders, t.store[k.id], later);
    }
  }

  lemma RenewedFits(k: Key, j: Job, at: Stored<Entity>, h: Holders, version: nat, expires: int)
    requires Fits(k, j, at, h) && Acquiring(j) && j.version == at.version < version
    ensures var r := Lease(j.base, k.owner, expires); var later := h[Held(k.id, r.fence) := k.owner];
      Sound(k.id, Stored(version, r), later) && Fits(k, j.(phase := Renewed, next := r), Stored(version, r), later)
  {
    hide Matches, Committed;
  }

  lemma FreshFence(s: State, id: Id, owner: bytes)
    requires Inv(s) && id in s.store
    ensures Grows(s.holders, s.holders[Held(id, s.store[id].value.fence + 1) := owner])
  {
    hide Fits, Sound;
  }

  lemma RenewStep(s: State, k: Key, timeout: nat, lease: nat)
    requires Inv(s)
    ensures Inv(Renew(s, k, timeout, lease))
  {
    hide Inv, Fits, Sound, Grows;
    DropStep(s, k);
    if k in s.jobs && Acquiring(s.jobs[k]) && !Reusable(k, s.jobs[k], timeout) && Current(s, k.id, s.jobs[k].version) {
      JobAt(s, k);
      var j := s.jobs[k];
      var r := Lease(j.base, k.owner, j.time + lease);
      var later := s.holders[Held(k.id, r.fence) := k.owner];
      RenewedFits(k, j, s.store[k.id], s.holders, s.revision + 1, j.time + lease);
      LevelBase(k, j, s.store[k.id], s.holders);
      FreshFence(s, k.id, k.owner);
      WriteStep(s, k.id, r, later);
      SetStep(Write(s, k.id, r).(holders := later), k, j.(phase := Renewed, next := r));
    }
  }

  lemma LevelBase(k: Key, j: Job, at: Stored<Entity>, h: Holders)
    requires Fits(k, j, at, h) && j.version == at.version
    ensures j.base == at.value
  {
  }

  /** A commit writes a record with the same fence, owned by the job's host where it may be, or by nobody. */
  lemma CommittedSound(k: Key, j: Job, at: Stored<Entity>, h: Holders, version: nat)
    requires Fits(k, j, at, h) && (j.phase == Armed || j.phase == Releasing) && j.version == at.version < version
    ensures Sound(k.id, Stored(version, j.next), h) && j.next.fence == at.value.fence
  {
    hide Matches;
  }

  lemma PublishStep(s: State, k: Key)
    requires Inv(s) && k in s.jobs && (s.jobs[k].phase == Armed || s.jobs[k].phase == Releasing)
    requires Current(s, k.id, s.jobs[k].version)
    ensures Inv(Drop(Write(s, k.id, s.jobs[k].next), k))
  {
    hide Inv, Fits, Sound;
    JobAt(s, k);
    var j := s.jobs[k];
    CommittedSound(k, j, s.store[k.id], s.holders, s.revision + 1);
    GrowsSame(s.holders);
    WriteStep(s, k.id, j.next, s.holders);
    var t := Write(s, k.id, j.next);
    assert t.(holders := s.holders) == t;
    DropStep(t, k);
  }

  lemma CommitStep(s: State, k: Key, clock: int)
    requires Inv(s)
    ensures Inv(Commit(s, k, clock))
  {
    hide Inv, Drop, Write, Recorded;
    if k in s.jobs && s.jobs[k].phase == Armed {
      DropStep(s, k);
      if Publishable(s, k, clock) {
        PublishStep(s, k);
        OtherStep(Drop(Write(s, k.id, s.jobs[k].next), k), Commit(s, k, clock));
      }
    }
  }

  lemma WriteReleaseStep(s: State, k: Key)
    requires Inv(s)
    ensures Inv(WriteRelease(s, k))
  {
    hide Inv, Drop, Write;
    if k in s.jobs && s.jobs[k].phase == Releasing {
      DropStep(s, k);
      if Current(s, k.id, s.jobs[k].version) { PublishStep(s, k); }
    }
  }

  lemma GrowsSame(h: Holders)
    ensures Grows(h, h)
  {
  }

  lemma CreateStep(s: State, id: Id, placement: bytes, state: bytes)
    requires Inv(s)
    ensures Inv(Create(s, id, placement, state))
  {
    hide Inv, Fits;
    if id !in s.store {
      var r := NOBODY.(placement := placement, snap := EMPTY.(state := state));
      GrowsSame(s.holders);
      WriteStep(s, id, r, s.holders);
      assert Write(s, id, r).(holders := s.holders) == Write(s, id, r);
    }
  }

  // ---- every step ----

  lemma TaskInv(s: State, k: Key, a: TaskStep)
    requires Inv(s)
    ensures Inv(DoTask(s, k, a))
  {
    hide Inv, Load, Verify, Reuse, Renew, Confirm, Prepare, ArmCheck, ArmRead, ArmWrite, Commit, Answer, ReadRelease,
         WriteRelease, Drop;
    match a
    case DoLoad(request, time, limits) => LoadStep(s, k, request, time, limits);
    case DoVerify => AcquireStep(s, k, 0, false);
    case DoReuse(timeout, enabled) => AcquireStep(s, k, timeout, enabled);
    case DoRenew(timeout, lease) => RenewStep(s, k, timeout, lease);
    case DoConfirm(enabled) => AcquireStep(s, k, 0, enabled);
    case DoPrepare(reply, limits, now) => PrepareStep(s, k, reply, limits, now);
    case DoArmCheck => ArmStep(s, k);
    case DoArmRead => ArmStep(s, k);
    case DoArmWrite => ArmStep(s, k);
    case DoCommit(clock) => CommitStep(s, k, clock);
    case DoAnswer => ArmStep(s, k);
    case DoDrop => DropStep(s, k);
    case DoReadRelease => ReadReleaseStep(s, k);
    case DoWriteRelease => WriteReleaseStep(s, k);
  }

  lemma ServeInv(s: State, a: WorkerStep)
    requires Inv(s)
    ensures Inv(DoServe(s, a))
  {
    hide Inv, Create, JoinLate, ScanBucket, ScanRecord, ScanWrite, Send, ReadRetired, ListRetired, WriteRetired;
    match a
    case DoCreate(id, placement, state) => CreateStep(s, id, placement, state);
    case _ => OtherStep(s, DoServe(s, a));
  }

  /** Every step of every worker keeps the invariant. */
  lemma InvStep(s: State, a: Action)
    requires Inv(s)
    ensures Inv(Do(s, a))
  {
    hide Inv, DoTask, DoHandle, DoServe;
    match a
    case Task(k, task) => TaskInv(s, k, task);
    case Handle(k, work) => HandlerStep(s, k, work);
    case Serve(serve) => ServeInv(s, serve);
  }

  lemma {:induction false} InvRun(s: State, actions: seq<Action>)
    requires Inv(s)
    ensures Inv(Run(s, actions))
    decreases actions
  {
    hide Inv, Do;
    if actions != [] {
      InvStep(s, actions[0]);
      InvRun(Do(s, actions[0]), actions[1..]);
    }
  }
}
