/** No record outgrows what its hosts are configured for. */
module Bounds {
  import opened Bytes
  import opened TimerState
  import opened Protocol
  import L = Leases
  import opened Chains
  import D = Deliveries

  /** The delivery state of a record within these limits. */
  predicate Fits(r: Entity, limits: Limits) {
    var d := r.snap.delivery;
    |d.outbox| <= limits.messages && |d.inbox| <= limits.channels && |d.sent| <= limits.channels
  }

  predicate JobFits(j: Job, limits: Limits) { Fits(j.base, limits) && Fits(j.next, limits) }

  predicate Inv(s: State, limits: Limits) {
    && (forall k :: k in s.jobs ==> JobFits(s.jobs[k], limits))
    && (forall id :: id in s.store ==> Fits(s.store[id].value, limits))
  }

  /** No host prepares for more. */
  predicate Keeps(a: Action, limits: Limits) {
    a.Task? && a.task.DoPrepare? ==>
      a.task.limits.messages <= limits.messages && a.task.limits.channels <= limits.channels
  }

  predicate AllKeep(actions: seq<Action>, limits: Limits) {
    forall i :: 0 <= i < |actions| ==> Keeps(actions[i], limits)
  }

  lemma JobAt(s: State, k: Key, limits: Limits)
    requires Inv(s, limits) && k in s.jobs
    ensures JobFits(s.jobs[k], limits)
  {
    hide JobFits, Fits;
  }

  lemma SetStep(s: State, k: Key, j: Job, limits: Limits)
    requires Inv(s, limits) && JobFits(j, limits)
    ensures Inv(SetJob(s, k, j), limits)
  {
    hide JobFits, Fits;
  }

  lemma WriteStep(s: State, id: Id, r: Entity, limits: Limits)
    requires Inv(s, limits) && Fits(r, limits)
    ensures Inv(Write(s, id, r), limits)
  {
    hide JobFits, Fits;
  }

  lemma DropStep(s: State, k: Key, limits: Limits)
    requires Inv(s, limits)
    ensures Inv(Drop(s, k), limits)
  {
    hide JobFits, Fits;
  }

  lemma SameStep(s: State, t: State, limits: Limits)
    requires Inv(s, limits)
    ensures t.jobs == s.jobs && t.store == s.store ==> Inv(t, limits)
  {
    hide JobFits, Fits;
  }

  /** A job moves on from the same record to the same record. */
  lemma MoveStep(s: State, k: Key, now: Job, limits: Limits)
    requires Inv(s, limits) && k in s.jobs
    requires now.base in {s.jobs[k].base, s.jobs[k].next} && now.next == s.jobs[k].next
    ensures Inv(SetJob(s, k, now), limits)
  {
    hide Inv, Fits;
    JobAt(s, k, limits);
    SetStep(s, k, now, limits);
  }

  lemma LoadStep(s: State, k: Key, request: Request, time: int, asked: Limits, limits: Limits)
    requires Inv(s, limits)
    ensures Inv(Load(s, k, request, time, asked), limits)
  {
    hide Open, Addressed, Missing, Admitted, Fits;
  }

  lemma AcquireStep(s: State, k: Key, timeout: nat, enabled: bool, limits: Limits)
    requires Inv(s, limits)
    ensures Inv(Verify(s, k), limits) && Inv(Reuse(s, k, timeout, enabled), limits)
    ensures Inv(Confirm(s, k, enabled), limits)
  {
    hide Inv, StillPending, Reusable, Acquiring;
    DropStep(s, k, limits);
    if k in s.jobs {
      var j := s.jobs[k];
      MoveStep(s, k, j.(phase := Verified), limits);
      MoveStep(s, k, Begun(j, j.version, j.base, enabled), limits);
      if k.id in s.store { MoveStep(s, k, Begun(j, s.store[k.id].version, j.next, enabled), limits); }
    }
  }

  lemma RenewStep(s: State, k: Key, timeout: nat, lease: nat, limits: Limits)
    requires Inv(s, limits)
    ensures Inv(Renew(s, k, timeout, lease), limits)
  {
    hide Inv, Reusable, Acquiring, Current;
    DropStep(s, k, limits);
    if k in s.jobs {
      JobAt(s, k, limits);
      var j := s.jobs[k];
      var r := L.Lease(j.base, k.owner, j.time + lease);
      WriteStep(s, k.id, r, limits);
      SetStep(Write(s, k.id, r), k, j.(phase := Renewed, next := r), limits);
      SameStep(SetJob(Write(s, k.id, r), k, j.(phase := Renewed, next := r)), Renew(s, k, timeout, lease), limits);
    }
  }

  lemma HandlerStep(s: State, k: Key, a: HandlerStep, limits: Limits)
    requires Inv(s, limits)
    ensures Inv(DoHandle(s, k, a), limits)
  {
    hide Inv, DoHandle;
    if DoHandle(s, k, a) != s {
      var j := L.HandlerWorks(s, k, a);
      MoveStep(s, k, j, limits);
      SameStep(SetJob(s, k, j), DoHandle(s, k, a), limits);
    }
  }

  lemma PreparedFits(k: Key, j: Job, reply: Reply, asked: Limits, now: int, limits: Limits)
    requires Finished(j, reply, asked, now).Some? && JobFits(j, limits)
    requires asked.messages <= limits.messages && asked.channels <= limits.channels
    requires D.Ordered(Finished(j, reply, asked, now).value.delivery)
    ensures JobFits(PreparedJob(k, j, Finished(j, reply, asked, now).value, reply), limits)
  {
    hide Ended, Earliest;
  }

  lemma PrepareStep(s: State, k: Key, reply: Reply, asked: Limits, now: int, limits: Limits)
    requires Inv(s, limits) && D.Inv(Prepare(s, k, reply, asked, now))
    requires asked.messages <= limits.messages && asked.channels <= limits.channels
    ensures Inv(Prepare(s, k, reply, asked, now), limits)
  {
    hide Inv, D.Inv, Finished, PreparedJob, JobFits, D.Ordered, D.Evolves, D.Expected, D.JobGlobal;
    DropStep(s, k, limits);
    if k in s.jobs && s.jobs[k].phase == Ready && !s.jobs[k].replay && Finished(s.jobs[k], reply, asked, now).Some? {
      JobAt(s, k, limits);
      var snap := Finished(s.jobs[k], reply, asked, now).value;
      D.JobAt(Prepare(s, k, reply, asked, now), k);
      PreparedWork(k, s.jobs[k], snap, reply);
      PreparedFits(k, s.jobs[k], reply, asked, now, limits);
      SetStep(s, k, PreparedJob(k, s.jobs[k], snap, reply), limits);
    }
  }

  lemma PreparedWork(k: Key, j: Job, snap: Snap, reply: Reply)
    ensures PreparedJob(k, j, snap, reply).work == snap
  {
    hide Earliest, Committed;
  }

  lemma ArmStep(s: State, k: Key, limits: Limits)
    requires Inv(s, limits)
    ensures Inv(ArmCheck(s, k), limits) && Inv(ArmRead(s, k), limits)
  {
    hide Inv, Bucket, Shard, Current;
    DropStep(s, k, limits);
    if k in s.jobs {
      var j, b := s.jobs[k], Bucket(s, Shard(k.id));
      MoveStep(s, k, j.(phase := Checked), limits);
      MoveStep(s, k, j.(phase := Listed, bucket := b), limits);
    }
  }

  lemma ArmWriteStep(s: State, k: Key, limits: Limits)
    requires Inv(s, limits)
    ensures Inv(ArmWrite(s, k), limits) && Inv(Answer(s, k), limits)
  {
    hide Inv, Bucket, Shard;
    DropStep(s, k, limits);
    SameStep(Drop(s, k), Answer(s, k), limits);
    if k in s.jobs {
      var j := s.jobs[k];
      MoveStep(s, k, j.(phase := Arming), limits);
      MoveStep(s, k, j.(phase := Armed), limits);
      var t := SetJob(s, k, j.(phase := Armed));
      SameStep(t, WriteBucket(t, Shard(k.id), j.bucket.value[k.id := j.entry]), limits);
    }
  }

  lemma PublishStep(s: State, k: Key, clock: int, limits: Limits)
    requires Inv(s, limits)
    ensures Inv(WriteRelease(s, k), limits) && Inv(Commit(s, k, clock), limits)
  {
    hide Inv, Recorded, Publishable, Current, Fits;
    DropStep(s, k, limits);
    if k in s.jobs {
      JobAt(s, k, limits);
      WriteStep(s, k.id, s.jobs[k].next, limits);
      var t := Write(s, k.id, s.jobs[k].next);
      DropStep(t, k, limits);
      SameStep(Drop(t, k), Recorded(Drop(t, k), k.id, s.jobs[k]), limits);
    }
  }

  lemma ReadStep(s: State, k: Key, limits: Limits)
    requires Inv(s, limits)
    ensures Inv(ReadRelease(s, k), limits)
  {
  }

  lemma TaskInv(s: State, k: Key, a: TaskStep, limits: Limits)
    requires Inv(s, limits) && D.Inv(DoTask(s, k, a)) && Keeps(Task(k, a), limits)
    ensures Inv(DoTask(s, k, a), limits)
  {
    hide Inv, D.Inv, Load, Verify, Reuse, Renew, Confirm, Prepare, ArmCheck, ArmRead, ArmWrite, Commit, Answer,
         ReadRelease, WriteRelease, Drop;
    match a
    case DoLoad(request, time, asked) => LoadStep(s, k, request, time, asked, limits);
    case DoVerify => AcquireStep(s, k, 0, false, limits);
    case DoReuse(timeout, enabled) => AcquireStep(s, k, timeout, enabled, limits);
    case DoRenew(timeout, lease) => RenewStep(s, k, timeout, lease, limits);
    case DoConfirm(enabled) => AcquireStep(s, k, 0, enabled, limits);
    case DoPrepare(reply, asked, now) => PrepareStep(s, k, reply, asked, now, limits);
    case DoArmCheck => ArmStep(s, k, limits);
    case DoArmRead => ArmStep(s, k, limits);
    case DoArmWrite => ArmWriteStep(s, k, limits);
    case DoCommit(clock) => PublishStep(s, k, clock, limits);
    case DoAnswer => ArmWriteStep(s, k, limits);
    case DoDrop => DropStep(s, k, limits);
    case DoReadRelease => ReadStep(s, k, limits);
    case DoWriteRelease => PublishStep(s, k, 0, limits);
  }

  lemma ServeInv(s: State, a: WorkerStep, limits: Limits)
    requires Inv(s, limits)
    ensures Inv(DoServe(s, a), limits)
  {
    hide Inv, JoinLate, ScanBucket, ScanRecord, ScanWrite, Send, ReadRetired, ListRetired, WriteRetired;
    match a
    case DoCreate(id, placement, state) =>
      WriteStep(s, id, NOBODY.(placement := placement, snap := EMPTY.(state := state)), limits);
    case _ => SameStep(s, DoServe(s, a), limits);
  }

  /** Every step of hosts that keep to the limits keeps every record within them. */
  lemma InvStep(s: State, a: Action, limits: Limits)
    requires Inv(s, limits) && D.Inv(Do(s, a)) && Keeps(a, limits)
    ensures Inv(Do(s, a), limits)
  {
    hide Inv, D.Inv, DoTask, DoHandle, DoServe, Keeps;
    match a
    case Task(k, task) => TaskInv(s, k, task, limits);
    case Handle(k, work) => HandlerStep(s, k, work, limits);
    case Serve(serve) => ServeInv(s, serve, limits);
  }

  lemma {:induction false} InvRun(s: State, actions: seq<Action>, limits: Limits)
    requires Inv(s, limits) && D.Inv(s) && L.Inv(s) && AllKeep(actions, limits)
    ensures Inv(Run(s, actions), limits)
    decreases actions
  {
    hide Inv, D.Inv, L.Inv, Do, Keeps;
    if actions != [] {
      assert Keeps(actions[0], limits);
      D.InvStep(s, actions[0]);
      L.InvStep(s, actions[0]);
      InvStep(s, actions[0], limits);
      InvRun(Do(s, actions[0]), actions[1..], limits);
    }
  }

  /** Over every run of hosts that are configured for no more: every record has no more messages in its outbox, and no
      more channels in either direction, than that. */
  lemma RecordsBounded(actions: seq<Action>, id: Id, limits: Limits)
    requires AllKeep(actions, limits) && id in Reached(actions).store
    ensures var d := Reached(actions).store[id].value.snap.delivery;
      |d.outbox| <= limits.messages && |d.inbox| <= limits.channels && |d.sent| <= limits.channels
  {
    hide Run;
    StartInv();
    InvRun(START, actions, limits);
  }
}
