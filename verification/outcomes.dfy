/** What a commit may be about: a firing that is due, or a message that was decided; and a refused message leaves
    nothing but its cursor. */
module Outcomes {
  import opened Bytes
  import opened TimerState
  import opened Protocol
  import L = Leases
  import F = Firings
  import opened Chains
  import D = Deliveries

  /** A firing that is not a replay is due by the clock it was loaded at. */
  predicate Due(j: Job) { j.request.Fire? && !j.replay ==> j.request.due <= j.time }

  function Counted(d: Delivery, e: Envelope, reply: Reply): Delivery {
    d.(inbox := d.inbox[e.ticket.source := Cursor(e.ticket.sequence, e, reply)])
  }

  /** A decided message: success keeps what the handler left, anything else what it was given; the cursor is new. */
  predicate Settled(j: Job) {
    L.Decided(j.phase) && j.request.Receive? ==>
      && j.answer.status != Failed && |j.answer.data| <= PAYLOAD_LIMIT
      && (j.answer.status != Success ==>
            j.work == j.start.(delivery := Counted(j.start.delivery, j.request.envelope, j.answer)))
  }

  /** A handoff goes to another node. */
  predicate Leaving(k: Key, j: Job) {
    j.request.Handoff? ==> j.request.target != [] && !Matches(k.owner, j.request.target)
  }

  /** Every timer has times that can be advanced. */
  predicate Timed(snap: Snap) { forall t :: t in snap.timers.entries ==> ValidTimes(t) }

  predicate JobTimed(j: Job) { Timed(j.base.snap) && Timed(j.start) && Timed(j.work) && Timed(j.next.snap) }

  predicate JobOk(k: Key, j: Job) { Due(j) && Settled(j) && Leaving(k, j) && JobTimed(j) }

  predicate Inv(s: State) {
    && (forall k :: k in s.jobs ==> JobOk(k, s.jobs[k]))
    && (forall id :: id in s.store ==> Timed(s.store[id].value.snap))
  }

  lemma JobAt(s: State, k: Key)
    requires Inv(s) && k in s.jobs
    ensures JobOk(k, s.jobs[k])
  {
    hide JobOk;
  }

  lemma RecordAt(s: State, id: Id)
    requires Inv(s) && id in s.store
    ensures Timed(s.store[id].value.snap)
  {
    hide Timed, JobOk;
  }

  lemma SetStep(s: State, k: Key, j: Job)
    requires Inv(s) && JobOk(k, j)
    ensures Inv(SetJob(s, k, j))
  {
    hide JobOk, Timed;
  }

  lemma WriteStep(s: State, id: Id, r: Entity)
    requires Inv(s) && Timed(r.snap)
    ensures Inv(Write(s, id, r))
  {
    hide JobOk, Timed;
  }

  lemma DropStep(s: State, k: Key)
    requires Inv(s)
    ensures Inv(Drop(s, k))
  {
    hide JobOk, Timed;
  }

  lemma SameJobs(s: State, t: State)
    requires Inv(s)
    ensures t.jobs == s.jobs && t.store == s.store ==> Inv(t)
  {
    hide JobOk, Timed;
  }

  lemma OpenDue(id: Id, r: Entity, request: Request, time: int, limits: Limits)
    requires Open(id, r, request, time, limits).Some? && request.Fire?
    ensures !Open(id, r, request, time, limits).value.replay ==> request.due <= time
  {
    hide Find;
  }

  lemma LoadStep(s: State, k: Key, request: Request, time: int, limits: Limits)
    requires Inv(s)
    ensures Inv(Load(s, k, request, time, limits))
  {
    hide Inv, Open, Missing, Admitted, Timed, Matches;
    if k.id in s.store && Addressed(s, k, request)
       && Open(k.id, s.store[k.id].value, request, time, limits).Some? {
      var at := s.store[k.id];
      var o := Open(k.id, at.value, request, time, limits).value;
      if request.Fire? { OpenDue(k.id, at.value, request, time, limits); }
      RecordAt(s, k.id);
      L.OpenStarts(k.id, at.value, request, time, limits);
      SameTimed(at.value.snap, o.snap);
      SetStep(s, k, NewJob(request, Loaded, time, at, o, at.value));
    }
    SameJobs(s, Load(s, k, request, time, limits));
  }

  lemma SameTimed(a: Snap, b: Snap)
    requires Timed(a) && b.timers == a.timers
    ensures Timed(b)
  {
  }

  /** A job moves on before it is decided, or after. */
  predicate Moves(j: Job, now: Job) {
    && now.base.snap == j.base.snap && now.start.timers == j.start.timers && now.next.snap == j.next.snap
    && (now.work.timers == j.work.timers || Timed(now.work))
    && now.request == j.request && now.time == j.time && now.replay == j.replay
    && (L.Decided(now.phase) ==>
          L.Decided(j.phase) && now.work == j.work && now.start == j.start && now.answer == j.answer)
  }

  lemma MoveStep(s: State, k: Key, now: Job)
    requires Inv(s) && k in s.jobs && Moves(s.jobs[k], now)
    ensures Inv(SetJob(s, k, now))
  {
    hide Inv, Matches, Timed;
    JobAt(s, k);
    SameTimed(s.jobs[k].start, now.start);
    if now.work.timers == s.jobs[k].work.timers { SameTimed(s.jobs[k].work, now.work); }
    SetStep(s, k, now);
  }

  lemma VerifyStep(s: State, k: Key)
    requires Inv(s)
    ensures Inv(Verify(s, k))
  {
    hide Inv, StillPending, Timed;
    DropStep(s, k);
    if k in s.jobs { MoveStep(s, k, s.jobs[k].(phase := Verified)); }
  }

  lemma BegunStep(s: State, k: Key, version: nat, base: Entity, enabled: bool)
    requires Inv(s) && k in s.jobs && (base == s.jobs[k].base || base == s.jobs[k].next)
    ensures Inv(SetJob(s, k, Begun(s.jobs[k], version, base, enabled)))
  {
    hide Inv, Matches, Timed;
    JobAt(s, k);
    var j := s.jobs[k];
    var now := Begun(j, version, base, enabled);
    SameTimed(j.work, now.work);
    SetStep(s, k, now);
  }

  lemma AcquireStep(s: State, k: Key, timeout: nat, enabled: bool)
    requires Inv(s)
    ensures Inv(Reuse(s, k, timeout, enabled)) && Inv(Confirm(s, k, enabled))
  {
    hide Inv, Reusable, Acquiring, Begun;
    DropStep(s, k);
    if k in s.jobs {
      var j := s.jobs[k];
      BegunStep(s, k, j.version, j.base, enabled);
      if k.id in s.store { BegunStep(s, k, s.store[k.id].version, j.next, enabled); }
    }
  }

  lemma RenewStep(s: State, k: Key, timeout: nat, lease: nat)
    requires Inv(s)
    ensures Inv(Renew(s, k, timeout, lease))
  {
    hide Inv, Reusable, Acquiring, Timed, Matches, Current;
    DropStep(s, k);
    if k in s.jobs {
      JobAt(s, k);
      var j := s.jobs[k];
      var r := L.Lease(j.base, k.owner, j.time + lease);
      WriteStep(s, k.id, r);
      SetStep(Write(s, k.id, r), k, j.(phase := Renewed, next := r));
      SameJobs(SetJob(Write(s, k.id, r), k, j.(phase := Renewed, next := r)), Renew(s, k, timeout, lease));
    }
  }

  lemma ScheduleTimed(es: seq<Timer<Mark>>, t: Timer<Mark>)
    requires (forall x :: x in es ==> ValidTimes(x)) && ValidTimes(t)
    ensures forall x :: x in Insert(es, t) ==> ValidTimes(x)
  {
    hide Insert;
    forall x | x in Insert(es, t) ensures ValidTimes(x) { F.InsertIn(es, t, x); }
  }

  lemma CancelTimed(es: seq<Timer<Mark>>, key: bytes)
    requires forall x :: x in es ==> ValidTimes(x)
    ensures forall x :: x in Remove(es, key) ==> ValidTimes(x)
  {
    hide Remove;
    forall x | x in Remove(es, key) ensures ValidTimes(x) { F.RemoveIn(es, key, x); }
  }

  lemma PublishTimed(s: State, k: Key, entries: seq<Timer<Mark>>)
    requires k in s.jobs && forall x :: x in entries ==> ValidTimes(x)
    ensures k in Publish(s, k, entries).jobs && Timed(Publish(s, k, entries).jobs[k].work)
  {
  }

  lemma UntimedStep(s: State, k: Key, a: HandlerStep)
    requires k in s.jobs && !a.DoSchedule? && !a.DoCancel?
    ensures k in DoHandle(s, k, a).jobs && DoHandle(s, k, a).jobs[k].work.timers == s.jobs[k].work.timers
  {
    hide Staged;
  }

  lemma HandlerTimed(s: State, k: Key, a: HandlerStep)
    requires k in s.jobs && Timed(s.jobs[k].work)
    ensures k in DoHandle(s, k, a).jobs && Timed(DoHandle(s, k, a).jobs[k].work)
  {
    hide Insert, Remove, Find, Publish, Working, Compute, Resolve, ReadRegistry, JoinRegistry, Stage, Forget;
    var j := s.jobs[k];
    var es := j.work.timers.entries;
    match a
    case DoSchedule(t) =>
      if ValidTimes(t) {
        var t' := t.(generation := Mark(j.version, j.work.timers.sequence + 1));
        ScheduleTimed(es, t');
        PublishTimed(s, k, Insert(es, t'));
      }
    case DoCancel(name) =>
      CancelTimed(es, name);
      PublishTimed(s, k, Remove(es, name));
    case _ => UntimedStep(s, k, a);
  }

  lemma HandlerStep(s: State, k: Key, a: HandlerStep)
    requires Inv(s)
    ensures Inv(DoHandle(s, k, a))
  {
    hide Inv, DoHandle, Timed;
    if DoHandle(s, k, a) != s {
      var j := L.HandlerWorks(s, k, a);
      JobAt(s, k);
      HandlerTimed(s, k, a);
      assert j == DoHandle(s, k, a).jobs[k];
      MoveStep(s, k, j);
      SameJobs(SetJob(s, k, j), DoHandle(s, k, a));
    }
  }

  lemma AfterFireTimed(ts: Timers<Mark>, version: nat, r: Request, now: int)
    requires r.Fire? && AfterFire(ts, version, r, now).Some? && forall t :: t in ts.entries ==> ValidTimes(t)
    ensures forall t :: t in AfterFire(ts, version, r, now).value.entries ==> ValidTimes(t)
  {
    hide Insert, Remove, Find, Advanced;
    var found := Find(ts.entries, r.key);
    if F.Occurs(ts.entries, r) {
      var at := if now < r.due then r.due else now;
      if Advanced(found.value, at).None? {
        CancelTimed(ts.entries, r.key);
      } else {
        AdvanceForward(found.value, at);
        ScheduleTimed(ts.entries, Advanced(found.value, at).value);
      }
    }
  }

  lemma FinishedTimed(j: Job, reply: Reply, limits: Limits, now: int)
    requires Timed(j.start) && Timed(j.work) && Finished(j, reply, limits, now).Some?
    ensures Timed(Finished(j, reply, limits, now).value)
  {
    hide AfterFire, AllDone, Allowed;
    if j.request.Fire? { AfterFireTimed(j.work.timers, j.version, j.request, now); }
  }

  lemma PreparedOk(k: Key, j: Job, reply: Reply, limits: Limits, now: int)
    requires JobOk(k, j) && Finished(j, reply, limits, now).Some?
    ensures JobOk(k, PreparedJob(k, j, Finished(j, reply, limits, now).value, reply))
  {
    hide AfterFire, Earliest, AllDone, Allowed, Timed, Matches;
    FinishedTimed(j, reply, limits, now);
    EmptyTimed();
  }

  lemma EmptyTimed()
    ensures Timed(EMPTY)
  {
  }

  lemma PrepareStep(s: State, k: Key, reply: Reply, limits: Limits, now: int)
    requires Inv(s)
    ensures Inv(Prepare(s, k, reply, limits, now))
  {
    hide Inv, Finished, PreparedJob, JobOk;
    DropStep(s, k);
    if k in s.jobs {
      JobAt(s, k);
      var f := Finished(s.jobs[k], reply, limits, now);
      if f.Some? {
        PreparedOk(k, s.jobs[k], reply, limits, now);
        SetStep(s, k, PreparedJob(k, s.jobs[k], f.value, reply));
      }
    }
  }

  lemma ArmStep(s: State, k: Key)
    requires Inv(s)
    ensures Inv(ArmCheck(s, k)) && Inv(ArmRead(s, k))
  {
    hide Inv, Bucket, Shard, Timed, Current;
    DropStep(s, k);
    if k in s.jobs && L.Decided(s.jobs[k].phase) {
      var j, b := s.jobs[k], Bucket(s, Shard(k.id));
      MoveStep(s, k, j.(phase := Checked));
      MoveStep(s, k, j.(phase := Listed, bucket := b));
    }
  }

  lemma AnswerStep(s: State, k: Key)
    requires Inv(s)
    ensures Inv(Answer(s, k))
  {
    hide Inv;
    DropStep(s, k);
    SameJobs(Drop(s, k), Answer(s, k));
  }

  lemma ArmWriteStep(s: State, k: Key)
    requires Inv(s)
    ensures Inv(ArmWrite(s, k)) && Inv(Answer(s, k))
  {
    hide Inv, Bucket, Shard, Timed, Answer;
    AnswerStep(s, k);
    if k in s.jobs && L.Decided(s.jobs[k].phase) {
      var j := s.jobs[k];
      MoveStep(s, k, j.(phase := Arming));
      MoveStep(s, k, j.(phase := Armed));
      var t := SetJob(s, k, j.(phase := Armed));
      SameJobs(t, WriteBucket(t, Shard(k.id), j.bucket.value[k.id := j.entry]));
    }
  }

  lemma ReadStep(s: State, k: Key)
    requires Inv(s)
    ensures Inv(ReadRelease(s, k))
  {
    hide Inv, Timed;
    if k.id in s.store {
      var at := s.store[k.id];
      RecordAt(s, k.id);
      var o := Opening(false, REPLAYED, at.value.snap);
      SetStep(s, k, NewJob(Deactivate, Releasing, 0, at, o, at.value.(owner := [], expires := 0)));
    }
  }

  lemma PublishStep(s: State, k: Key, clock: int)
    requires Inv(s)
    ensures Inv(WriteRelease(s, k)) && Inv(Commit(s, k, clock))
  {
    hide Inv, Recorded, Timed, Publishable, Current;
    DropStep(s, k);
    if k in s.jobs {
      JobAt(s, k);
      WriteStep(s, k.id, s.jobs[k].next);
      var t := Write(s, k.id, s.jobs[k].next);
      DropStep(t, k);
      SameJobs(Drop(t, k), Recorded(Drop(t, k), k.id, s.jobs[k]));
    }
  }

  lemma TaskInv(s: State, k: Key, a: TaskStep)
    requires Inv(s)
    ensures Inv(DoTask(s, k, a))
  {
    hide Inv, Load, Verify, Reuse, Renew, Confirm, Prepare, ArmCheck, ArmRead, ArmWrite, Commit, Answer, ReadRelease,
         WriteRelease, Drop;
    match a
    case DoLoad(request, time, limits) => LoadStep(s, k, request, time, limits);
    case DoVerify => VerifyStep(s, k);
    case DoReuse(timeout, enabled) => AcquireStep(s, k, timeout, enabled);
    case DoRenew(timeout, lease) => RenewStep(s, k, timeout, lease);
    case DoConfirm(enabled) => AcquireStep(s, k, 0, enabled);
    case DoPrepare(reply, limits, now) => PrepareStep(s, k, reply, limits, now);
    case DoArmCheck => ArmStep(s, k);
    case DoArmRead => ArmStep(s, k);
    case DoArmWrite => ArmWriteStep(s, k);
    case DoCommit(clock) => PublishStep(s, k, clock);
    case DoAnswer => ArmWriteStep(s, k);
    case DoDrop => DropStep(s, k);
    case DoReadRelease => ReadStep(s, k);
    case DoWriteRelease => PublishStep(s, k, 0);
  }

  lemma ServeInv(s: State, a: WorkerStep)
    requires Inv(s)
    ensures Inv(DoServe(s, a))
  {
    hide Inv, Create, JoinLate, ScanBucket, ScanRecord, ScanWrite, Send, ReadRetired, ListRetired, WriteRetired;
    match a
    case DoCreate(id, placement, state) => CreateStep(s, id, placement, state);
    case _ => SameJobs(s, DoServe(s, a));
  }

  lemma CreateStep(s: State, id: Id, placement: bytes, state: bytes)
    requires Inv(s)
    ensures Inv(Create(s, id, placement, state))
  {
    hide Inv;
    WriteStep(s, id, NOBODY.(placement := placement, snap := EMPTY.(state := state)));
  }

  /** Every step keeps firings due, decided messages settled, handoffs to other nodes and timers valid. */
  lemma InvStep(s: State, a: Action)
    requires Inv(s)
    ensures Inv(Do(s, a))
  {
    hide Inv, DoTask, DoHandle, DoServe;
    match a
    case Task(k, task) => TaskInv(s, k, task);
    case Handle(k, work) => HandlerStep(s, k, work);
    case Serve(serve) => ServeInv(s, serve);
  }

  lemma {:induction false} InvRun(s: State, actions: seq<Action>)
    requires Inv(s)
    ensures Inv(Run(s, actions))
    decreases actions
  {
    hide Inv, Do;
    if actions != [] {
      InvStep(s, actions[0]);
      InvRun(Do(s, actions[0]), actions[1..]);
    }
  }

  // ---- the theorems, over every run ----

  lemma ReachedInv(actions: seq<Action>)
    ensures Inv(Reached(actions)) && L.Inv(Reached(actions)) && F.Inv(Reached(actions)) && D.Inv(Reached(actions))
  {
    hide Run;
    InvRun(START, actions);
    F.ReachedInv(actions);
    D.ReachedInv(actions);
  }

  /** Only a commit adds to the history. */
  lemma OnlyCommits(s: State, a: Action)
    requires !(a.Task? && a.task.DoCommit?)
    ensures Do(s, a).executed == s.executed && Do(s, a).fired == s.fired
  {
    hide DoTask, DoHandle, DoServe;
    match a
    case Task(k, task) => TaskOnly(s, k, task);
    case Handle(k, work) => if DoHandle(s, k, work) != s { var j := L.HandlerWorks(s, k, work); }
    case Serve(serve) => ServeOnly(s, serve);
  }

  lemma TaskOnly(s: State, k: Key, a: TaskStep)
    requires !a.DoCommit?
    ensures DoTask(s, k, a).executed == s.executed && DoTask(s, k, a).fired == s.fired
  {
    hide Load, Verify, Reuse, Renew, Confirm, Prepare, ArmCheck, ArmRead, ArmWrite, Answer, ReadRelease, WriteRelease;
  }

  lemma ServeOnly(s: State, a: WorkerStep)
    ensures DoServe(s, a).executed == s.executed && DoServe(s, a).fired == s.fired
  {
    hide Create, JoinLate, ScanBucket, ScanRecord, ScanWrite, Send, ReadRetired, ListRetired, WriteRetired;
  }

  lemma CommitRecords(s: State, k: Key, clock: int)
    requires var t := Commit(s, k, clock); t.executed != s.executed || t.fired != s.fired
    ensures Publishable(s, k, clock)
    ensures var t := Commit(s, k, clock); var j := s.jobs[k];
      && (t.executed != s.executed ==>
            && j.request.Receive? && Acked(j.request.envelope.ticket, j.answer) in t.acks
            && var e := j.request.envelope;
               t.executed == s.executed[e.ticket := Cursor(e.ticket.sequence, e, j.answer)])
      && (t.fired != s.fired ==> j.request.Fire? && t.fired == s.fired + {F.FiringOf(k.id, j.request)})
  {
    hide Recorded;
    if Publishable(s, k, clock) {
      RecordedAs(Drop(Write(s, k.id, s.jobs[k].next), k), k.id, s.jobs[k]);
    }
  }

  lemma RecordedAs(s: State, id: Id, j: Job)
    ensures var t := Recorded(s, id, j);
      && (t.executed != s.executed ==>
            && j.request.Receive? && Acked(j.request.envelope.ticket, j.answer) in t.acks
            && var e := j.request.envelope;
               t.executed == s.executed[e.ticket := Cursor(e.ticket.sequence, e, j.answer)])
      && (t.fired != s.fired ==> j.request.Fire? && t.fired == s.fired + {F.FiringOf(id, j.request)})
  {
  }

  /** Whenever a firing is new, it was committed by the owner, in time, for an occurrence that is in the record it
      replaces and was due when it was loaded. */
  lemma FiresWhenDue(actions: seq<Action>, a: Action, f: Firing)
    requires var s := Reached(actions); f !in s.fired && f in Do(s, a).fired
    ensures a.Task? && a.task.DoCommit? && a.k.id == f.id
    ensures var s := Reached(actions); a.k in s.jobs && f.id in s.store
    ensures var s := Reached(actions); var j, was := s.jobs[a.k], s.store[f.id].value;
      var t := Find(was.snap.timers.entries, f.key);
      && f.due <= j.time && t.Some? && t.value.generation == f.generation && t.value.due == f.due
      && was.owner == a.k.owner && a.task.clock < was.expires && !was.destroyed
  {
    hide Run, Inv, L.Inv, F.Inv, D.Inv, Find, Commit, Do, Publishable;
    ReachedInv(actions);
    var s := Reached(actions);
    if !(a.Task? && a.task.DoCommit?) { OnlyCommits(s, a); }
    CommitDoes(s, a);
    CommitRecords(s, a.k, a.task.clock);
    PublishableAt(s, a.k, a.task.clock);
    CommitWrites(s, a.k, a.task.clock);
    JobAt(s, a.k);
    L.JobAt(s, a.k);
    F.JobAt(s, a.k);
  }

  lemma CommitDoes(s: State, a: Action)
    requires a.Task? && a.task.DoCommit?
    ensures Do(s, a) == Commit(s, a.k, a.task.clock)
  {
    hide Commit;
  }

  lemma PublishableAt(s: State, k: Key, clock: int)
    requires Publishable(s, k, clock)
    ensures k in s.jobs && k.id in s.store && s.jobs[k].phase == Armed && clock < s.jobs[k].base.expires
    ensures s.jobs[k].version == s.store[k.id].version
  {
  }

  /** Whenever an execution is new, its result is a decision within the payload limit that is acknowledged; a message
      that was not a success leaves state, timers, counters and outbox of the receiver as they were, and its cursor
      alone. */
  lemma MessageDecided(actions: seq<Action>, a: Action, t: Ticket)
    requires var s := Reached(actions); t !in s.executed && t in Do(s, a).executed
    ensures a.Task? && a.task.DoCommit? && a.k.id == t.to.peer
    ensures var s := Reached(actions); t.to.peer in s.store && t.to.peer in Do(s, a).store
    ensures var s := Reached(actions); var u := Do(s, a);
      var was, now, c := s.store[t.to.peer].value.snap, u.store[t.to.peer].value.snap, u.executed[t];
      && c.reply.status != Failed && |c.reply.data| <= PAYLOAD_LIMIT && Acked(t, c.reply) in u.acks
      && now.delivery.inbox == was.delivery.inbox[t.source := c]
      && (c.reply.status != Success ==> now == was.(delivery := was.delivery.(inbox := now.delivery.inbox)))
  {
    hide Run, Inv, L.Inv, F.Inv, D.Inv, Find, Commit, Do, Publishable, D.Evolves, D.JobGlobal;
    ReachedInv(actions);
    var s := Reached(actions);
    if !(a.Task? && a.task.DoCommit?) { OnlyCommits(s, a); }
    CommitDoes(s, a);
    CommitRecords(s, a.k, a.task.clock);
    PublishableAt(s, a.k, a.task.clock);
    CommitWrites(s, a.k, a.task.clock);
    JobAt(s, a.k);
    L.JobAt(s, a.k);
    D.JobAt(s, a.k);
    var j := s.jobs[a.k];
    assert t == j.request.envelope.ticket;
  }
}
