/** What a handler does is what is committed: whatever other hosts and workers do in the meantime, the state is the last
    one computed, each timer is as it was last scheduled or cancelled, and each new message is one that was staged. */
module Handlers {
  import opened Bytes
  import opened TimerState
  import opened Protocol
  import L = Leases
  import F = Firings
  import opened Chains

  /** The handler's own steps in a run. */
  function Mine(actions: seq<Action>, k: Key): seq<HandlerStep> {
    if actions == [] then []
    else
      (if actions[0].Handle? && actions[0].k == k then [actions[0].work] else []) + Mine(actions[1..], k)
  }

  /** The job goes on: its host does nothing else with it. */
  predicate Untasked(actions: seq<Action>, k: Key) {
    forall i :: 0 <= i < |actions| ==> !(actions[i].Task? && actions[i].k == k)
  }

  function LastState(state: bytes, steps: seq<HandlerStep>): bytes
    decreases steps
  {
    if steps == [] then state else LastState(if steps[0].DoCompute? then steps[0].state else state, steps[1..])
  }

  /** A timer as the handler knows it: without the mark of its generation. */
  function Untimed(t: Option<Timer<Mark>>): Option<Timer<Mark>> {
    match t case None => None case Some(x) => Some(x.(generation := Unmarked))
  }

  function TimerAfter(t: Option<Timer<Mark>>, a: HandlerStep, key: bytes): Option<Timer<Mark>> {
    match a
    case DoSchedule(x) => if x.key == key && ValidTimes(x) then Untimed(Some(x)) else t
    case DoCancel(name) => if name == key then None else t
    case _ => t
  }

  function LastTimer(t: Option<Timer<Mark>>, steps: seq<HandlerStep>, key: bytes): Option<Timer<Mark>>
    decreases steps
  {
    if steps == [] then t else LastTimer(TimerAfter(t, steps[0], key), steps[1..], key)
  }

  predicate Touches(a: HandlerStep, key: bytes) {
    (a.DoSchedule? && a.timer.key == key && ValidTimes(a.timer)) || (a.DoCancel? && a.name == key)
  }

  predicate Touched(steps: seq<HandlerStep>, key: bytes) {
    exists i :: 0 <= i < |steps| && Touches(steps[i], key)
  }

  /** A timer nobody touched is the same; one that was touched and is there carries this job's mark. */
  predicate Marks(was: Job, now: Job, touched: bool, key: bytes) {
    var t := Find(now.work.timers.entries, key);
    if touched then t.Some? ==> t.value.generation.Mark? && t.value.generation.version == was.version
    else t == Find(was.work.timers.entries, key)
  }

  predicate Staged(steps: seq<HandlerStep>, m: Message) {
    exists i :: 0 <= i < |steps| && steps[i] == DoStage(m.to, m.body)
  }

  // ---- other hands ----

  /** Another host's job is left as it is. */
  predicate Leaves(s: State, t: State, mine: Key) {
    (mine in t.jobs <==> mine in s.jobs) && (mine in s.jobs ==> t.jobs[mine] == s.jobs[mine])
  }

  lemma DropLeaves(s: State, k: Key, mine: Key)
    requires k != mine
    ensures Leaves(s, Drop(s, k), mine)
  {
  }

  lemma LoadLeaves(s: State, k: Key, request: Request, time: int, limits: Limits, mine: Key)
    requires k != mine
    ensures Leaves(s, Load(s, k, request, time, limits), mine)
  {
    hide Open, Addressed, Missing, Admitted, NewJob;
  }

  lemma ReadLeaves(s: State, k: Key, mine: Key)
    requires k != mine
    ensures Leaves(s, Verify(s, k), mine) && Leaves(s, ReadRelease(s, k), mine)
  {
    hide StillPending, NewJob;
  }

  lemma ReleaseLeaves(s: State, k: Key, mine: Key)
    requires k != mine
    ensures Leaves(s, WriteRelease(s, k), mine) && Leaves(s, Answer(s, k), mine)
  {
    hide Current, Leaves;
    DropLeaves(s, k, mine);
    LeavesSame(s, s, mine);
    if k in s.jobs {
      LeavesSame(Drop(s, k), Drop(Write(s, k.id, s.jobs[k].next), k), mine);
      if s.jobs[k].phase == Ready && s.jobs[k].replay { LeavesSame(Drop(s, k), Answer(s, k), mine); }
    }
  }

  lemma ReuseLeaves(s: State, k: Key, timeout: nat, enabled: bool, mine: Key)
    requires k != mine
    ensures Leaves(s, Reuse(s, k, timeout, enabled), mine) && Leaves(s, Confirm(s, k, enabled), mine)
  {
    hide Acquiring, Reusable, Begun, SetJob, Drop, Leaves;
    DropLeaves(s, k, mine);
    LeavesSame(s, s, mine);
    if k in s.jobs {
      var j := s.jobs[k];
      SetLeaves(s, k, Begun(j, j.version, j.base, enabled), mine);
      if k.id in s.store { SetLeaves(s, k, Begun(j, s.store[k.id].version, j.next, enabled), mine); }
    }
  }

  lemma RenewLeaves(s: State, k: Key, timeout: nat, lease: nat, mine: Key)
    requires k != mine
    ensures Leaves(s, Renew(s, k, timeout, lease), mine)
  {
    hide Acquiring, Reusable, Current;
  }

  lemma PrepareLeaves(s: State, k: Key, reply: Reply, limits: Limits, now: int, mine: Key)
    requires k != mine
    ensures Leaves(s, Prepare(s, k, reply, limits, now), mine)
  {
    hide Finished, PreparedJob;
  }

  lemma ArmLeaves(s: State, k: Key, mine: Key)
    requires k != mine
    ensures Leaves(s, ArmCheck(s, k), mine) && Leaves(s, ArmRead(s, k), mine)
  {
    hide Bucket, Shard, Current, SetJob, Drop, Leaves;
    DropLeaves(s, k, mine);
    LeavesSame(s, s, mine);
    if k in s.jobs {
      var j := s.jobs[k];
      SetLeaves(s, k, j.(phase := Checked), mine);
      SetLeaves(s, k, j.(phase := Listed, bucket := Bucket(s, Shard(k.id))), mine);
    }
  }

  lemma SetLeaves(s: State, k: Key, j: Job, mine: Key)
    requires k != mine
    ensures Leaves(s, SetJob(s, k, j), mine)
  {
  }

  lemma ArmWriteLeaves(s: State, k: Key, mine: Key)
    requires k != mine
    ensures Leaves(s, ArmWrite(s, k), mine)
  {
    hide Bucket, Shard;
  }

  lemma CommitLeaves(s: State, k: Key, clock: int, mine: Key)
    requires k != mine
    ensures Leaves(s, Commit(s, k, clock), mine)
  {
    hide Publishable, Recorded, Drop, Write, Leaves;
    DropLeaves(s, k, mine);
    LeavesSame(s, s, mine);
    if Publishable(s, k, clock) {
      CommitJobs(s, k, clock);
      LeavesSame(Drop(s, k), Commit(s, k, clock), mine);
    }
  }

  lemma CommitJobs(s: State, k: Key, clock: int)
    requires Publishable(s, k, clock)
    ensures Commit(s, k, clock).jobs == Drop(s, k).jobs
  {
    hide Recorded;
  }

  lemma LeavesSame(s: State, t: State, mine: Key)
    requires s.jobs == t.jobs
    ensures Leaves(s, t, mine) && forall u :: Leaves(u, s, mine) ==> Leaves(u, t, mine)
  {
  }

  lemma TaskLeaves(s: State, k: Key, a: TaskStep, mine: Key)
    requires k != mine
    ensures Leaves(s, DoTask(s, k, a), mine)
  {
    hide Load, Verify, Reuse, Renew, Confirm, Prepare, ArmCheck, ArmRead, ArmWrite, Commit, Answer, ReadRelease,
         WriteRelease, Leaves;
    match a
    case DoLoad(request, time, limits) => LoadLeaves(s, k, request, time, limits, mine);
    case DoVerify => ReadLeaves(s, k, mine);
    case DoReuse(timeout, enabled) => ReuseLeaves(s, k, timeout, enabled, mine);
    case DoRenew(timeout, lease) => RenewLeaves(s, k, timeout, lease, mine);
    case DoConfirm(enabled) => ReuseLeaves(s, k, 0, enabled, mine);
    case DoPrepare(reply, limits, now) => PrepareLeaves(s, k, reply, limits, now, mine);
    case DoArmCheck => ArmLeaves(s, k, mine);
    case DoArmRead => ArmLeaves(s, k, mine);
    case DoArmWrite => ArmWriteLeaves(s, k, mine);
    case DoCommit(clock) => CommitLeaves(s, k, clock, mine);
    case DoAnswer => ReleaseLeaves(s, k, mine);
    case DoDrop => DropLeaves(s, k, mine);
    case DoReadRelease => ReadLeaves(s, k, mine);
    case DoWriteRelease => ReleaseLeaves(s, k, mine);
  }

  lemma ServeLeaves(s: State, a: WorkerStep)
    ensures DoServe(s, a).jobs == s.jobs
  {
    hide Create, JoinLate, ScanBucket, ScanRecord, ScanWrite, Send, ReadRetired, ListRetired, WriteRetired;
  }

  /** Nobody else touches a host's job, or makes one for it. */
  lemma OthersLeave(s: State, a: Action, k: Key)
    requires a.Serve? || a.k != k
    ensures Leaves(s, Do(s, a), k)
  {
    hide DoTask, DoHandle, DoServe;
    match a
    case Task(x, task) => TaskLeaves(s, x, task, k);
    case Handle(x, work) => if DoHandle(s, x, work) != s { var j := L.HandlerWorks(s, x, work); }
    case Serve(serve) => ServeLeaves(s, serve);
  }

  // ---- one step ----

  /** What one handler step does to the job. */
  ghost predicate Acts(was: Job, now: Job, a: HandlerStep) {
    && L.Worked(was, now)
    && now.work.state == (if a.DoCompute? then a.state else was.work.state)
    && (forall key :: Untimed(Find(now.work.timers.entries, key))
                      == TimerAfter(Untimed(Find(was.work.timers.entries, key)), a, key))
    && (forall key :: Marks(was, now, Touches(a, key), key))
    && (forall m :: m in now.work.delivery.outbox ==> m in was.work.delivery.outbox || a == DoStage(m.to, m.body))
    && now.work.delivery.inbox == was.work.delivery.inbox
  }

  lemma ScheduleActs(was: Job, now: Job, t: Timer<Mark>)
    requires ValidTimes(t)
    requires var e := t.(generation := Mark(was.version, was.work.timers.sequence + 1));
      now == was.(work := was.work.(timers := Published(was.work.timers, was.version,
                                                        Insert(was.work.timers.entries, e))))
    ensures Acts(was, now, DoSchedule(t))
  {
    hide Find, Insert;
    var e := t.(generation := Mark(was.version, was.work.timers.sequence + 1));
    forall key ensures Untimed(Find(now.work.timers.entries, key))
        == TimerAfter(Untimed(Find(was.work.timers.entries, key)), DoSchedule(t), key)
      ensures Marks(was, now, Touches(DoSchedule(t), key), key)
    {
      FindInsert(was.work.timers.entries, e, key);
    }
  }

  lemma CancelActs(was: Job, now: Job, name: bytes)
    requires now == was.(work := was.work.(timers := Published(was.work.timers, was.version,
                                                               Remove(was.work.timers.entries, name))))
    ensures Acts(was, now, DoCancel(name))
  {
    hide Find, Remove;
    forall key ensures Untimed(Find(now.work.timers.entries, key))
        == TimerAfter(Untimed(Find(was.work.timers.entries, key)), DoCancel(name), key)
      ensures Marks(was, now, Touches(DoCancel(name), key), key)
    {
      FindRemove(was.work.timers.entries, name, key);
    }
  }

  lemma NothingActs(was: Job, a: HandlerStep)
    requires a.DoCompute? ==> a.state == was.work.state
    requires a.DoSchedule? ==> !ValidTimes(a.timer)
    requires a.DoCancel? ==> Find(was.work.timers.entries, a.name).None?
    ensures Acts(was, was, a)
  {
    hide Find;
  }

  lemma ComputeActs(was: Job, state: bytes)
    ensures Acts(was, was.(work := was.work.(state := state)), DoCompute(state))
  {
    hide Find;
  }

  /** Sends and their preparations touch nothing but the outbox. */
  lemma SendActs(was: Job, now: Job, a: HandlerStep)
    requires a.DoResolve? || a.DoReadRegistry? || a.DoJoinRegistry? || a.DoStage? || a.DoForget?
    requires L.Worked(was, now) && now.work == was.work.(delivery := now.work.delivery)
    requires now.work.delivery.inbox == was.work.delivery.inbox
    requires forall m :: m in now.work.delivery.outbox ==> m in was.work.delivery.outbox || a == DoStage(m.to, m.body)
    ensures Acts(was, now, a)
  {
    hide Find;
  }

  /** Reading and joining the registry, and resolving a target, leave the work alone. */
  lemma ReadActs(s: State, k: Key, a: HandlerStep)
    requires Working(s, k) && (a.DoResolve? || a.DoReadRegistry? || a.DoJoinRegistry?)
    ensures var t := DoHandle(s, k, a); Working(t, k) && Acts(s.jobs[k], t.jobs[k], a)
  {
    hide Acts;
    SendActs(s.jobs[k], DoHandle(s, k, a).jobs[k], a);
  }

  lemma StageActs(s: State, k: Key, to: Channel, body: bytes)
    requires Working(s, k)
    ensures var t := Stage(s, k, to, body); Working(t, k) && Acts(s.jobs[k], t.jobs[k], DoStage(to, body))
  {
    hide Acts;
    SendActs(s.jobs[k], Stage(s, k, to, body).jobs[k], DoStage(to, body));
  }

  lemma ForgetActs(s: State, k: Key, i: nat)
    requires Working(s, k)
    ensures var t := Forget(s, k, i); Working(t, k) && Acts(s.jobs[k], t.jobs[k], DoForget(i))
  {
    hide Acts;
    SendActs(s.jobs[k], Forget(s, k, i).jobs[k], DoForget(i));
  }

  /** Every step of a working handler does this to its job, whatever the store has become. */
  lemma HandlerActs(s: State, k: Key, a: HandlerStep)
    requires Working(s, k)
    ensures var t := DoHandle(s, k, a); Working(t, k) && Acts(s.jobs[k], t.jobs[k], a)
  {
    hide Find, Insert, Remove, Acts, Staged, Resolve, ReadRegistry, JoinRegistry, Stage, Forget;
    var was := s.jobs[k];
    match a
    case DoSchedule(t) =>
      if ValidTimes(t) { ScheduleActs(was, DoHandle(s, k, a).jobs[k], t); } else { NothingActs(was, a); }
    case DoCancel(name) =>
      if Find(was.work.timers.entries, name).Some? { CancelActs(was, DoHandle(s, k, a).jobs[k], name); }
      else { NothingActs(was, a); }
    case DoCompute(state) => ComputeActs(was, state);
    case DoStage(to, body) => StageActs(s, k, to, body);
    case DoForget(i) => ForgetActs(s, k, i);
    case _ => ReadActs(s, k, a);
  }

  // ---- any run ----

  /** What the handler's steps since have made of a job. */
  ghost predicate Worked(was: Job, now: Job, steps: seq<HandlerStep>) {
    && L.Worked(was, now) && now.work.state == LastState(was.work.state, steps)
    && (forall key :: Untimed(Find(now.work.timers.entries, key))
                      == LastTimer(Untimed(Find(was.work.timers.entries, key)), steps, key))
    && (forall key :: Marks(was, now, Touched(steps, key), key))
    && (forall m :: m in now.work.delivery.outbox ==> m in was.work.delivery.outbox || Staged(steps, m))
    && now.work.delivery.inbox == was.work.delivery.inbox
  }

  lemma WorkedOn(was: Job, mid: Job, now: Job, a: HandlerStep, rest: seq<HandlerStep>)
    requires Acts(was, mid, a) && Worked(mid, now, rest)
    ensures Worked(was, now, [a] + rest)
  {
    hide Find;
    var steps := [a] + rest;
    assert steps[0] == a && steps[1..] == rest;
    forall key ensures Marks(was, now, Touched(steps, key), key) {
      assert Marks(was, mid, Touches(a, key), key) && Marks(mid, now, Touched(rest, key), key);
      TouchedSplit(a, rest, key);
    }
    forall m | m in now.work.delivery.outbox ensures m in was.work.delivery.outbox || Staged(steps, m) {
      if m in mid.work.delivery.outbox {
        if m !in was.work.delivery.outbox { assert steps[0] == DoStage(m.to, m.body); }
      } else {
        var i :| 0 <= i < |rest| && rest[i] == DoStage(m.to, m.body);
        assert steps[i + 1] == rest[i];
      }
    }
  }

  lemma TouchedSplit(a: HandlerStep, rest: seq<HandlerStep>, key: bytes)
    ensures Touched([a] + rest, key) <==> Touches(a, key) || Touched(rest, key)
  {
    var steps := [a] + rest;
    assert steps[0] == a && forall i :: 0 <= i < |rest| ==> steps[i + 1] == rest[i];
  }

  lemma WorkedNot(j: Job)
    ensures Worked(j, j, [])
  {
    hide Find;
  }

  /** Whatever else happens: the job is where its handler's own steps have brought it. */
  lemma {:induction false} HandlersAct(s: State, k: Key, more: seq<Action>)
    requires Working(s, k) && Untasked(more, k)
    ensures var t := Run(s, more); Working(t, k) && Worked(s.jobs[k], t.jobs[k], Mine(more, k))
    decreases more
  {
    hide Do, Worked, Acts;
    if more == [] {
      WorkedNot(s.jobs[k]);
    } else {
      var a, rest := more[0], more[1..];
      var t := Do(s, a);
      if a.Handle? && a.k == k {
        HandleDoes(s, a);
        HandlerActs(s, k, a.work);
        HandlersAct(t, k, rest);
        WorkedOn(s.jobs[k], t.jobs[k], Run(s, more).jobs[k], a.work, Mine(rest, k));
      } else {
        assert !(a.Task? && a.k == k);
        OthersLeave(s, a, k);
        HandlersAct(t, k, rest);
        assert [] + Mine(rest, k) == Mine(rest, k);
      }
    }
  }

  lemma HandleDoes(s: State, a: Action)
    requires a.Handle?
    ensures Do(s, a) == DoHandle(s, a.k, a.work)
  {
    hide DoHandle;
  }

  // ---- what is committed ----

  function Later(a: int, b: int): int { if a < b then b else a }

  /** After the callback the occurrence that fired is advanced from when it was finished, or gone; every other timer is
      as the callback left it. */
  lemma AfterFireAt(ts: Timers<Mark>, version: nat, r: Request, now: int, key: bytes)
    requires r.Fire? && AfterFire(ts, version, r, now).Some?
    ensures var after := AfterFire(ts, version, r, now).value;
      Find(after.entries, key) ==
        if key == r.key && F.Occurs(ts.entries, r) then Advanced(Find(ts.entries, key).value, Later(now, r.due))
        else Find(ts.entries, key)
  {
    hide Insert, Remove, Find, Advanced;
    var found := Find(ts.entries, r.key);
    if F.Occurs(ts.entries, r) {
      F.FindKey(ts.entries, r.key);
      var next := Advanced(found.value, Later(now, r.due));
      if next.None? {
        FindRemove(ts.entries, r.key, key);
      } else {
        AdvancedKey(found.value, Later(now, r.due));
        FindInsert(ts.entries, next.value, key);
      }
    }
  }

  lemma AdvancedKey(t: Timer<Mark>, now: int)
    requires Advanced(t, now).Some?
    ensures Advanced(t, now).value.key == t.key
  {
  }

  /** A message that was not a success counts for nothing but its cursor. */
  predicate Counts(request: Request, reply: Reply) { request.Receive? ==> reply.status == Success }

  /** What the timer under `key` is after the handler's steps, and after its own firing if this was one that the handler
      left alone. */
  function TimerLeft(j: Job, steps: seq<HandlerStep>, now: int, key: bytes): Option<Timer<Mark>> {
    var t := Find(j.work.timers.entries, key);
    if && j.request.Fire? && key == j.request.key && !Touched(steps, key)
       && F.Occurs(j.work.timers.entries, j.request) then
      Untimed(Advanced(t.value, Later(now, j.request.due)))
    else LastTimer(Untimed(t), steps, key)
  }

  /** From every reachable state in which a handler works on the current record, over any continuation: what is prepared
      has the state last computed, every timer as last scheduled or cancelled (the fired one advanced or gone), and no
      message the handler did not stage; a message that was refused leaves all of that as it was. */
  lemma HandlerCounts(actions: seq<Action>, k: Key, more: seq<Action>, reply: Reply, limits: Limits, now: int,
                      key: bytes)
    requires var s := Reached(actions);
      Working(s, k) && k.id in s.store && s.store[k.id].version == s.jobs[k].version && Untasked(more, k)
    requires var t := Run(Reached(actions), more);
      k in t.jobs && Finished(t.jobs[k], reply, limits, now).Some?
    ensures var s := Reached(actions); var t := Run(s, more); var j := s.jobs[k]; var steps := Mine(more, k);
      var left := Prepare(t, k, reply, limits, now);
      && k in left.jobs && left.jobs[k].base == j.base && left.jobs[k].version == j.version
      && var snap := left.jobs[k].work;
         if Counts(j.request, reply) then
           && snap.state == LastState(j.work.state, steps)
           && Untimed(Find(snap.timers.entries, key)) == TimerLeft(j, steps, now, key)
           && (forall m :: m in snap.delivery.outbox ==> m in j.work.delivery.outbox || Staged(steps, m))
         else
           && snap.state == j.start.state && snap.timers == j.start.timers
           && snap.delivery.outbox == j.start.delivery.outbox && snap.delivery.sent == j.start.delivery.sent
  {
    hide Run, Find, Advanced, F.Inv, L.Inv, LastState, LastTimer, Mine, Staged, Touched, Working, Finished;
    F.ReachedInv(actions);
    var s := Reached(actions);
    WorkingAt(s, k);
    F.JobAt(s, k);
    HandlersAct(s, k, more);
    var t := Run(s, more);
    WorkingAt(t, k);
    PreparedCounts(t, k, reply, limits, now, s.jobs[k], Mine(more, k), key);
  }

  lemma WorkingAt(s: State, k: Key)
    requires Working(s, k)
    ensures k in s.jobs && s.jobs[k].phase == Ready && !s.jobs[k].replay && !s.jobs[k].request.Acknowledge?
  {
  }

  lemma PreparedCounts(t: State, k: Key, reply: Reply, limits: Limits, now: int, j: Job, steps: seq<HandlerStep>,
                       key: bytes)
    requires k in t.jobs && t.jobs[k].phase == Ready && !t.jobs[k].replay && Worked(j, t.jobs[k], steps)
    requires Finished(t.jobs[k], reply, limits, now).Some?
    requires j.request.Fire? ==> j.request.generation.Mark? && j.request.generation.version < j.version
    ensures var left := Prepare(t, k, reply, limits, now);
      && k in left.jobs && left.jobs[k].base == j.base && left.jobs[k].version == j.version
      && var snap := left.jobs[k].work;
         if Counts(j.request, reply) then
           && snap.state == LastState(j.work.state, steps)
           && Untimed(Find(snap.timers.entries, key)) == TimerLeft(j, steps, now, key)
           && (forall m :: m in snap.delivery.outbox ==> m in j.work.delivery.outbox || Staged(steps, m))
         else
           && snap.state == j.start.state && snap.timers == j.start.timers
           && snap.delivery.outbox == j.start.delivery.outbox && snap.delivery.sent == j.start.delivery.sent
  {
    hide Find, Advanced, LastState, LastTimer, Staged, Touched, AfterFire, AllDone, Allowed, Committed, Earliest;
    var i := t.jobs[k];
    assert Marks(j, i, Touched(steps, key), key);
    if j.request.Fire? {
      AfterFireAt(i.work.timers, i.version, i.request, now, key);
    }
  }

  // ---- sending and forgetting ----

  /** A live entity with an epoch can be sent to. */
  predicate Listens(s: State, to: Channel) {
    && to.peer in s.store && to.epoch != 0
    && var r := s.store[to.peer].value; !r.destroyed && r.initialized && r.snap.delivery.epoch == to.epoch
  }

  function Before(d: Delivery, to: Channel): nat { if to in d.sent then d.sent[to] else 0 }

  /** The target is resolved and the registry read. */
  lemma Resolves(s: State, k: Key, to: Channel) returns (j: Job)
    requires Working(s, k) && Listens(s, to)
    ensures ReadRegistry(Resolve(s, k, to.peer), k) == SetJob(s, k, j)
    ensures to in j.targets && j.listed == s.registry && j.work == s.jobs[k].work && j.phase == Ready
    ensures j.request == s.jobs[k].request && j.replay == s.jobs[k].replay
  {
    var i := s.jobs[k].(targets := s.jobs[k].targets + {to});
    j := i.(listed := s.registry, registered := i.registered || k.id in s.registry.value);
    assert Resolve(s, k, to.peer) == SetJob(s, k, i);
    assert s.jobs[k := i][k := j] == s.jobs[k := j];
  }

  /** The entity is registered and its message staged. */
  lemma Stages(s: State, k: Key, to: Channel, body: bytes)
    requires Working(s, k) && to in s.jobs[k].targets && s.jobs[k].listed == s.registry
    requires s.jobs[k].work.delivery.epoch != 0
    ensures var t := Stage(JoinRegistry(s, k), k, to, body);
      && Working(t, k) && k.id in t.registry.value && s.registry.value <= t.registry.value
      && var was, now := s.jobs[k].work, t.jobs[k].work;
         && now == was.(delivery := now.delivery) && now.delivery.inbox == was.delivery.inbox
         && now.delivery.outbox
            == was.delivery.outbox + [Message(to, Before(was.delivery, to) + 1, body, false, Reply(Success, []))]
         && now.delivery.sent == was.delivery.sent[to := Before(was.delivery, to) + 1]
  {
    hide JoinRegistry;
    Joins(s, k);
  }

  lemma Joins(s: State, k: Key)
    requires Working(s, k) && s.jobs[k].listed == s.registry
    ensures var t := JoinRegistry(s, k);
      && k in t.jobs && t.jobs[k] == s.jobs[k].(registered := true) && t.registry.value == s.registry.value + {k.id}
  {
  }

  /** An undisturbed send appends the handler's message under the next number of its channel, and its source is
      registered for delivery. */
  lemma SendAppends(s: State, k: Key, to: Channel, body: bytes)
    requires Working(s, k) && Listens(s, to) && s.jobs[k].work.delivery.epoch != 0
    ensures var t := Stage(JoinRegistry(ReadRegistry(Resolve(s, k, to.peer), k), k), k, to, body);
      && Working(t, k) && k.id in t.registry.value && s.registry.value <= t.registry.value
      && var was, now := s.jobs[k].work, t.jobs[k].work;
         && now == was.(delivery := now.delivery) && now.delivery.inbox == was.delivery.inbox
         && now.delivery.outbox
            == was.delivery.outbox + [Message(to, Before(was.delivery, to) + 1, body, false, Reply(Success, []))]
         && now.delivery.sent == was.delivery.sent[to := Before(was.delivery, to) + 1]
  {
    hide Stage, JoinRegistry, ReadRegistry, Resolve;
    var j := Resolves(s, k, to);
    Stages(SetJob(s, k, j), k, to, body);
  }

  /** Forgetting a message that is done removes that message and no other. */
  lemma ForgetRemoves(s: State, k: Key, i: nat)
    requires Working(s, k) && i < |s.jobs[k].work.delivery.outbox|
    ensures var t := Forget(s, k, i); var was, now := s.jobs[k].work.delivery.outbox, t.jobs[k].work.delivery.outbox;
      if was[i].done then
        && |now| == |was| - 1 && (forall x :: 0 <= x < i ==> now[x] == was[x])
        && (forall x :: i <= x < |now| ==> now[x] == was[x + 1])
      else t == s
  {
  }
}
