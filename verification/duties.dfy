/** Undisturbed jobs of every kind but messages: from every reachable state a host that may work on an entity carries
    out a call, a due timer, an acceptance, a deactivation, a handoff or a destruction in one go. */
module Duties {
  import opened Bytes
  import opened TimerState
  import opened Protocol
  import L = Leases
  import opened Chains
  import D = Deliveries
  import F = Firings
  import T = TimerIndexes
  import opened Rounds
  import O = Outcomes
  import H = Handlers

  /** The job as its handler gets it. */
  function Handed(s: State, k: Key, request: Request, h: Terms): Job
    requires k.id in s.store
  {
    var at := s.store[k.id];
    Begun(Opened(s, k, request, h), if Holds(k, at.value, h) then at.version else s.revision + 1,
          Granted(k, at.value, h), true)
  }

  function Opened(s: State, k: Key, request: Request, h: Terms): Job
    requires k.id in s.store
  {
    var at := s.store[k.id];
    NewJob(request, Loaded, h.time, at, Opening(false, REPLAYED, at.value.snap), at.value)
  }

  predicate Local(request: Request) { !request.Receive? && !request.Acknowledge? }

  /** The record asks for nothing but the work. */
  predicate Due(k: Key, r: Entity, request: Request, h: Terms) {
    Open(k.id, r, request, h.time, h.limits) == Some(Opening(false, REPLAYED, r.snap))
  }

  /** The discovery entry, if there is one, is not from a later fence. */
  predicate Unfenced(s: State, id: Id, fence: nat) {
    var b := Bucket(s, Shard(id)).value; id in b ==> b[id].fence <= fence
  }

  function ArmSteps(k: Key): seq<Action> { [Task(k, DoArmCheck), Task(k, DoArmRead)] + [Task(k, DoArmWrite)] }

  function Serving(k: Key, r: Entity, request: Request, h: Terms, reply: Reply, dirty: bool): seq<Action> {
    [Task(k, DoLoad(request, h.time, h.limits))] + Acquisition(k, r, h)
    + [Task(k, DoPrepare(reply, h.limits, h.until))]
    + (if dirty then ArmSteps(k) else []) + [Task(k, DoCommit(h.until))]
  }

  lemma ServingBy(k: Key, r: Entity, request: Request, h: Terms, reply: Reply, dirty: bool)
    ensures By(Serving(k, r, request, h, reply, dirty), k, h)
  {
  }

  /** Arming a prepared job puts its entry into the index. */
  lemma Arms(s: State, k: Key, j: Job)
    requires k in s.jobs && s.jobs[k] == j && j.phase == Arming && Current(s, k.id, j.version)
    requires s.store[k.id].value.fence == j.entry.fence && Unfenced(s, k.id, j.entry.fence)
    ensures var b := Bucket(s, Shard(k.id));
      ArmWrite(ArmRead(ArmCheck(s, k), k), k)
        == WriteBucket(SetJob(s, k, j.(phase := Armed, bucket := b)), Shard(k.id), b.value[k.id := j.entry])
  {
    hide Shard;
    var b := Bucket(s, Shard(k.id));
    var checked, listed := j.(phase := Checked), j.(phase := Listed, bucket := b);
    var armed := j.(phase := Armed, bucket := b);
    assert ArmCheck(s, k) == SetJob(s, k, checked);
    assert s.jobs[k := checked][k := listed] == s.jobs[k := listed];
    assert ArmRead(SetJob(s, k, checked), k) == SetJob(s, k, listed);
    assert s.jobs[k := listed][k := armed] == s.jobs[k := armed];
  }

  lemma ArmingRun(s: State, k: Key)
    ensures Run(s, ArmSteps(k)) == ArmWrite(ArmRead(ArmCheck(s, k), k), k)
  {
    hide Run, ArmCheck, ArmRead, ArmWrite;
    RunConcat(s, [Task(k, DoArmCheck), Task(k, DoArmRead)], [Task(k, DoArmWrite)]);
    RunTwo(s, Task(k, DoArmCheck), Task(k, DoArmRead));
    RunOne(Run(s, [Task(k, DoArmCheck), Task(k, DoArmRead)]), Task(k, DoArmWrite));
  }

  /** The prepared job is armed if need be. */
  function AfterArming(s: State, k: Key, dirty: bool): State {
    if dirty then ArmWrite(ArmRead(ArmCheck(s, k), k), k) else s
  }

  lemma ServingRun(s: State, k: Key, r: Entity, request: Request, h: Terms, reply: Reply, dirty: bool)
    ensures Run(s, Serving(k, r, request, h, reply, dirty))
      == var taken := Acquire(Load(s, k, request, h.time, h.limits), k, r, h);
         Commit(AfterArming(Prepare(taken, k, reply, h.limits, h.until), k, dirty), k, h.until)
  {
    hide Run, Load, Acquire, Acquisition, Prepare, Commit, ArmCheck, ArmRead, ArmWrite, ArmSteps;
    var load, prepare := [Task(k, DoLoad(request, h.time, h.limits))], [Task(k, DoPrepare(reply, h.limits, h.until))];
    var arm, commit := if dirty then ArmSteps(k) else [], [Task(k, DoCommit(h.until))];
    var taken := load + Acquisition(k, r, h);
    RunConcat(s, taken + prepare + arm, commit);
    RunConcat(s, taken + prepare, arm);
    RunConcat(s, taken, prepare);
    RunConcat(s, load, Acquisition(k, r, h));
    RunOne(s, load[0]);
    AcquisitionRun(Run(s, load), k, r, h);
    RunOne(Run(s, taken), prepare[0]);
    ArmingRun(Run(s, taken + prepare), k);
    RunNone(Run(s, taken + prepare));
    RunOne(Run(s, taken + prepare + arm), commit[0]);
  }

  lemma RunNone(s: State)
    ensures Run(s, []) == s
  {
  }

  lemma Opens(s: State, k: Key, request: Request, h: Terms)
    requires Free(s, k, request, h) && Local(request) && Addressed(s, k, request)
    requires Due(k, s.store[k.id].value, request, h)
    ensures Load(s, k, request, h.time, h.limits) == SetJob(s, k, Opened(s, k, request, h))
    ensures Acquiring(Opened(s, k, request, h))
  {
    hide Open, Addressed, Admitted, Missing;
  }

  predicate Dirty(j: Job, snap: Snap) {
    || snap.timers != j.start.timers
    || (snap.timers.token != Unmarked && (j.request.Handoff? || j.request.Accept? || j.request.Destroy?))
  }

  lemma PreparedAs(k: Key, j: Job, snap: Snap, reply: Reply)
    ensures var p := PreparedJob(k, j, snap, reply);
      && p.phase == (if Dirty(j, snap) then Arming else Armed) && p.next == Committed(k, j, snap)
      && p.request == j.request && p.version == j.version && p.base == j.base && p.answer == reply
      && p.entry.fence == j.base.fence && p.entry.due == Earliest(snap.timers.entries) && p.entry.pending
      && p.entry.token == snap.timers.token && p.entry.placement == p.next.placement && p.next.fence == j.base.fence
  {
    hide Earliest;
  }

  /** An armed job commits. */
  lemma Commits(s: State, k: Key, p: Job, clock: int)
    requires k in s.jobs && s.jobs[k] == p && p.phase == Armed && Local(p.request)
    requires Current(s, k.id, p.version) && clock < p.base.expires
    ensures var t := Commit(s, k, clock);
      && t.jobs == s.jobs - {k} && t.wire == s.wire && t.acks == s.acks && t.executed == s.executed
      && t.revision == s.revision + 1 && t.store == s.store[k.id := Stored(t.revision, p.next)]
      && t.fired == (if p.request.Fire? then s.fired + {F.FiringOf(k.id, p.request)} else s.fired)
      && t.registry == s.registry && t.index == s.index
  {
  }

  /** The entry of an armed job is in the index. */
  predicate Entered(s: State, id: Id, r: Entity, ts: Timers<Mark>) {
    var b := Bucket(s, Shard(id)).value;
    && id in b && b[id].pending && b[id].token == ts.token && b[id].due == Earliest(ts.entries)
    && b[id].placement == r.placement && b[id].fence == r.fence
  }

  lemma EntryMade(s: State, id: Id, b: Stored<map<Id, Entry>>, e: Entry, r: Entity, ts: Timers<Mark>)
    requires e.pending && e.token == ts.token && e.due == Earliest(ts.entries)
    requires e.placement == r.placement && e.fence == r.fence
    ensures Entered(WriteBucket(s, Shard(id), b.value[id := e]), id, r, ts)
  {
    hide Shard, Earliest;
  }

  lemma SameIndex(s: State, t: State, id: Id, r: Entity, ts: Timers<Mark>)
    requires t.index == s.index && Entered(s, id, r, ts)
    ensures Entered(t, id, r, ts)
  {
    hide Shard, Earliest;
  }

  /** What is prepared is armed if need be, and committed. */
  lemma Finishes(s: State, k: Key, j: Job, h: Terms, reply: Reply)
    requires k in s.jobs && s.jobs[k] == j && j.phase == Ready && !j.replay && Local(j.request)
    requires Finished(j, reply, h.limits, h.until).Some? && Current(s, k.id, j.version) && s.store[k.id].value == j.base
    requires h.until < j.base.expires && Unfenced(s, k.id, j.base.fence)
    ensures var snap := Finished(j, reply, h.limits, h.until).value;
      var t := Commit(AfterArming(Prepare(s, k, reply, h.limits, h.until), k, Dirty(j, snap)), k, h.until);
      && t.jobs == s.jobs - {k} && t.wire == s.wire && t.acks == s.acks && t.executed == s.executed
      && t.revision > s.revision && t.store == s.store[k.id := Stored(t.revision, Committed(k, j, snap))]
      && t.fired == (if j.request.Fire? then s.fired + {F.FiringOf(k.id, j.request)} else s.fired)
      && t.registry == s.registry && (Dirty(j, snap) ==> Entered(t, k.id, Committed(k, j, snap), snap.timers))
  {
    hide Finished, PreparedJob, Committed, Earliest, Shard, Dirty, ArmCheck, ArmRead, ArmWrite, Commit, Entered, Bucket;
    var snap := Finished(j, reply, h.limits, h.until).value;
    var p := PreparedJob(k, j, snap, reply);
    PreparedAs(k, j, snap, reply);
    var u := SetJob(s, k, p);
    assert Prepare(s, k, reply, h.limits, h.until) == u;
    if Dirty(j, snap) {
      var b := Bucket(u, Shard(k.id));
      SameFence(s, u, k.id, j.base.fence);
      Arms(u, k, p);
      var q := p.(phase := Armed, bucket := b);
      var v := WriteBucket(SetJob(u, k, q), Shard(k.id), b.value[k.id := p.entry]);
      EntryMade(SetJob(u, k, q), k.id, b, p.entry, p.next, snap.timers);
      Commits(v, k, q, h.until);
      SameIndex(v, Commit(v, k, h.until), k.id, p.next, snap.timers);
      assert s.jobs[k := p][k := q] - {k} == s.jobs - {k};
    } else {
      Commits(u, k, p, h.until);
      assert s.jobs[k := p] - {k} == s.jobs - {k};
    }
  }

  lemma SameFence(s: State, t: State, id: Id, fence: nat)
    requires t.index == s.index && Unfenced(s, id, fence)
    ensures Unfenced(t, id, fence)
  {
    hide Shard;
  }

  /** One undisturbed job. */
  lemma Serves(s: State, k: Key, request: Request, h: Terms, reply: Reply) returns (round: seq<Action>)
    requires Free(s, k, request, h) && Lasting(h) && Local(request) && Addressed(s, k, request)
    requires var r := s.store[k.id].value; Due(k, r, request, h) && Unfenced(s, k.id, r.fence)
    requires Finished(Handed(s, k, request, h), reply, h.limits, h.until).Some?
    ensures By(round, k, h)
    ensures var j := Handed(s, k, request, h); var snap := Finished(j, reply, h.limits, h.until).value;
      var t := Run(s, round);
      && t.jobs == s.jobs && t.wire == s.wire && t.acks == s.acks && t.executed == s.executed
      && t.revision > s.revision && t.store == s.store[k.id := Stored(t.revision, Committed(k, j, snap))]
      && t.fired == (if request.Fire? then s.fired + {F.FiringOf(k.id, request)} else s.fired)
      && t.registry == s.registry && (Dirty(j, snap) ==> Entered(t, k.id, Committed(k, j, snap), snap.timers))
  {
    hide Run, Load, Acquire, Open, Addressed, Admitted, Finished, Committed, Earliest, Shard, Dirty, AfterArming,
         Prepare, Commit, Serving, By, Due, Acquiring, Entered;
    var r := s.store[k.id].value;
    var j := Handed(s, k, request, h);
    var snap := Finished(j, reply, h.limits, h.until).value;
    round := Serving(k, r, request, h, reply, Dirty(j, snap));
    ServingBy(k, r, request, h, reply, Dirty(j, snap));
    ServingRun(s, k, r, request, h, reply, Dirty(j, snap));
    Opens(s, k, request, h);
    var i := Opened(s, k, request, h);
    var u := SetJob(s, k, i);
    var ready := Acquires(u, k, i, h);
    var v := Acquire(u, k, r, h);
    GrantLasts(k, r, h);
    SameFinish(k, ready, j, reply, h.limits, h.until);
    GrantIndex(u, k, r, h);
    Finishes(v, k, ready, h, reply);
    assert s.jobs[k := i][k := ready] - {k} == s.jobs;
  }

  lemma SameFinish(k: Key, a: Job, b: Job, reply: Reply, limits: Limits, now: int)
    requires a == b.(next := a.next)
    ensures Finished(a, reply, limits, now) == Finished(b, reply, limits, now)
    ensures forall snap :: Committed(k, a, snap) == Committed(k, b, snap) && Dirty(a, snap) == Dirty(b, snap)
  {
    hide AfterFire, AllDone, Allowed;
  }

  lemma GrantIndex(s: State, k: Key, r: Entity, h: Terms)
    ensures var t := Acquire(s, k, r, h); t.index == s.index && t.registry == s.registry && t.fired == s.fired
    ensures Granted(k, r, h).fence >= r.fence
  {
    hide Reuse, Renew, Confirm, Holds;
  }

  // ---- from every reachable state ----

  lemma IndexInv(actions: seq<Action>)
    ensures T.Inv(Reached(actions))
  {
    hide Run, Shard;
    StartInv();
    T.InvRun(START, actions);
  }

  lemma ReachedUnfenced(actions: seq<Action>, id: Id)
    requires id in Reached(actions).store
    ensures Unfenced(Reached(actions), id, Reached(actions).store[id].value.fence)
  {
    hide Run, Shard, T.Inv;
    IndexInv(actions);
    T.ShelfVersion(Reached(actions), id);
  }

  /** The record is under the lease that was granted, with another snapshot; its delivery state has an epoch now. */
  predicate Carried(k: Key, was: Entity, now: Entity, h: Terms) {
    && now == Granted(k, was, h).(initialized := true, snap := now.snap) && Aged(was.snap.delivery, now.snap.delivery)
  }

  predicate Aged(was: Delivery, now: Delivery) {
    && now == was.(epoch := now.epoch) && now.epoch != 0 && (was.epoch != 0 ==> now.epoch == was.epoch)
  }

  lemma HandedAs(s: State, k: Key, request: Request, h: Terms)
    requires k.id in s.store && s.store[k.id].version > 0
    ensures var j, was := Handed(s, k, request, h), s.store[k.id].value;
      && j.request == request && !j.replay && j.work == j.start && j.base == Granted(k, was, h)
      && j.work == was.snap.(delivery := j.work.delivery) && Aged(was.snap.delivery, j.work.delivery)
  {
  }

  /** The delivery state the job starts with is one its host publishes. */
  predicate Roomy(s: State, k: Key, request: Request, h: Terms)
    requires k.id in s.store
  {
    Allowed(Handed(s, k, request, h).work.delivery, h.limits)
  }

  /** A call whose handler changes nothing. */
  lemma CallCompletes(actions: seq<Action>, k: Key, h: Terms, reply: Reply) returns (round: seq<Action>)
    requires var s := Reached(actions); Free(s, k, Call, h) && Lasting(h) && Roomy(s, k, Call, h)
    ensures By(round, k, h)
    ensures var s := Reached(actions); var t := Run(s, round);
      && t.jobs == s.jobs && k.id in t.store && t.store == s.store[k.id := t.store[k.id]] && t.fired == s.fired
      && var was, now := s.store[k.id].value, t.store[k.id].value;
         && Carried(k, was, now, h) && now.snap.state == was.snap.state && now.snap.timers == was.snap.timers
  {
    hide Run, Granted, Holds, Handed, Unfenced, L.Inv, By, Admitted;
    var s := Reached(actions);
    StartInv();
    LaterRun(START, actions);
    L.RecordAt(s, k.id);
    ReachedUnfenced(actions, k.id);
    HandedAs(s, k, Call, h);
    GrantLasts(k, s.store[k.id].value, h);
    round := Serves(s, k, Call, h, reply);
  }

  /** A timer that is due is fired: its callback's result is committed, the occurrence is on record as fired, and the
      timer is advanced from when the callback was done, or gone if that was its last time. */
  lemma FireCompletes(actions: seq<Action>, k: Key, h: Terms, reply: Reply, f: Request) returns (round: seq<Action>)
    requires var s := Reached(actions);
      && f.Fire? && Free(s, k, f, h) && Lasting(h) && Roomy(s, k, f, h)
      && F.Occurs(s.store[k.id].value.snap.timers.entries, f) && f.due <= h.time
    ensures By(round, k, h)
    ensures var s := Reached(actions); var t := Run(s, round);
      && t.jobs == s.jobs && k.id in t.store && t.store == s.store[k.id := t.store[k.id]]
      && t.fired == s.fired + {F.FiringOf(k.id, f)}
      && var was, now := s.store[k.id].value, t.store[k.id].value;
         && Carried(k, was, now, h) && now.snap.state == was.snap.state && Entered(t, k.id, now, now.snap.timers)
         && (forall key :: Find(now.snap.timers.entries, key) ==
               if key == f.key then Advanced(Find(was.snap.timers.entries, key).value, H.Later(h.until, f.due))
               else Find(was.snap.timers.entries, key))
  {
    hide Run, Granted, Holds, Handed, Unfenced, L.Inv, By, Admitted, Find, Advanced, AfterFire, Entered, O.Inv;
    var s := Reached(actions);
    StartInv();
    LaterRun(START, actions);
    L.RecordAt(s, k.id);
    ReachedUnfenced(actions, k.id);
    HandedAs(s, k, f, h);
    GrantLasts(k, s.store[k.id].value, h);
    TimerFires(actions, k, f, h);
    var j := Handed(s, k, f, h);
    round := Serves(s, k, f, h, reply);
    var ts := AfterFire(j.work.timers, j.version, f, h.until).value;
    forall key ensures Find(ts.entries, key) ==
        if key == f.key then Advanced(Find(j.work.timers.entries, key).value, H.Later(h.until, f.due))
        else Find(j.work.timers.entries, key)
    {
      H.AfterFireAt(j.work.timers, j.version, f, h.until, key);
    }
  }

  /** The occurrence is in the record and due, so that it is neither a replay nor invalid. */
  lemma TimerFires(actions: seq<Action>, k: Key, f: Request, h: Terms)
    requires f.Fire? && k.id in Reached(actions).store && f.due <= h.time
    requires F.Occurs(Reached(actions).store[k.id].value.snap.timers.entries, f)
    ensures var s := Reached(actions); var ts := s.store[k.id].value.snap.timers;
      && Due(k, s.store[k.id].value, f, h)
      && forall version, now ::
           AfterFire(ts, version, f, now).Some? && AfterFire(ts, version, f, now).value != ts
  {
    hide Run, Find, Insert, Remove, Advanced, O.Inv;
    O.ReachedInv(actions);
    var s := Reached(actions);
    O.RecordAt(s, k.id);
    F.FindIn(s.store[k.id].value.snap.timers.entries, f.key);
  }

  // ---- handoff, deactivation and destruction ----

  /** Nobody owns the record, and its lease is over by every clock. */
  predicate Released(r: Entity) { r.owner == [] && r.expires == 0 && !r.destroyed }

  /** A released record can be worked on at once by any host its placement allows, and by no other. */
  lemma ReleasedFree(s: State, k: Key, h: Terms)
    requires k !in s.jobs && k.owner != [] && k.id in s.store && Released(s.store[k.id].value) && 0 <= h.time
    requires s.store[k.id].value.fence < INT64_MAX - 1
    ensures var r := s.store[k.id].value;
      && (Free(s, k, Call, h) <==> r.placement == [] || Matches(k.owner, r.placement))
      && (Free(s, k, Call, h) ==> k in Load(s, k, Call, h.time, h.limits).jobs)
      && (!Free(s, k, Call, h) ==> Load(s, k, Call, h.time, h.limits) == s)
  {
    hide Matches;
  }

  /** Every committed handoff or deactivation releases the record at once, as does a release without a hook. */
  lemma CommitReleases(actions: seq<Action>, k: Key, clock: int)
    requires var s := Reached(actions); k in s.jobs
    ensures var s := Reached(actions); var j, t := s.jobs[k], Commit(s, k, clock);
      Control(j.request) && !j.request.Destroy? && t.store != s.store ==>
        k.id in t.store && Released(t.store[k.id].value)
    ensures var s := Reached(actions); var t := WriteRelease(s, k);
      t.store != s.store ==>
        && k.id in s.store && k.id in t.store
        && t.store[k.id].value == s.store[k.id].value.(owner := [], expires := 0)
  {
    hide Run, L.Inv, L.Started, L.Entitled, Commit, WriteRelease;
    StartInv();
    LaterRun(START, actions);
    var s := Reached(actions);
    L.JobAt(s, k);
    if Commit(s, k, clock).store != s.store { CommitStores(s, k, clock); }
    if WriteRelease(s, k).store != s.store { ReleaseStores(s, k); }
  }

  lemma ReleaseStores(s: State, k: Key)
    requires k in s.jobs && WriteRelease(s, k).store != s.store
    ensures s.jobs[k].phase == Releasing && Current(s, k.id, s.jobs[k].version)
    ensures WriteRelease(s, k).store == s.store[k.id := Stored(s.revision + 1, s.jobs[k].next)]
  {
  }

  /** A deactivation leaves the record as it was, with nobody owning it. */
  lemma DeactivateCompletes(actions: seq<Action>, k: Key, h: Terms, reply: Reply) returns (round: seq<Action>)
    requires var s := Reached(actions); Free(s, k, Deactivate, h) && Lasting(h) && Roomy(s, k, Deactivate, h)
    ensures By(round, k, h)
    ensures var s := Reached(actions); var t := Run(s, round);
      && t.jobs == s.jobs && k.id in t.store && t.store == s.store[k.id := t.store[k.id]]
      && var was, now := s.store[k.id].value, t.store[k.id].value;
         && Released(now) && now.initialized == was.initialized && now.placement == was.placement
         && now.transfer == was.transfer && now.snap.state == was.snap.state && now.snap.timers == was.snap.timers
         && Aged(was.snap.delivery, now.snap.delivery)
  {
    hide Run, Holds, Handed, Unfenced, L.Inv, By, Admitted;
    var s := Reached(actions);
    StartInv();
    LaterRun(START, actions);
    L.RecordAt(s, k.id);
    ReachedUnfenced(actions, k.id);
    HandedAs(s, k, Deactivate, h);
    GrantLasts(k, s.store[k.id].value, h);
    round := Serves(s, k, Deactivate, h, reply);
  }

  /** An entity with nothing left to deliver is destroyed: only the tombstone stays. */
  lemma DestroyCompletes(actions: seq<Action>, k: Key, h: Terms, reply: Reply) returns (round: seq<Action>)
    requires var s := Reached(actions);
      && Free(s, k, Destroy, h) && Lasting(h) && Roomy(s, k, Destroy, h)
      && AllDone(s.store[k.id].value.snap.delivery.outbox)
    ensures By(round, k, h)
    ensures var s := Reached(actions); var t := Run(s, round);
      && t.jobs == s.jobs && k.id in t.store && t.store == s.store[k.id := t.store[k.id]]
      && var was, now := s.store[k.id].value, t.store[k.id].value;
         now.destroyed && now.owner == [] && now.snap == EMPTY && now.placement == was.placement
  {
    hide Run, Holds, Handed, Unfenced, L.Inv, By, Admitted;
    var s := Reached(actions);
    StartInv();
    LaterRun(START, actions);
    L.RecordAt(s, k.id);
    ReachedUnfenced(actions, k.id);
    HandedAs(s, k, Destroy, h);
    GrantLasts(k, s.store[k.id].value, h);
    round := Serves(s, k, Destroy, h, reply);
  }

  /** The first half of a handoff: the record is placed with the target, released, and carries a new ticket. */
  lemma HandoffReleases(actions: seq<Action>, k: Key, h: Terms, target: bytes, reply: Reply)
    returns (round: seq<Action>)
    requires var s := Reached(actions);
      && Free(s, k, Handoff(target), h) && Lasting(h) && Roomy(s, k, Handoff(target), h)
      && target != [] && !Matches(k.owner, target)
    ensures By(round, k, h)
    ensures var s := Reached(actions); var t := Run(s, round);
      && t.jobs == s.jobs && k.id in t.store && t.store == s.store[k.id := t.store[k.id]]
      && var was, now := s.store[k.id].value, t.store[k.id].value;
         && Released(now) && now.placement == target && now.transfer > was.transfer
         && now.fence == Granted(k, was, h).fence && now.initialized == was.initialized
         && (was.snap.timers.token != Unmarked ==> Entered(t, k.id, now, now.snap.timers))
         && now.snap.state == was.snap.state && now.snap.timers == was.snap.timers
         && Aged(was.snap.delivery, now.snap.delivery)
  {
    hide Run, Holds, Unfenced, L.Inv, By, Admitted, Matches;
    var s := Reached(actions);
    StartInv();
    LaterRun(START, actions);
    L.RecordAt(s, k.id);
    ReachedUnfenced(actions, k.id);
    HandedAs(s, k, Handoff(target), h);
    GrantLasts(k, s.store[k.id].value, h);
    round := Serves(s, k, Handoff(target), h, reply);
  }

  /** The second half: a host of the target that brings the ticket takes the entity over as it is. */
  lemma AcceptTakes(actions: seq<Action>, k: Key, h: Terms, ticket: nat, reply: Reply) returns (round: seq<Action>)
    requires var s := Reached(actions);
      Free(s, k, Accept(ticket), h) && Lasting(h) && Roomy(s, k, Accept(ticket), h)
    ensures By(round, k, h)
    ensures var s := Reached(actions); var t := Run(s, round);
      && t.jobs == s.jobs && k.id in t.store && t.store == s.store[k.id := t.store[k.id]]
      && var was, now := s.store[k.id].value, t.store[k.id].value;
         && Carried(k, was, now, h) && now.snap.state == was.snap.state && now.snap.timers == was.snap.timers
         && now.owner == k.owner
  {
    hide Run, Holds, Granted, Handed, Unfenced, L.Inv, By, Admitted, Matches;
    var s := Reached(actions);
    StartInv();
    LaterRun(START, actions);
    L.RecordAt(s, k.id);
    ReachedUnfenced(actions, k.id);
    HandedAs(s, k, Accept(ticket), h);
    GrantLasts(k, s.store[k.id].value, h);
    round := Serves(s, k, Accept(ticket), h, reply);
  }

  /** The delivery state is within the host's limits whatever its epoch. */
  predicate Small(d: Delivery, limits: Limits) {
    |d.outbox| <= limits.messages && |d.inbox| <= limits.channels && |d.sent| <= limits.channels && limits.room
  }

  lemma SmallRoomy(s: State, k: Key, request: Request, h: Terms)
    requires k.id in s.store && s.store[k.id].version > 0 && Small(s.store[k.id].value.snap.delivery, h.limits)
    ensures Roomy(s, k, request, h)
  {
    hide Handed;
    HandedAs(s, k, request, h);
  }

  /** From every reachable state: a handoff and its acceptance, each undisturbed, move the entity with its state, timers
      and messages to a host of the target, and the host it came from is shut out. */
  lemma HandoffCompletes(actions: seq<Action>, a: Key, ha: Terms, b: Key, hb: Terms, target: bytes, reply: Reply)
    returns (give: seq<Action>, take: seq<Action>)
    requires var s := Reached(actions);
      && Free(s, a, Handoff(target), ha) && Lasting(ha) && target != [] && !Matches(a.owner, target)
      && b.id == a.id && b !in s.jobs && b.owner != [] && Matches(b.owner, target) && Lasting(hb) && 0 <= hb.time
      && Granted(a, s.store[a.id].value, ha).fence < INT64_MAX - 1
      && Small(s.store[a.id].value.snap.delivery, ha.limits) && Small(s.store[a.id].value.snap.delivery, hb.limits)
    ensures By(give, a, ha) && By(take, b, hb)
    ensures var s := Reached(actions); var t := Run(s, give + take);
      && t.jobs == s.jobs && a.id in t.store && t.store == s.store[a.id := t.store[a.id]]
      && var was, now := s.store[a.id].value, t.store[a.id].value;
         && now.owner == b.owner && now.placement == target && now.transfer > was.transfer && now.initialized
         && now.snap.state == was.snap.state && now.snap.timers == was.snap.timers
         && Aged(was.snap.delivery, now.snap.delivery)
         && (forall request, h: Terms :: !Free(t, a, request, h))
  {
    hide Run, By, Matches, L.Inv, Roomy;
    var s := Reached(actions);
    StartInv();
    LaterRun(START, actions);
    L.RecordAt(s, a.id);
    SmallRoomy(s, a, Handoff(target), ha);
    give := HandoffReleases(actions, a, ha, target, reply);
    RunConcat(START, actions, give);
    var u := Reached(actions + give);
    assert u == Run(s, give);
    LaterRun(START, actions + give);
    L.RecordAt(u, a.id);
    var ticket := u.store[a.id].value.transfer;
    assert Free(u, b, Accept(ticket), hb);
    SmallRoomy(u, b, Accept(ticket), hb);
    take := AcceptTakes(actions + give, b, hb, ticket, reply);
    RunConcat(s, give, take);
  }
}
