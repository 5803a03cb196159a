/** Where the timer index looks for an entity: a confirmed entry names the entity's place unless a handoff has come
    since, and a handoff can come while it is being confirmed. */
module Placements {
  import opened Bytes
  import opened TimerState
  import opened Protocol
  import L = Leases
  import F = Firings
  import opened Chains
  import T = TimerIndexes
  import opened Rounds
  import opened Duties
  import W = Workers
  import H = Handlers

  /** What was read at a version is still so, unless a handoff has replaced that version or a later one. */
  predicate Placed(version: nat, placement: bytes, at: Stored<Entity>) {
    version <= at.version && (version > at.value.transfer ==> placement == at.value.placement)
  }

  lemma PlacedLater(version: nat, placement: bytes, at: Stored<Entity>, now: Stored<Entity>)
    requires Placed(version, placement, at) && LaterRecord(at, now)
    ensures Placed(version, placement, now)
  {
  }

  predicate EntryPlaced(e: Entry, at: Stored<Entity>) { !e.pending ==> Placed(e.base, e.placement, at) }

  predicate Shelved(store: map<Id, Stored<Entity>>, entries: map<Id, Entry>) {
    forall id :: id in entries ==> id in store && EntryPlaced(entries[id], store[id])
  }

  predicate ScanPlaced(store: map<Id, Stored<Entity>>, c: Scan) {
    && Shelved(store, c.bucket.value)
    && (c.seen ==> c.id in store && Placed(c.record.version, c.record.value.placement, store[c.id]))
  }

  predicate Inv(s: State) {
    && (forall n :: n in s.index ==> Shelved(s.store, s.index[n].value))
    && (forall w :: w in s.scans ==> ScanPlaced(s.store, s.scans[w]))
    && (forall k :: k in s.jobs && s.jobs[k].phase == Listed ==> Shelved(s.store, s.jobs[k].bucket.value))
  }

  lemma ShelvedLater(s: State, t: State, entries: map<Id, Entry>)
    requires Shelved(s.store, entries) && Later(s, t)
    ensures Shelved(t.store, entries)
  {
    hide LaterRecord, Placed;
    forall id | id in entries ensures id in t.store && EntryPlaced(entries[id], t.store[id]) {
      if !entries[id].pending { PlacedLater(entries[id].base, entries[id].placement, s.store[id], t.store[id]); }
    }
  }

  lemma ScanLater(s: State, t: State, c: Scan)
    requires ScanPlaced(s.store, c) && Later(s, t)
    ensures ScanPlaced(t.store, c)
  {
    hide LaterRecord, Placed, Shelved;
    ShelvedLater(s, t, c.bucket.value);
    if c.seen { PlacedLater(c.record.version, c.record.value.placement, s.store[c.id], t.store[c.id]); }
  }

  /** No job but one that has just read its bucket is about to write it. */
  predicate Fetches(s: State, t: State, k: Key) {
    k in t.jobs && t.jobs[k].phase == Listed ==>
      k in s.jobs && s.jobs[k].phase == Listed && t.jobs[k].bucket == s.jobs[k].bucket
  }

  /** Nothing is read or written but records. */
  lemma KeepStep(s: State, t: State)
    requires Inv(s) && Later(s, t) && t.index == s.index && t.scans == s.scans
    requires forall k :: Fetches(s, t, k)
    ensures Inv(t)
  {
    hide Shelved, ScanPlaced, Later;
    forall n | n in t.index ensures Shelved(t.store, t.index[n].value) { ShelvedLater(s, t, s.index[n].value); }
    forall w | w in t.scans ensures ScanPlaced(t.store, t.scans[w]) { ScanLater(s, t, s.scans[w]); }
    forall k | k in t.jobs && t.jobs[k].phase == Listed ensures Shelved(t.store, t.jobs[k].bucket.value) {
      assert Fetches(s, t, k);
      ShelvedLater(s, t, s.jobs[k].bucket.value);
    }
  }

  lemma BucketShelved(s: State, id: Id)
    requires Inv(s)
    ensures Shelved(s.store, Bucket(s, Shard(id)).value)
  {
    hide Shard, EntryPlaced, ScanPlaced;
  }

  // ---- steps that touch the index ----

  lemma ArmReadStep(s: State, k: Key)
    requires Inv(s)
    ensures Inv(ArmRead(s, k))
  {
    hide Shard, Shelved, ScanPlaced;
    BucketShelved(s, k.id);
  }

  lemma ArmWriteStep(s: State, k: Key)
    requires Inv(s) && T.Inv(s) && L.Inv(s)
    ensures Inv(ArmWrite(s, k))
  {
    hide Inv, Shard, Shelved, T.Inv, L.Inv, L.Fits, L.Sound;
    if k in s.jobs && s.jobs[k].phase == Listed {
      L.JobAt(s, k);
      T.JobAt(s, k);
      var j := s.jobs[k];
      ListedAt(s, k);
      AddPending(s.store, j.bucket.value, k.id, j.entry);
      LeaveOff(s, k, j.(phase := Arming));
      LeaveOff(s, k, j.(phase := Armed));
      ShelfStep(SetJob(s, k, j.(phase := Armed)), Shard(k.id), j.bucket.value[k.id := j.entry]);
    }
  }

  lemma ListedAt(s: State, k: Key)
    requires Inv(s) && k in s.jobs && s.jobs[k].phase == Listed
    ensures Shelved(s.store, s.jobs[k].bucket.value)
  {
    hide Shelved, ScanPlaced;
  }

  lemma LeaveOff(s: State, k: Key, j: Job)
    requires Inv(s) && j.phase != Listed
    ensures Inv(SetJob(s, k, j))
  {
    hide Shelved, ScanPlaced;
  }

  lemma ShelfStep(s: State, shard: nat, entries: map<Id, Entry>)
    requires Inv(s) && Shelved(s.store, entries)
    ensures Inv(WriteBucket(s, shard, entries))
  {
    hide Shelved, ScanPlaced;
  }

  lemma AddPending(store: map<Id, Stored<Entity>>, entries: map<Id, Entry>, id: Id, e: Entry)
    requires Shelved(store, entries) && id in store && e.pending
    ensures Shelved(store, entries[id := e])
  {
  }

  lemma SetScan(s: State, w: nat, c: Scan)
    requires Inv(s) && ScanPlaced(s.store, c)
    ensures Inv(s.(scans := s.scans[w := c])) && Inv(s.(scans := s.scans - {w}))
  {
    hide ScanPlaced, Shelved;
  }

  lemma ScanBucketStep(s: State, w: nat, id: Id)
    requires Inv(s)
    ensures Inv(ScanBucket(s, w, id))
  {
    hide Inv, Shard, Shelved;
    BucketShelved(s, id);
    SetScan(s, w, Scan(id, Bucket(s, Shard(id)), false, Stored(0, NOBODY), map[]));
  }

  lemma ScanRecordStep(s: State, w: nat)
    requires Inv(s) && T.Inv(s)
    ensures Inv(ScanRecord(s, w))
  {
    hide Inv, T.Inv, Shelved, Earliest, Unsettled, Shard;
    if w in s.scans && !s.scans[w].seen {
      T.ScanAt(s, w);
      ScanAt(s, w);
      var c, stored := s.scans[w], s.store[s.scans[w].id];
      var seen := c.(seen := true, record := stored);
      SetScan(s, w, seen.(entries := c.bucket.value - {c.id}));
      SetScan(s, w, seen.(entries := c.bucket.value[c.id := T.Confirmed(stored)]));
    }
  }

  lemma ScanAt(s: State, w: nat)
    requires Inv(s) && w in s.scans
    ensures ScanPlaced(s.store, s.scans[w])
  {
    hide ScanPlaced, Shelved;
  }

  lemma ScanWriteStep(s: State, w: nat)
    requires Inv(s) && T.Inv(s)
    ensures Inv(ScanWrite(s, w))
  {
    hide Shard, T.Inv, Earliest, Unsettled;
    if w in s.scans && s.scans[w].seen {
      T.ScanAt(s, w);
      var c := s.scans[w];
      assert ScanPlaced(s.store, c);
      PlannedShelved(s.store, c);
    }
  }

  lemma PlannedShelved(store: map<Id, Stored<Entity>>, c: Scan)
    requires ScanPlaced(store, c) && c.seen && T.Planned(c)
    ensures Shelved(store, c.entries)
  {
    hide Earliest;
  }

  // ---- every step ----

  lemma DropFetches(s: State, k: Key)
    ensures Fetches(s, Drop(s, k), k)
  {
  }

  lemma LoadFetches(s: State, k: Key, request: Request, time: int, limits: Limits)
    ensures Fetches(s, Load(s, k, request, time, limits), k)
  {
    hide Open, Addressed, Missing, Admitted;
  }

  lemma VerifyFetches(s: State, k: Key)
    ensures Fetches(s, Verify(s, k), k)
  {
    hide StillPending;
  }

  lemma ReuseFetches(s: State, k: Key, timeout: nat, enabled: bool)
    ensures Fetches(s, Reuse(s, k, timeout, enabled), k)
  {
    hide Reusable, Acquiring;
  }

  lemma RenewFetches(s: State, k: Key, timeout: nat, lease: nat)
    ensures Fetches(s, Renew(s, k, timeout, lease), k)
  {
    hide Reusable, Current, Acquiring;
  }

  lemma ConfirmFetches(s: State, k: Key, enabled: bool)
    ensures Fetches(s, Confirm(s, k, enabled), k)
  {
  }

  lemma PrepareFetches(s: State, k: Key, reply: Reply, limits: Limits, now: int)
    ensures Fetches(s, Prepare(s, k, reply, limits, now), k)
  {
    hide Finished, Committed, Earliest;
  }

  lemma ArmCheckFetches(s: State, k: Key)
    ensures Fetches(s, ArmCheck(s, k), k)
  {
    hide Current;
  }

  lemma CommitFetches(s: State, k: Key, clock: int)
    ensures Fetches(s, Commit(s, k, clock), k)
  {
    hide Publishable, Recorded;
  }

  lemma AnswerFetches(s: State, k: Key)
    ensures Fetches(s, Answer(s, k), k)
  {
  }

  lemma ReadReleaseFetches(s: State, k: Key)
    ensures Fetches(s, ReadRelease(s, k), k)
  {
  }

  lemma WriteReleaseFetches(s: State, k: Key)
    ensures Fetches(s, WriteRelease(s, k), k)
  {
    hide Current;
  }

  lemma TaskFetches(s: State, k: Key, a: TaskStep)
    requires !a.DoArmRead? && !a.DoArmWrite?
    ensures Fetches(s, DoTask(s, k, a), k)
  {
    hide Load, Verify, Reuse, Renew, Confirm, Prepare, ArmCheck, Commit, Answer, ReadRelease, WriteRelease, Drop,
         Fetches;
    match a
    case DoLoad(request, time, limits) => LoadFetches(s, k, request, time, limits);
    case DoVerify => VerifyFetches(s, k);
    case DoReuse(timeout, enabled) => ReuseFetches(s, k, timeout, enabled);
    case DoRenew(timeout, lease) => RenewFetches(s, k, timeout, lease);
    case DoConfirm(enabled) => ConfirmFetches(s, k, enabled);
    case DoPrepare(reply, limits, now) => PrepareFetches(s, k, reply, limits, now);
    case DoArmCheck => ArmCheckFetches(s, k);
    case DoCommit(clock) => CommitFetches(s, k, clock);
    case DoAnswer => AnswerFetches(s, k);
    case DoReadRelease => ReadReleaseFetches(s, k);
    case DoWriteRelease => WriteReleaseFetches(s, k);
    case DoDrop => DropFetches(s, k);
  }

  predicate Touches(a: Action) {
    || (a.Task? && (a.task.DoArmRead? || a.task.DoArmWrite?))
    || (a.Serve? && (a.serve.DoScanBucket? || a.serve.DoScanRecord? || a.serve.DoScanWrite?))
  }

  lemma StepFetches(s: State, a: Action, k: Key)
    requires !Touches(a)
    ensures Fetches(s, Do(s, a), k)
  {
    hide DoTask, DoHandle, DoServe;
    if a.Serve? || a.k != k {
      H.OthersLeave(s, a, k);
    } else if a.Task? {
      TaskFetches(s, k, a.task);
    } else if DoHandle(s, k, a.work) != s {
      var j := L.HandlerWorks(s, k, a.work);
    }
  }

  lemma TaskIndex(s: State, k: Key, a: TaskStep)
    requires !a.DoArmRead? && !a.DoArmWrite?
    ensures DoTask(s, k, a).index == s.index && DoTask(s, k, a).scans == s.scans
  {
    hide Load, Verify, Reuse, Renew, Confirm, Prepare, ArmCheck, Answer, ReadRelease, WriteRelease, Recorded;
  }

  lemma ServeIndex(s: State, a: WorkerStep)
    requires !a.DoScanBucket? && !a.DoScanRecord? && !a.DoScanWrite?
    ensures DoServe(s, a).index == s.index && DoServe(s, a).scans == s.scans
  {
    hide Create, JoinLate, Send, ReadRetired, ListRetired, WriteRetired;
  }

  lemma IndexKept(s: State, a: Action)
    requires !Touches(a)
    ensures Do(s, a).index == s.index && Do(s, a).scans == s.scans
  {
    hide DoTask, DoHandle, DoServe;
    match a
    case Task(k, task) => TaskIndex(s, k, task);
    case Handle(k, work) => if DoHandle(s, k, work) != s { var j := L.HandlerWorks(s, k, work); }
    case Serve(serve) => ServeIndex(s, serve);
  }

  /** Every step keeps confirmed entries placed. */
  lemma InvStep(s: State, a: Action)
    requires Inv(s) && T.Inv(s) && L.Inv(s)
    ensures Inv(Do(s, a))
  {
    hide Inv, T.Inv, L.Inv, Later, Fetches, ArmRead, ArmWrite, ScanBucket, ScanRecord, ScanWrite, DoHandle;
    if !Touches(a) {
      LaterStep(s, a);
      IndexKept(s, a);
      forall k ensures Fetches(s, Do(s, a), k) { StepFetches(s, a, k); }
      KeepStep(s, Do(s, a));
    } else if a.Task? {
      ArmReadStep(s, a.k);
      ArmWriteStep(s, a.k);
    } else {
      match a.serve
      case DoScanBucket(w, id) => ScanBucketStep(s, w, id);
      case DoScanRecord(w) => ScanRecordStep(s, w);
      case DoScanWrite(w) => ScanWriteStep(s, w);
    }
  }

  lemma {:induction false} InvRun(s: State, actions: seq<Action>)
    requires Inv(s) && T.Inv(s) && L.Inv(s) && F.Inv(s)
    ensures Inv(Run(s, actions))
    decreases actions
  {
    hide Inv, T.Inv, L.Inv, F.Inv, Do;
    if actions != [] {
      InvStep(s, actions[0]);
      T.InvStep(s, actions[0]);
      F.InvStep(s, actions[0]);
      L.InvStep(s, actions[0]);
      InvRun(Do(s, actions[0]), actions[1..]);
    }
  }

  /** In every reachable store a confirmed entry names the entity's placement, unless a handoff has come since the
      record it was made from: its ticket is then no older than the entry. */
  lemma ConfirmedPlaced(actions: seq<Action>, id: Id)
    requires var b := Bucket(Reached(actions), Shard(id)).value; id in b && !b[id].pending
    ensures var s := Reached(actions); var e := Bucket(s, Shard(id)).value[id];
      && id in s.store && e.base <= s.store[id].version
      && (e.placement == s.store[id].value.placement || e.base <= s.store[id].value.transfer)
  {
    hide Run, Shard, Inv;
    StartInv();
    StartPlaced();
    InvRun(START, actions);
    BucketShelved(Reached(actions), id);
  }

  lemma StartPlaced()
    ensures Inv(START)
  {
  }

  // ---- producers that have lost their record ----

  predicate Starts(a: Action, k: Key) { a.Task? && a.k == k && (a.task.DoLoad? || a.task.DoReadRelease?) }

  /** The job is gone, or waits to arm for a version that has been replaced. */
  predicate Stale(s: State, k: Key) {
    k in s.jobs ==> s.jobs[k].phase == Arming && k.id in s.store && s.jobs[k].version < s.store[k.id].version
  }

  lemma StaleTask(s: State, k: Key, a: TaskStep)
    requires Stale(s, k) && !a.DoLoad? && !a.DoReadRelease?
    ensures var t := DoTask(s, k, a);
      && (k in t.jobs ==> k in s.jobs && t.jobs[k] == s.jobs[k]) && t.index == s.index && t.store == s.store
  {
    hide StillPending, Reusable, Begun, Finished, PreparedJob, Bucket, Shard, Recorded, WriteBucket;
  }

  lemma StaleStep(s: State, a: Action, k: Key)
    requires L.Inv(s) && Stale(s, k) && !Starts(a, k)
    ensures Stale(Do(s, a), k)
  {
    hide L.Inv, DoTask, DoHandle, DoServe, LaterRecord;
    LaterStep(s, a);
    if a.Serve? || a.k != k {
      H.OthersLeave(s, a, k);
      if k in s.jobs { RisesOnly(s.store[k.id], Do(s, a).store[k.id]); }
    } else if a.Task? {
      StaleTask(s, k, a.task);
    } else if DoHandle(s, k, a.work) != s {
      var j := L.HandlerWorks(s, k, a.work);
    }
  }

  lemma RisesOnly(a: Stored<Entity>, b: Stored<Entity>)
    requires LaterRecord(a, b)
    ensures a.version <= b.version
  {
  }

  /** Once its record has moved on, a producer that waits to arm never does: in every continuation it is still waiting
      or gone, and none of its steps writes the index. */
  lemma {:induction false} StaleNeverArms(s: State, more: seq<Action>, k: Key)
    requires L.Inv(s) && Stale(s, k) && forall i :: 0 <= i < |more| ==> !Starts(more[i], k)
    ensures Stale(Run(s, more), k) && L.Inv(Run(s, more))
    decreases more
  {
    hide L.Inv, Do, Stale, Starts;
    if more != [] {
      assert !Starts(more[0], k);
      StaleStep(s, more[0], k);
      L.InvStep(s, more[0]);
      StaleNeverArms(Do(s, more[0]), more[1..], k);
    }
  }

  // ---- a handoff that is scanned before it commits ----

  /** The steps of a handoff up to its commit. */
  function Leaving(k: Key, r: Entity, target: bytes, h: Terms, reply: Reply): seq<Action> {
    [Task(k, DoLoad(Handoff(target), h.time, h.limits))] + Acquisition(k, r, h)
    + [Task(k, DoPrepare(reply, h.limits, h.until))] + ArmSteps(k)
  }

  function Scanning(w: nat, id: Id): seq<Action> {
    [Serve(DoScanBucket(w, id)), Serve(DoScanRecord(w))] + [Serve(DoScanWrite(w))]
  }

  lemma LeavingRun(s: State, k: Key, r: Entity, target: bytes, h: Terms, reply: Reply)
    ensures Run(s, Leaving(k, r, target, h, reply))
      == var taken := Acquire(Load(s, k, Handoff(target), h.time, h.limits), k, r, h);
         AfterArming(Prepare(taken, k, reply, h.limits, h.until), k, true)
  {
    hide Run, Load, Acquire, Acquisition, Prepare, ArmCheck, ArmRead, ArmWrite, ArmSteps;
    var load := [Task(k, DoLoad(Handoff(target), h.time, h.limits))];
    var prepare := [Task(k, DoPrepare(reply, h.limits, h.until))];
    var taken := load + Acquisition(k, r, h);
    RunConcat(s, taken + prepare, ArmSteps(k));
    RunConcat(s, taken, prepare);
    RunConcat(s, load, Acquisition(k, r, h));
    RunOne(s, load[0]);
    AcquisitionRun(Run(s, load), k, r, h);
    RunOne(Run(s, taken), prepare[0]);
    ArmingRun(Run(s, taken + prepare), k);
  }

  lemma ScanningRun(s: State, w: nat, id: Id)
    ensures Run(s, Scanning(w, id)) == ScanWrite(ScanRecord(ScanBucket(s, w, id), w), w)
  {
    hide Run, ScanBucket, ScanRecord, ScanWrite;
    var front := [Serve(DoScanBucket(w, id)), Serve(DoScanRecord(w))];
    RunConcat(s, front, [Serve(DoScanWrite(w))]);
    RunTwo(s, front[0], front[1]);
    RunOne(Run(s, front), Serve(DoScanWrite(w)));
  }

  /** An armed handoff: the record is as it was, and its entry carries the record's own token. */
  predicate ArmedToLeave(s: State, t: State, k: Key, p: Job, target: bytes)
    requires k.id in s.store
  {
    && k in t.jobs && t.jobs[k] == p && p.phase == Armed && p.request == Handoff(target) && k.id in t.store
    && Current(t, k.id, p.version) && p.next.placement == target && p.base == t.store[k.id].value
    && p.next.snap.timers == p.base.snap.timers && !p.next.destroyed
    && t.store == s.store[k.id := t.store[k.id]] && t.store[k.id].value.snap.timers == s.store[k.id].value.snap.timers
    && t.store[k.id].value.placement == s.store[k.id].value.placement && !t.store[k.id].value.destroyed
    && var b := Bucket(t, Shard(k.id)).value; k.id in b && b[k.id].token == t.store[k.id].value.snap.timers.token
  }

  lemma LeavesArmed(s: State, k: Key, h: Terms, target: bytes, reply: Reply) returns (p: Job)
    requires Free(s, k, Handoff(target), h) && Lasting(h) && Duties.Roomy(s, k, Handoff(target), h)
    requires target != [] && !Matches(k.owner, target) && s.store[k.id].version > 0
    requires Unfenced(s, k.id, s.store[k.id].value.fence) && s.store[k.id].value.snap.timers.token != Unmarked
    ensures var t := Run(s, Leaving(k, s.store[k.id].value, target, h, reply));
      ArmedToLeave(s, t, k, p, target) && h.until < p.base.expires
  {
    hide Run, Load, Acquire, Open, Admitted, Committed, Earliest, Shard, Prepare, Acquiring, Matches, AfterArming,
         Leaving, Holds;
    var r, request := s.store[k.id].value, Handoff(target);
    LeavingRun(s, k, r, target, h, reply);
    HandoffDue(k, r, target, h);
    Duties.Opens(s, k, request, h);
    var i := Opened(s, k, request, h);
    var u := SetJob(s, k, i);
    var ready := Acquires(u, k, i, h);
    var v := Acquire(u, k, r, h);
    GrantLasts(k, r, h);
    GrantIndex(u, k, r, h);
    HandedAs(s, k, request, h);
    SameFinish(k, ready, Handed(s, k, request, h), reply, h.limits, h.until);
    p := Prepared(v, k, ready, h, reply, target);
  }

  lemma HandoffDue(k: Key, r: Entity, target: bytes, h: Terms)
    ensures Due(k, r, Handoff(target), h)
  {
  }

  lemma Prepared(v: State, k: Key, j: Job, h: Terms, reply: Reply, target: bytes) returns (q: Job)
    requires k in v.jobs && v.jobs[k] == j && j.phase == Ready && !j.replay && j.request == Handoff(target)
    requires Current(v, k.id, j.version) && v.store[k.id].value == j.base && !j.base.destroyed
    requires Finished(j, reply, h.limits, h.until) == Some(j.work) && j.work.timers == j.base.snap.timers
    requires j.work.timers.token != Unmarked && Unfenced(v, k.id, j.base.fence)
    ensures var t := AfterArming(Prepare(v, k, reply, h.limits, h.until), k, true);
      ArmedToLeave(v, t, k, q, target) && q.base == j.base && t.store == v.store
  {
    hide Finished, PreparedJob, Earliest, Shard, ArmCheck, ArmRead, ArmWrite, Dirty;
    var p := PreparedJob(k, j, j.work, reply);
    PreparedAs(k, j, j.work, reply);
    DirtyLeaves(j);
    var u := SetJob(v, k, p);
    assert Prepare(v, k, reply, h.limits, h.until) == u;
    SameFence(v, u, k.id, j.base.fence);
    Arms(u, k, p);
    q := p.(phase := Armed, bucket := Bucket(u, Shard(k.id)));
  }

  lemma DirtyLeaves(j: Job)
    requires j.request.Handoff? && j.work.timers.token != Unmarked
    ensures Dirty(j, j.work)
  {
  }

  /** From every reachable state: where an entity with timers can be handed off to a node other than its own, a scan
      that comes between arming and committing leaves the entity with the target and a confirmed entry at the old
      place. */
  lemma PlacementLags(actions: seq<Action>, k: Key, h: Terms, target: bytes, reply: Reply, w: nat)
    returns (round: seq<Action>)
    requires var s := Reached(actions);
      && Free(s, k, Handoff(target), h) && Lasting(h) && Duties.Roomy(s, k, Handoff(target), h)
      && target != [] && !Matches(k.owner, target) && s.store[k.id].value.placement != target
      && s.store[k.id].value.snap.timers.entries != []
    ensures var s := Reached(actions); var t := Run(s, round); var b := Bucket(t, Shard(k.id)).value;
      && k.id in t.store && !t.store[k.id].value.destroyed && t.store[k.id].value.placement == target
      && t.store[k.id].value.snap.timers == s.store[k.id].value.snap.timers
      && k.id in b && !b[k.id].pending && b[k.id].placement == s.store[k.id].value.placement != target
  {
    hide Run, Leaving, Scanning, Shard, Earliest, Matches, L.Inv, F.Inv, ScanBucket, ScanRecord, ScanWrite, Unfenced,
         Duties.Roomy, Free;
    var s := Reached(actions);
    FreeAt(s, k, target, h);
    F.ReachedInv(actions);
    L.RecordAt(s, k.id);
    F.RecordAt(s, k.id);
    ReachedUnfenced(actions, k.id);
    var r := s.store[k.id].value;
    var p := LeavesArmed(s, k, h, target, reply);
    var leave, scan, commit := Leaving(k, r, target, h, reply), Scanning(w, k.id), [Task(k, DoCommit(h.until))];
    var t := Run(s, leave);
    W.ScanSettles(t, w, k.id);
    ScanningRun(t, w, k.id);
    var u := Run(t, scan);
    round := leave + scan + commit;
    RunConcat(s, leave + scan, commit);
    RunConcat(s, leave, scan);
    RunOne(u, commit[0]);
    LeavesNow(s, t, u, k, p, target, h);
  }

  lemma FreeAt(s: State, k: Key, target: bytes, h: Terms)
    requires Free(s, k, Handoff(target), h)
    ensures k.id in s.store && !s.store[k.id].value.destroyed
  {
  }

  lemma LeavesNow(s: State, t: State, u: State, k: Key, p: Job, target: bytes, h: Terms)
    requires k.id in s.store && ArmedToLeave(s, t, k, p, target) && u.store == t.store && u.jobs == t.jobs
    requires h.until < p.base.expires && p.next.snap.timers == s.store[k.id].value.snap.timers && !p.next.destroyed
    ensures var v := Commit(u, k, h.until);
      && k.id in v.store && v.store[k.id].value == p.next && v.index == u.index
  {
    hide Shard;
  }
}
