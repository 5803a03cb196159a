/** Each timer occurrence has at most one committed firing, whatever is retried, cancelled, rescheduled or taken over.
    */
module Firings {
  import opened Bytes
  import opened TimerState
  import opened Protocol
  import L = Leases
  import Chains

  // ---- marks ----

  /** Every mark in these timers was made by a job at a version below `limit`. */
  predicate MadeBefore(ts: Timers<Mark>, limit: nat) {
    && (ts.token.Mark? ==> ts.token.version < limit) && (ts.entries != [] ==> ts.token.Mark?)
    && forall t :: t in ts.entries ==> t.generation.Mark? && t.generation.version < limit
  }

  /** The occurrence is over: its key is free, belongs to another generation, or is due later. */
  predicate Over(es: seq<Timer<Mark>>, f: Firing) {
    var t := Find(es, f.key);
    t.Some? && t.value.generation == f.generation ==> t.value.due > f.due
  }

  /** The occurrence is over or still the one its key is waiting for. */
  predicate NotBehind(es: seq<Timer<Mark>>, f: Firing) {
    var t := Find(es, f.key);
    t.Some? && t.value.generation == f.generation ==> t.value.due >= f.due
  }

  predicate AllOver(es: seq<Timer<Mark>>, id: Id, fired: set<Firing>) {
    forall f :: f in fired && f.id == id ==> Over(es, f)
  }

  predicate MarkedBefore(id: Id, fired: set<Firing>, limit: nat) {
    forall f :: f in fired && f.id == id ==> f.generation.Mark? && f.generation.version < limit
  }

  predicate Occurs(es: seq<Timer<Mark>>, r: Request)
    requires r.Fire?
  {
    var t := Find(es, r.key);
    t.Some? && t.value.generation == r.generation && t.value.due == r.due
  }

  function FiringOf(id: Id, r: Request): Firing
    requires r.Fire?
  {
    Firing(id, r.key, r.generation, r.due)
  }

  // ---- the invariant ----

  predicate RecordTicks(id: Id, at: Stored<Entity>, fired: set<Firing>) {
    && MadeBefore(at.value.snap.timers, at.version) && AllOver(at.value.snap.timers.entries, id, fired)
    && MarkedBefore(id, fired, at.version)
  }

  /** A job level with its record keeps every past occurrence over, and its own one too once it is decided. */
  predicate JobTicks(k: Key, j: Job, at: Stored<Entity>, fired: set<Firing>) {
    && (j.request.Fire? && !j.replay ==> Occurs(j.base.snap.timers.entries, j.request))
    && (L.Owning(j.phase) && j.version == at.version ==>
          && MadeBefore(j.work.timers, j.version + 1) && AllOver(j.work.timers.entries, k.id, fired)
          && (j.request.Fire? && !j.replay ==>
                && j.request.generation.Mark? && j.request.generation.version < j.version
                && NotBehind(j.work.timers.entries, FiringOf(k.id, j.request)))
          && (L.Decided(j.phase) && j.request.Fire? && !j.replay ==>
                Over(j.work.timers.entries, FiringOf(k.id, j.request)))
          && (L.Decided(j.phase) ==> !j.replay))
  }

  predicate Inv(s: State) {
    && (forall id :: id in s.store ==> RecordTicks(id, s.store[id], s.fired))
    && (forall f :: f in s.fired ==> f.id in s.store)
    && (forall k :: k in s.jobs && k.id in s.store ==> JobTicks(k, s.jobs[k], s.store[k.id], s.fired))
  }

  lemma JobAt(s: State, k: Key)
    requires Inv(s) && k in s.jobs && k.id in s.store
    ensures JobTicks(k, s.jobs[k], s.store[k.id], s.fired) && RecordTicks(k.id, s.store[k.id], s.fired)
  {
    hide JobTicks, RecordTicks;
  }

  lemma RecordAt(s: State, id: Id)
    requires Inv(s) && id in s.store
    ensures RecordTicks(id, s.store[id], s.fired)
  {
    hide JobTicks, RecordTicks;
  }

  lemma OtherStep(s: State, t: State)
    requires Inv(s) && t.store == s.store && t.jobs == s.jobs && t.fired == s.fired
    ensures Inv(t)
  {
    hide JobTicks, RecordTicks;
  }

  lemma DropStep(s: State, k: Key)
    requires Inv(s)
    ensures Inv(Drop(s, k))
  {
    hide JobTicks, RecordTicks;
  }

  lemma SetStep(s: State, k: Key, j: Job)
    requires Inv(s) && k.id in s.store && JobTicks(k, j, s.store[k.id], s.fired)
    ensures Inv(SetJob(s, k, j))
  {
    hide JobTicks, RecordTicks;
  }

  // ---- the edits of a handler ----

  lemma {:induction false} InsertIn(es: seq<Timer<Mark>>, t: Timer<Mark>, x: Timer<Mark>)
    requires x in Insert(es, t)
    ensures x == t || x in es
    decreases es
  {
    hide Less;
    if es != [] && x != t && !Less(t.key, es[0].key) && es[0].key != t.key && x != es[0] { InsertIn(es[1..], t, x); }
  }

  lemma {:induction false} RemoveIn(es: seq<Timer<Mark>>, key: bytes, x: Timer<Mark>)
    requires x in Remove(es, key)
    ensures x in es
    decreases es
  {
    if es != [] && x != es[0] { RemoveIn(es[1..], key, x); }
  }

  lemma {:induction false} FindIn(es: seq<Timer<Mark>>, key: bytes)
    requires Find(es, key).Some?
    ensures Find(es, key).value in es
    decreases es
  {
    if es[0].key != key { FindIn(es[1..], key); }
  }

  /** A timer of a new generation, or one that is due later, keeps past occurrences over. */
  lemma InsertOver(es: seq<Timer<Mark>>, t: Timer<Mark>, f: Firing)
    requires Over(es, f)
    requires t.generation == f.generation && t.key == f.key ==> t.due > f.due
    ensures Over(Insert(es, t), f)
  {
    hide Find, Insert;
    FindInsert(es, t, f.key);
  }

  lemma InsertNotBehind(es: seq<Timer<Mark>>, t: Timer<Mark>, f: Firing)
    requires NotBehind(es, f) && t.generation != f.generation
    ensures NotBehind(Insert(es, t), f)
  {
    hide Find, Insert;
    FindInsert(es, t, f.key);
  }

  lemma RemoveOver(es: seq<Timer<Mark>>, key: bytes, f: Firing)
    ensures Over(es, f) ==> Over(Remove(es, key), f)
    ensures NotBehind(es, f) ==> NotBehind(Remove(es, key), f)
  {
    hide Find, Remove;
    FindRemove(es, key, f.key);
  }

  lemma ScheduleTicks(k: Key, j: Job, at: Stored<Entity>, fired: set<Firing>, t: Timer<Mark>)
    requires JobTicks(k, j, at, fired) && RecordTicks(k.id, at, fired) && j.phase == Ready
    requires t.generation == Mark(j.version, j.work.timers.sequence + 1)
    ensures var ts := Published(j.work.timers, j.version, Insert(j.work.timers.entries, t));
      JobTicks(k, j.(work := j.work.(timers := ts)), at, fired)
  {
    hide Insert, Find;
    var es := j.work.timers.entries;
    if j.version == at.version {
      forall x | x in Insert(es, t) ensures x.generation.Mark? && x.generation.version < j.version + 1 {
        InsertIn(es, t, x);
      }
      forall f | f in fired && f.id == k.id ensures Over(Insert(es, t), f) { InsertOver(es, t, f); }
      if j.request.Fire? && !j.replay { InsertNotBehind(es, t, FiringOf(k.id, j.request)); }
    }
  }

  lemma CancelTicks(k: Key, j: Job, at: Stored<Entity>, fired: set<Firing>, key: bytes)
    requires JobTicks(k, j, at, fired) && j.phase == Ready
    ensures var ts := Published(j.work.timers, j.version, Remove(j.work.timers.entries, key));
      JobTicks(k, j.(work := j.work.(timers := ts)), at, fired)
  {
    hide Remove, Find;
    var es := j.work.timers.entries;
    if j.version == at.version {
      forall x | x in Remove(es, key) ensures x in es { RemoveIn(es, key, x); }
      forall f | f in fired && f.id == k.id ensures Over(Remove(es, key), f) { RemoveOver(es, key, f); }
      if j.request.Fire? { RemoveOver(es, key, FiringOf(k.id, j.request)); }
    }
  }

  lemma WorkTicks(k: Key, j: Job, now: Job, at: Stored<Entity>, fired: set<Firing>)
    requires JobTicks(k, j, at, fired) && j.phase == Ready && L.Worked(j, now) && now.work.timers == j.work.timers
    ensures JobTicks(k, now, at, fired)
  {
    hide MadeBefore, AllOver, Over, Occurs;
  }

  lemma HandlerStep(s: State, k: Key, a: HandlerStep)
    requires Inv(s) && L.Inv(s)
    ensures Inv(DoHandle(s, k, a))
  {
    hide Inv, L.Inv, JobTicks, RecordTicks, L.Fits, L.Sound, Insert, Remove, Find;
    var t := DoHandle(s, k, a);
    if t != s {
      var j := L.HandlerWorks(s, k, a);
      L.JobAt(s, k);
      JobAt(s, k);
      HandlerTimers(s, k, a, j);
      SetStep(s, k, j);
      OtherStep(SetJob(s, k, j), t);
    }
  }

  lemma HandlerTimers(s: State, k: Key, a: HandlerStep, j: Job)
    requires DoHandle(s, k, a) != s && k in s.jobs && s.jobs[k].phase == Ready && k.id in s.store
    requires DoHandle(s, k, a).jobs == SetJob(s, k, j).jobs && L.Worked(s.jobs[k], j)
    requires JobTicks(k, s.jobs[k], s.store[k.id], s.fired) && RecordTicks(k.id, s.store[k.id], s.fired)
    ensures JobTicks(k, j, s.store[k.id], s.fired)
  {
    hide JobTicks, RecordTicks, Insert, Remove, Find;
    var was, at := s.jobs[k], s.store[k.id];
    assert j == DoHandle(s, k, a).jobs[k];
    match a
    case DoSchedule(timer) =>
      ScheduleTicks(k, was, at, s.fired, timer.(generation := Mark(was.version, was.work.timers.sequence + 1)));
    case DoCancel(name) => CancelTicks(k, was, at, s.fired, name);
    case _ => WorkTicks(k, was, j, at, s.fired);
  }

  // ---- firing ----

  /** After the callback, the occurrence that fired is over. */
  lemma AfterFireOver(ts: Timers<Mark>, version: nat, id: Id, r: Request, now: int, fired: set<Firing>)
    requires r.Fire? && AfterFire(ts, version, r, now).Some? && AllOver(ts.entries, id, fired)
    requires MadeBefore(ts, version + 1) && NotBehind(ts.entries, FiringOf(id, r))
    ensures var after := AfterFire(ts, version, r, now).value;
      Over(after.entries, FiringOf(id, r)) && AllOver(after.entries, id, fired) && MadeBefore(after, version + 1)
  {
    hide Insert, Remove, Find, Advanced;
    var found := Find(ts.entries, r.key);
    if found.Some? && found.value.generation == r.generation && found.value.due == r.due {
      var t := found.value;
      var at := if now < r.due then r.due else now;
      var f := FiringOf(id, r);
      FindIn(ts.entries, r.key);
      FindKey(ts.entries, r.key);
      if Advanced(t, at).None? {
        FindRemove(ts.entries, r.key, r.key);
        forall g | g in fired && g.id == id ensures Over(Remove(ts.entries, r.key), g) {
          RemoveOver(ts.entries, r.key, g);
        }
        forall x | x in Remove(ts.entries, r.key) ensures x in ts.entries { RemoveIn(ts.entries, r.key, x); }
      } else {
        AdvanceForward(t, at);
        var next := Advanced(t, at).value;
        FindInsert(ts.entries, next, r.key);
        forall g | g in fired && g.id == id ensures Over(Insert(ts.entries, next), g) {
          assert Over(ts.entries, g);
          InsertOver(ts.entries, next, g);
        }
        forall x | x in Insert(ts.entries, next) ensures x == next || x in ts.entries { InsertIn(ts.entries, next, x); }
      }
    }
  }

  lemma {:induction false} FindKey(es: seq<Timer<Mark>>, key: bytes)
    requires Find(es, key).Some?
    ensures Find(es, key).value.key == key
    decreases es
  {
    if es[0].key != key { FindKey(es[1..], key); }
  }

  lemma OpenFires(id: Id, r: Entity, request: Request, time: int, limits: Limits)
    requires Open(id, r, request, time, limits).Some? && request.Fire?
    requires !Open(id, r, request, time, limits).value.replay
    ensures Occurs(r.snap.timers.entries, request)
  {
    hide Find;
  }

  lemma LoadStep(s: State, k: Key, request: Request, time: int, limits: Limits)
    requires Inv(s)
    ensures Inv(Load(s, k, request, time, limits))
  {
    hide Inv, Open, Addressed, Missing, Admitted, Occurs, MadeBefore, AllOver, Over;
    if k in s.jobs || k.owner == [] || !Addressed(s, k, request) {
    } else if request.Receive? && Missing(s, k, request.envelope, time) {
      OtherStep(s, Load(s, k, request, time, limits));
    } else if k.id in s.store && !s.store[k.id].value.destroyed && Admitted(k, s.store[k.id].value, request, time) {
      var at := s.store[k.id];
      var o := Open(k.id, at.value, request, time, limits);
      if o.Some? {
        if request.Fire? && !o.value.replay { OpenFires(k.id, at.value, request, time, limits); }
        SetStep(s, k, NewJob(request, Loaded, time, at, o.value, at.value));
      }
    }
  }

  /** At the start of a handler the working timers are the record's. */
  lemma BegunTicks(k: Key, j: Job, at: Stored<Entity>, fired: set<Firing>, version: nat, base: Entity, enabled: bool)
    requires JobTicks(k, j, at, fired) && RecordTicks(k.id, at, fired) && L.Started(j) && !L.Owning(j.phase)
    requires base.snap == j.base.snap && (version == at.version ==> at.value.snap == base.snap)
    ensures JobTicks(k, Begun(j, version, base, enabled), at, fired)
  {
    hide Find;
    if version == at.version && j.request.Fire? && !j.replay { FindIn(at.value.snap.timers.entries, j.request.key); }
  }

  lemma AcquireStep(s: State, k: Key, timeout: nat, enabled: bool)
    requires Inv(s) && L.Inv(s)
    ensures Inv(Verify(s, k)) && Inv(Reuse(s, k, timeout, enabled)) && Inv(Confirm(s, k, enabled))
  {
    hide Inv, L.Inv, StillPending, Begun, RecordTicks, JobTicks;
    DropStep(s, k);
    if k in s.jobs {
      L.JobAt(s, k);
      JobAt(s, k);
      var j, at := s.jobs[k], s.store[k.id];
      if !L.Owning(j.phase) {
        if j.phase == Loaded {
          VerifiedTicks(k, j, at, s.fired);
          SetStep(s, k, j.(phase := Verified));
        }
        BegunTicks(k, j, at, s.fired, j.version, j.base, enabled);
        SetStep(s, k, Begun(j, j.version, j.base, enabled));
        if j.phase == Renewed && at.value == j.next {
          BegunTicks(k, j, at, s.fired, at.version, j.next, enabled);
          SetStep(s, k, Begun(j, at.version, j.next, enabled));
        }
      }
    }
  }

  lemma VerifiedTicks(k: Key, j: Job, at: Stored<Entity>, fired: set<Firing>)
    requires JobTicks(k, j, at, fired) && j.phase == Loaded
    ensures JobTicks(k, j.(phase := Verified), at, fired)
  {
    hide Occurs;
  }

  lemma PreparedTicks(k: Key, j: Job, at: Stored<Entity>, h: L.Holders, fired: set<Firing>, reply: Reply,
                      limits: Limits, now: int)
    requires JobTicks(k, j, at, fired) && RecordTicks(k.id, at, fired) && L.Fits(k, j, at, h) && j.phase == Ready
    requires !j.replay
    requires Finished(j, reply, limits, now).Some?
    ensures JobTicks(k, PreparedJob(k, j, Finished(j, reply, limits, now).value, reply), at, fired)
  {
    hide AfterFire, Find, Committed, Earliest, AllDone, L.Outcome, L.Entitled;
    if j.version == at.version && j.request.Fire? {
      AfterFireOver(j.work.timers, j.version, k.id, j.request, now, fired);
    }
  }

  lemma PrepareStep(s: State, k: Key, reply: Reply, limits: Limits, now: int)
    requires Inv(s) && L.Inv(s)
    ensures Inv(Prepare(s, k, reply, limits, now))
  {
    hide Inv, L.Inv, Finished, PreparedJob, L.Fits, L.Sound, JobTicks, RecordTicks;
    DropStep(s, k);
    if k in s.jobs && s.jobs[k].phase == Ready && !s.jobs[k].replay {
      L.JobAt(s, k);
      JobAt(s, k);
      var f := Finished(s.jobs[k], reply, limits, now);
      if f.Some? {
        PreparedTicks(k, s.jobs[k], s.store[k.id], s.holders, s.fired, reply, limits, now);
        SetStep(s, k, PreparedJob(k, s.jobs[k], f.value, reply));
      }
    }
  }

  lemma ArmingTicks(k: Key, j: Job, at: Stored<Entity>, fired: set<Firing>, phase: Phase, bucket: Stored<map<Id,
                    Entry>>)
    requires JobTicks(k, j, at, fired) && L.Decided(j.phase) && L.Decided(phase)
    ensures JobTicks(k, j.(phase := phase, bucket := bucket), at, fired)
  {
    hide Occurs, Over, NotBehind, MadeBefore, AllOver;
  }

  lemma ArmStep(s: State, k: Key)
    requires Inv(s) && L.Inv(s)
    ensures Inv(ArmCheck(s, k)) && Inv(ArmRead(s, k)) && Inv(ArmWrite(s, k)) && Inv(Answer(s, k))
  {
    hide Inv, L.Inv, Bucket, Shard, JobTicks, RecordTicks, L.Fits, L.Sound;
    DropStep(s, k);
    OtherStep(Drop(s, k), Drop(s, k).(acks := Answer(s, k).acks));
    if k in s.jobs && L.Decided(s.jobs[k].phase) {
      L.JobAt(s, k);
      JobAt(s, k);
      var j := s.jobs[k];
      var b := Bucket(s, Shard(k.id));
      ArmingTicks(k, j, s.store[k.id], s.fired, Checked, j.bucket);
      SetStep(s, k, j.(phase := Checked));
      ArmingTicks(k, j, s.store[k.id], s.fired, Listed, b);
      SetStep(s, k, j.(phase := Listed, bucket := b));
      ArmingTicks(k, j, s.store[k.id], s.fired, Arming, j.bucket);
      SetStep(s, k, j.(phase := Arming));
      ArmingTicks(k, j, s.store[k.id], s.fired, Armed, j.bucket);
      SetStep(s, k, j.(phase := Armed));
      var t := SetJob(s, k, j.(phase := Armed));
      OtherStep(t, WriteBucket(t, Shard(k.id), j.bucket.value[k.id := j.entry]));
    }
  }

  lemma ReadReleaseStep(s: State, k: Key)
    requires Inv(s)
    ensures Inv(ReadRelease(s, k))
  {
    hide Inv;
    if k !in s.jobs && k.owner != [] && k.id in s.store && s.store[k.id].value.owner == k.owner {
      var at := s.store[k.id];
      SetStep(s, k,
              NewJob(Deactivate, Releasing, 0, at, Opening(false, REPLAYED, at.value.snap),
                     at.value.(owner := [], expires := 0)));
    }
  }

  // ---- writes ----

  /** Only the firing of the written entity may be new. */
  predicate Adds(fired: set<Firing>, more: set<Firing>, id: Id) {
    fired <= more && forall f :: f in more && f !in fired ==> f.id == id
  }

  lemma StillTicks(k: Key, j: Job, at: Stored<Entity>, h: L.Holders, fired: set<Firing>, id: Id, now: Stored<Entity>,
                   more: set<Firing>)
    requires JobTicks(k, j, at, fired) && L.Fits(k, j, at, h) && Adds(fired, more, id)
    requires if k.id == id then at.version < now.version else now == at
    ensures JobTicks(k, j, now, more)
  {
    hide Over, NotBehind, Occurs, L.Entitled, L.Outcome, L.Started, MadeBefore;
  }

  lemma WriteStep(s: State, id: Id, r: Entity, more: set<Firing>)
    requires Inv(s) && L.Inv(s) && Adds(s.fired, more, id) && RecordTicks(id, Stored(s.revision + 1, r), more)
    ensures Inv(Write(s, id, r).(fired := more))
  {
    hide JobTicks, L.Fits, L.Sound, Over, MadeBefore;
    var t := Write(s, id, r).(fired := more);
    forall k | k in t.jobs && k.id in t.store ensures JobTicks(k, t.jobs[k], t.store[k.id], t.fired) {
      StillTicks(k, s.jobs[k], s.store[k.id], s.holders, s.fired, id, t.store[k.id], more);
    }
    forall i | i in t.store ensures RecordTicks(i, t.store[i], t.fired) {
      if i != id { assert RecordTicks(i, s.store[i], s.fired); }
    }
  }

  lemma LaterTicks(id: Id, at: Stored<Entity>, fired: set<Firing>, version: nat, r: Entity)
    requires RecordTicks(id, at, fired) && at.version < version && r.snap == at.value.snap
    ensures RecordTicks(id, Stored(version, r), fired)
  {
    hide Over;
  }

  lemma RenewStep(s: State, k: Key, timeout: nat, lease: nat)
    requires Inv(s) && L.Inv(s)
    ensures Inv(Renew(s, k, timeout, lease))
  {
    hide Inv, L.Inv, L.Fits, L.Sound, RecordTicks, JobTicks;
    DropStep(s, k);
    if k in s.jobs && Acquiring(s.jobs[k]) && !Reusable(k, s.jobs[k], timeout) && Current(s, k.id, s.jobs[k].version) {
      L.JobAt(s, k);
      JobAt(s, k);
      var j := s.jobs[k];
      var r := L.Lease(j.base, k.owner, j.time + lease);
      L.LevelBase(k, j, s.store[k.id], s.holders);
      LaterTicks(k.id, s.store[k.id], s.fired, s.revision + 1, r);
      WriteStep(s, k.id, r, s.fired);
      var t := Write(s, k.id, r);
      assert t.(fired := s.fired) == t;
      RenewedTicks(k, j, s.store[k.id], s.fired, Stored(s.revision + 1, r));
      SetStep(t, k, j.(phase := Renewed, next := r));
      var u := SetJob(t, k, j.(phase := Renewed, next := r));
      OtherStep(u, u.(holders := s.holders[Held(k.id, r.fence) := k.owner]));
    }
  }

  lemma RenewedTicks(k: Key, j: Job, at: Stored<Entity>, fired: set<Firing>, now: Stored<Entity>)
    requires JobTicks(k, j, at, fired)
    ensures JobTicks(k, j.(phase := Renewed, next := now.value), now, fired)
  {
    hide Occurs;
  }

  /** What a commit or release leaves is over for every past firing and for its own. */
  lemma CommittedTicks(k: Key, j: Job, at: Stored<Entity>, h: L.Holders, fired: set<Firing>, version: nat)
    requires JobTicks(k, j, at, fired) && RecordTicks(k.id, at, fired) && L.Fits(k, j, at, h)
    requires (j.phase == Armed || j.phase == Releasing) && j.version == at.version < version
    ensures var more := if j.phase == Armed && j.request.Fire? then fired + {FiringOf(k.id, j.request)} else fired;
      RecordTicks(k.id, Stored(version, j.next), more) && Adds(fired, more, k.id)
    ensures j.phase == Armed && j.request.Fire? ==> FiringOf(k.id, j.request) !in fired
  {
    hide Find, L.Entitled, Matches;
    EmptyOver(k.id, fired);
    if j.phase == Armed && j.request.Fire? {
      FindIn(at.value.snap.timers.entries, j.request.key);
    }
  }

  lemma EmptyOver(id: Id, fired: set<Firing>)
    ensures AllOver([], id, fired)
  {
  }

  lemma PublishStep(s: State, k: Key, clock: int)
    requires Inv(s) && L.Inv(s)
    ensures Inv(Commit(s, k, clock)) && Inv(WriteRelease(s, k))
  {
    hide Inv, L.Inv, L.Fits, L.Sound, RecordTicks, JobTicks, Adds;
    DropStep(s, k);
    if k in s.jobs && (Publishable(s, k, clock) || s.jobs[k].phase == Releasing)
       && Current(s, k.id, s.jobs[k].version) {
      L.JobAt(s, k);
      JobAt(s, k);
      var j := s.jobs[k];
      CommittedTicks(k, j, s.store[k.id], s.holders, s.fired, s.revision + 1);
      var more := if j.phase == Armed && j.request.Fire? then s.fired + {FiringOf(k.id, j.request)} else s.fired;
      WriteStep(s, k.id, j.next, more);
      var t := Write(s, k.id, j.next).(fired := more);
      DropStep(t, k);
      if j.phase == Armed {
        RecordedFired(Drop(Write(s, k.id, j.next), k), k.id, j);
        OtherStep(Drop(t, k), Commit(s, k, clock));
      } else {
        OtherStep(Drop(t, k), WriteRelease(s, k));
      }
    }
  }

  lemma RecordedFired(s: State, id: Id, j: Job)
    ensures Recorded(s, id, j).fired == if j.request.Fire? then s.fired + {FiringOf(id, j.request)} else s.fired
  {
  }

  lemma CreateStep(s: State, id: Id, placement: bytes, state: bytes)
    requires Inv(s) && L.Inv(s)
    ensures Inv(Create(s, id, placement, state))
  {
    hide L.Inv, JobTicks, Over;
    if id !in s.store {
      var r := NOBODY.(placement := placement, snap := EMPTY.(state := state));
      WriteStep(s, id, r, s.fired);
      assert Write(s, id, r).(fired := s.fired) == Write(s, id, r);
    }
  }

  // ---- every step ----

  lemma TaskInv(s: State, k: Key, a: TaskStep)
    requires Inv(s) && L.Inv(s)
    ensures Inv(DoTask(s, k, a))
  {
    hide Inv, L.Inv, Load, Verify, Reuse, Renew, Confirm, Prepare, ArmCheck, ArmRead, ArmWrite, Commit, Answer,
         ReadRelease, WriteRelease, Drop;
    match a
    case DoLoad(request, time, limits) => LoadStep(s, k, request, time, limits);
    case DoVerify => AcquireStep(s, k, 0, false);
    case DoReuse(timeout, enabled) => AcquireStep(s, k, timeout, enabled);
    case DoRenew(timeout, lease) => RenewStep(s, k, timeout, lease);
    case DoConfirm(enabled) => AcquireStep(s, k, 0, enabled);
    case DoPrepare(reply, limits, now) => PrepareStep(s, k, reply, limits, now);
    case DoArmCheck => ArmStep(s, k);
    case DoArmRead => ArmStep(s, k);
    case DoArmWrite => ArmStep(s, k);
    case DoCommit(clock) => PublishStep(s, k, clock);
    case DoAnswer => ArmStep(s, k);
    case DoDrop => DropStep(s, k);
    case DoReadRelease => ReadReleaseStep(s, k);
    case DoWriteRelease => PublishStep(s, k, 0);
  }

  lemma ServeInv(s: State, a: WorkerStep)
    requires Inv(s) && L.Inv(s)
    ensures Inv(DoServe(s, a))
  {
    hide Inv, L.Inv, Create, JoinLate, ScanBucket, ScanRecord, ScanWrite, Send, ReadRetired, ListRetired, WriteRetired;
    match a
    case DoCreate(id, placement, state) => CreateStep(s, id, placement, state);
    case _ => OtherStep(s, DoServe(s, a));
  }

  lemma InvStep(s: State, a: Action)
    requires Inv(s) && L.Inv(s)
    ensures Inv(Do(s, a))
  {
    hide Inv, L.Inv, DoTask, DoHandle, DoServe;
    match a
    case Task(k, task) => TaskInv(s, k, task);
    case Handle(k, work) => HandlerStep(s, k, work);
    case Serve(serve) => ServeInv(s, serve);
  }

  lemma {:induction false} InvRun(s: State, actions: seq<Action>)
    requires Inv(s) && L.Inv(s)
    ensures Inv(Run(s, actions)) && L.Inv(Run(s, actions))
    decreases actions
  {
    hide Inv, L.Inv, Do;
    if actions != [] {
      InvStep(s, actions[0]);
      L.InvStep(s, actions[0]);
      InvRun(Do(s, actions[0]), actions[1..]);
    }
  }

  lemma ReachedInv(actions: seq<Action>)
    ensures Inv(Chains.Reached(actions)) && L.Inv(Chains.Reached(actions))
  {
    hide Run;
    Chains.StartInv();
    InvRun(START, actions);
  }

  /** Over every run: when a firing commits, that occurrence (key, generation, due) has never fired before. */
  lemma FiresOnce(actions: seq<Action>, k: Key, clock: int)
    requires var s := Chains.Reached(actions);
      Publishable(s, k, clock) && s.jobs[k].request.Fire?
    ensures var s := Chains.Reached(actions); var f := FiringOf(k.id, s.jobs[k].request);
      f !in s.fired && f in Commit(s, k, clock).fired
  {
    hide Run, Inv, L.Inv;
    ReachedInv(actions);
    var s := Chains.Reached(actions);
    FirstTime(s, k);
    RecordedFired(Drop(Write(s, k.id, s.jobs[k].next), k), k.id, s.jobs[k]);
  }

  /** Over every run and every continuation: an occurrence that has fired never commits again. */
  lemma NeverAgain(actions: seq<Action>, more: seq<Action>, f: Firing, k: Key, clock: int)
    requires f in Chains.Reached(actions).fired
    ensures var t := Run(Chains.Reached(actions), more);
      && f in t.fired
      && !(Publishable(t, k, clock) && t.jobs[k].request.Fire? && FiringOf(k.id, t.jobs[k].request) == f)
  {
    hide Run, Inv, L.Inv;
    ReachedInv(actions);
    var s := Chains.Reached(actions);
    Chains.LaterRun(s, more);
    InvRun(s, more);
    var t := Run(s, more);
    if Publishable(t, k, clock) && t.jobs[k].request.Fire? { FirstTime(t, k); }
  }

  lemma FirstTime(s: State, k: Key)
    requires Inv(s) && L.Inv(s) && k in s.jobs && s.jobs[k].phase == Armed && Current(s, k.id, s.jobs[k].version)
    requires s.jobs[k].request.Fire?
    ensures FiringOf(k.id, s.jobs[k].request) !in s.fired
  {
    hide Inv, L.Inv;
    L.JobAt(s, k);
    JobAt(s, k);
    CommittedTicks(k, s.jobs[k], s.store[k.id], s.holders, s.fired, s.revision + 1);
  }

  /** In every reachable store a fired occurrence is over. */
  lemma FiredIsOver(actions: seq<Action>, f: Firing)
    requires f in Chains.Reached(actions).fired
    ensures var s := Chains.Reached(actions); f.id in s.store && Over(s.store[f.id].value.snap.timers.entries, f)
  {
    hide Run, Over;
    ReachedInv(actions);
    var s := Chains.Reached(actions);
    assert RecordTicks(f.id, s.store[f.id], s.fired);
  }
}
