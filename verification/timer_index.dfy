/** The discovery index never loses a timer: write-ahead arming, stale producers and scanner writes in any interleaving.
    */
module TimerIndexes {
  import opened Bytes
  import opened TimerState
  import opened Protocol
  import L = Leases
  import F = Firings
  import Chains

  type Shelf = Stored<map<Id, Entry>>

  // ---- the invariant ----

  /** A live entity with timers has an entry that is pending or due at its earliest timer. */
  predicate Covered(id: Id, at: Stored<Entity>, b: Shelf) {
    var es := at.value.snap.timers.entries;
    at.value.destroyed || es == [] || (id in b.value && (b.value[id].pending || b.value[id].due == Earliest(es)))
  }

  /** What was read earlier is what is there, unless the version has moved on. */
  predicate Snapshot<T(==)>(was: Stored<T>, now: Stored<T>) {
    was.version <= now.version && (was.version == now.version ==> was == now)
  }

  predicate Changes(j: Job) { !j.next.destroyed && j.next.snap.timers != j.base.snap.timers }

  /** The timers a job works on are those it was given, or carry its own mark. */
  predicate OwnMark(j: Job) {
    j.work.timers == j.start.timers || (j.work.timers.token.Mark? && j.work.timers.token.version == j.version)
  }

  predicate Armable(j: Job, at: Stored<Entity>) {
    && j.entry.pending && j.entry.base == j.version && j.entry.fence == j.base.fence
    && (j.version == at.version && Changes(j) ==> j.entry.token != j.base.snap.timers.token)
  }

  /** An armed job that is level with its record and changes the timers still has its own entry in the bucket. */
  predicate JobIndexed(k: Key, j: Job, at: Stored<Entity>, b: Shelf) {
    && (L.Owning(j.phase) ==> OwnMark(j))
    && (L.Decided(j.phase) ==> Armable(j, at))
    && (j.phase == Listed ==>
          Snapshot(j.bucket, b) && (k.id in j.bucket.value ==> j.bucket.value[k.id].fence <= j.entry.fence))
    && (j.phase == Armed && j.version == at.version && Changes(j) ==> k.id in b.value && b.value[k.id] == j.entry)
  }

  function Confirmed(r: Stored<Entity>): Entry {
    var ts := r.value.snap.timers;
    Entry(ts.token, r.version, r.value.fence, Earliest(ts.entries), false, r.value.placement)
  }

  /** What a scanner may write once it has seen the record. */
  predicate Planned(c: Scan) {
    var r := c.record.value;
    || ((r.destroyed || r.snap.timers.entries == []) && c.entries == c.bucket.value - {c.id})
    || (!r.destroyed && c.entries == c.bucket.value[c.id := Confirmed(c.record)])
  }

  predicate Settled(c: Scan, at: Stored<Entity>, b: Shelf)
    requires c.id in c.bucket.value
  {
    var observed := c.bucket.value[c.id];
    && Planned(c) && Snapshot(c.record, at) && observed.base <= c.record.version
    && c.record.value.fence <= at.value.fence
    && (c.record.value.destroyed ==> c.record == at)
    && (!c.record.value.destroyed ==> !Unsettled(observed, c.record))
    && (c.bucket.version == b.version ==> at.value.destroyed || at.value.snap.timers == c.record.value.snap.timers)
  }

  predicate ScanFits(c: Scan, at: Stored<Entity>, b: Shelf) {
    && c.id in c.bucket.value && Snapshot(c.bucket, b) && c.bucket.value[c.id].base <= at.version
    && (c.seen ==> Settled(c, at, b))
  }

  /** An entry was made from a record that is no later than the stored one. */
  predicate Behind(e: Entry, at: Stored<Entity>) { e.base <= at.version && e.fence <= at.value.fence }

  predicate ShelfOk(s: State, n: nat)
    requires n in s.index
  {
    s.index[n].version <= s.revision
    && forall id :: id in s.index[n].value ==> id in s.store && Behind(s.index[n].value[id], s.store[id])
  }

  function ShelfOf(s: State, id: Id): Shelf { Bucket(s, Shard(id)) }

  predicate Inv(s: State) {
    && (forall n :: n in s.index ==> ShelfOk(s, n))
    && (forall id :: id in s.store ==> Covered(id, s.store[id], ShelfOf(s, id)))
    && (forall k :: k in s.jobs && k.id in s.store ==> JobIndexed(k, s.jobs[k], s.store[k.id], ShelfOf(s, k.id)))
    && (forall w :: w in s.scans ==>
          s.scans[w].id in s.store && ScanFits(s.scans[w], s.store[s.scans[w].id], ShelfOf(s, s.scans[w].id)))
  }

  lemma JobAt(s: State, k: Key)
    requires Inv(s) && k in s.jobs && k.id in s.store
    ensures JobIndexed(k, s.jobs[k], s.store[k.id], ShelfOf(s, k.id)) && Covered(k.id, s.store[k.id], ShelfOf(s, k.id))
  {
    hide JobIndexed, Covered, ScanFits, ShelfOk, ShelfOf;
  }

  // ---- steps that leave store, index and scans alone ----

  lemma OtherStep(s: State, t: State)
    requires Inv(s) && t.store == s.store && t.jobs == s.jobs && t.index == s.index && t.scans == s.scans
    requires t.revision >= s.revision
    ensures Inv(t)
  {
    hide JobIndexed, Covered, ScanFits, Shard;
    forall n | n in t.index ensures ShelfOk(t, n) { assert ShelfOk(s, n); }
  }

  lemma SameShelves(s: State, t: State)
    requires t.index == s.index
    ensures forall id :: ShelfOf(t, id) == ShelfOf(s, id)
  {
    hide Shard;
  }

  lemma DropStep(s: State, k: Key)
    requires Inv(s)
    ensures Inv(Drop(s, k))
  {
    hide JobIndexed, Covered, ScanFits, ShelfOf;
    var t := Drop(s, k);
    SameShelves(s, t);
    forall n | n in t.index ensures ShelfOk(t, n) { assert ShelfOk(s, n); }
  }

  lemma SetStep(s: State, k: Key, j: Job)
    requires Inv(s) && k.id in s.store && JobIndexed(k, j, s.store[k.id], ShelfOf(s, k.id))
    ensures Inv(SetJob(s, k, j))
  {
    hide JobIndexed, Covered, ScanFits, ShelfOf;
    var t := SetJob(s, k, j);
    SameShelves(s, t);
    forall n | n in t.index ensures ShelfOk(t, n) { assert ShelfOk(s, n); }
  }

  // ---- jobs ----

  lemma LoadStep(s: State, k: Key, request: Request, time: int, limits: Limits)
    requires Inv(s)
    ensures Inv(Load(s, k, request, time, limits))
  {
    hide Inv, Open, Addressed, Missing, Admitted;
    if k in s.jobs || k.owner == [] || !Addressed(s, k, request) {
    } else if request.Receive? && Missing(s, k, request.envelope, time) {
      OtherStep(s, Load(s, k, request, time, limits));
    } else if k.id in s.store && !s.store[k.id].value.destroyed && Admitted(k, s.store[k.id].value, request, time) {
      var at := s.store[k.id];
      var o := Open(k.id, at.value, request, time, limits);
      if o.Some? { SetStep(s, k, NewJob(request, Loaded, time, at, o.value, at.value)); }
    }
  }

  lemma AcquireStep(s: State, k: Key, timeout: nat, enabled: bool)
    requires Inv(s) && L.Inv(s)
    ensures Inv(Verify(s, k)) && Inv(Reuse(s, k, timeout, enabled)) && Inv(Confirm(s, k, enabled))
  {
    hide Inv, L.Inv, StillPending, L.Fits, L.Sound, Reusable, Begun, JobIndexed;
    DropStep(s, k);
    if k in s.jobs {
      L.JobAt(s, k);
      var j, at, b := s.jobs[k], s.store[k.id], ShelfOf(s, k.id);
      if !L.Owning(j.phase) {
        UnarmedIndexed(k, j.(phase := Verified), at, b);
        SetStep(s, k, j.(phase := Verified));
        BegunIndexed(k, j, at, b, j.version, j.base, enabled);
        SetStep(s, k, Begun(j, j.version, j.base, enabled));
        BegunIndexed(k, j, at, b, at.version, j.next, enabled);
        SetStep(s, k, Begun(j, at.version, j.next, enabled));
      }
    }
  }

  lemma UnarmedIndexed(k: Key, j: Job, at: Stored<Entity>, b: Shelf)
    requires !L.Owning(j.phase)
    ensures JobIndexed(k, j, at, b)
  {
  }

  lemma BegunIndexed(k: Key, j: Job, at: Stored<Entity>, b: Shelf, version: nat, base: Entity, enabled: bool)
    ensures JobIndexed(k, Begun(j, version, base, enabled), at, b)
  {
  }

  lemma WorkIndexed(k: Key, j: Job, now: Job, at: Stored<Entity>, b: Shelf)
    requires JobIndexed(k, j, at, b) && j.phase == Ready && L.Worked(j, now)
    requires now.work.timers == j.work.timers || now.work.timers.token == Mark(j.version, now.work.timers.sequence)
    ensures JobIndexed(k, now, at, b)
  {
    hide Snapshot;
  }

  lemma HandlerMarks(s: State, k: Key, a: HandlerStep)
    requires DoHandle(s, k, a) != s && k in s.jobs && k in DoHandle(s, k, a).jobs
    ensures var was, now := s.jobs[k], DoHandle(s, k, a).jobs[k];
      && (now.work.timers == was.work.timers || now.work.timers.token == Mark(was.version, now.work.timers.sequence))
      && DoHandle(s, k, a).index == s.index && DoHandle(s, k, a).scans == s.scans
  {
    hide Insert, Remove, Find;
  }

  lemma HandlerStep(s: State, k: Key, a: HandlerStep)
    requires Inv(s) && L.Inv(s)
    ensures Inv(DoHandle(s, k, a))
  {
    hide Inv, L.Inv, DoHandle, L.Fits, L.Sound, L.Worked, JobIndexed, Covered, ShelfOf;
    var t := DoHandle(s, k, a);
    if t != s {
      var j := L.HandlerWorks(s, k, a);
      L.JobAt(s, k);
      JobAt(s, k);
      HandlerMarks(s, k, a);
      WorkIndexed(k, s.jobs[k], j, s.store[k.id], ShelfOf(s, k.id));
      SetStep(s, k, j);
      OtherStep(SetJob(s, k, j), t);
    }
  }

  lemma FinishedMark(j: Job, reply: Reply, limits: Limits, now: int)
    requires OwnMark(j) && Finished(j, reply, limits, now).Some?
    ensures var ts := Finished(j, reply, limits, now).value.timers;
      ts == j.start.timers || (ts.token.Mark? && ts.token.version == j.version)
  {
    hide Find, Insert, Remove, Advanced, AllDone;
  }

  lemma PreparedIndexed(k: Key, j: Job, at: Stored<Entity>, h: L.Holders, b: Shelf, reply: Reply, limits: Limits,
                        now: int)
    requires JobIndexed(k, j, at, b) && L.Fits(k, j, at, h) && F.MadeBefore(at.value.snap.timers, at.version)
    requires j.phase == Ready
    requires Finished(j, reply, limits, now).Some?
    ensures JobIndexed(k, PreparedJob(k, j, Finished(j, reply, limits, now).value, reply), at, b)
  {
    hide Finished, Earliest, L.Entitled, L.Outcome;
    FinishedMark(j, reply, limits, now);
  }

  lemma PrepareStep(s: State, k: Key, reply: Reply, limits: Limits, now: int)
    requires Inv(s) && L.Inv(s) && F.Inv(s)
    ensures Inv(Prepare(s, k, reply, limits, now))
  {
    hide Inv, L.Inv, F.Inv, Finished, PreparedJob, L.Fits, L.Sound, JobIndexed, Covered, ShelfOf, F.JobTicks;
    DropStep(s, k);
    if k in s.jobs && s.jobs[k].phase == Ready && !s.jobs[k].replay {
      L.JobAt(s, k);
      F.JobAt(s, k);
      JobAt(s, k);
      var f := Finished(s.jobs[k], reply, limits, now);
      if f.Some? {
        PreparedIndexed(k, s.jobs[k], s.store[k.id], s.holders, ShelfOf(s, k.id), reply, limits, now);
        SetStep(s, k, PreparedJob(k, s.jobs[k], f.value, reply));
      }
    }
  }

  lemma PhaseIndexed(k: Key, j: Job, at: Stored<Entity>, b: Shelf)
    requires JobIndexed(k, j, at, b) && L.Decided(j.phase)
    ensures JobIndexed(k, j.(phase := Checked), at, b) && JobIndexed(k, j.(phase := Arming), at, b)
    ensures (k.id in b.value ==> b.value[k.id].fence <= j.entry.fence) ==>
      JobIndexed(k, j.(phase := Listed, bucket := b), at, b)
  {
  }

  lemma ArmReadStep(s: State, k: Key)
    requires Inv(s) && L.Inv(s)
    ensures Inv(ArmCheck(s, k)) && Inv(ArmRead(s, k)) && Inv(Answer(s, k))
  {
    hide Inv, L.Inv, Shard, JobIndexed, Covered, L.Fits, L.Sound;
    DropStep(s, k);
    OtherStep(Drop(s, k), Drop(s, k).(acks := Answer(s, k).acks));
    if k in s.jobs && L.Decided(s.jobs[k].phase) {
      L.JobAt(s, k);
      JobAt(s, k);
      var j, b := s.jobs[k], ShelfOf(s, k.id);
      PhaseIndexed(k, j, s.store[k.id], b);
      SetStep(s, k, j.(phase := Checked));
      if k.id in b.value ==> b.value[k.id].fence <= j.entry.fence { SetStep(s, k, j.(phase := Listed, bucket := b)); }
    }
  }

  lemma ReadReleaseStep(s: State, k: Key)
    requires Inv(s)
    ensures Inv(ReadRelease(s, k))
  {
    hide Inv;
    if k !in s.jobs && k.owner != [] && k.id in s.store && s.store[k.id].value.owner == k.owner {
      var at := s.store[k.id];
      SetStep(s, k,
              NewJob(Deactivate, Releasing, 0, at, Opening(false, REPLAYED, at.value.snap),
                     at.value.(owner := [], expires := 0)));
    }
  }

  // ---- writing a bucket ----

  ghost predicate SameBut(now: map<Id, Entry>, was: map<Id, Entry>, x: Id) {
    forall i :: i != x ==> (i in now <==> i in was) && (i in now ==> now[i] == was[i])
  }

  predicate Producing(j: Job, at: Stored<Entity>) { j.phase == Armed && j.version == at.version && Changes(j) }

  lemma StillIndexed(k: Key, j: Job, at: Stored<Entity>, b: Shelf, x: Id, nb: Shelf)
    requires JobIndexed(k, j, at, b) && b.version < nb.version && SameBut(nb.value, b.value, x)
    requires k.id == x && Producing(j, at) ==> x in nb.value && nb.value[x] == j.entry
    ensures JobIndexed(k, j, at, nb)
  {
  }

  lemma StillCovered(id: Id, at: Stored<Entity>, b: Shelf, x: Id, nb: Shelf)
    requires Covered(id, at, b) && SameBut(nb.value, b.value, x) && id != x
    ensures Covered(id, at, nb)
  {
  }

  lemma StillScans(c: Scan, at: Stored<Entity>, b: Shelf, nb: Shelf)
    requires ScanFits(c, at, b) && b.version < nb.version
    ensures ScanFits(c, at, nb)
  {
    hide Unsettled, Planned;
  }

  lemma ShelfVersion(s: State, id: Id)
    requires Inv(s)
    ensures ShelfOf(s, id).version <= s.revision
    ensures forall i :: i in ShelfOf(s, id).value ==> i in s.store && Behind(ShelfOf(s, id).value[i], s.store[i])
  {
    hide JobIndexed, Covered, ScanFits, Shard;
    if Shard(id) in s.index { assert ShelfOk(s, Shard(id)); }
  }

  lemma WrittenShelf(s: State, x: Id, entries: map<Id, Entry>, id: Id)
    ensures ShelfOf(WriteBucket(s, Shard(x), entries), id)
         == if Shard(id) == Shard(x) then Stored(s.revision + 1, entries) else ShelfOf(s, id)
  {
    hide Shard;
  }

  lemma ShelfStep(s: State, x: Id, entries: map<Id, Entry>)
    requires Inv(s) && x in s.store && SameBut(entries, ShelfOf(s, x).value, x)
    requires x in entries ==> Behind(entries[x], s.store[x])
    requires Covered(x, s.store[x], Stored(s.revision + 1, entries))
    requires forall k :: k in s.jobs && k.id == x && Producing(s.jobs[k], s.store[x]) ==>
      x in entries && entries[x] == s.jobs[k].entry
    ensures Inv(WriteBucket(s, Shard(x), entries))
  {
    hide JobIndexed, Covered, ScanFits, ShelfOf, Producing, Shard;
    var t := WriteBucket(s, Shard(x), entries);
    ShelfVersion(s, x);
    forall n | n in t.index ensures ShelfOk(t, n) { if n in s.index { assert ShelfOk(s, n); } }
    forall id | id in t.store ensures Covered(id, t.store[id], ShelfOf(t, id)) {
      WrittenShelf(s, x, entries, id);
      SameShard(s, x, id);
      if id != x && Shard(id) == Shard(x) { StillCovered(id, s.store[id], ShelfOf(s, id), x, ShelfOf(t, id)); }
    }
    forall k | k in t.jobs && k.id in t.store ensures JobIndexed(k, t.jobs[k], t.store[k.id], ShelfOf(t, k.id)) {
      WrittenShelf(s, x, entries, k.id);
      SameShard(s, x, k.id);
      if Shard(k.id) == Shard(x) { StillIndexed(k, s.jobs[k], s.store[k.id], ShelfOf(s, k.id), x, ShelfOf(t, k.id)); }
    }
    forall w | w in t.scans ensures ScanFits(t.scans[w], t.store[t.scans[w].id], ShelfOf(t, t.scans[w].id)) {
      var c := s.scans[w];
      WrittenShelf(s, x, entries, c.id);
      SameShard(s, x, c.id);
      if Shard(c.id) == Shard(x) { StillScans(c, s.store[c.id], ShelfOf(s, c.id), ShelfOf(t, c.id)); }
    }
  }

  lemma SameShard(s: State, x: Id, id: Id)
    ensures Shard(x) == Shard(id) ==> ShelfOf(s, x) == ShelfOf(s, id)
  {
  }

  /** Two armed producers of one record level with it cannot both be entitled to write: fences tell them apart. */
  lemma OneProducer(k: Key, j: Job, other: Key, o: Job, at: Stored<Entity>, h: L.Holders, b: Shelf)
    requires k.id == other.id && L.Fits(k, j, at, h) && L.Fits(other, o, at, h) && JobIndexed(k, j, at, b)
    requires JobIndexed(other, o, at, b)
    requires j.phase == Listed && j.bucket.version == b.version && Producing(o, at)
    ensures k == other
  {
    hide L.Started, L.Outcome, Matches, Unsettled;
    assert b.value[k.id] == o.entry;
  }

  lemma ArmWriteStep(s: State, k: Key)
    requires Inv(s) && L.Inv(s)
    ensures Inv(ArmWrite(s, k))
  {
    hide Inv, L.Inv, Covered, L.Fits, L.Sound, Shard;
    if k in s.jobs && s.jobs[k].phase == Listed {
      L.JobAt(s, k);
      JobAt(s, k);
      var j, at, b := s.jobs[k], s.store[k.id], ShelfOf(s, k.id);
      PhaseIndexed(k, j, at, b);
      SetStep(s, k, j.(phase := Arming));
      if b.version == j.bucket.version {
        ArmedShelf(s, k);
        var t := WriteBucket(s, Shard(k.id), j.bucket.value[k.id := j.entry]);
        SetStep(t, k, j.(phase := Armed));
      }
    }
  }

  lemma ArmedShelf(s: State, k: Key)
    requires Inv(s) && L.Inv(s) && k in s.jobs && s.jobs[k].phase == Listed && k.id in s.store
    requires ShelfOf(s, k.id).version == s.jobs[k].bucket.version
    ensures var t := WriteBucket(s, Shard(k.id), s.jobs[k].bucket.value[k.id := s.jobs[k].entry]);
      Inv(t) && JobIndexed(k, s.jobs[k].(phase := Armed), t.store[k.id], ShelfOf(t, k.id))
  {
    hide Inv, L.Inv, L.Sound, Shard, ShelfOf, L.Fits;
    L.JobAt(s, k);
    JobAt(s, k);
    var j, at, b := s.jobs[k], s.store[k.id], ShelfOf(s, k.id);
    LevelVersion(k, j, at, s.holders);
    forall o | o in s.jobs && o.id == k.id && Producing(s.jobs[o], at) ensures s.jobs[o].entry == j.entry {
      L.JobAt(s, o);
      JobAt(s, o);
      OneProducer(k, j, o, s.jobs[o], at, s.holders, b);
    }
    ShelfStep(s, k.id, j.bucket.value[k.id := j.entry]);
    WrittenShelf(s, k.id, j.bucket.value[k.id := j.entry], k.id);
  }

  lemma LevelVersion(k: Key, j: Job, at: Stored<Entity>, h: L.Holders)
    requires L.Fits(k, j, at, h)
    ensures j.version <= at.version && j.base.fence <= at.value.fence
  {
  }

  // ---- writing a record ----

  lemma WrittenRecord(k: Key, j: Job, at: Stored<Entity>, h: L.Holders, b: Shelf, now: Stored<Entity>)
    requires JobIndexed(k, j, at, b) && L.Fits(k, j, at, h) && at.version < now.version
    ensures JobIndexed(k, j, now, b)
  {
    hide Snapshot, L.Entitled, L.Started, L.Outcome;
  }

  lemma WrittenScan(c: Scan, at: Stored<Entity>, b: Shelf, now: Stored<Entity>)
    requires ScanFits(c, at, b) && at.version < now.version && !at.value.destroyed
    requires at.value.fence <= now.value.fence
    requires c.seen && c.bucket.version == b.version ==>
      now.value.destroyed || now.value.snap.timers == at.value.snap.timers
    ensures ScanFits(c, now, b)
  {
    hide Unsettled, Planned;
  }

  lemma WriteStep(s: State, id: Id, r: Entity)
    requires Inv(s) && L.Inv(s) && id in s.store && !s.store[id].value.destroyed
    requires s.store[id].value.fence <= r.fence
    requires Covered(id, Stored(s.revision + 1, r), ShelfOf(s, id))
    requires r.destroyed || r.snap.timers == s.store[id].value.snap.timers || Unscanned(s, id)
    ensures Inv(Write(s, id, r))
  {
    hide JobIndexed, Covered, ScanFits, ShelfOf, L.Fits, L.Sound, Shard;
    var t := Write(s, id, r);
    SameShelves(s, t);
    L.RecordAt(s, id);
    forall n | n in t.index ensures ShelfOk(t, n) { assert ShelfOk(s, n); }
    forall k | k in t.jobs && k.id in t.store ensures JobIndexed(k, t.jobs[k], t.store[k.id], ShelfOf(t, k.id)) {
      if k.id == id { WrittenRecord(k, s.jobs[k], s.store[id], s.holders, ShelfOf(s, id), t.store[id]); }
    }
    forall w | w in t.scans ensures ScanFits(t.scans[w], t.store[t.scans[w].id], ShelfOf(t, t.scans[w].id)) {
      if s.scans[w].id == id { WrittenScan(s.scans[w], s.store[id], ShelfOf(s, id), t.store[id]); }
    }
  }

  /** No scanner of this entity is about to succeed. */
  predicate Unscanned(s: State, id: Id) {
    forall w :: w in s.scans && s.scans[w].id == id && s.scans[w].seen ==>
      s.scans[w].bucket.version != ShelfOf(s, id).version
  }

  /** While a producer is armed and level, a scanner that could write would have seen its pending entry and only woken
      the entity. */
  lemma NoScanner(c: Scan, k: Key, j: Job, at: Stored<Entity>, h: L.Holders, b: Shelf)
    requires ScanFits(c, at, b) && c.seen && c.id == k.id && L.Fits(k, j, at, h) && JobIndexed(k, j, at, b)
    requires Producing(j, at)
    ensures c.bucket.version != b.version
  {
    hide L.Entitled, L.Started, L.Outcome, Planned;
  }

  lemma ProducerUnscanned(s: State, k: Key)
    requires Inv(s) && L.Inv(s) && k in s.jobs && k.id in s.store && Producing(s.jobs[k], s.store[k.id])
    ensures Unscanned(s, k.id)
  {
    hide JobIndexed, Covered, ScanFits, ShelfOf, L.Fits, L.Sound, Producing;
    L.JobAt(s, k);
    JobAt(s, k);
    forall w | w in s.scans && s.scans[w].id == k.id && s.scans[w].seen
      ensures s.scans[w].bucket.version != ShelfOf(s, k.id).version
    {
      NoScanner(s.scans[w], k, s.jobs[k], s.store[k.id], s.holders, ShelfOf(s, k.id));
    }
  }

  lemma RenewStep(s: State, k: Key, timeout: nat, lease: nat)
    requires Inv(s) && L.Inv(s)
    ensures Inv(Renew(s, k, timeout, lease))
  {
    hide Inv, L.Inv, L.Sound, JobIndexed, ShelfOf, L.Started, L.Entitled, L.Outcome;
    DropStep(s, k);
    if k in s.jobs && Acquiring(s.jobs[k]) && !Reusable(k, s.jobs[k], timeout) && Current(s, k.id, s.jobs[k].version) {
      L.JobAt(s, k);
      JobAt(s, k);
      var j := s.jobs[k];
      var r := L.Lease(j.base, k.owner, j.time + lease);
      WriteStep(s, k.id, r);
      var t := Write(s, k.id, r);
      SameShelves(s, t);
      UnarmedIndexed(k, j.(phase := Renewed, next := r), t.store[k.id], ShelfOf(t, k.id));
      SetStep(t, k, j.(phase := Renewed, next := r));
      var u := SetJob(t, k, j.(phase := Renewed, next := r));
      OtherStep(u, u.(holders := s.holders[Held(k.id, r.fence) := k.owner]));
    }
  }

  lemma CommittedCovered(k: Key, j: Job, at: Stored<Entity>, h: L.Holders, b: Shelf, version: nat)
    requires Covered(k.id, at, b) && JobIndexed(k, j, at, b) && L.Fits(k, j, at, h)
    requires (j.phase == Armed || j.phase == Releasing) && j.version == at.version < version
    ensures Covered(k.id, Stored(version, j.next), b) && !at.value.destroyed && j.next.fence == at.value.fence
    ensures j.next.destroyed || j.next.snap.timers == at.value.snap.timers || Producing(j, at)
  {
    hide L.Entitled, L.Started, Committed, L.Sound;
    L.CommittedSound(k, j, at, h, version);
  }

  lemma PublishStep(s: State, k: Key, clock: int)
    requires Inv(s) && L.Inv(s)
    ensures Inv(Commit(s, k, clock)) && Inv(WriteRelease(s, k))
  {
    hide Inv, L.Inv, L.Fits, L.Sound, JobIndexed, Covered, ShelfOf, Recorded, Producing, Unscanned;
    DropStep(s, k);
    if k in s.jobs && (Publishable(s, k, clock) || s.jobs[k].phase == Releasing)
       && Current(s, k.id, s.jobs[k].version) {
      L.JobAt(s, k);
      JobAt(s, k);
      var j := s.jobs[k];
      CommittedCovered(k, j, s.store[k.id], s.holders, ShelfOf(s, k.id), s.revision + 1);
      if Producing(j, s.store[k.id]) { ProducerUnscanned(s, k); }
      WriteStep(s, k.id, j.next);
      var t := Write(s, k.id, j.next);
      DropStep(t, k);
      if j.phase == Armed { OtherStep(Drop(t, k), Commit(s, k, clock)); }
    }
  }

  lemma CreateStep(s: State, id: Id, placement: bytes, state: bytes)
    requires Inv(s) && L.Inv(s)
    ensures Inv(Create(s, id, placement, state))
  {
    hide JobIndexed, ScanFits, ShelfOf, L.Fits, L.Sound;
    var t := Create(s, id, placement, state);
    SameShelves(s, t);
    if id !in s.store {
      forall n | n in t.index ensures ShelfOk(t, n) { assert ShelfOk(s, n); }
      forall k | k in t.jobs && k.id in t.store ensures k.id in s.store { L.JobAt(s, k); }
    }
  }

  // ---- the scanner ----

  lemma SetScan(s: State, w: nat, c: Scan)
    requires Inv(s) && c.id in s.store && ScanFits(c, s.store[c.id], ShelfOf(s, c.id))
    ensures Inv(s.(scans := s.scans[w := c]))
  {
    hide JobIndexed, ScanFits, Covered, ShelfOf;
    var t := s.(scans := s.scans[w := c]);
    SameShelves(s, t);
    forall n | n in t.index ensures ShelfOk(t, n) { assert ShelfOk(s, n); }
  }

  lemma StopScan(s: State, w: nat)
    requires Inv(s)
    ensures Inv(s.(scans := s.scans - {w}))
  {
    hide JobIndexed, ScanFits, Covered, ShelfOf;
    var t := s.(scans := s.scans - {w});
    SameShelves(s, t);
    forall n | n in t.index ensures ShelfOk(t, n) { assert ShelfOk(s, n); }
  }

  lemma ScanBucketStep(s: State, w: nat, id: Id)
    requires Inv(s)
    ensures Inv(ScanBucket(s, w, id))
  {
    hide Inv, Settled, Shard;
    ShelfVersion(s, id);
    var b := ShelfOf(s, id);
    if id in b.value { SetScan(s, w, Scan(id, b, false, Stored(0, NOBODY), map[])); }
  }

  lemma ScanAt(s: State, w: nat)
    requires Inv(s) && w in s.scans
    ensures s.scans[w].id in s.store && ScanFits(s.scans[w], s.store[s.scans[w].id], ShelfOf(s, s.scans[w].id))
  {
    hide JobIndexed, ScanFits, Covered, ShelfOf, ShelfOk;
  }

  lemma ScanRecordStep(s: State, w: nat)
    requires Inv(s)
    ensures Inv(ScanRecord(s, w))
  {
    hide Inv, Unsettled, Earliest, ShelfOf;
    if w in s.scans && !s.scans[w].seen {
      ScanAt(s, w);
      StopScan(s, w);
      var c, stored := s.scans[w], s.store[s.scans[w].id];
      var seen := c.(seen := true, record := stored);
      if || stored.value.destroyed
         || (!Unsettled(c.bucket.value[c.id], stored) && stored.value.snap.timers.entries == []) {
        SetScan(s, w, seen.(entries := c.bucket.value - {c.id}));
      } else if !Unsettled(c.bucket.value[c.id], stored) {
        SetScan(s, w, seen.(entries := c.bucket.value[c.id := Confirmed(stored)]));
      }
    }
  }

  /** A scanner's write covers the record as it is now. */
  lemma ScannedCovered(c: Scan, at: Stored<Entity>, b: Shelf, version: nat)
    requires ScanFits(c, at, b) && c.seen && c.bucket.version == b.version
    ensures Covered(c.id, at, Stored(version, c.entries)) && SameBut(c.entries, b.value, c.id)
    ensures c.id in c.entries ==> Behind(c.entries[c.id], at)
  {
    hide Unsettled, Earliest;
  }

  lemma ScanWriteStep(s: State, w: nat)
    requires Inv(s) && L.Inv(s)
    ensures Inv(ScanWrite(s, w))
  {
    hide Inv, L.Inv, JobIndexed, ScanFits, Covered, L.Fits, L.Sound, Shard, Producing, SameBut;
    if w in s.scans && s.scans[w].seen {
      ScanAt(s, w);
      var c := s.scans[w];
      var at, b := s.store[c.id], ShelfOf(s, c.id);
      StopScan(s, w);
      if b.version == c.bucket.version {
        ScannedCovered(c, at, b, s.revision + 1);
        forall k | k in s.jobs && k.id == c.id && Producing(s.jobs[k], at) ensures false {
          L.JobAt(s, k);
          JobAt(s, k);
          NoScanner(c, k, s.jobs[k], at, s.holders, b);
        }
        ShelfStep(s.(scans := s.scans - {w}), c.id, c.entries);
      }
    }
  }

  // ---- every step ----

  lemma TaskInv(s: State, k: Key, a: TaskStep)
    requires Inv(s) && L.Inv(s) && F.Inv(s)
    ensures Inv(DoTask(s, k, a))
  {
    hide Inv, L.Inv, F.Inv, Load, Verify, Reuse, Renew, Confirm, Prepare, ArmCheck, ArmRead, ArmWrite, Commit, Answer,
         ReadRelease, WriteRelease, Drop;
    match a
    case DoLoad(request, time, limits) => LoadStep(s, k, request, time, limits);
    case DoVerify => AcquireStep(s, k, 0, false);
    case DoReuse(timeout, enabled) => AcquireStep(s, k, timeout, enabled);
    case DoRenew(timeout, lease) => RenewStep(s, k, timeout, lease);
    case DoConfirm(enabled) => AcquireStep(s, k, 0, enabled);
    case DoPrepare(reply, limits, now) => PrepareStep(s, k, reply, limits, now);
    case DoArmCheck => ArmReadStep(s, k);
    case DoArmRead => ArmReadStep(s, k);
    case DoArmWrite => ArmWriteStep(s, k);
    case DoCommit(clock) => PublishStep(s, k, clock);
    case DoAnswer => ArmReadStep(s, k);
    case DoDrop => DropStep(s, k);
    case DoReadRelease => ReadReleaseStep(s, k);
    case DoWriteRelease => PublishStep(s, k, 0);
  }

  lemma ServeInv(s: State, a: WorkerStep)
    requires Inv(s) && L.Inv(s)
    ensures Inv(DoServe(s, a))
  {
    hide Inv, L.Inv, Create, JoinLate, ScanBucket, ScanRecord, ScanWrite, Send, ReadRetired, ListRetired, WriteRetired;
    match a
    case DoCreate(id, placement, state) => CreateStep(s, id, placement, state);
    case DoScanBucket(w, id) => ScanBucketStep(s, w, id);
    case DoScanRecord(w) => ScanRecordStep(s, w);
    case DoScanWrite(w) => ScanWriteStep(s, w);
    case _ => OtherStep(s, DoServe(s, a));
  }

  lemma InvStep(s: State, a: Action)
    requires Inv(s) && L.Inv(s) && F.Inv(s)
    ensures Inv(Do(s, a))
  {
    hide Inv, L.Inv, F.Inv, DoTask, DoHandle, DoServe;
    match a
    case Task(k, task) => TaskInv(s, k, task);
    case Handle(k, work) => HandlerStep(s, k, work);
    case Serve(serve) => ServeInv(s, serve);
  }

  lemma {:induction false} InvRun(s: State, actions: seq<Action>)
    requires Inv(s) && L.Inv(s) && F.Inv(s)
    ensures Inv(Run(s, actions))
    decreases actions
  {
    hide Inv, L.Inv, F.Inv, Do;
    if actions != [] {
      InvStep(s, actions[0]);
      F.InvStep(s, actions[0]);
      L.InvStep(s, actions[0]);
      InvRun(Do(s, actions[0]), actions[1..]);
    }
  }

  /** In every reachable store a live entity with at least one timer has a discovery entry that is pending or whose due
      time is the entity's true earliest one. */
  lemma TimersDiscoverable(actions: seq<Action>, id: Id)
    requires var s := Chains.Reached(actions);
      id in s.store && !s.store[id].value.destroyed && s.store[id].value.snap.timers.entries != []
    ensures var s := Chains.Reached(actions); var b := Bucket(s, Shard(id)).value;
      id in b && (b[id].pending || b[id].due == Earliest(s.store[id].value.snap.timers.entries))
  {
    hide Run, Shard, Earliest;
    Chains.StartInv();
    InvRun(START, actions);
    assert Covered(id, Chains.Reached(actions).store[id], ShelfOf(Chains.Reached(actions), id));
  }
}
