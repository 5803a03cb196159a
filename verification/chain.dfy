/** What every run keeps about records: one chain of commits, rising fences with one owner each, final tombstones, and
    handoff tickets that are good only while they are the latest. */
module Chains {
  import opened Bytes
  import opened TimerState
  import opened Protocol
  import opened Leases

  predicate LaterRecord(a: Stored<Entity>, b: Stored<Entity>) {
    a == b ||
    (&& a.version < b.version && !a.value.destroyed && a.value.fence <= b.value.fence
     && (a.value.initialized ==> b.value.initialized)
     && (a.value.snap.delivery.epoch != 0 && !b.value.destroyed ==>
           b.value.snap.delivery.epoch == a.value.snap.delivery.epoch)
     && (|| (b.value.transfer == a.value.transfer && b.value.placement == a.value.placement)
         || b.value.transfer >= a.version))
  }

  predicate Later(s: State, t: State) {
    && s.revision <= t.revision && Grows(s.holders, t.holders) && s.wire <= t.wire && s.acks <= t.acks
    && s.fired <= t.fired
    && forall id :: id in s.store ==> id in t.store && LaterRecord(s.store[id], t.store[id])
  }

  /** All steps but these leave every record alone. */
  predicate Writes(a: Action) {
    (a.Task? && (a.task.DoRenew? || a.task.DoCommit? || a.task.DoWriteRelease?)) || (a.Serve? && a.serve.DoCreate?)
  }

  lemma TaskReads(s: State, k: Key, a: TaskStep)
    requires !a.DoRenew? && !a.DoCommit? && !a.DoWriteRelease?
    ensures var t := DoTask(s, k, a);
      && t.store == s.store && t.revision >= s.revision && t.holders == s.holders && s.wire == t.wire
      && s.acks <= t.acks && s.fired == t.fired
  {
    hide Load, Verify, Reuse, Renew, Confirm, Prepare, ArmCheck, ArmRead, ArmWrite, Commit, Answer, ReadRelease,
         WriteRelease;
  }

  lemma ReadsOnly(s: State, a: Action)
    requires !Writes(a)
    ensures Later(s, Do(s, a)) && Do(s, a).store == s.store
  {
    hide DoTask, DoHandle, Create, JoinLate, ScanBucket, ScanRecord, ScanWrite, Send, ReadRetired, ListRetired,
         WriteRetired;
    match a
    case Task(k, task) => TaskReads(s, k, task);
    case Handle(k, work) => if DoHandle(s, k, work) != s { var j := HandlerWorks(s, k, work); }
    case Serve(serve) => ServesOnly(s, serve);
  }

  lemma ServesOnly(s: State, a: WorkerStep)
    requires !a.DoCreate?
    ensures Later(s, DoServe(s, a)) && DoServe(s, a).store == s.store
  {
    hide Create, JoinLate, ScanBucket, ScanRecord, ScanWrite, Send, ReadRetired, ListRetired, WriteRetired;
    if a.DoSend? { SendsMore(s, a.id); }
  }

  lemma SendsMore(s: State, id: Id)
    ensures s.wire <= Send(s, id).wire
  {
  }

  /** One record is written over an earlier one. */
  lemma WritesLater(s: State, id: Id, r: Entity, t: State)
    requires Inv(s) && id in s.store && t.store == s.store[id := Stored(s.revision + 1, r)]
    requires t.revision == s.revision + 1
    requires Grows(s.holders, t.holders) && s.wire <= t.wire && s.acks <= t.acks && s.fired <= t.fired
    requires LaterRecord(s.store[id], Stored(s.revision + 1, r))
    ensures Later(s, t)
  {
    hide LaterRecord, Fits, Sound;
    forall i | i in s.store ensures i in t.store && LaterRecord(s.store[i], t.store[i]) {
      if i != id { SameRecord(s.store[i]); }
    }
  }

  lemma SameRecord(a: Stored<Entity>)
    ensures LaterRecord(a, a)
  {
  }

  lemma RenewedLater(k: Key, j: Job, at: Stored<Entity>, h: Holders, version: nat, expires: int)
    requires Fits(k, j, at, h) && j.version == at.version < version
    ensures LaterRecord(at, Stored(version, Lease(j.base, k.owner, expires)))
  {
  }

  lemma CommittedLater(k: Key, j: Job, at: Stored<Entity>, h: Holders, version: nat)
    requires Fits(k, j, at, h) && (j.phase == Armed || j.phase == Releasing) && j.version == at.version < version
    ensures LaterRecord(at, Stored(version, j.next))
  {
    hide Matches;
  }

  lemma DropLater(s: State, k: Key)
    ensures Later(s, s) && Later(s, Drop(s, k))
  {
  }

  lemma RenewLater(s: State, k: Key, timeout: nat, lease: nat)
    requires Inv(s)
    ensures Later(s, Renew(s, k, timeout, lease))
  {
    hide Inv, Fits, Sound, LaterRecord, Grows, Later;
    DropLater(s, k);
    if k in s.jobs && Acquiring(s.jobs[k]) && !Reusable(k, s.jobs[k], timeout) {
      var j := s.jobs[k];
      if j.time <= INT64_MAX - lease && j.base.fence < INT64_MAX - 1 && Current(s, k.id, j.version) {
        JobAt(s, k);
        RenewedLater(k, j, s.store[k.id], s.holders, s.revision + 1, j.time + lease);
        LevelBase(k, j, s.store[k.id], s.holders);
        FreshFence(s, k.id, k.owner);
        WritesLater(s, k.id, Lease(j.base, k.owner, j.time + lease), Renew(s, k, timeout, lease));
      }
    }
  }

  /** What a publication writes: the job's result over the record it started from. */
  lemma CommitWrites(s: State, k: Key, clock: int)
    requires Inv(s) && Publishable(s, k, clock)
    ensures var j := s.jobs[k];
      && Commit(s, k, clock).store == s.store[k.id := Stored(s.revision + 1, j.next)] && j.base == s.store[k.id].value
      && j.next.destroyed == j.request.Destroy? && j.next.snap == if j.request.Destroy? then EMPTY else j.work
  {
    hide Inv, Sound, Recorded, Entitled, Started;
    JobAt(s, k);
  }

  lemma RecordedMore(s: State, id: Id, j: Job)
    ensures s.acks <= Recorded(s, id, j).acks && s.fired <= Recorded(s, id, j).fired
  {
  }

  lemma PublishLater(s: State, k: Key, clock: int)
    requires Inv(s)
    ensures Later(s, Commit(s, k, clock)) && Later(s, WriteRelease(s, k))
  {
    hide Inv, Fits, Sound, LaterRecord, Grows, Recorded, Later;
    DropLater(s, k);
    GrowsSame(s.holders);
    if k in s.jobs && (Publishable(s, k, clock) || s.jobs[k].phase == Releasing)
       && Current(s, k.id, s.jobs[k].version) {
      JobAt(s, k);
      var j := s.jobs[k];
      CommittedLater(k, j, s.store[k.id], s.holders, s.revision + 1);
      var w := Drop(Write(s, k.id, j.next), k);
      RecordedMore(w, k.id, j);
      if j.phase == Armed {
        WritesLater(s, k.id, j.next, Commit(s, k, clock));
      } else {
        WritesLater(s, k.id, j.next, WriteRelease(s, k));
      }
    }
  }

  lemma CreateLater(s: State, id: Id, placement: bytes, state: bytes)
    ensures Later(s, Create(s, id, placement, state))
  {
    hide LaterRecord;
    forall i | i in s.store ensures LaterRecord(s.store[i], s.store[i]) { SameRecord(s.store[i]); }
  }

  lemma LaterStep(s: State, a: Action)
    requires Inv(s)
    ensures Later(s, Do(s, a))
  {
    hide Inv, Later, DoHandle, Commit, WriteRelease, Renew, Load, Verify, Reuse, Confirm, Prepare, ArmCheck, ArmRead,
         ArmWrite, Answer, ReadRelease, Create;
    if !Writes(a) {
      ReadsOnly(s, a);
    } else if a.Task? {
      if a.task.DoRenew? {
        RenewLater(s, a.k, a.task.timeout, a.task.lease);
      } else {
        PublishLater(s, a.k, if a.task.DoCommit? then a.task.clock else 0);
      }
    } else {
      CreateLater(s, a.serve.id, a.serve.placement, a.serve.state);
    }
  }

  lemma LaterRecordTransitive(a: Stored<Entity>, b: Stored<Entity>, c: Stored<Entity>)
    requires LaterRecord(a, b) && LaterRecord(b, c)
    ensures LaterRecord(a, c)
  {
  }

  lemma LaterTransitive(s: State, t: State, u: State)
    requires Later(s, t) && Later(t, u)
    ensures Later(s, u)
  {
    hide LaterRecord;
    forall id | id in s.store ensures id in u.store && LaterRecord(s.store[id], u.store[id]) {
      LaterRecordTransitive(s.store[id], t.store[id], u.store[id]);
    }
  }

  lemma {:induction false} LaterRun(s: State, actions: seq<Action>)
    requires Inv(s)
    ensures Later(s, Run(s, actions)) && Inv(Run(s, actions))
    decreases actions
  {
    hide Inv, Later, Do;
    if actions == [] {
      SameLater(s);
    } else {
      InvStep(s, actions[0]);
      LaterStep(s, actions[0]);
      LaterRun(Do(s, actions[0]), actions[1..]);
      LaterTransitive(s, Do(s, actions[0]), Run(s, actions));
    }
  }

  lemma SameLater(s: State)
    ensures Later(s, s)
  {
  }

  lemma StartInv()
    ensures Inv(START)
  {
  }

  // ---- the theorems, over every run ----

  function Reached(actions: seq<Action>): State { Run(START, actions) }

  /** Whenever a commit changes the store, it is by the host recorded as owner, at the recorded fence and before the
      lease is over by its clock; its handler was given exactly the snapshot of the record it replaces (a first epoch
      and an acknowledgement's own mark aside), and the new record is that handler's result under the same fence,
      released if the job gives the entity up. */
  lemma CommitsChain(actions: seq<Action>, k: Key, clock: int)
    requires var s := Reached(actions); Commit(s, k, clock).store != s.store
    ensures var s := Reached(actions); k in s.jobs && k.id in s.store
    ensures var s := Reached(actions); var t := Commit(s, k, clock);
      k.id in t.store && t.store == s.store[k.id := t.store[k.id]] && t.store[k.id].version == s.revision + 1
    ensures var s := Reached(actions); var j := s.jobs[k]; var was := s.store[k.id].value;
      var now := Commit(s, k, clock).store[k.id].value; var over := Control(j.request);
      && was.owner == k.owner && was == j.base && clock < was.expires && !was.destroyed && Started(j)
      && now.fence == was.fence && now.owner == (if over then [] else k.owner)
      && now.expires == (if over then 0 else was.expires) && now.initialized == (!over || was.initialized)
      && now.destroyed == j.request.Destroy? && now.snap == (if j.request.Destroy? then EMPTY else j.work)
      && (if j.request.Handoff? then
            now.placement == j.request.target && now.transfer == s.store[k.id].version > was.transfer
          else now.placement == was.placement && now.transfer == was.transfer)
      && (j.request.Accept? ==>
            was.placement != [] && was.transfer == j.request.transfer && Matches(k.owner, was.placement))
  {
    hide Run, Matches, Inv, Commit, Started;
    StartInv();
    LaterRun(START, actions);
    var s := Reached(actions);
    CommitStores(s, k, clock);
    JobAt(s, k);
  }

  lemma CommitStores(s: State, k: Key, clock: int)
    requires Commit(s, k, clock).store != s.store
    ensures Publishable(s, k, clock)
    ensures Commit(s, k, clock).store == s.store[k.id := Stored(s.revision + 1, s.jobs[k].next)]
  {
    hide Recorded;
  }

  /** A lease is taken only from nobody, from oneself, or after it has expired by the clock the taker read; taking it
      raises the fence by one and changes nothing but the owner and the expiry. */
  lemma LeaseTaken(actions: seq<Action>, k: Key, timeout: nat, lease: nat)
    requires var s := Reached(actions); k in s.jobs && Renew(s, k, timeout, lease).store != s.store
    ensures var s := Reached(actions); var j := s.jobs[k]; var t := Renew(s, k, timeout, lease);
      && k.id in s.store && k.id in t.store
      && var was, now := s.store[k.id].value, t.store[k.id].value;
         && (was.owner == k.owner || was.expires <= j.time) && (was.placement != [] ==> Matches(k.owner, was.placement))
         && now == was.(owner := k.owner, expires := j.time + lease, fence := was.fence + 1) && !was.destroyed
  {
    hide Run, Inv, Fits, Renew, Acquiring, Matches;
    StartInv();
    LaterRun(START, actions);
    var s := Reached(actions);
    RenewWrites(s, k, timeout, lease);
    JobAt(s, k);
    LevelBase(k, s.jobs[k], s.store[k.id], s.holders);
    Entitles(k, s.jobs[k], s.store[k.id], s.holders);
  }

  lemma RenewWrites(s: State, k: Key, timeout: nat, lease: nat)
    requires Renew(s, k, timeout, lease).store != s.store
    ensures k in s.jobs && Current(s, k.id, s.jobs[k].version)
    ensures var r := Lease(s.jobs[k].base, k.owner, s.jobs[k].time + lease);
      Renew(s, k, timeout, lease).store == s.store[k.id := Stored(s.revision + 1, r)]
  {
    hide Acquiring, Reusable;
  }

  lemma Entitles(k: Key, j: Job, at: Stored<Entity>, h: Holders)
    requires Fits(k, j, at, h)
    ensures !j.base.destroyed && (j.base.owner == k.owner || j.base.expires <= j.time)
    ensures j.base.placement != [] ==> Matches(k.owner, j.base.placement)
  {
    hide Matches, Started, Outcome;
  }

  /** Fences never fall, and no fence is held by two owners, however far apart in a run. */
  lemma FenceOneOwner(actions: seq<Action>, more: seq<Action>, id: Id)
    requires id in Reached(actions).store
    ensures var t := Run(Reached(actions), more); var a := Reached(actions).store[id].value;
      && id in t.store && a.fence <= t.store[id].value.fence
      && (a.fence == t.store[id].value.fence && a.owner != [] && t.store[id].value.owner != [] ==>
            a.owner == t.store[id].value.owner)
  {
    hide Run, Matches, Fits;
    StartInv();
    LaterRun(START, actions);
    LaterRun(Reached(actions), more);
    RecordAt(Reached(actions), id);
    RecordAt(Run(Reached(actions), more), id);
  }

  /** A non-empty owner matches a non-empty placement. */
  lemma OwnerPlaced(actions: seq<Action>, id: Id)
    requires var s := Reached(actions);
      id in s.store && s.store[id].value.owner != [] && s.store[id].value.placement != []
    ensures Matches(Reached(actions).store[id].value.owner, Reached(actions).store[id].value.placement)
  {
    hide Run, Matches, Fits;
    StartInv();
    LaterRun(START, actions);
    RecordAt(Reached(actions), id);
  }

  /** Nothing changes a destroyed record: not acquisition, commit, release, resumed transfer or repeated creation. */
  lemma TombstoneStays(actions: seq<Action>, more: seq<Action>, id: Id)
    requires id in Reached(actions).store && Reached(actions).store[id].value.destroyed
    ensures var t := Run(Reached(actions), more); id in t.store && t.store[id] == Reached(actions).store[id]
  {
    hide Run, Inv;
    StartInv();
    LaterRun(START, actions);
    LaterRun(Reached(actions), more);
  }

  /** Once a newer handoff has replaced a ticket, the old ticket is never current again. */
  lemma TicketOutdated(actions: seq<Action>, more: seq<Action>, most: seq<Action>, id: Id)
    requires id in Reached(actions).store
    requires var t := Run(Reached(actions), more);
      id in t.store && t.store[id].value.transfer != Reached(actions).store[id].value.transfer
    ensures var u := Run(Run(Reached(actions), more), most);
      id in u.store && u.store[id].value.transfer > Reached(actions).store[id].value.transfer
  {
    hide Run, Fits;
    StartInv();
    LaterRun(START, actions);
    var s := Reached(actions);
    LaterRun(s, more);
    var t := Run(s, more);
    LaterRun(t, most);
    RecordAt(s, id);
    RecordAt(t, id);
  }
}
