/** A message is executed only while its source still waits for it: what was once pending stays pending until it has
    been executed or its receiver is gone. */
module Debts {
  import opened Bytes
  import opened TimerState
  import opened Protocol
  import L = Leases
  import opened Chains
  import D = Deliveries
  import R = Registries
  import O = Outcomes
  import H = Handlers

  predicate Owed(s: State, e: Envelope) {
    StillPending(s, e) || e.ticket in s.executed || D.Tombstone(s.store, e.ticket.to.peer)
  }

  /** A job past the check of its source carries a message that was pending. */
  predicate Checked(s: State, j: Job) {
    j.request.Receive? && !j.replay && j.phase != Loaded ==> Owed(s, j.request.envelope)
  }

  predicate Inv(s: State) { forall k :: k in s.jobs ==> Checked(s, s.jobs[k]) }

  lemma PendingAt(s: State, e: Envelope) returns (m: Message)
    requires StillPending(s, e)
    ensures var id, epoch := e.ticket.source.peer, e.ticket.source.epoch;
      && id in s.store && s.store[id].value.initialized && D.DeliveryOf(s.store[id]).epoch == epoch
      && m in D.DeliveryOf(s.store[id]).outbox && !m.done && EnvelopeOf(id, epoch, m) == e
  {
    var id := e.ticket.source.peer;
    var d := D.DeliveryOf(s.store[id]);
    var i :| 0 <= i < |d.outbox| && !d.outbox[i].done && EnvelopeOf(id, e.ticket.source.epoch, d.outbox[i]) == e;
    m := d.outbox[i];
  }

  /** The message is found again after a step: it is pending still, or it is done and then it was answered. */
  lemma FoundAgain(t: State, id: Id, m: Message, done: bool, e: Envelope)
    requires R.Present(t, id, m, done) && D.Inv(t) && id == e.ticket.source.peer && id in t.store
    requires EnvelopeOf(id, e.ticket.source.epoch, m) == e && t.store[id].value.initialized
    requires D.DeliveryOf(t.store[id]).epoch == e.ticket.source.epoch
    ensures Owed(t, e)
  {
    hide D.Inv, D.Ordered, D.Counted;
    D.RecordAt(t, id);
    var d := D.DeliveryOf(t.store[id]);
    var i :| 0 <= i < |d.outbox| && D.SameMessage(m, d.outbox[i]) && d.outbox[i].done == done;
    assert EnvelopeOf(id, e.ticket.source.epoch, d.outbox[i]) == e;
    assert TicketOf(id, d.epoch, d.outbox[i]) == e.ticket;
  }

  /** Only a commit destroys, and it leaves nothing. */
  lemma DestroyedEmpty(s: State, a: Action, id: Id)
    requires L.Inv(s) && id in s.store && !s.store[id].value.destroyed
    ensures id in Do(s, a).store && (Do(s, a).store[id].value.destroyed ==> Do(s, a).store[id].value.snap == EMPTY)
  {
    hide L.Inv, Commit, Renew, WriteRelease, Create, DoHandle, Recorded;
    if !Writes(a) {
      ReadsOnly(s, a);
    } else if a.Serve? {
      CreateLater(s, a.serve.id, a.serve.placement, a.serve.state);
      CreateElse(s, a.serve.id, a.serve.placement, a.serve.state, id);
    } else {
      match a.task
      case DoRenew(timeout, lease) => R.RenewKept(s, a.k, timeout, lease, id);
      case DoWriteRelease => R.ReleaseKept(s, a.k, id);
      case DoCommit(clock) =>
        if id == a.k.id && Publishable(s, a.k, clock) {
          CommitWrites(s, a.k, clock);
        } else {
          R.CommitElsewhere(s, a.k, clock, id);
        }
    }
  }

  lemma CreateElse(s: State, made: Id, placement: bytes, state: bytes, id: Id)
    requires id in s.store
    ensures Create(s, made, placement, state).store[id] == s.store[id]
  {
  }

  /** What is owed stays owed. */
  lemma OwedStep(s: State, a: Action, e: Envelope)
    requires R.Inv(s) && L.Inv(s) && D.Inv(s) && D.Inv(Do(s, a)) && Owed(s, e)
    ensures Owed(Do(s, a), e)
  {
    hide R.Inv, L.Inv, D.Inv, Do, StillPending, R.Present, LaterRecord, D.Ordered, D.Answered, D.Counted;
    LaterStep(s, a);
    var t := Do(s, a);
    if e.ticket in s.executed {
      ExecutedMore(s, a);
    } else if D.Tombstone(s.store, e.ticket.to.peer) {
      GoneStays(s, t, e.ticket.to.peer);
    } else {
      var m := PendingAt(s, e);
      var id := e.ticket.source.peer;
      D.RecordAt(s, id);
      EpochNot(D.DeliveryOf(s.store[id]), m);
      PresentNow(s, id, m);
      R.PendingStays(s, a, id, m);
      if s.store[id].value.destroyed {
        GoneStays(s, t, id);
        SamePending(s, t, e);
      } else {
        DestroyedEmpty(s, a, id);
        NothingPresent(t, id, m);
        SameEpoch(s, t, id);
        FoundAgain(t, id, m, if R.Present(t, id, m, false) then false else true, e);
      }
    }
  }

  lemma EpochNot(d: Delivery, m: Message)
    requires D.Ordered(d) && m in d.outbox
    ensures d.epoch != 0
  {
  }

  lemma PresentNow(s: State, id: Id, m: Message)
    requires id in s.store && m in D.DeliveryOf(s.store[id]).outbox
    ensures R.Present(s, id, m, m.done)
  {
    assert m in R.Outbox(s.store[id]) && D.SameMessage(m, m);
  }

  lemma NothingPresent(t: State, id: Id, m: Message)
    requires id in t.store && (R.Present(t, id, m, false) || R.Present(t, id, m, true))
    ensures t.store[id].value.snap != EMPTY
  {
  }

  lemma GoneStays(s: State, t: State, id: Id)
    requires Later(s, t) && id in s.store && s.store[id].value.destroyed
    ensures id in t.store && t.store[id] == s.store[id]
  {
  }

  lemma SameEpoch(s: State, t: State, id: Id)
    requires Later(s, t) && id in s.store && id in t.store && !t.store[id].value.destroyed
    requires s.store[id].value.initialized && D.DeliveryOf(s.store[id]).epoch != 0
    ensures t.store[id].value.initialized && D.DeliveryOf(t.store[id]).epoch == D.DeliveryOf(s.store[id]).epoch
  {
    assert LaterRecord(s.store[id], t.store[id]);
  }

  lemma SamePending(s: State, t: State, e: Envelope)
    requires var id := e.ticket.source.peer; id in s.store && id in t.store && t.store[id] == s.store[id]
    requires StillPending(s, e)
    ensures StillPending(t, e)
  {
  }

  lemma ExecutedMore(s: State, a: Action)
    ensures s.executed.Keys <= Do(s, a).executed.Keys
  {
    hide Do, Commit;
    if a.Task? && a.task.DoCommit? {
      O.CommitDoes(s, a);
      CommitMore(s, a.k, a.task.clock);
    } else {
      O.OnlyCommits(s, a);
    }
  }

  lemma CommitMore(s: State, k: Key, clock: int)
    ensures s.executed.Keys <= Commit(s, k, clock).executed.Keys
  {
    hide Commit, Publishable;
    if Commit(s, k, clock).executed != s.executed { O.CommitRecords(s, k, clock); }
  }

  // ---- jobs ----

  /** A received message that is to be executed and whose source has been checked. */
  predicate Bound(j: Job) { j.request.Receive? && !j.replay && j.phase != Loaded }

  /** A bound job was bound before, or has just been checked. */
  predicate Comes(s: State, t: State, k: Key) {
    k in t.jobs && Bound(t.jobs[k]) ==>
      && k in s.jobs && s.jobs[k].request == t.jobs[k].request
      && (Bound(s.jobs[k]) || StillPending(s, t.jobs[k].request.envelope))
  }

  lemma DropComes(s: State, k: Key)
    ensures Comes(s, Drop(s, k), k)
  {
  }

  lemma LoadComes(s: State, k: Key, request: Request, time: int, limits: Limits)
    ensures Comes(s, Load(s, k, request, time, limits), k)
  {
    hide Open, Addressed, Missing, Admitted, StillPending;
  }

  lemma VerifyComes(s: State, k: Key)
    ensures Comes(s, Verify(s, k), k)
  {
    hide StillPending;
  }

  lemma ReuseComes(s: State, k: Key, timeout: nat, enabled: bool)
    ensures Comes(s, Reuse(s, k, timeout, enabled), k)
  {
    hide Reusable, StillPending;
  }

  lemma RenewComes(s: State, k: Key, timeout: nat, lease: nat)
    ensures Comes(s, Renew(s, k, timeout, lease), k)
  {
    hide Reusable, Current, StillPending;
  }

  lemma ConfirmComes(s: State, k: Key, enabled: bool)
    ensures Comes(s, Confirm(s, k, enabled), k)
  {
    hide StillPending;
  }

  lemma PrepareComes(s: State, k: Key, reply: Reply, limits: Limits, now: int)
    ensures Comes(s, Prepare(s, k, reply, limits, now), k)
  {
    hide Finished, Committed, Earliest, StillPending;
  }

  lemma ArmCheckComes(s: State, k: Key)
    ensures Comes(s, ArmCheck(s, k), k)
  {
    hide Current, StillPending;
  }

  lemma ArmReadComes(s: State, k: Key)
    ensures Comes(s, ArmRead(s, k), k)
  {
    hide Bucket, Shard, StillPending;
  }

  lemma ArmWriteComes(s: State, k: Key)
    ensures Comes(s, ArmWrite(s, k), k)
  {
    hide Bucket, Shard, StillPending;
  }

  lemma CommitComes(s: State, k: Key, clock: int)
    ensures Comes(s, Commit(s, k, clock), k)
  {
    hide Publishable, Recorded, StillPending;
  }

  lemma AnswerComes(s: State, k: Key)
    ensures Comes(s, Answer(s, k), k)
  {
    hide StillPending;
  }

  lemma ReadReleaseComes(s: State, k: Key)
    ensures Comes(s, ReadRelease(s, k), k)
  {
    hide StillPending;
  }

  lemma WriteReleaseComes(s: State, k: Key)
    ensures Comes(s, WriteRelease(s, k), k)
  {
    hide StillPending, Current;
  }

  lemma TaskComes(s: State, k: Key, a: TaskStep)
    ensures Comes(s, DoTask(s, k, a), k)
  {
    hide Load, Verify, Reuse, Renew, Confirm, Prepare, ArmCheck, ArmRead, ArmWrite, Commit, Answer, ReadRelease,
         WriteRelease, Drop, Comes;
    match a
    case DoLoad(request, time, limits) => LoadComes(s, k, request, time, limits);
    case DoVerify => VerifyComes(s, k);
    case DoReuse(timeout, enabled) => ReuseComes(s, k, timeout, enabled);
    case DoRenew(timeout, lease) => RenewComes(s, k, timeout, lease);
    case DoConfirm(enabled) => ConfirmComes(s, k, enabled);
    case DoPrepare(reply, limits, now) => PrepareComes(s, k, reply, limits, now);
    case DoArmCheck => ArmCheckComes(s, k);
    case DoArmRead => ArmReadComes(s, k);
    case DoArmWrite => ArmWriteComes(s, k);
    case DoCommit(clock) => CommitComes(s, k, clock);
    case DoAnswer => AnswerComes(s, k);
    case DoReadRelease => ReadReleaseComes(s, k);
    case DoWriteRelease => WriteReleaseComes(s, k);
    case DoDrop => DropComes(s, k);
  }

  lemma StepComes(s: State, a: Action, k: Key)
    ensures Comes(s, Do(s, a), k)
  {
    hide DoTask, DoHandle, DoServe, StillPending;
    if a.Serve? || a.k != k {
      H.OthersLeave(s, a, k);
    } else if a.Task? {
      TaskComes(s, k, a.task);
    } else if DoHandle(s, k, a.work) != s {
      var j := L.HandlerWorks(s, k, a.work);
    }
  }

  /** Every step keeps it so that a checked message is owed. */
  lemma InvStep(s: State, a: Action)
    requires Inv(s) && R.Inv(s) && L.Inv(s) && D.Inv(s) && D.Inv(Do(s, a))
    ensures Inv(Do(s, a))
  {
    hide R.Inv, L.Inv, D.Inv, Do, Owed;
    forall k | k in Do(s, a).jobs ensures Checked(Do(s, a), Do(s, a).jobs[k]) {
      StepComes(s, a, k);
      var j := Do(s, a).jobs[k];
      if Bound(j) {
        if !Bound(s.jobs[k]) { PendingOwed(s, j.request.envelope); }
        assert Checked(s, s.jobs[k]);
        OwedStep(s, a, j.request.envelope);
      }
    }
  }

  lemma PendingOwed(s: State, e: Envelope)
    requires StillPending(s, e)
    ensures Owed(s, e)
  {
  }

  lemma {:induction false} InvRun(s: State, actions: seq<Action>)
    requires Inv(s) && R.Inv(s) && L.Inv(s) && D.Inv(s)
    ensures Inv(Run(s, actions))
    decreases actions
  {
    hide Inv, R.Inv, L.Inv, D.Inv, Do;
    if actions != [] {
      R.InvStep(s, actions[0]);
      L.InvStep(s, actions[0]);
      D.InvStep(s, actions[0]);
      InvStep(s, actions[0]);
      InvRun(Do(s, actions[0]), actions[1..]);
    }
  }

  lemma ReachedInv(actions: seq<Action>)
    ensures Inv(Reached(actions))
  {
    hide Run;
    StartInv();
    InvRun(START, actions);
  }

  /** Over every run: whenever an execution is new, its source still holds that very message undone at that moment. */
  lemma ExecutedPending(actions: seq<Action>, a: Action, t: Ticket)
    requires var s := Reached(actions); t !in s.executed && t in Do(s, a).executed
    ensures var s := Reached(actions); var e := Do(s, a).executed[t].digest; e.ticket == t && StillPending(s, e)
  {
    hide Run, Inv, O.Inv, L.Inv, D.Inv, R.Inv, StillPending, Commit, Do, Publishable, Owed, D.Evolves, D.JobGlobal;
    ReachedInv(actions);
    O.ReachedInv(actions);
    var s := Reached(actions);
    if !(a.Task? && a.task.DoCommit?) { O.OnlyCommits(s, a); }
    O.CommitDoes(s, a);
    O.CommitRecords(s, a.k, a.task.clock);
    O.PublishableAt(s, a.k, a.task.clock);
    CommitWrites(s, a.k, a.task.clock);
    L.JobAt(s, a.k);
    D.JobAt(s, a.k);
    var j := s.jobs[a.k];
    CheckedAt(s, a.k);
    assert t == j.request.envelope.ticket;
    assert D.DeliveryOf(s.store[a.k.id]).epoch == t.to.epoch;
    OwedHere(s, j.request.envelope);
  }

  lemma CheckedAt(s: State, k: Key)
    requires Inv(s) && k in s.jobs
    ensures Checked(s, s.jobs[k])
  {
    hide Owed;
  }

  lemma OwedHere(s: State, e: Envelope)
    requires Owed(s, e) && e.ticket !in s.executed
    requires e.ticket.to.peer in s.store && !s.store[e.ticket.to.peer].value.destroyed
    ensures StillPending(s, e)
  {
  }
}
