/** Undisturbed rounds: from every reachable state the first pending message of a source is taken to its receiver and
    the answer back, whenever the receiver has a channel for the source. A host reuses a lease that outlasts a request
    and renews any other, as its settings demand. */
module Rounds {
  import opened Bytes
  import opened TimerState
  import opened Protocol
  import L = Leases
  import opened Chains
  import D = Deliveries
  import opened Gaps

  /** What a host goes by during a round: its limits, its clock when it acquires and when it commits, its request
      timeout and the lease it takes. */
  datatype Terms = Terms(limits: Limits, time: int, until: int, timeout: nat, lease: nat)

  /** Settings a host accepts, a clock at which a lease can be represented, and work done within the request timeout. */
  predicate Lasting(h: Terms) {
    0 < h.timeout < h.lease && h.time <= INT64_MAX - h.lease && h.until <= h.time + h.timeout
  }

  /** The host has the record on a lease that outlasts a request, and will not renew it. */
  predicate Holds(k: Key, r: Entity, h: Terms) { r.owner == k.owner && r.expires - h.time > h.timeout }

  /** The record a host works on: as it is under a lease it holds, or with a lease at the next fence. */
  function Granted(k: Key, r: Entity, h: Terms): Entity {
    if Holds(k, r, h) then r else L.Lease(r, k.owner, h.time + h.lease)
  }

  /** A host may work on the record: it is live, placed with the host or anywhere, free by the host's clock, and leased
      for long enough already or with a fence that can rise. */
  predicate Free(s: State, k: Key, request: Request, h: Terms) {
    && k !in s.jobs && k.owner != [] && k.id in s.store
    && var r := s.store[k.id].value; !r.destroyed && Admitted(k, r, request, h.time) && Grantable(k, r, h)
  }

  predicate Grantable(k: Key, r: Entity, h: Terms) { Holds(k, r, h) || r.fence < INT64_MAX - 1 }

  /** A step of a host with these settings and clock readings. */
  predicate Keeps(a: TaskStep, h: Terms) {
    match a
    case DoLoad(_, time, limits) => time == h.time && limits == h.limits
    case DoReuse(timeout, enabled) => timeout == h.timeout && enabled
    case DoRenew(timeout, lease) => timeout == h.timeout && lease == h.lease
    case DoConfirm(enabled) => enabled
    case DoPrepare(_, limits, now) => limits == h.limits && now == h.until
    case DoCommit(clock) => clock == h.until
    case _ => true
  }

  /** Nothing but steps of the host `k` with these settings. */
  predicate By(actions: seq<Action>, k: Key, h: Terms) {
    forall i :: 0 <= i < |actions| ==> actions[i].Task? && actions[i].k == k && Keeps(actions[i].task, h)
  }

  // ---- the steps of one host ----

  /** The lease is reused or renewed, as the record the job has loaded demands. */
  function Acquire(s: State, k: Key, r: Entity, h: Terms): State {
    if Holds(k, r, h) then Reuse(s, k, h.timeout, true) else Confirm(Renew(s, k, h.timeout, h.lease), k, true)
  }

  /** How many writes that takes. */
  function Grants(k: Key, r: Entity, h: Terms): nat { if Holds(k, r, h) then 0 else 1 }

  lemma Reuses(s: State, k: Key, j: Job, h: Terms)
    requires k in s.jobs && s.jobs[k] == j && Acquiring(j) && j.time == h.time && Holds(k, j.base, h)
    ensures Reuse(s, k, h.timeout, true) == SetJob(s, k, Begun(j, j.version, j.base, true))
  {
    hide Acquiring;
  }

  lemma Renews(s: State, k: Key, j: Job, h: Terms)
    requires k in s.jobs && s.jobs[k] == j && Acquiring(j) && j.time == h.time && !Holds(k, j.base, h)
    requires j.base.fence < INT64_MAX - 1 && j.time <= INT64_MAX - h.lease && Current(s, k.id, j.version)
    ensures var r := L.Lease(j.base, k.owner, j.time + h.lease);
      var t := Confirm(Renew(s, k, h.timeout, h.lease), k, true);
      && t.store == Write(s, k.id, r).store && t.acks == s.acks && t.wire == s.wire && t.executed == s.executed
      && t.revision == s.revision + 1 && t.jobs == s.jobs[k := Begun(j, s.revision + 1, r, true).(next := r)]
  {
    hide Acquiring;
    var u := Renew(s, k, h.timeout, h.lease);
    assert u.store[k.id].value == u.jobs[k].next && u.jobs[k].phase == Renewed;
  }

  lemma Acquires(s: State, k: Key, j: Job, h: Terms) returns (ready: Job)
    requires k in s.jobs && s.jobs[k] == j && Acquiring(j) && j.time == h.time && Grantable(k, j.base, h) && Lasting(h)
    requires Current(s, k.id, j.version) && s.store[k.id].value == j.base
    ensures var t := Acquire(s, k, j.base, h);
      && k.id in t.store && t.store[k.id].value == Granted(k, j.base, h) && t.store == s.store[k.id := t.store[k.id]]
      && t.revision == s.revision + Grants(k, j.base, h)
      && t.store[k.id].version == (if Holds(k, j.base, h) then j.version else t.revision)
      && t.acks == s.acks && t.wire == s.wire && t.executed == s.executed && t.jobs == s.jobs[k := ready]
      && ready == Begun(j, t.store[k.id].version, Granted(k, j.base, h), true).(next := ready.next)
  {
    hide Acquiring, Holds, Reuse, Renew, Confirm, Begun;
    if Holds(k, j.base, h) {
      Reuses(s, k, j, h);
      ready := Begun(j, j.version, j.base, true);
    } else {
      Renews(s, k, j, h);
      ready := Begun(j, s.revision + 1, Granted(k, j.base, h), true).(next := Granted(k, j.base, h));
    }
  }

  /** What was granted outlasts the work. */
  lemma GrantLasts(k: Key, r: Entity, h: Terms)
    requires Lasting(h)
    ensures var g := Granted(k, r, h);
      g.owner == k.owner && h.until < g.expires && g == r.(owner := g.owner, expires := g.expires, fence := g.fence)
  {
  }

  function With(ex: D.Executions, e: Envelope, reply: Reply): D.Executions {
    ex[e.ticket := Cursor(e.ticket.sequence, e, reply)]
  }

  /** A job that leaves the timers alone commits at once, if it is in time. */
  lemma Publishes(s: State, k: Key, j: Job, reply: Reply, limits: Limits, now: int)
    requires k in s.jobs && s.jobs[k] == j && j.phase == Ready && !j.replay
    requires j.request.Receive? || j.request.Acknowledge? || j.request.Call?
    requires Current(s, k.id, j.version) && now < j.base.expires && j.work.timers == j.start.timers
    requires Finished(j, reply, limits, now).Some?
    ensures var snap := Finished(j, reply, limits, now).value;
      var t := Commit(Prepare(s, k, reply, limits, now), k, now);
      && t.store == Write(s, k.id, Committed(k, j, snap)).store && t.jobs == s.jobs - {k} && t.wire == s.wire
      && t.revision == s.revision + 1
      && (if j.request.Receive? then
            && Acked(j.request.envelope.ticket, reply) in t.acks
            && t.executed == With(s.executed, j.request.envelope, reply)
          else t.executed == s.executed)
  {
    hide Finished, PreparedJob, Committed;
    var p := PreparedJob(k, j, Finished(j, reply, limits, now).value, reply);
    Undated(k, j, reply, limits, now);
    assert Prepare(s, k, reply, limits, now) == SetJob(s, k, p);
    assert (s.jobs[k := p]) - {k} == s.jobs - {k};
  }

  /** Neither timers nor placement have moved, so nothing is armed. */
  lemma Undated(k: Key, j: Job, reply: Reply, limits: Limits, now: int)
    requires j.request.Receive? || j.request.Acknowledge? || j.request.Call?
    requires j.work.timers == j.start.timers && Finished(j, reply, limits, now).Some?
    ensures var snap := Finished(j, reply, limits, now).value; var p := PreparedJob(k, j, snap, reply);
      && p.phase == Armed && p.next == Committed(k, j, snap) && p.answer == reply && p.request == j.request
      && p.version == j.version && p.base == j.base
  {
    hide Committed, Earliest, Allowed;
  }

  function Front(k: Key, request: Request, h: Terms): seq<Action> {
    var load := Task(k, DoLoad(request, h.time, h.limits));
    if request.Receive? then [load, Task(k, DoVerify)] else [load]
  }

  function Acquisition(k: Key, r: Entity, h: Terms): seq<Action> {
    if Holds(k, r, h) then [Task(k, DoReuse(h.timeout, true))]
    else [Task(k, DoRenew(h.timeout, h.lease)), Task(k, DoConfirm(true))]
  }

  function Ending(k: Key, h: Terms, reply: Reply): seq<Action> {
    [Task(k, DoPrepare(reply, h.limits, h.until)), Task(k, DoCommit(h.until))]
  }

  /** The steps of a host from loading the record `r` to committing. */
  function Steps(k: Key, r: Entity, request: Request, h: Terms, reply: Reply): seq<Action> {
    Front(k, request, h) + Acquisition(k, r, h) + Ending(k, h, reply)
  }

  /** The steps of a host that answers without working. */
  function Replaying(k: Key, r: Entity, e: Envelope, h: Terms): seq<Action> {
    [Task(k, DoLoad(Receive(e), h.time, h.limits))] + Acquisition(k, r, h) + [Task(k, DoAnswer)]
  }

  lemma StepsBy(k: Key, r: Entity, request: Request, e: Envelope, h: Terms, reply: Reply)
    ensures By(Steps(k, r, request, h, reply), k, h) && By(Replaying(k, r, e, h), k, h)
  {
  }

  lemma LoadBy(k: Key, e: Envelope, h: Terms)
    ensures By([Task(k, DoLoad(Receive(e), h.time, h.limits))], k, h)
  {
  }

  lemma {:induction false} RunConcat(s: State, a: seq<Action>, b: seq<Action>)
    ensures Run(s, a + b) == Run(Run(s, a), b)
    decreases a
  {
    hide Do;
    if a == [] {
      assert a + b == b;
    } else {
      assert (a + b)[0] == a[0] && (a + b)[1..] == a[1..] + b;
      RunConcat(Do(s, a[0]), a[1..], b);
    }
  }

  lemma RunOne(s: State, a: Action)
    ensures Run(s, [a]) == Do(s, a)
  {
    hide Do;
    assert [a][1..] == [];
    assert Run(Do(s, a), []) == Do(s, a);
  }

  lemma RunTwo(s: State, a: Action, b: Action)
    ensures Run(s, [a, b]) == Do(Do(s, a), b)
  {
    hide Do, Run;
    assert [a, b] == [a] + [b];
    RunConcat(s, [a], [b]);
    RunOne(s, a);
    RunOne(Do(s, a), b);
  }

  function Begin(s: State, k: Key, request: Request, h: Terms): State {
    var loaded := Load(s, k, request, h.time, h.limits);
    if request.Receive? then Verify(loaded, k) else loaded
  }

  function End(s: State, k: Key, h: Terms, reply: Reply): State {
    Commit(Prepare(s, k, reply, h.limits, h.until), k, h.until)
  }

  lemma AcquisitionRun(s: State, k: Key, r: Entity, h: Terms)
    ensures Run(s, Acquisition(k, r, h)) == Acquire(s, k, r, h)
  {
    hide Run, Reuse, Renew, Confirm, Holds;
    if Holds(k, r, h) {
      RunOne(s, Task(k, DoReuse(h.timeout, true)));
    } else {
      RunTwo(s, Task(k, DoRenew(h.timeout, h.lease)), Task(k, DoConfirm(true)));
    }
  }

  lemma StepsRun(s: State, k: Key, r: Entity, request: Request, h: Terms, reply: Reply)
    ensures Run(s, Steps(k, r, request, h, reply)) == End(Acquire(Begin(s, k, request, h), k, r, h), k, h, reply)
  {
    hide Run, Load, Verify, Acquire, Acquisition, Prepare, Commit;
    var front, end := Front(k, request, h), Ending(k, h, reply);
    RunConcat(s, front + Acquisition(k, r, h), end);
    RunConcat(s, front, Acquisition(k, r, h));
    if request.Receive? { RunTwo(s, front[0], front[1]); } else { RunOne(s, front[0]); }
    AcquisitionRun(Run(s, front), k, r, h);
    RunTwo(Run(s, front + Acquisition(k, r, h)), end[0], end[1]);
  }

  lemma ReplayingRun(s: State, k: Key, r: Entity, e: Envelope, h: Terms)
    ensures Run(s, Replaying(k, r, e, h))
      == Answer(Acquire(Load(s, k, Receive(e), h.time, h.limits), k, r, h), k)
  {
    hide Run, Load, Acquire, Acquisition, Answer;
    var front, end := [Task(k, DoLoad(Receive(e), h.time, h.limits))], [Task(k, DoAnswer)];
    RunConcat(s, front + Acquisition(k, r, h), end);
    RunConcat(s, front, Acquisition(k, r, h));
    RunOne(s, front[0]);
    AcquisitionRun(Run(s, front), k, r, h);
    RunOne(Run(s, front + Acquisition(k, r, h)), end[0]);
  }

  // ---- one round ----

  /** The record after a round: under the lease the host was granted, with the snapshot it left. */
  function After(k: Key, r: Entity, h: Terms, snap: Snap): Entity {
    Granted(k, r, h).(initialized := true, snap := snap)
  }

  function Taken(d: Delivery, e: Envelope, reply: Reply): Delivery {
    d.(inbox := d.inbox[e.ticket.source := Cursor(e.ticket.sequence, e, reply)])
  }

  /** The outcomes a host commits for a received message. */
  predicate Decides(reply: Reply) { reply.status != Failed && |reply.data| <= PAYLOAD_LIMIT }

  /** What a job leaves: a received message is counted, an acknowledgement has made its mark already. */
  function Left(j: Job, reply: Reply): Snap {
    if j.request.Receive? then j.work.(delivery := Taken(j.work.delivery, j.request.envelope, reply)) else j.work
  }

  lemma Leaves(k: Key, j: Job, reply: Reply, limits: Limits, now: int)
    requires j.request.Receive? || j.request.Acknowledge?
    requires j.base.owner == k.owner && !j.base.destroyed && j.work == j.start
    requires (j.request.Receive? ==> Decides(reply)) && Allowed(Left(j, reply).delivery, limits)
    ensures Finished(j, reply, limits, now) == Some(Left(j, reply))
    ensures Committed(k, j, Left(j, reply)) == j.base.(initialized := true, snap := Left(j, reply))
  {
  }

  lemma WorkRound(s: State, k: Key, j: Job, h: Terms, reply: Reply)
    requires k !in s.jobs && Acquiring(j) && Grantable(k, j.base, h) && !j.base.destroyed
    requires Current(s, k.id, j.version) && s.store[k.id].value == j.base
    requires j.work.delivery.epoch != 0 && j.work == j.start && !j.replay && Lasting(h) && j.time == h.time
    requires j.request.Receive? || j.request.Acknowledge?
    requires (j.request.Receive? ==> Decides(reply)) && Allowed(Left(j, reply).delivery, h.limits)
    ensures var t := End(Acquire(SetJob(s, k, j), k, j.base, h), k, h, reply);
      && t.jobs == s.jobs && t.wire == s.wire && t.revision == s.revision + Grants(k, j.base, h) + 1
      && t.store == s.store[k.id := Stored(t.revision, After(k, j.base, h, Left(j, reply)))]
      && (if j.request.Receive? then
            && Acked(j.request.envelope.ticket, reply) in t.acks
            && t.executed == With(s.executed, j.request.envelope, reply)
          else t.executed == s.executed)
  {
    hide Acquire, Prepare, Commit, Acquiring, Grantable, Granted, Grants, Finished, Committed, Left, Allowed, Decides;
    var work := Acquires(SetJob(s, k, j), k, j, h);
    var ready := Acquire(SetJob(s, k, j), k, j.base, h);
    GrantLasts(k, j.base, h);
    SameLeft(work, j, reply);
    Leaves(k, work, reply, h.limits, h.until);
    Publishes(ready, k, work, reply, h.limits, h.until);
    assert (s.jobs[k := j])[k := work] - {k} == s.jobs;
  }

  lemma SameLeft(i: Job, j: Job, reply: Reply)
    requires i.request == j.request && i.work == j.work
    ensures Left(i, reply) == Left(j, reply)
  {
  }

  /** An undisturbed receipt: with a channel for the source, room for the result and work done in time, the receiver
      counts the message and acknowledges it with the handler's result, under the lease it has or under a new one. */
  lemma ReceiveRound(s: State, k: Key, e: Envelope, h: Terms, reply: Reply)
    requires Free(s, k, Receive(e), h) && e in s.wire && StillPending(s, e) && Lasting(h) && Decides(reply)
    requires var r := s.store[k.id].value; var d := r.snap.delivery;
      && r.initialized && d.epoch != 0 && e.ticket.to == Channel(k.id, d.epoch) && NextOf(d, e.ticket)
      && Allowed(Taken(d, e, reply), h.limits)
    ensures var r := s.store[k.id].value; var t := Run(s, Steps(k, r, Receive(e), h, reply));
      && t.jobs == s.jobs && t.wire == s.wire && t.revision == s.revision + Grants(k, r, h) + 1
      && Acked(e.ticket, reply) in t.acks && t.executed == With(s.executed, e, reply)
      && t.store == s.store[k.id := Stored(t.revision,
                                           After(k, r, h, r.snap.(delivery := Taken(r.snap.delivery, e, reply))))]
  {
    hide Run, Acquire, End, Begin, StillPending, Admitted, Grantable, NextOf, Allowed, Decides;
    StepsRun(s, k, s.store[k.id].value, Receive(e), h, reply);
    var v := Opens(s, k, e, h, reply);
    WorkRound(s, k, v, h, reply);
  }

  lemma Opens(s: State, k: Key, e: Envelope, h: Terms, reply: Reply) returns (v: Job)
    requires Free(s, k, Receive(e), h) && e in s.wire && StillPending(s, e)
    requires var r := s.store[k.id].value; var d := r.snap.delivery;
      && r.initialized && d.epoch != 0 && e.ticket.to == Channel(k.id, d.epoch) && NextOf(d, e.ticket)
      && Allowed(Taken(d, e, reply), h.limits)
    ensures Begin(s, k, Receive(e), h) == SetJob(s, k, v) && Acquiring(v) && v.request == Receive(e) && !v.replay
    ensures v.time == h.time && v.version == s.store[k.id].version && v.base == s.store[k.id].value
    ensures v.work == v.start == v.base.snap
  {
    hide StillPending, Admitted;
    var at := s.store[k.id];
    var j := NewJob(Receive(e), Loaded, h.time, at, Opening(false, REPLAYED, at.value.snap), at.value);
    RoomLeft(at.value.snap.delivery, e, reply, h.limits);
    assert Load(s, k, Receive(e), h.time, h.limits) == SetJob(s, k, j);
    StillLoaded(s, k, j, e);
    v := j.(phase := Verified);
    assert s.jobs[k := j][k := v] == s.jobs[k := v];
  }

  /** A state the host would publish after the message leaves a channel for it before. */
  lemma RoomLeft(d: Delivery, e: Envelope, reply: Reply, limits: Limits)
    requires d.epoch != 0 && Allowed(Taken(d, e, reply), limits)
    ensures e.ticket.source in d.inbox || |d.inbox| < limits.channels
  {
    var c := Cursor(e.ticket.sequence, e, reply);
    assert e.ticket.source !in d.inbox ==> |d.inbox[e.ticket.source := c]| == |d.inbox| + 1;
  }

  lemma StillLoaded(s: State, k: Key, j: Job, e: Envelope)
    requires StillPending(s, e)
    ensures StillPending(SetJob(s, k, j), e)
  {
  }

  /** An undisturbed acknowledgement makes exactly one message done. */
  lemma AckRound(s: State, k: Key, ticket: Ticket, reply: Reply, h: Terms, outbox: seq<Message>)
    requires Free(s, k, Acknowledge(ticket, reply), h) && Acked(ticket, reply) in s.acks && Lasting(h)
    requires |reply.data| <= PAYLOAD_LIMIT
    requires var d := s.store[k.id].value.snap.delivery;
      && d.epoch != 0 && ticket.source == Channel(k.id, d.epoch)
      && Marked(k.id, d.epoch, d.outbox, ticket, reply) == Some(outbox) && Allowed(d.(outbox := outbox), h.limits)
    ensures var r := s.store[k.id].value; var t := Run(s, Steps(k, r, Acknowledge(ticket, reply), h, REPLAYED));
      && t.jobs == s.jobs && t.executed == s.executed && t.revision == s.revision + Grants(k, r, h) + 1
      && t.store == s.store[k.id := Stored(t.revision,
                                           After(k, r, h, r.snap.(delivery := r.snap.delivery.(outbox := outbox))))]
  {
    hide Run, Acquire, End, Begin, Admitted, Grantable, Marked, Allowed;
    StepsRun(s, k, s.store[k.id].value, Acknowledge(ticket, reply), h, REPLAYED);
    var j := OpensAck(s, k, ticket, reply, h, outbox);
    WorkRound(s, k, j, h, REPLAYED);
  }

  lemma OpensAck(s: State, k: Key, ticket: Ticket, reply: Reply, h: Terms, outbox: seq<Message>) returns (j: Job)
    requires Free(s, k, Acknowledge(ticket, reply), h) && Acked(ticket, reply) in s.acks
    requires |reply.data| <= PAYLOAD_LIMIT
    requires var d := s.store[k.id].value.snap.delivery;
      ticket.source == Channel(k.id, d.epoch) && Marked(k.id, d.epoch, d.outbox, ticket, reply) == Some(outbox)
    ensures Begin(s, k, Acknowledge(ticket, reply), h) == SetJob(s, k, j) && Acquiring(j)
    ensures j.request == Acknowledge(ticket, reply) && !j.replay && j.time == h.time
    ensures j.version == s.store[k.id].version && j.base == s.store[k.id].value
    ensures j.work == j.start == j.base.snap.(delivery := j.base.snap.delivery.(outbox := outbox))
  {
    hide Marked, Admitted;
    var at := s.store[k.id];
    var snap := at.value.snap.(delivery := at.value.snap.delivery.(outbox := outbox));
    j := NewJob(Acknowledge(ticket, reply), Loaded, h.time, at, Opening(false, REPLAYED, snap), at.value);
  }

  lemma {:induction false} MarkedOnly(id: Id, epoch: nat, outbox: seq<Message>, i: nat, reply: Reply)
    requires i < |outbox| && !outbox[i].done
    requires forall x :: 0 <= x < i ==> TicketOf(id, epoch, outbox[x]) != TicketOf(id, epoch, outbox[i])
    ensures Marked(id, epoch, outbox, TicketOf(id, epoch, outbox[i]), reply)
      == Some(outbox[i := outbox[i].(done := true, reply := reply)])
    decreases outbox
  {
    var m := outbox[i].(done := true, reply := reply);
    if i == 0 {
      assert [m] + outbox[1..] == outbox[0 := m];
    } else {
      assert outbox[1..][i - 1] == outbox[i] && forall x :: 0 <= x < i - 1 ==> outbox[1..][x] == outbox[x + 1];
      MarkedOnly(id, epoch, outbox[1..], i - 1, reply);
      assert [outbox[0]] + outbox[1..][i - 1 := m] == outbox[i := m];
    }
  }

  // ---- messages that need no execution ----

  /** An executed message is answered again with the recorded result; nothing is written under a lease that lasts. */
  lemma ReplayRound(s: State, k: Key, e: Envelope, h: Terms)
    requires Free(s, k, Receive(e), h) && e in s.wire && Lasting(h)
    requires var r := s.store[k.id].value; var d := r.snap.delivery;
      r.initialized && d.epoch != 0 && e.ticket.to == Channel(k.id, d.epoch) && LastOf(d, e, s.executed)
    ensures var r := s.store[k.id].value; var t := Run(s, Replaying(k, r, e, h));
      && t.jobs == s.jobs && t.executed == s.executed && Acked(e.ticket, s.executed[e.ticket].reply) in t.acks
      && t.revision == s.revision + Grants(k, r, h)
      && t.store == if Holds(k, r, h) then s.store else s.store[k.id := Stored(t.revision, Granted(k, r, h))]
  {
    hide Run, Load, Acquire, Admitted, Acquiring, Grantable;
    var r := s.store[k.id].value;
    ReplayingRun(s, k, r, e, h);
    var j := OpensReplay(s, k, e, h);
    var ready := Acquires(SetJob(s, k, j), k, j, h);
    assert (s.jobs[k := j])[k := ready] - {k} == s.jobs;
    assert Holds(k, r, h) ==> Acquire(SetJob(s, k, j), k, r, h).store[k.id] == s.store[k.id];
  }

  lemma OpensReplay(s: State, k: Key, e: Envelope, h: Terms) returns (j: Job)
    requires Free(s, k, Receive(e), h) && e in s.wire
    requires var r := s.store[k.id].value; var d := r.snap.delivery;
      r.initialized && d.epoch != 0 && e.ticket.to == Channel(k.id, d.epoch) && LastOf(d, e, s.executed)
    ensures Load(s, k, Receive(e), h.time, h.limits) == SetJob(s, k, j) && Acquiring(j) && j.request == Receive(e)
    ensures j.replay && j.answer == s.executed[e.ticket].reply && j.time == h.time
    ensures j.version == s.store[k.id].version && j.base == s.store[k.id].value && j.work == j.start == j.base.snap
  {
    hide Admitted;
    var at := s.store[k.id];
    var o := Opening(true, s.executed[e.ticket].reply, at.value.snap);
    j := NewJob(Receive(e), Loaded, h.time, at, o, at.value);
  }

  // ---- the whole round ----

  /** The receiver can answer: it is a tombstone, or a host may work on it. */
  predicate Answerable(s: State, k: Key, e: Envelope, h: Terms) {
    && k !in s.jobs && k.owner != [] && k.id in s.store && e.ticket.to.peer == k.id
    && (s.store[k.id].value.destroyed || (Free(s, k, Receive(e), h) && Lasting(h)))
  }

  /** The receiver has nothing to execute, or what it would execute can be committed: the handler's result decides, and
      the delivery state with the source's channel in it is one the host publishes. */
  predicate Takes(s: State, k: Key, e: Envelope, h: Terms, reply: Reply)
    requires k.id in s.store
  {
    || s.store[k.id].value.destroyed || e.ticket in s.executed
    || (Decides(reply) && Allowed(Taken(D.DeliveryOf(s.store[k.id]), e, reply), h.limits))
  }

  /** The receiver has the message next, had it last, or is a tombstone. */
  predicate Expecting(s: State, k: Key, e: Envelope)
    requires k.id in s.store
  {
    var r := s.store[k.id].value;
    || r.destroyed
    || (&& r.initialized && r.snap.delivery.epoch == e.ticket.to.epoch != 0
        && if e.ticket in s.executed then LastOf(r.snap.delivery, e, s.executed) else NextOf(r.snap.delivery, e.ticket))
  }

  /** What the receiver's part of a round leaves in its record: a lease and an inbox. */
  predicate Visited(k: Key, was: Entity, now: Entity, h: Terms) {
    if was.destroyed then now == was
    else now == After(k, was, h, was.snap.(delivery := was.snap.delivery.(inbox := now.snap.delivery.inbox)))
  }

  lemma There(s: State, k: Key, e: Envelope, h: Terms, reply: Reply) returns (round: seq<Action>, answer: Reply)
    requires Answerable(s, k, e, h) && Expecting(s, k, e) && Takes(s, k, e, h, reply) && e in s.wire
    requires StillPending(s, e)
    ensures By(round, k, h)
    ensures var t := Run(s, round); var live := !s.store[k.id].value.destroyed;
      && t.jobs == s.jobs && k.id in t.store && t.store == s.store[k.id := t.store[k.id]]
      && Acked(e.ticket, answer) in t.acks
      && Visited(k, s.store[k.id].value, t.store[k.id].value, h) && (!live ==> answer == GONE)
      && (live ==> e.ticket in t.executed && t.executed[e.ticket].reply == answer)
      && (live && e.ticket in s.executed ==>
            t.executed == s.executed && D.DeliveryOf(t.store[k.id]) == D.DeliveryOf(s.store[k.id]))
      && (live && e.ticket !in s.executed ==>
            answer == reply && D.DeliveryOf(t.store[k.id]) == Taken(D.DeliveryOf(s.store[k.id]), e, reply))
  {
    hide Run, Steps, Replaying, Admitted, StillPending, NextOf, Allowed, Decides, Grants, By, Grantable;
    var r := s.store[k.id].value;
    if r.destroyed {
      round, answer := [Task(k, DoLoad(Receive(e), h.time, h.limits))], GONE;
      RunOne(s, round[0]);
      LoadBy(k, e, h);
    } else if e.ticket !in s.executed {
      round, answer := Steps(k, r, Receive(e), h, reply), reply;
      ReceiveRound(s, k, e, h, reply);
      StepsBy(k, r, Receive(e), e, h, reply);
    } else {
      round, answer := Replaying(k, r, e, h), s.executed[e.ticket].reply;
      ReplayRound(s, k, e, h);
      StepsBy(k, r, Receive(e), e, h, reply);
    }
  }

  /** A source that sends to itself is one host's work, twice. */
  predicate Apart(s: State, a: Key, ha: Terms, b: Key, hb: Terms)
    requires a.id in s.store
  {
    a.id == b.id ==>
      && a == b && ha.limits == hb.limits && ha.timeout == hb.timeout && ha.lease == hb.lease
      && Grantable(a, Granted(b, s.store[a.id].value, hb), ha)
  }

  /** From every reachable state, whatever was lost, repeated or abandoned before: when hosts may work on source and
      receiver, each with its own settings and clock, and the receiver takes the message, one undisturbed round (the
      message is sent, the receiver's host does its steps, the source's host does its own) makes the source's first
      pending message done with the outcome the receiver committed for it, executing it only if that had not
      happened yet; a tombstone answers that it is gone. */
  lemma RoundCompletes(actions: seq<Action>, a: Key, ha: Terms, b: Key, hb: Terms, e: Envelope, reply: Reply)
    returns (i: nat, there: seq<Action>, back: seq<Action>)
    requires var s := Reached(actions);
      && Free(s, a, Call, ha) && s.store[a.id].value.initialized && Lasting(ha)
      && FirstPending(a.id, D.DeliveryOf(s.store[a.id]), 0) == Some(e)
      && Allowed(D.DeliveryOf(s.store[a.id]), ha.limits)
      && Answerable(s, b, e, hb) && Takes(s, b, e, hb, reply) && Apart(s, a, ha, b, hb)
    ensures By(there, b, hb) && By(back, a, ha)
    ensures var s := Reached(actions); var t := Run(s, [Serve(DoSend(a.id))] + there + back);
      var was := D.DeliveryOf(s.store[a.id]).outbox;
      && i < |was| && !was[i].done && EnvelopeOf(a.id, e.ticket.source.epoch, was[i]) == e
      && t.store.Keys == s.store.Keys
      && (if s.store[b.id].value.destroyed then
            D.DeliveryOf(t.store[a.id]).outbox == was[i := was[i].(done := true, reply := GONE)]
          else
            && e.ticket in t.executed
            && (if e.ticket in s.executed then t.executed == s.executed else t.executed[e.ticket].reply == reply)
            && D.DeliveryOf(t.store[a.id]).outbox
               == was[i := was[i].(done := true, reply := t.executed[e.ticket].reply)])
  {
    hide Run, D.Inv, Inv, D.Ordered, D.Known, Marked, FirstPending, D.Passed, StillPending, Expecting, D.Answered,
         D.Counted, Free, Allowed, Answerable, Takes, Decides, By, Steps, Grantable, Granted, Grants;
    ReachedInv(actions);
    var s := Reached(actions);
    FreeStored(s, a, ha, b, e, hb);
    i := FirstIs(s, a.id, e);
    Expects(s, a, b, e);
    var d, send := D.DeliveryOf(s.store[a.id]), [Serve(DoSend(a.id))];
    RunOne(s, send[0]);
    var sent := Run(s, send);
    assert sent == s.(wire := s.wire + {e});
    PendingStill(s, sent, a.id, d, i, e);
    StillExpects(s, sent, b, e, hb, reply);
    var answer;
    there, answer := There(sent, b, e, hb, reply);
    var done := Run(sent, there);
    AnswerShort(s, b, e, hb, reply, answer);
    MarkedOnly(a.id, d.epoch, d.outbox, i, answer);
    var outbox := d.outbox[i := d.outbox[i].(done := true, reply := answer)];
    StillFree(s, done, a, ha, b, hb, e, answer);
    StillAllowed(s, done, a, ha, b, hb, e, reply, outbox);
    AckRound(done, a, e.ticket, answer, ha, outbox);
    back := Steps(a, done.store[a.id].value, Acknowledge(e.ticket, answer), ha, REPLAYED);
    StepsBy(a, done.store[a.id].value, Acknowledge(e.ticket, answer), e, ha, REPLAYED);
    RunConcat(s, send + there, back);
    RunConcat(s, send, there);
  }

  lemma FreeStored(s: State, a: Key, ha: Terms, b: Key, e: Envelope, h: Terms)
    requires Free(s, a, Call, ha) && Answerable(s, b, e, h)
    ensures a.id in s.store && !s.store[a.id].value.destroyed && b.id in s.store && e.ticket.to.peer == b.id
  {
  }

  lemma FirstIs(s: State, id: Id, e: Envelope) returns (i: nat)
    requires D.Inv(s) && id in s.store && FirstPending(id, D.DeliveryOf(s.store[id]), 0) == Some(e)
    ensures var d := D.DeliveryOf(s.store[id]);
      && i < |d.outbox| && !d.outbox[i].done && EnvelopeOf(id, d.epoch, d.outbox[i]) == e && d.epoch != 0
      && (forall x :: 0 <= x < i ==> TicketOf(id, d.epoch, d.outbox[x]) != TicketOf(id, d.epoch, d.outbox[i]))
  {
    hide D.Inv, D.Passed, FirstPending, D.Answered, D.Counted;
    D.RecordAt(s, id);
    D.FirstPassed(id, D.DeliveryOf(s.store[id]));
    i := D.FirstPendingAt(id, D.DeliveryOf(s.store[id]), 0);
    EarlierDiffer(id, D.DeliveryOf(s.store[id]), i);
  }

  lemma Expects(s: State, a: Key, b: Key, e: Envelope)
    requires Inv(s) && D.Inv(s) && a.id in s.store && !s.store[a.id].value.destroyed && b.id in s.store
    requires e.ticket.to.peer == b.id && FirstPending(a.id, D.DeliveryOf(s.store[a.id]), 0) == Some(e)
    ensures Expecting(s, b, e)
  {
    hide Inv, D.Inv, FirstPending;
    if !s.store[b.id].value.destroyed {
      OfferedAccepted(s, a.id, e, Limits(|D.DeliveryOf(s.store[b.id]).inbox| + 1, 0, true));
    }
  }

  lemma StillExpects(s: State, t: State, k: Key, e: Envelope, h: Terms, reply: Reply)
    requires t.store == s.store && t.executed == s.executed && t.jobs == s.jobs && k.id in s.store
    requires Expecting(s, k, e) && Answerable(s, k, e, h) && Takes(s, k, e, h, reply)
    ensures Expecting(t, k, e) && Answerable(t, k, e, h) && Takes(t, k, e, h, reply)
  {
    hide Admitted, Allowed, Decides;
  }

  /** The answer is one the source's host accepts. */
  lemma AnswerShort(s: State, k: Key, e: Envelope, h: Terms, reply: Reply, answer: Reply)
    requires D.Inv(s) && k.id in s.store && Takes(s, k, e, h, reply)
    requires s.store[k.id].value.destroyed ==> answer == GONE
    requires !s.store[k.id].value.destroyed ==>
      answer == if e.ticket in s.executed then s.executed[e.ticket].reply else reply
    ensures |answer.data| <= PAYLOAD_LIMIT
  {
    hide D.WireOk, D.AckOk, D.RecordOk, D.JobLocal, D.JobGlobal;
    if e.ticket in s.executed { assert D.ExecOk(e.ticket, s.executed[e.ticket], s.wire); }
  }

  lemma StillFree(s: State, t: State, a: Key, ha: Terms, b: Key, hb: Terms, e: Envelope, answer: Reply)
    requires Free(s, a, Call, ha) && b.id in s.store && b.id in t.store && t.jobs == s.jobs
    requires t.store == s.store[b.id := t.store[b.id]] && Visited(b, s.store[b.id].value, t.store[b.id].value, hb)
    requires Apart(s, a, ha, b, hb)
    ensures Free(t, a, Acknowledge(e.ticket, answer), ha)
  {
  }

  lemma StillAllowed(s: State, t: State, a: Key, ha: Terms, b: Key, hb: Terms, e: Envelope, reply: Reply,
                     outbox: seq<Message>)
    requires a.id in s.store && b.id in s.store && b.id in t.store && t.store == s.store[b.id := t.store[b.id]]
    requires !s.store[a.id].value.destroyed && Allowed(D.DeliveryOf(s.store[a.id]), ha.limits)
    requires Takes(s, b, e, hb, reply)
    requires Visited(b, s.store[b.id].value, t.store[b.id].value, hb) && Apart(s, a, ha, b, hb)
    requires |outbox| == |D.DeliveryOf(s.store[a.id]).outbox|
    requires !s.store[b.id].value.destroyed && e.ticket in s.executed ==>
      D.DeliveryOf(t.store[b.id]) == D.DeliveryOf(s.store[b.id])
    requires !s.store[b.id].value.destroyed && e.ticket !in s.executed ==>
      D.DeliveryOf(t.store[b.id]) == Taken(D.DeliveryOf(s.store[b.id]), e, reply)
    ensures var d := D.DeliveryOf(t.store[a.id]);
      && Allowed(d.(outbox := outbox), ha.limits)
      && d == D.DeliveryOf(s.store[a.id]).(inbox := d.inbox)
  {
  }

  lemma PendingStill(s: State, t: State, id: Id, d: Delivery, i: nat, e: Envelope)
    requires t.store == s.store && id in s.store && s.store[id].value.initialized
    requires s.store[id].value.snap.delivery == d
    requires i < |d.outbox| && !d.outbox[i].done && EnvelopeOf(id, d.epoch, d.outbox[i]) == e
    ensures StillPending(t, e)
  {
  }

  lemma EarlierDiffer(id: Id, d: Delivery, i: nat)
    requires D.Ordered(d) && i < |d.outbox|
    ensures forall x :: 0 <= x < i ==> TicketOf(id, d.epoch, d.outbox[x]) != TicketOf(id, d.epoch, d.outbox[i])
  {
  }
}
