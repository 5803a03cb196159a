/** The stall is real: for every limit hosts may be configured with there is a run that leads to it, in which one host
    with the least settings it accepts leases each entity once and then reuses the lease. */
module StallWitness {
  import opened Bytes
  import opened TimerState
  import opened Protocol
  import L = Leases
  import opened Chains
  import D = Deliveries
  import Gaps
  import opened Rounds
  import opened Stalls

  const HOST: bytes := [1]

  /** The most channels a host may be configured with. */
  const CHANNELS_LIMIT: nat := 4096

  const MESSAGES_LIMIT: nat := 1024

  /** A day in milliseconds. */
  const LEASE_LIMIT: nat := 86400000

  /** What the host's constructor asks of the settings that matter here. */
  predicate Accepted(h: Terms) {
    && 0 < h.limits.channels <= CHANNELS_LIMIT && 0 < h.limits.messages <= MESSAGES_LIMIT
    && 0 < h.timeout < h.lease <= LEASE_LIMIT
  }

  /** Identities start with one. */
  const RECEIVER: Id := 1

  function Host(id: Id): Key { Key(HOST, id) }

  /** One message an entity, a request timeout of one millisecond and a lease of two; the clock stands at zero. */
  function Configured(channels: nat): Terms { Terms(Limits(channels, 1, true), 0, 0, 1, 2) }

  /** Every job in the run is done by hosts with these settings. */
  predicate Kept(actions: seq<Action>, h: Terms) {
    forall i :: 0 <= i < |actions| && actions[i].Task? ==> Keeps(actions[i].task, h)
  }

  lemma KeptConcat(a: seq<Action>, b: seq<Action>, h: Terms)
    requires Kept(a, h) && Kept(b, h)
    ensures Kept(a + b, h)
  {
    hide Keeps;
  }

  lemma ByKept(actions: seq<Action>, k: Key, h: Terms)
    requires By(actions, k, h)
    ensures Kept(actions, h)
  {
    hide Keeps;
  }

  /** Hosts that keep to the settings keep to the number of channels. */
  lemma KeptCapped(actions: seq<Action>, h: Terms)
    requires Kept(actions, h)
    ensures Capped(actions, h.limits.channels)
  {
  }

  // ---- a call that sends one message ----

  /** The record of an entity that has run one call: leased once, with the delivery state it left. */
  function Called(d: Delivery): Entity { Entity(HOST, 2, 1, true, [], 0, false, EMPTY.(delivery := d)) }

  function Sender(epoch: nat, to: Channel): Delivery {
    Delivery(epoch, map[to := 1], [Message(to, 1, [], false, REPLAYED)], map[])
  }

  lemma CreatesJob(s: State, id: Id, channels: nat) returns (t: State, j: Job)
    requires id !in s.store && Host(id) !in s.jobs
    ensures Run(s, [Serve(DoCreate(id, [], [])), Task(Host(id), DoLoad(Call, 0, Configured(channels).limits))]) == t
    ensures t == Write(s, id, NOBODY).(jobs := s.jobs[Host(id) := j]) && Acquiring(j) && !j.replay && j.request == Call
    ensures j.time == 0 && j.version == s.revision + 1 && j.base == NOBODY && j.work == j.start == EMPTY
  {
    hide Run;
    var k := Host(id);
    RunTwo(s, Serve(DoCreate(id, [], [])), Task(k, DoLoad(Call, 0, Configured(channels).limits)));
    var made := Write(s, id, NOBODY);
    assert NOBODY.(placement := [], snap := EMPTY.(state := [])) == NOBODY;
    j := NewJob(Call, Loaded, 0, made.store[id], Opening(false, REPLAYED, EMPTY), NOBODY);
    t := SetJob(made, k, j);
  }

  const LEASED := L.Lease(NOBODY, HOST, 2)

  /** The entity is created, loaded and leased; its first epoch is the version of the lease. */
  function Starting(id: Id, channels: nat): seq<Action> {
    [Serve(DoCreate(id, [], [])), Task(Host(id), DoLoad(Call, 0, Configured(channels).limits))]
    + Acquisition(Host(id), NOBODY, Configured(channels))
  }

  lemma Starts(s: State, id: Id, channels: nat) returns (j: Job)
    requires id !in s.store && Host(id) !in s.jobs
    ensures var t := Run(s, Starting(id, channels));
      && t.store == s.store[id := Stored(s.revision + 2, LEASED)] && t.jobs == s.jobs[Host(id) := j]
      && t.wire == s.wire && t.executed == s.executed && t.revision == s.revision + 2
    ensures j.request == Call && j.phase == Ready && !j.replay && j.version == s.revision + 2 && j.base == LEASED
    ensures j.work == j.start == EMPTY.(delivery := EMPTY.delivery.(epoch := s.revision + 2))
  {
    hide Run, Acquire, Acquiring, Acquisition;
    var k, h := Host(id), Configured(channels);
    var front := [Serve(DoCreate(id, [], [])), Task(k, DoLoad(Call, 0, h.limits))];
    RunConcat(s, front, Acquisition(k, NOBODY, h));
    var t, i := CreatesJob(s, id, channels);
    AcquisitionRun(t, k, NOBODY, h);
    j := Acquires(t, k, i, h);
    assert s.jobs[k := i][k := j] == s.jobs[k := j];
  }

  /** The handler registers its entity and stages one message. */
  function Staging(id: Id, to: Channel): seq<Action> {
    var k := Host(id);
    [Handle(k, DoResolve(to.peer)), Handle(k, DoReadRegistry)] + [Handle(k, DoJoinRegistry), Handle(k, DoStage(to, []))]
  }

  predicate Listening(s: State, to: Channel) {
    && to.peer in s.store && to.epoch != 0
    && var r := s.store[to.peer].value; !r.destroyed && r.initialized && r.snap.delivery.epoch == to.epoch
  }

  /** The target is resolved and the registry read. */
  lemma Resolves(s: State, id: Id, j: Job, to: Channel) returns (l: Job)
    requires Host(id) in s.jobs && s.jobs[Host(id)] == j && j.request == Call && j.phase == Ready && !j.replay
    requires Listening(s, to)
    ensures Run(s, [Handle(Host(id), DoResolve(to.peer)), Handle(Host(id), DoReadRegistry)]) == SetJob(s, Host(id), l)
    ensures l == j.(targets := j.targets + {to}, listed := s.registry, registered := l.registered)
  {
    hide Run;
    var k := Host(id);
    RunTwo(s, Handle(k, DoResolve(to.peer)), Handle(k, DoReadRegistry));
    var i := j.(targets := j.targets + {to});
    l := i.(listed := s.registry, registered := i.registered || id in s.registry.value);
    assert Do(s, Handle(k, DoResolve(to.peer))) == SetJob(s, k, i);
    assert s.jobs[k := i][k := l] == s.jobs[k := l];
  }

  /** The entity is registered and its message staged. */
  lemma Joins(s: State, id: Id, l: Job, to: Channel) returns (now: Job)
    requires Host(id) in s.jobs && s.jobs[Host(id)] == l && l.request == Call && l.phase == Ready && !l.replay
    requires l.listed == s.registry && to in l.targets && l.work.delivery.epoch != 0
    ensures var t := Run(s, [Handle(Host(id), DoJoinRegistry), Handle(Host(id), DoStage(to, []))]);
      && t.store == s.store && t.jobs == s.jobs[Host(id) := now] && t.wire == s.wire && t.executed == s.executed
    ensures now == l.(registered := true, work := l.work.(delivery := Staged(l.work.delivery, to, [])))
  {
    hide Run, Staged;
    var k := Host(id);
    RunTwo(s, Handle(k, DoJoinRegistry), Handle(k, DoStage(to, [])));
    var m := l.(registered := true);
    now := m.(work := l.work.(delivery := Staged(l.work.delivery, to, [])));
    assert Do(s, Handle(k, DoJoinRegistry)).jobs == s.jobs[k := m];
    assert s.jobs[k := m][k := now] == s.jobs[k := now];
  }

  lemma Stages(s: State, id: Id, j: Job, to: Channel) returns (now: Job)
    requires Host(id) in s.jobs && s.jobs[Host(id)] == j && j.request == Call && j.phase == Ready && !j.replay
    requires Listening(s, to) && j.work.delivery.epoch != 0
    ensures var t := Run(s, Staging(id, to));
      && t.store == s.store && t.jobs == s.jobs[Host(id) := now] && t.wire == s.wire && t.executed == s.executed
    ensures now.request == Call && now.phase == Ready && !now.replay && now.version == j.version && now.base == j.base
    ensures now.start == j.start && now.work == j.work.(delivery := Staged(j.work.delivery, to, []))
  {
    hide Run, Staged, Listening;
    var k := Host(id);
    var l := Resolves(s, id, j, to);
    var t := SetJob(s, k, l);
    now := Joins(t, id, l, to);
    RunConcat(s, [Handle(k, DoResolve(to.peer)), Handle(k, DoReadRegistry)],
              [Handle(k, DoJoinRegistry), Handle(k, DoStage(to, []))]);
    assert s.jobs[k := l][k := now] == s.jobs[k := now];
  }

  lemma Ends(s: State, id: Id, j: Job, d: Delivery, channels: nat)
    requires Host(id) in s.jobs && s.jobs[Host(id)] == j && j.request == Call && j.phase == Ready && !j.replay
    requires Current(s, id, j.version) && j.base == LEASED && j.start.timers == EMPTY.timers
    requires j.work == EMPTY.(delivery := d) && Allowed(d, Configured(channels).limits)
    ensures var t := Run(s, Ending(Host(id), Configured(channels), REPLAYED));
      && t.store == Write(s, id, Called(d)).store && t.jobs == s.jobs - {Host(id)} && t.wire == s.wire
      && t.executed == s.executed
  {
    hide Run, Prepare, Commit;
    var k, h := Host(id), Configured(channels);
    RunTwo(s, Task(k, DoPrepare(REPLAYED, h.limits, 0)), Task(k, DoCommit(0)));
    Publishes(s, k, j, REPLAYED, h.limits, 0);
  }

  lemma SenderStaged(epoch: nat, to: Channel, channels: nat)
    requires channels > 0
    ensures Staged(EMPTY.delivery.(epoch := epoch), to, []) == Sender(epoch, to)
    ensures Allowed(Sender(epoch, to), Configured(channels).limits)
  {
  }

  lemma PartsKept(id: Id, to: Channel, channels: nat)
    ensures var h := Configured(channels);
      Kept(Starting(id, channels), h) && Kept(Staging(id, to), h) && Kept(Ending(Host(id), h, REPLAYED), h)
  {
  }

  // ---- the whole of it ----

  /** Everything an entity's first call is made of. */
  function Calling(id: Id, channels: nat): seq<Action> {
    Starting(id, channels) + Ending(Host(id), Configured(channels), REPLAYED)
  }

  function Sending(id: Id, to: Channel, channels: nat): seq<Action> {
    Starting(id, channels) + Staging(id, to) + Ending(Host(id), Configured(channels), REPLAYED)
  }

  lemma CallsKept(id: Id, to: Channel, channels: nat)
    ensures Kept(Calling(id, channels), Configured(channels)) && Kept(Sending(id, to, channels), Configured(channels))
  {
    hide Starting, Staging, Ending, Kept;
    var h, end := Configured(channels), Ending(Host(id), Configured(channels), REPLAYED);
    PartsKept(id, to, channels);
    KeptConcat(Starting(id, channels), end, h);
    KeptConcat(Starting(id, channels), Staging(id, to), h);
    KeptConcat(Starting(id, channels) + Staging(id, to), end, h);
  }

  /** An entity is made and runs one call, so that it has an epoch. */
  lemma Receives(s: State, id: Id, channels: nat)
    requires id !in s.store && Host(id) !in s.jobs
    ensures var t := Run(s, Calling(id, channels)); var d := Delivery(s.revision + 2, map[], [], map[]);
      && t.jobs == s.jobs && t.wire == s.wire && t.executed == s.executed && id in t.store
      && t.store == s.store[id := t.store[id]] && t.store[id].value == Called(d)
  {
    hide Run, Starting, Ending;
    var end := Ending(Host(id), Configured(channels), REPLAYED);
    var j := Starts(s, id, channels);
    Ends(Run(s, Starting(id, channels)), id, j, Delivery(s.revision + 2, map[], [], map[]), channels);
    RunConcat(s, Starting(id, channels), end);
    Ended(s.jobs, Host(id), j, j);
  }

  lemma Ended(jobs: map<Key, Job>, k: Key, i: Job, j: Job)
    requires k !in jobs
    ensures jobs[k := i][k := j] - {k} == jobs && jobs[k := i] - {k} == jobs
  {
  }

  lemma StillListening(s: State, t: State, id: Id, to: Channel)
    requires Listening(s, to) && id !in s.store && id in t.store && t.store == s.store[id := t.store[id]]
    ensures Listening(t, to)
  {
  }

  /** An entity is made and runs one call that sends one message. */
  lemma Introduces(s: State, id: Id, to: Channel, channels: nat)
    requires id !in s.store && Host(id) !in s.jobs && Listening(s, to) && channels > 0
    ensures var t := Run(s, Sending(id, to, channels));
      && t.jobs == s.jobs && t.wire == s.wire && t.executed == s.executed && id in t.store
      && t.store == s.store[id := t.store[id]] && t.store[id].value == Called(Sender(s.revision + 2, to))
  {
    hide Run, Starting, Staging, Ending, Staged, Allowed, Listening, Sender;
    var front, end := Starting(id, channels) + Staging(id, to), Ending(Host(id), Configured(channels), REPLAYED);
    var j := Starts(s, id, channels);
    var t := Run(s, Starting(id, channels));
    StillListening(s, t, id, to);
    var now := Stages(t, id, j, to);
    SenderStaged(s.revision + 2, to, channels);
    Ends(Run(t, Staging(id, to)), id, now, Sender(s.revision + 2, to), channels);
    RunConcat(s, front, end);
    RunConcat(s, Starting(id, channels), Staging(id, to));
    Ended(s.jobs, Host(id), j, now);
  }

  /** The receiver has taken one message from each of `n` sources, all under the lease of its first call. */
  predicate Filled(s: State, n: nat) {
    && s.jobs == map[] && (forall id :: id in s.store ==> RECEIVER <= id <= RECEIVER + n) && RECEIVER in s.store
    && var r := s.store[RECEIVER].value; var d := r.snap.delivery;
       && r == Called(d) && d == Delivery(d.epoch, map[], [], d.inbox) && d.epoch != 0
       && |d.inbox| == n && forall c :: c in d.inbox ==> RECEIVER < c.peer <= RECEIVER + n
  }

  lemma SenderFirst(s: State, id: Id, epoch: nat, to: Channel)
    requires id in s.store && s.store[id].value == Called(Sender(epoch, to))
    ensures var e := Envelope(Ticket(Channel(id, epoch), to, 1), []);
      && FirstPending(id, D.DeliveryOf(s.store[id]), 0) == Some(e) && StillPending(s, e)
  {
    var d := D.DeliveryOf(s.store[id]);
    FirstFound(id, d, 0, 0);
    PendingStill(s, s, id, d, 0, Envelope(Ticket(Channel(id, epoch), to, 1), []));
  }

  /** A new source is made and sends its message. */
  lemma Offers(s: State, id: Id, to: Channel, channels: nat) returns (sent: seq<Action>)
    requires id !in s.store && Host(id) !in s.jobs && Listening(s, to) && channels > 0
    ensures Kept(sent, Configured(channels))
    ensures var u := Run(s, sent); var e := Envelope(Ticket(Channel(id, s.revision + 2), to, 1), []);
      && u.jobs == s.jobs && id in u.store && u.store == s.store[id := u.store[id]]
      && e in u.wire && StillPending(u, e)
  {
    hide Run, StillPending, FirstPending, Kept, Sending, Listening;
    var made, send := Sending(id, to, channels), [Serve(DoSend(id))];
    Introduces(s, id, to, channels);
    CallsKept(id, to, channels);
    var t := Run(s, made);
    SenderFirst(t, id, s.revision + 2, to);
    RunOne(t, send[0]);
    SenderFirst(Run(t, send), id, s.revision + 2, to);
    sent := made + send;
    RunConcat(s, made, send);
    SendKept(id, Configured(channels));
    KeptConcat(made, send, Configured(channels));
  }

  /** One more source sends its message and the receiver takes it. */
  lemma FillsOne(s: State, n: nat, channels: nat) returns (round: seq<Action>)
    requires Filled(s, n) && n < channels <= CHANNELS_LIMIT
    ensures Filled(Run(s, round), n + 1) && Kept(round, Configured(channels))
  {
    hide Run, Steps, StillPending, Kept, By;
    var id, k, h := RECEIVER + n + 1, Host(RECEIVER), Configured(channels);
    var r := s.store[RECEIVER].value;
    var to := Channel(RECEIVER, r.snap.delivery.epoch);
    var sent := Offers(s, id, to, channels);
    var u := Run(s, sent);
    var e := Envelope(Ticket(Channel(id, s.revision + 2), to, 1), []);
    TakesOne(r.snap.delivery, e, n, channels);
    ReceiveRound(u, k, e, h, REPLAYED);
    var taken := Steps(k, r, Receive(e), h, REPLAYED);
    round := sent + taken;
    RunConcat(s, sent, taken);
    StepsBy(k, r, Receive(e), e, h, REPLAYED);
    ByKept(taken, k, h);
    KeptConcat(sent, taken, h);
  }

  lemma SendKept(id: Id, h: Terms)
    ensures Kept([Serve(DoSend(id))], h)
  {
  }

  lemma TakesOne(d: Delivery, e: Envelope, n: nat, channels: nat)
    requires d == Delivery(d.epoch, map[], [], d.inbox) && |d.inbox| == n < channels && e.ticket.sequence == 1
    requires forall c :: c in d.inbox ==> RECEIVER < c.peer <= RECEIVER + n
    requires e.ticket.source.peer == RECEIVER + n + 1
    ensures var now := Taken(d, e, REPLAYED);
      && Allowed(now, Configured(channels).limits) && |now.inbox| == n + 1 && Gaps.NextOf(d, e.ticket)
      && forall c :: c in now.inbox ==> RECEIVER < c.peer <= RECEIVER + n + 1
  {
    assert e.ticket.source !in d.inbox;
  }

  lemma {:induction false} Fill(n: nat, channels: nat) returns (actions: seq<Action>)
    requires n <= channels <= CHANNELS_LIMIT
    ensures Filled(Reached(actions), n) && Kept(actions, Configured(channels))
    decreases n
  {
    hide Run, Kept;
    if n == 0 {
      actions := Calling(RECEIVER, channels);
      Receives(START, RECEIVER, channels);
      CallsKept(RECEIVER, Channel(RECEIVER, 0), channels);
    } else {
      var before := Fill(n - 1, channels);
      var round := FillsOne(Reached(before), n - 1, channels);
      actions := before + round;
      RunConcat(START, before, round);
      KeptConcat(before, round, Configured(channels));
    }
  }

  /** For every limit a host accepts: hosts with that limit and settings they accept, working in time on entities with
      real identities, can reach a state in which a source waits for good. */
  lemma StallReached(channels: nat) returns (actions: seq<Action>, id: Id, e: Envelope, h: Terms)
    requires 0 < channels <= CHANNELS_LIMIT
    ensures Kept(actions, h) && Accepted(h) && Lasting(h) && h.limits.channels == channels
    ensures Capped(actions, channels) && 0 !in Reached(actions).store && Stalled(Reached(actions), id, e, channels)
  {
    hide Run, StillPending, FirstPending, Kept, Capped, Sending;
    h := Configured(channels);
    var filled := Fill(channels, channels);
    var s := Reached(filled);
    id := RECEIVER + channels + 1;
    var to := Channel(RECEIVER, D.DeliveryOf(s.store[RECEIVER]).epoch);
    var round := Sending(id, to, channels);
    Introduces(s, id, to, channels);
    CallsKept(id, to, channels);
    actions := filled + round;
    e := Envelope(Ticket(Channel(id, s.revision + 2), to, 1), []);
    RunConcat(START, filled, round);
    KeptConcat(filled, round, h);
    KeptCapped(actions, h);
    SenderFirst(Reached(actions), id, s.revision + 2, to);
  }
}
