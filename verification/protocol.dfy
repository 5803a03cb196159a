/** The entity protocol as a step system. Every worker operation is split at each `get` and `compare_exchange`, so that
    nodes interleave in any order; a worker may stop after any step, every clock reading is arbitrary, and messages
    between nodes are kept in sets that only grow, so that any of them may be lost, repeated or late. */
module Protocol {
  import opened Bytes
  import opened TimerState

  type Id = nat

  // ---- what is stored ----

  datatype Status = Success | NotFound | Refused | Failed

  datatype Reply = Reply(status: Status, data: bytes)

  /** The longest payload or result of a message. */
  const PAYLOAD_LIMIT: nat := 65536

  const GONE := Reply(NotFound, [])
  const REPLAYED := Reply(Success, [])

  /** One direction between two entity epochs: the peer seen from the record that holds the channel. */
  datatype Channel = Channel(peer: Id, epoch: nat)

  datatype Message = Message(to: Channel, sequence: nat, body: bytes, done: bool, reply: Reply)

  /** The hash of both channels and the sequence, kept as what is hashed. */
  datatype Ticket = Ticket(source: Channel, to: Channel, sequence: nat)

  datatype Envelope = Envelope(ticket: Ticket, body: bytes)

  /** The last executed message of a channel; the digest is kept as the envelope it is taken of. */
  datatype Cursor = Cursor(sequence: nat, digest: Envelope, reply: Reply)

  datatype Delivery = Delivery(epoch: nat, sent: map<Channel, nat>, outbox: seq<Message>, inbox: map<Channel, Cursor>)

  /** The text "version.sequence" that marks timer generations and tokens; `Unmarked` is the empty token. */
  datatype Mark = Unmarked | Mark(version: nat, sequence: nat)

  datatype Snap = Snap(state: bytes, delivery: Delivery, timers: Timers<Mark>)

  const EMPTY := Snap([], Delivery(0, map[], [], map[]), Timers(0, Unmarked, []))

  /** An entity record; an empty owner is nobody, an empty placement is anywhere. */
  datatype Entity = Entity(
    owner: bytes, expires: int, fence: nat, initialized: bool, placement: bytes, transfer: nat, destroyed: bool,
    snap: Snap)

  const NOBODY := Entity([], 0, 0, false, [], 0, false, EMPTY)

  /** A timer discovery entry. */
  datatype Entry = Entry(token: Mark, base: nat, fence: nat, due: int, pending: bool, placement: bytes)

  datatype Stored<T> = Stored(version: nat, value: T)

  // ---- workers ----

  datatype Request =
    | Call
    | Receive(envelope: Envelope)
    | Acknowledge(ticket: Ticket, reply: Reply)
    | Fire(key: bytes, generation: Mark, due: int)
    | Accept(transfer: nat)
    | Deactivate
    | Handoff(target: bytes)
    | Destroy

  datatype Phase = Loaded | Verified | Renewed | Ready | Arming | Checked | Listed | Armed | Releasing

  /** One task of a host on an entity. `base` is the record it started from, stored as `version`; `start` and `work` are
      the snapshot the handler got and the one it leaves; `next` is the record it writes and `entry` the discovery entry
      it arms. */
  datatype Job = Job(
    request: Request, phase: Phase, time: int, version: nat, base: Entity, start: Snap, work: Snap, replay: bool,
    answer: Reply,
    targets: set<Channel>, listed: Stored<set<Id>>, registered: bool, next: Entity, entry: Entry,
    bucket: Stored<map<Id, Entry>>)

  /** What a host allows when it is asked: its configured channels and messages per entity, and whether its byte budgets
      have room. */
  datatype Limits = Limits(channels: nat, messages: nat, room: bool)

  datatype Key = Key(owner: bytes, id: Id)

  /** A timer worker that has read a bucket and then, once `seen`, the record, and means to write `entries` back. */
  datatype Scan = Scan(
    id: Id, bucket: Stored<map<Id, Entry>>, seen: bool, record: Stored<Entity>, entries: map<Id, Entry>)

  /** A delivery worker that retires a destroyed source. */
  datatype Retire = Retire(id: Id, listed: Stored<set<Id>>)

  datatype Acked = Acked(ticket: Ticket, reply: Reply)

  datatype Firing = Firing(id: Id, key: bytes, generation: Mark, due: int)

  datatype Held = Held(id: Id, fence: nat)

  /** The store with its global revision, the workers, the messages, and the history the theorems speak of: what was
      executed, which timer occurrences fired, and who held each fence. */
  datatype State = State(
    revision: nat, store: map<Id, Stored<Entity>>, registry: Stored<set<Id>>, index: map<nat, Stored<map<Id, Entry>>>,
    jobs: map<Key, Job>, scans: map<nat, Scan>, retires: map<nat, Retire>,
    wire: set<Envelope>, acks: set<Acked>,
    executed: map<Ticket, Cursor>, fired: set<Firing>, holders: map<Held, bytes>)

  const START := State(0, map[], Stored(0, {}), map[], map[], map[], map[], {}, {}, map[], {}, map[])

  // ---- helpers ----

  /** `entity_node_matches`. */
  predicate Matches(owner: bytes, node: bytes) {
    owner == node || (|owner| > |node| && owner[..|node|] == node && owner[|node|] == 0x2f)
  }

  const SHARDS: nat := 64
  const SHARD_SEED: bv64 := 14695981039346656037
  const SHARD_PRIME: bv64 := 1099511628211

  /** The canonical text of an identity: sixteen lowercase hexadecimal digits. */
  function HexText(n: nat, digits: nat): bytes {
    if digits == 0 then [] else HexText(n / 16, digits - 1) + [if n % 16 < 10 then 0x30 + n % 16 else 0x57 + n % 16]
  }

  function Mixed(text: bytes): bv64 {
    if text == [] then SHARD_SEED
    else (Mixed(text[..|text| - 1]) ^ (text[|text| - 1] as bv64)) * SHARD_PRIME
  }

  /** `shard`: FNV-1a of the identity's text. */
  function Shard(id: Id): nat { Mixed(HexText(id, 16)) as nat % SHARDS }

  function Bucket(s: State, shard: nat): Stored<map<Id, Entry>> {
    if shard in s.index then s.index[shard] else Stored(0, map[])
  }

  function TicketOf(id: Id, epoch: nat, m: Message): Ticket { Ticket(Channel(id, epoch), m.to, m.sequence) }

  function EnvelopeOf(id: Id, epoch: nat, m: Message): Envelope { Envelope(TicketOf(id, epoch, m), m.body) }

  predicate AllDone(outbox: seq<Message>) { forall i :: 0 <= i < |outbox| ==> outbox[i].done }

  /** The first message that is not done, as the delivery worker sends it. */
  function FirstPending(id: Id, d: Delivery, i: nat): Option<Envelope>
    requires i <= |d.outbox|
    decreases |d.outbox| - i
  {
    if i == |d.outbox| then None
    else if !d.outbox[i].done then Some(EnvelopeOf(id, d.epoch, d.outbox[i]))
    else FirstPending(id, d, i + 1)
  }

  // ---- acquiring ----

  /** What the checks on a loaded record come to: the snapshot to work on, or an answer that needs no work. */
  datatype Opening = Opening(replay: bool, answer: Reply, snap: Snap)

  /** A repeated message replays; a new one must be the next of its channel, and a new channel must still be allowed. */
  function OpenReceive(r: Entity, e: Envelope, limits: Limits): Option<Opening> {
    var inbox, source := r.snap.delivery.inbox, e.ticket.source;
    if source in inbox && e.ticket.sequence <= inbox[source].sequence then
      if e.ticket.sequence == inbox[source].sequence && inbox[source].digest != e then None
      else
        var answer := if e.ticket.sequence == inbox[source].sequence then inbox[source].reply else REPLAYED;
        Some(Opening(true, answer, r.snap))
    else if e.ticket.sequence != (if source in inbox then inbox[source].sequence + 1 else 1) then None
    else if source !in inbox && |inbox| >= limits.channels then None
    else Some(Opening(false, REPLAYED, r.snap))
  }

  /** Marks the acknowledged message done; a different result for a message that is done already is refused. */
  function Marked(id: Id, epoch: nat, outbox: seq<Message>, ticket: Ticket, reply: Reply): Option<seq<Message>>
    decreases outbox
  {
    if outbox == [] then Some([])
    else if TicketOf(id, epoch, outbox[0]) == ticket then
      if outbox[0].done && outbox[0].reply != reply then None
      else Some([outbox[0].(done := true, reply := reply)] + outbox[1..])
    else match Marked(id, epoch, outbox[1..], ticket, reply)
      case None => None
      case Some(rest) => Some([outbox[0]] + rest)
  }

  function OpenAck(id: Id, r: Entity, ticket: Ticket, reply: Reply): Option<Opening> {
    var d := r.snap.delivery;
    if d.epoch != ticket.source.epoch then None
    else match Marked(id, d.epoch, d.outbox, ticket, reply)
      case None => None
      case Some(outbox) => Some(Opening(false, REPLAYED, r.snap.(delivery := d.(outbox := outbox))))
  }

  function Open(id: Id, r: Entity, request: Request, time: int, limits: Limits): Option<Opening> {
    var plain := Opening(false, REPLAYED, r.snap);
    match request
    case Receive(e) => OpenReceive(r, e, limits)
    case Acknowledge(ticket, reply) => OpenAck(id, r, ticket, reply)
    case Fire(key, generation, due) =>
      var found := Find(r.snap.timers.entries, key);
      var gone := found.None? || found.value.generation != generation || found.value.due != due;
      Some(plain.(replay := gone || due > time))
    case Destroy => if AllDone(r.snap.delivery.outbox) then Some(plain) else None
    case _ => Some(plain)
  }

  /** Requests other than local calls come from messages: an envelope for this entity, or an acknowledgement to it. */
  predicate Addressed(s: State, k: Key, request: Request) {
    match request
    case Receive(e) => e in s.wire && e.ticket.to.peer == k.id
    case Acknowledge(ticket, reply) =>
      Acked(ticket, reply) in s.acks && ticket.source.peer == k.id && |reply.data| <= PAYLOAD_LIMIT
    case Handoff(target) => !Matches(k.owner, target) && target != []
    case _ => true
  }

  /** Placement, handoff ticket, a clock that works, lease and initialization. */
  predicate Admitted(k: Key, r: Entity, request: Request, time: int) {
    && (r.placement != [] ==> Matches(k.owner, r.placement))
    && (request.Accept? ==> r.placement != [] && r.transfer == request.transfer) && 0 <= time
    && (r.owner == k.owner || r.expires <= time)
    && (request.Fire? ==> r.initialized)
  }

  /** No such record, a tombstone, or another epoch: the envelope is answered with `GONE`. */
  predicate Missing(s: State, k: Key, e: Envelope, time: int) {
    || k.id !in s.store
    || s.store[k.id].value.destroyed
    || (Admitted(k, s.store[k.id].value, Receive(e), time)
        && (!s.store[k.id].value.initialized || s.store[k.id].value.snap.delivery.epoch != e.ticket.to.epoch))
  }

  function NewJob(request: Request, phase: Phase, time: int, stored: Stored<Entity>, o: Opening, next: Entity): Job {
    Job(request, phase, time, stored.version, stored.value, o.snap, o.snap, o.replay, o.answer,
        {}, Stored(0, {}), false, next, Entry(Unmarked, 0, 0, 0, true, []), Stored(0, map[]))
  }

  function Load(s: State, k: Key, request: Request, time: int, limits: Limits): (t: State)
    ensures t == s.(jobs := t.jobs, acks := t.acks) && s.acks <= t.acks
  {
    if k in s.jobs || k.owner == [] || !Addressed(s, k, request) then s
    else if request.Receive? && Missing(s, k, request.envelope, time) then
      s.(acks := s.acks + {Acked(request.envelope.ticket, GONE)})
    else if k.id !in s.store || s.store[k.id].value.destroyed || !Admitted(k, s.store[k.id].value, request, time) then s
    else
      var stored := s.store[k.id];
      match Open(k.id, stored.value, request, time, limits)
      case None => s
      case Some(o) =>
        SetJob(s, k, NewJob(request, Loaded, time, stored, o, stored.value))
  }

  function SetJob(s: State, k: Key, j: Job): State { s.(jobs := s.jobs[k := j]) }

  function Drop(s: State, k: Key): State { s.(jobs := s.jobs - {k}) }

  /** A new envelope is executed only while its source still holds it undone. */
  predicate StillPending(s: State, e: Envelope) {
    var source := e.ticket.source;
    && source.peer in s.store
    && var r := s.store[source.peer].value;
       && r.initialized && r.snap.delivery.epoch == source.epoch
       && exists i :: 0 <= i < |r.snap.delivery.outbox| && !r.snap.delivery.outbox[i].done
            && EnvelopeOf(source.peer, source.epoch, r.snap.delivery.outbox[i]) == e
  }

  function Verify(s: State, k: Key): (t: State)
    ensures t == s.(jobs := t.jobs)
  {
    if k !in s.jobs || s.jobs[k].phase != Loaded || !s.jobs[k].request.Receive? || s.jobs[k].replay then s
    else if StillPending(s, s.jobs[k].request.envelope) then SetJob(s, k, s.jobs[k].(phase := Verified))
    else Drop(s, k)
  }

  predicate Acquiring(j: Job) { if j.request.Receive? && !j.replay then j.phase == Verified else j.phase == Loaded }

  predicate Reusable(k: Key, j: Job, timeout: nat) { j.base.owner == k.owner && j.base.expires - j.time > timeout }

  /** The handler's snapshot; a first delivery epoch is the version the job holds. */
  function Begun(j: Job, version: nat, base: Entity, enabled: bool): Job {
    var d := j.work.delivery;
    var snap := if enabled && d.epoch == 0 then j.work.(delivery := d.(epoch := version)) else j.work;
    j.(phase := Ready, version := version, base := base, start := snap, work := snap)
  }

  function Reuse(s: State, k: Key, timeout: nat, enabled: bool): (t: State)
    ensures t == s.(jobs := t.jobs)
  {
    if k !in s.jobs || !Acquiring(s.jobs[k]) || !Reusable(k, s.jobs[k], timeout) then s
    else SetJob(s, k, Begun(s.jobs[k], s.jobs[k].version, s.jobs[k].base, enabled))
  }

  /** Whether `compare_exchange` of an entity record at this version would succeed. */
  predicate Current(s: State, id: Id, version: nat) { id in s.store && s.store[id].version == version }

  function Write(s: State, id: Id, r: Entity): State {
    s.(revision := s.revision + 1, store := s.store[id := Stored(s.revision + 1, r)])
  }

  function Renew(s: State, k: Key, timeout: nat, lease: nat): (t: State)
    ensures t == s.(jobs := t.jobs, revision := t.revision, store := t.store, holders := t.holders)
    ensures t.revision >= s.revision
  {
    if k !in s.jobs || !Acquiring(s.jobs[k]) || Reusable(k, s.jobs[k], timeout) then s
    else
      var j := s.jobs[k];
      if j.time > INT64_MAX - lease || j.base.fence >= INT64_MAX - 1 || !Current(s, k.id, j.version) then Drop(s, k)
      else
        var r := j.base.(owner := k.owner, expires := j.time + lease, fence := j.base.fence + 1);
        SetJob(Write(s, k.id, r), k,
            j.(phase := Renewed, next := r)).(holders := s.holders[Held(k.id, r.fence) := k.owner])
  }

  function Confirm(s: State, k: Key, enabled: bool): (t: State)
    ensures t == s.(jobs := t.jobs)
  {
    if k !in s.jobs || s.jobs[k].phase != Renewed then s
    else if k.id in s.store && s.store[k.id].value == s.jobs[k].next then
      SetJob(s, k, Begun(s.jobs[k], s.store[k.id].version, s.jobs[k].next, enabled))
    else Drop(s, k)
  }

  // ---- the handler ----

  predicate Working(s: State, k: Key) {
    k in s.jobs && s.jobs[k].phase == Ready && !s.jobs[k].replay && !s.jobs[k].request.Acknowledge?
  }

  function Compute(s: State, k: Key, state: bytes): State {
    if !Working(s, k) then s else SetJob(s, k, s.jobs[k].(work := s.jobs[k].work.(state := state)))
  }

  /** The first read of `send_entity`: the target's epoch. */
  function Resolve(s: State, k: Key, target: Id): State {
    if !Working(s, k) || target !in s.store then s
    else
      var r := s.store[target].value;
      if r.destroyed || !r.initialized || r.snap.delivery.epoch == 0 then s
      else SetJob(s, k, s.jobs[k].(targets := s.jobs[k].targets + {Channel(target, r.snap.delivery.epoch)}))
  }

  function ReadRegistry(s: State, k: Key): State {
    if !Working(s, k) then s
    else SetJob(s, k, s.jobs[k].(listed := s.registry, registered := s.jobs[k].registered || k.id in s.registry.value))
  }

  function JoinRegistry(s: State, k: Key): State {
    if !Working(s, k) || s.registry.version != s.jobs[k].listed.version then s
    else
      var t := SetJob(s, k, s.jobs[k].(registered := true));
      t.(revision := s.revision + 1, registry := Stored(s.revision + 1, s.jobs[k].listed.value + {k.id}))
  }

  /** A registration whose job has ended in the meantime still takes effect. */
  function JoinLate(s: State, id: Id): (t: State)
    ensures t == s.(revision := t.revision, registry := t.registry)
    ensures t.revision >= s.revision
  {
    s.(revision := s.revision + 1, registry := Stored(s.revision + 1, s.registry.value + {id}))
  }

  function Staged(d: Delivery, to: Channel, body: bytes): Delivery {
    var sequence := (if to in d.sent then d.sent[to] else 0) + 1;
    d.(sent := d.sent[to := sequence], outbox := d.outbox + [Message(to, sequence, body, false, REPLAYED)])
  }

  /** The rest of `send_entity`: stages the next message of the channel. */
  function Stage(s: State, k: Key, to: Channel, body: bytes): State {
    if !Working(s, k) || to !in s.jobs[k].targets || !s.jobs[k].registered || s.jobs[k].work.delivery.epoch == 0 then s
    else
      SetJob(s, k, s.jobs[k].(work := s.jobs[k].work.(delivery := Staged(s.jobs[k].work.delivery, to, body))))
  }

  /** `forget_delivery`: only a done message can be forgotten. */
  function Forget(s: State, k: Key, i: nat): State {
    if !Working(s, k) || i >= |s.jobs[k].work.delivery.outbox| || !s.jobs[k].work.delivery.outbox[i].done then s
    else
      var j := s.jobs[k];
      var d := j.work.delivery;
      SetJob(s, k, j.(work := j.work.(delivery := d.(outbox := d.outbox[..i] + d.outbox[i + 1..]))))
  }

  /** `publish_timers`. */
  function Published(ts: Timers<Mark>, version: nat, entries: seq<Timer<Mark>>): Timers<Mark> {
    Timers(ts.sequence + 1, Mark(version, ts.sequence + 1), entries)
  }

  function Publish(s: State, k: Key, entries: seq<Timer<Mark>>): State
    requires k in s.jobs
  {
    var j := s.jobs[k];
    SetJob(s, k, j.(work := j.work.(timers := Published(j.work.timers, j.version, entries))))
  }

  /** `schedule_timer`: the generation is this job's version and the next sequence. */
  function Schedule(s: State, k: Key, t: Timer<Mark>): State {
    if !Working(s, k) || !ValidTimes(t) then s
    else
      var j := s.jobs[k];
      Publish(s, k, Insert(j.work.timers.entries, t.(generation := Mark(j.version, j.work.timers.sequence + 1))))
  }

  function Cancel(s: State, k: Key, key: bytes): State {
    if !Working(s, k) || Find(s.jobs[k].work.timers.entries, key).None? then s
    else Publish(s, k, Remove(s.jobs[k].work.timers.entries, key))
  }

  // ---- committing ----

  /** The timers after the callback of a firing: the occurrence is advanced or erased unless the callback replaced it.
      */
  function AfterFire(ts: Timers<Mark>, version: nat, f: Request, now: int): Option<Timers<Mark>>
    requires f.Fire?
  {
    match Find(ts.entries, f.key)
    case None => Some(ts)
    case Some(t) =>
      if t.generation != f.generation || t.due != f.due then Some(ts)
      else if !ValidTimes(t) then None
      else match Advanced(t, if now < f.due then f.due else now)
        case None => Some(Published(ts, version, Remove(ts.entries, f.key)))
        case Some(next) => Some(Published(ts, version, Insert(ts.entries, next)))
  }

  /** Whether the host publishes this delivery state. */
  predicate Allowed(d: Delivery, limits: Limits) {
    && (d.epoch != 0 ==> |d.outbox| <= limits.messages && |d.inbox| <= limits.channels && |d.sent| <= limits.channels)
    && limits.room
  }

  /** The snapshot a job's end asks for. A received message is decided by success or by a refusal of its handler, which
      leaves nothing but the inbox cursor; any other outcome decides nothing. */
  function Ended(j: Job, reply: Reply, now: int): Option<Snap> {
    match j.request
    case Receive(e) =>
      if reply.status == Failed || |reply.data| > PAYLOAD_LIMIT then None
      else
        var snap := if reply.status == Success then j.work else j.start;
        var d := snap.delivery;
        Some(snap.(delivery := d.(inbox := d.inbox[e.ticket.source := Cursor(e.ticket.sequence, e, reply)])))
    case Fire(_, _, _) =>
      (match AfterFire(j.work.timers, j.version, j.request, now)
       case None => None
       case Some(ts) => Some(j.work.(timers := ts)))
    case Destroy => if AllDone(j.work.delivery.outbox) then Some(j.work) else None
    case _ => Some(j.work)
  }

  /** The snapshot a finished job leaves, if the host allows it. */
  function Finished(j: Job, reply: Reply, limits: Limits, now: int): Option<Snap> {
    match Ended(j, reply, now)
    case None => None
    case Some(snap) => if Allowed(snap.delivery, limits) then Some(snap) else None
  }

  predicate Control(request: Request) { request.Deactivate? || request.Handoff? || request.Destroy? }

  function Committed(k: Key, j: Job, snap: Snap): Entity {
    var release := Control(j.request);
    Entity(
      if release then [] else k.owner, if release then 0 else j.base.expires, j.base.fence,
      if release then j.base.initialized else true,
      if j.request.Handoff? then j.request.target else j.base.placement,
      if j.request.Handoff? then j.version else j.base.transfer,
      j.request.Destroy?, if j.request.Destroy? then EMPTY else snap)
  }

  /** The record to write, and the discovery entry to arm first when timers changed or moved. */
  function PreparedJob(k: Key, j: Job, snap: Snap, reply: Reply): Job {
    var moved := j.request.Handoff? || j.request.Accept? || j.request.Destroy?;
    var dirty := snap.timers != j.start.timers || (snap.timers.token != Unmarked && moved);
    var next := Committed(k, j, snap);
    var entry := Entry(snap.timers.token, j.version, j.base.fence, Earliest(snap.timers.entries), true, next.placement);
    j.(phase := if dirty then Arming else Armed, answer := reply, work := snap, next := next, entry := entry)
  }

  function Prepare(s: State, k: Key, reply: Reply, limits: Limits, now: int): (t: State)
    ensures t == s.(jobs := t.jobs)
  {
    if k !in s.jobs || s.jobs[k].phase != Ready || s.jobs[k].replay then s
    else
      var j := s.jobs[k];
      match Finished(j, reply, limits, now)
      case None => Drop(s, k)
      case Some(snap) => SetJob(s, k, PreparedJob(k, j, snap, reply))
  }

  /** `arm` reads the record again before each attempt on the bucket. */
  function ArmCheck(s: State, k: Key): (t: State)
    ensures t == s.(jobs := t.jobs)
  {
    if k !in s.jobs || s.jobs[k].phase != Arming then s
    else if Current(s, k.id, s.jobs[k].version) && s.store[k.id].value.fence == s.jobs[k].entry.fence then
      SetJob(s, k, s.jobs[k].(phase := Checked))
    else Drop(s, k)
  }

  function ArmRead(s: State, k: Key): (t: State)
    ensures t == s.(jobs := t.jobs)
  {
    if k !in s.jobs || s.jobs[k].phase != Checked then s
    else
      var b := Bucket(s, Shard(k.id));
      if k.id in b.value && b.value[k.id].fence > s.jobs[k].entry.fence then Drop(s, k)
      else SetJob(s, k, s.jobs[k].(phase := Listed, bucket := b))
  }

  function ArmWrite(s: State, k: Key): (t: State)
    ensures t == s.(jobs := t.jobs, revision := t.revision, index := t.index)
    ensures t.revision >= s.revision
  {
    if k !in s.jobs || s.jobs[k].phase != Listed then s
    else
      var j := s.jobs[k];
      if Bucket(s, Shard(k.id)).version != j.bucket.version then SetJob(s, k, j.(phase := Arming))
      else WriteBucket(SetJob(s, k, j.(phase := Armed)), Shard(k.id), j.bucket.value[k.id := j.entry])
  }

  function WriteBucket(s: State, shard: nat, entries: map<Id, Entry>): State {
    s.(revision := s.revision + 1, index := s.index[shard := Stored(s.revision + 1, entries)])
  }

  /** The compare-exchange that publishes the job, with what it adds to the history and the acknowledgement it sends. */
  function Commit(s: State, k: Key, clock: int): State {
    if k !in s.jobs || s.jobs[k].phase != Armed then s
    else if !Publishable(s, k, clock) then Drop(s, k)
    else Recorded(Drop(Write(s, k.id, s.jobs[k].next), k), k.id, s.jobs[k])
  }

  /** The lease has not run out by the clock, and the record is still the one the job holds. */
  predicate Publishable(s: State, k: Key, clock: int) {
    k in s.jobs && s.jobs[k].phase == Armed && clock < s.jobs[k].base.expires && Current(s, k.id, s.jobs[k].version)
  }

  function Recorded(s: State, id: Id, j: Job): (t: State)
    ensures t == s.(acks := t.acks, executed := t.executed, fired := t.fired)
  {
    match j.request
    case Receive(e) =>
      s.(acks := s.acks + {Acked(e.ticket, j.answer)},
          executed := s.executed[e.ticket := Cursor(e.ticket.sequence, e, j.answer)])
    case Fire(key, generation, due) => s.(fired := s.fired + {Firing(id, key, generation, due)})
    case _ => s
  }

  /** A replay only answers. */
  function Answer(s: State, k: Key): (t: State)
    ensures t == s.(jobs := t.jobs, acks := t.acks) && s.acks <= t.acks
  {
    if k !in s.jobs || s.jobs[k].phase != Ready || !s.jobs[k].replay then s
    else
      var done := Drop(s, k);
      if s.jobs[k].request.Receive? then
        done.(acks := s.acks + {Acked(s.jobs[k].request.envelope.ticket, s.jobs[k].answer)})
      else done
  }

  // ---- deactivation without a hook ----

  function ReadRelease(s: State, k: Key): (t: State)
    ensures t == s.(jobs := t.jobs)
  {
    if k in s.jobs || k.owner == [] || k.id !in s.store || s.store[k.id].value.owner != k.owner then s
    else
      var stored := s.store[k.id];
      SetJob(s, k, NewJob(Deactivate, Releasing, 0, stored, Opening(false, REPLAYED, stored.value.snap),
                          stored.value.(owner := [], expires := 0)))
  }

  function WriteRelease(s: State, k: Key): (t: State)
    ensures t == s.(jobs := t.jobs, revision := t.revision, store := t.store)
    ensures t.revision >= s.revision
  {
    if k !in s.jobs || s.jobs[k].phase != Releasing then s
    else if Current(s, k.id, s.jobs[k].version) then Drop(Write(s, k.id, s.jobs[k].next), k)
    else Drop(s, k)
  }

  /** The entity record of `EntityCatalog::create`: written only where none exists. */
  function Create(s: State, id: Id, placement: bytes, state: bytes): (t: State)
    ensures t == s.(revision := t.revision, store := t.store)
    ensures t.revision >= s.revision
  {
    if id in s.store then s
    else Write(s, id, NOBODY.(placement := placement, snap := EMPTY.(state := state)))
  }

  // ---- the timer worker ----

  function ScanBucket(s: State, w: nat, id: Id): (t: State)
    ensures t == s.(scans := t.scans)
  {
    var b := Bucket(s, Shard(id));
    if id !in b.value then s
    else s.(scans := s.scans[w := Scan(id, b, false, Stored(0, NOBODY), map[])])
  }

  /** The producer of a pending entry may still commit: only a wake-up, no write. */
  predicate Unsettled(observed: Entry, stored: Stored<Entity>) {
    observed.pending && stored.value.snap.timers.token != observed.token && stored.version == observed.base
  }

  function ScanRecord(s: State, w: nat): (t: State)
    ensures t == s.(scans := t.scans)
  {
    if w !in s.scans || s.scans[w].seen || s.scans[w].id !in s.scans[w].bucket.value then s
    else
      var c := s.scans[w];
      var stop := s.(scans := s.scans - {w});
      if c.id !in s.store then s.(scans := s.scans[w := c.(seen := true, entries := c.bucket.value - {c.id})])
      else
        var stored := s.store[c.id];
        var r := stored.value;
        if r.destroyed then
          s.(scans := s.scans[w := c.(seen := true, record := stored, entries := c.bucket.value - {c.id})])
        else if Unsettled(c.bucket.value[c.id], stored) then stop
        else if r.snap.timers.entries == [] then
          s.(scans := s.scans[w := c.(seen := true, record := stored, entries := c.bucket.value - {c.id})])
        else
          var confirmed := Entry(r.snap.timers.token, stored.version, r.fence, Earliest(r.snap.timers.entries), false,
              r.placement);
          if c.bucket.value[c.id] == confirmed then stop
          else
            var entries := c.bucket.value[c.id := confirmed];
            s.(scans := s.scans[w := c.(seen := true, record := stored, entries := entries)])
  }

  function ScanWrite(s: State, w: nat): (t: State)
    ensures t == s.(scans := t.scans, revision := t.revision, index := t.index)
    ensures t.revision >= s.revision
  {
    if w !in s.scans || !s.scans[w].seen then s
    else
      var c := s.scans[w];
      var stop := s.(scans := s.scans - {w});
      if Bucket(s, Shard(c.id)).version != c.bucket.version then stop else WriteBucket(stop, Shard(c.id), c.entries)
  }

  // ---- the delivery worker ----

  /** Sends the first pending message of a source; the worker's list of sources may be out of date. */
  function Send(s: State, id: Id): (t: State)
    ensures t == s.(wire := t.wire)
  {
    if id !in s.store || s.store[id].value.destroyed then s
    else match FirstPending(id, s.store[id].value.snap.delivery, 0)
      case None => s
      case Some(e) => s.(wire := s.wire + {e})
  }

  /** Only a tombstone without pending messages is retired. */
  function ReadRetired(s: State, w: nat, id: Id): (t: State)
    ensures t == s.(retires := t.retires)
  {
    if id !in s.store || !s.store[id].value.destroyed || !AllDone(s.store[id].value.snap.delivery.outbox) then s
    else s.(retires := s.retires[w := Retire(id, Stored(0, {}))])
  }

  function ListRetired(s: State, w: nat): (t: State)
    ensures t == s.(retires := t.retires)
  {
    if w !in s.retires then s else s.(retires := s.retires[w := s.retires[w].(listed := s.registry)])
  }

  function WriteRetired(s: State, w: nat): (t: State)
    ensures t == s.(retires := t.retires, revision := t.revision, registry := t.registry)
    ensures t.revision >= s.revision
  {
    if w !in s.retires || s.registry.version != s.retires[w].listed.version then s
    else
      s.(retires := s.retires - {w}, revision := s.revision + 1,
         registry := Stored(s.revision + 1, s.retires[w].listed.value - {s.retires[w].id}))
  }

  // ---- runs ----

  /** A job's own steps on the store. */
  datatype TaskStep =
    | DoLoad(request: Request, time: int, limits: Limits)
    | DoVerify
    | DoReuse(timeout: nat, enabled: bool)
    | DoRenew(timeout: nat, lease: nat)
    | DoConfirm(enabled: bool)
    | DoPrepare(reply: Reply, limits: Limits, now: int)
    | DoArmCheck
    | DoArmRead
    | DoArmWrite
    | DoCommit(clock: int)
    | DoAnswer
    | DoDrop
    | DoReadRelease
    | DoWriteRelease

  /** What a handler does while its job is ready. */
  datatype HandlerStep =
    | DoCompute(state: bytes)
    | DoResolve(target: Id)
    | DoReadRegistry
    | DoJoinRegistry
    | DoStage(to: Channel, body: bytes)
    | DoForget(i: nat)
    | DoSchedule(timer: Timer<Mark>)
    | DoCancel(name: bytes)

  /** Everybody else. */
  datatype WorkerStep =
    | DoCreate(id: Id, placement: bytes, state: bytes)
    | DoJoinLate(id: Id)
    | DoScanBucket(w: nat, id: Id)
    | DoScanRecord(w: nat)
    | DoScanWrite(w: nat)
    | DoSend(id: Id)
    | DoReadRetired(w: nat, id: Id)
    | DoListRetired(w: nat)
    | DoWriteRetired(w: nat)

  datatype Action = Task(k: Key, task: TaskStep) | Handle(k: Key, work: HandlerStep) | Serve(serve: WorkerStep)

  function DoTask(s: State, k: Key, a: TaskStep): State {
    match a
    case DoLoad(request, time, limits) => Load(s, k, request, time, limits)
    case DoVerify => Verify(s, k)
    case DoReuse(timeout, enabled) => Reuse(s, k, timeout, enabled)
    case DoRenew(timeout, lease) => Renew(s, k, timeout, lease)
    case DoConfirm(enabled) => Confirm(s, k, enabled)
    case DoPrepare(reply, limits, now) => Prepare(s, k, reply, limits, now)
    case DoArmCheck => ArmCheck(s, k)
    case DoArmRead => ArmRead(s, k)
    case DoArmWrite => ArmWrite(s, k)
    case DoCommit(clock) => Commit(s, k, clock)
    case DoAnswer => Answer(s, k)
    case DoDrop => Drop(s, k)
    case DoReadRelease => ReadRelease(s, k)
    case DoWriteRelease => WriteRelease(s, k)
  }

  function DoHandle(s: State, k: Key, a: HandlerStep): State {
    match a
    case DoCompute(state) => Compute(s, k, state)
    case DoResolve(target) => Resolve(s, k, target)
    case DoReadRegistry => ReadRegistry(s, k)
    case DoJoinRegistry => JoinRegistry(s, k)
    case DoStage(to, body) => Stage(s, k, to, body)
    case DoForget(i) => Forget(s, k, i)
    case DoSchedule(timer) => Schedule(s, k, timer)
    case DoCancel(name) => Cancel(s, k, name)
  }

  function DoServe(s: State, a: WorkerStep): State {
    match a
    case DoCreate(id, placement, state) => Create(s, id, placement, state)
    case DoJoinLate(id) => JoinLate(s, id)
    case DoScanBucket(w, id) => ScanBucket(s, w, id)
    case DoScanRecord(w) => ScanRecord(s, w)
    case DoScanWrite(w) => ScanWrite(s, w)
    case DoSend(id) => Send(s, id)
    case DoReadRetired(w, id) => ReadRetired(s, w, id)
    case DoListRetired(w) => ListRetired(s, w)
    case DoWriteRetired(w) => WriteRetired(s, w)
  }

  function Do(s: State, a: Action): State {
    match a
    case Task(k, task) => DoTask(s, k, task)
    case Handle(k, work) => DoHandle(s, k, work)
    case Serve(serve) => DoServe(s, serve)
  }

  function Run(s: State, actions: seq<Action>): State
    decreases actions
  {
    if actions == [] then s else Run(Do(s, actions[0]), actions[1..])
  }
}
