/** Identities: block allocation from a shared high-water mark, and creation claims, with any number of allocators and
    creators racing and stopping anywhere. Hashes are kept as what is hashed, so equal digests mean equal inputs. */
module Catalog {
  import opened Bytes

  const UINT64_MAX: nat := U64 - 1

  datatype Stored<T> = Stored(version: nat, value: T)

  /** A creation request is named by its scope and key; its fingerprint is everything that was asked for. */
  datatype Operation = Operation(scope: bytes, key: bytes)

  datatype Creation = Creation(kind: bytes, owner: bytes, state: bytes, target: bytes, rebuildable: bool)

  datatype Claim = Claim(id: nat, creation: Creation)

  /** `EntityIdAllocator`, with the mark it has read while it is reserving a block. */
  datatype Allocator = Allocator(block: nat, next: nat, remaining: nat, seen: Option<Stored<nat>>)

  datatype Phase =
    | Reading
    | Allocating
    | Claiming(candidate: nat)
    | Claimed(claim: Claim)
    | Creating(id: nat)
    | Checking(id: nat)
    | Returned(id: nat)
    | Conflict
    | Collided

  datatype Creator = Creator(operation: Operation, creation: Creation, phase: Phase)

  /** `marks` is the high-water record, `issued` every identity ever handed out. */
  datatype State = State(
    revision: nat, marks: Stored<nat>, claims: map<Operation, Claim>, entities: map<nat, Creation>,
    allocators: map<nat, Allocator>, creators: map<nat, Creator>, issued: set<nat>)

  const START := State(0, Stored(0, 0), map[], map[], map[], map[], {})

  // ---- steps ----

  function AddAllocator(s: State, a: nat, block: nat): State {
    if a in s.allocators || block == 0 || block > 1048576 then s
    else s.(allocators := s.allocators[a := Allocator(block, 0, 0, None)])
  }

  function ReadMark(s: State, a: nat): State {
    if a !in s.allocators || s.allocators[a].remaining > 0 then s
    else s.(allocators := s.allocators[a := s.allocators[a].(seen := Some(s.marks))])
  }

  function Smaller(a: nat, b: nat): nat { if a < b then a else b }

  /** The compare-exchange of the high-water mark; at the last identity allocation fails. */
  function Reserve(s: State, a: nat): State {
    if a !in s.allocators || s.allocators[a].remaining > 0 || s.allocators[a].seen.None? then s
    else
      var mark := s.allocators[a].seen.value;
      if mark.value >= UINT64_MAX || mark.version != s.marks.version then
        s.(allocators := s.allocators[a := s.allocators[a].(seen := None)])
      else
        var count := Smaller(s.allocators[a].block, UINT64_MAX - mark.value);
        s.(revision := s.revision + 1, marks := Stored(s.revision + 1, mark.value + count),
           allocators := s.allocators[a := Allocator(s.allocators[a].block, mark.value + 1, count, None)])
  }

  /** The end of `allocate`, for the creator `c`. */
  function Allocate(s: State, a: nat, c: nat): State {
    if a !in s.allocators || s.allocators[a].remaining == 0 then s
    else if c !in s.creators || s.creators[c].phase != Allocating then s
    else
      var x := s.allocators[a];
      var left := x.remaining - 1;
      s.(allocators := s.allocators[a := x.(next := if left > 0 then x.next + 1 else x.next, remaining := left)],
         issued := s.issued + {x.next}, creators := s.creators[c := s.creators[c].(phase := Claiming(x.next))])
  }

  /** A crash loses whatever a process held; its identities are never handed out again. */
  function Crash(s: State, a: nat): State { s.(allocators := s.allocators - {a}) }

  function Begin(s: State, c: nat, operation: Operation, creation: Creation): State {
    s.(creators := s.creators[c := Creator(operation, creation, Reading)])
  }

  function Move(s: State, c: nat, phase: Phase): State
    requires c in s.creators
  {
    s.(creators := s.creators[c := s.creators[c].(phase := phase)])
  }

  function ReadClaim(s: State, c: nat): State {
    if c !in s.creators || s.creators[c].phase != Reading then s
    else if s.creators[c].operation in s.claims then Move(s, c, Claimed(s.claims[s.creators[c].operation]))
    else Move(s, c, Allocating)
  }

  /** The claim is written only where there is none; a loser reads the winner's. */
  function WriteClaim(s: State, c: nat): State {
    if c !in s.creators || !s.creators[c].phase.Claiming? then s
    else
      var x := s.creators[c];
      if x.operation in s.claims then Move(s, c, Reading)
      else
        var claim := Claim(x.phase.candidate, x.creation);
        Move(s, c, Claimed(claim)).(revision := s.revision + 1, claims := s.claims[x.operation := claim])
  }

  function Compare(s: State, c: nat): State {
    if c !in s.creators || !s.creators[c].phase.Claimed? then s
    else if s.creators[c].phase.claim.creation != s.creators[c].creation then Move(s, c, Conflict)
    else Move(s, c, Creating(s.creators[c].phase.claim.id))
  }

  function WriteEntity(s: State, c: nat): State {
    if c !in s.creators || !s.creators[c].phase.Creating? then s
    else
      var id := s.creators[c].phase.id;
      if id in s.entities then Move(s, c, Checking(id))
      else Move(s, c, Returned(id)).(revision := s.revision + 1, entities := s.entities[id := s.creators[c].creation])
  }

  function CheckEntity(s: State, c: nat): State {
    if c !in s.creators || !s.creators[c].phase.Checking? then s
    else
      var id := s.creators[c].phase.id;
      if id in s.entities && s.entities[id] == s.creators[c].creation then Move(s, c, Returned(id))
      else Move(s, c, Collided)
  }

  datatype Action =
    | DoAddAllocator(a: nat, block: nat)
    | DoReadMark(a: nat)
    | DoReserve(a: nat)
    | DoAllocate(a: nat, c: nat)
    | DoCrash(a: nat)
    | DoBegin(c: nat, operation: Operation, creation: Creation)
    | DoReadClaim(c: nat)
    | DoWriteClaim(c: nat)
    | DoCompare(c: nat)
    | DoWriteEntity(c: nat)
    | DoCheckEntity(c: nat)

  function Do(s: State, x: Action): State {
    match x
    case DoAddAllocator(a, block) => AddAllocator(s, a, block)
    case DoReadMark(a) => ReadMark(s, a)
    case DoReserve(a) => Reserve(s, a)
    case DoAllocate(a, c) => Allocate(s, a, c)
    case DoCrash(a) => Crash(s, a)
    case DoBegin(c, operation, creation) => Begin(s, c, operation, creation)
    case DoReadClaim(c) => ReadClaim(s, c)
    case DoWriteClaim(c) => WriteClaim(s, c)
    case DoCompare(c) => Compare(s, c)
    case DoWriteEntity(c) => WriteEntity(s, c)
    case DoCheckEntity(c) => CheckEntity(s, c)
  }

  function Run(s: State, xs: seq<Action>): State
    decreases xs
  {
    if xs == [] then s else Run(Do(s, xs[0]), xs[1..])
  }

  // ---- the invariant ----

  predicate Owns(x: Allocator, id: nat) { x.next <= id < x.next + x.remaining }

  /** Blocks lie below the mark, apart from each other and from everything handed out. */
  ghost predicate BlocksOk(s: State) {
    && s.marks.version <= s.revision && s.marks.value <= UINT64_MAX
    && (forall id :: id in s.issued ==> 0 < id <= s.marks.value)
    && (forall a :: a in s.allocators ==> AllocatorOk(s.allocators[a], s.marks, s.issued))
    && (forall a, b, id ::
          a in s.allocators && b in s.allocators && Owns(s.allocators[a], id) && Owns(s.allocators[b], id) ==>
          a == b)
  }

  ghost predicate AllocatorOk(x: Allocator, marks: Stored<nat>, issued: set<nat>) {
    && x.block > 0 && (x.remaining > 0 ==> 0 < x.next && x.next + x.remaining <= marks.value + 1)
    && (forall id :: Owns(x, id) ==> id !in issued)
    && (x.seen.Some? ==>
          x.seen.value.version <= marks.version && (x.seen.value.version == marks.version ==> x.seen.value == marks))
  }

  predicate SameCandidate(x: Creator, y: Creator) { x.phase.Claiming? && x.phase == y.phase }

  /** Claims name handed-out identities, one each; a candidate is nobody else's; records were made from claims. */
  ghost predicate ClaimsOk(s: State) {
    && (forall o :: o in s.claims ==> s.claims[o].id in s.issued)
    && (forall o, p :: o in s.claims && p in s.claims && s.claims[o].id == s.claims[p].id ==> o == p)
    && (forall id :: id in s.entities ==> exists o :: o in s.claims && s.claims[o] == Claim(id, s.entities[id]))
    && (forall c :: c in s.creators ==> CreatorOk(s, c))
    && (forall c, d :: c in s.creators && d in s.creators && SameCandidate(s.creators[c], s.creators[d]) ==> c == d)
  }

  ghost predicate CreatorOk(s: State, c: nat)
    requires c in s.creators
  {
    var x := s.creators[c];
    match x.phase
    case Claiming(id) => id in s.issued && forall o :: o in s.claims ==> s.claims[o].id != id
    case Claimed(claim) => x.operation in s.claims && s.claims[x.operation] == claim
    case Creating(id) => x.operation in s.claims && s.claims[x.operation] == Claim(id, x.creation)
    case Checking(id) => x.operation in s.claims && s.claims[x.operation] == Claim(id, x.creation) && id in s.entities
    case Returned(id) =>
      && x.operation in s.claims && s.claims[x.operation] == Claim(id, x.creation)
      && id in s.entities && s.entities[id] == x.creation
    case Collided => false
    case _ => true
  }

  ghost predicate Inv(s: State) { BlocksOk(s) && ClaimsOk(s) }

  // ---- steps keep it ----

  lemma ReserveStep(s: State, a: nat)
    requires Inv(s)
    ensures Inv(Reserve(s, a))
  {
    hide ClaimsOk, BlocksOk;
    ReserveBlocks(s, a);
    ClaimsKept(s, Reserve(s, a));
  }

  lemma ReserveBlocks(s: State, a: nat)
    requires BlocksOk(s)
    ensures BlocksOk(Reserve(s, a))
  {
    var t := Reserve(s, a);
    if a in s.allocators {
      assert AllocatorOk(s.allocators[a], s.marks, s.issued);
      forall b | b in t.allocators ensures AllocatorOk(t.allocators[b], t.marks, t.issued) {
        if b != a { assert AllocatorOk(s.allocators[b], s.marks, s.issued); }
      }
      forall b, d, id | b in t.allocators && d in t.allocators && Owns(t.allocators[b], id) && Owns(t.allocators[d], id)
        ensures b == d
      {
        if b != a { assert AllocatorOk(s.allocators[b], s.marks, s.issued); }
        if d != a { assert AllocatorOk(s.allocators[d], s.marks, s.issued); }
      }
    }
  }

  lemma ClaimsKept(s: State, t: State)
    requires ClaimsOk(s) && t.claims == s.claims && t.entities == s.entities && t.creators == s.creators
    requires t.issued == s.issued
    ensures ClaimsOk(t)
  {
    forall c | c in t.creators ensures CreatorOk(t, c) { assert CreatorOk(s, c); }
  }

  lemma BlocksKept(s: State, t: State)
    requires BlocksOk(s) && t.allocators == s.allocators && t.marks == s.marks && t.issued == s.issued
    requires t.revision >= s.revision
    ensures BlocksOk(t)
  {
    hide AllocatorOk;
  }

  /** An allocator that holds no more than it did. */
  lemma SetAllocator(s: State, a: nat, x: Allocator)
    requires BlocksOk(s) && AllocatorOk(x, s.marks, s.issued)
    requires forall id :: Owns(x, id) ==> a in s.allocators && Owns(s.allocators[a], id)
    ensures BlocksOk(s.(allocators := s.allocators[a := x]))
  {
    hide AllocatorOk;
  }

  lemma AllocatorStep(s: State, a: nat, block: nat)
    requires Inv(s)
    ensures Inv(AddAllocator(s, a, block)) && Inv(ReadMark(s, a)) && Inv(Crash(s, a))
  {
    hide ClaimsOk, BlocksOk;
    ClaimsKept(s, AddAllocator(s, a, block));
    ClaimsKept(s, ReadMark(s, a));
    ClaimsKept(s, Crash(s, a));
    CrashBlocks(s, a);
    if a in s.allocators {
      AllocatorAt(s, a);
      SetAllocator(s, a, s.allocators[a].(seen := Some(s.marks)));
    } else if block > 0 {
      SetAllocator(s, a, Allocator(block, 0, 0, None));
    }
  }

  lemma AllocatorAt(s: State, a: nat)
    requires BlocksOk(s) && a in s.allocators
    ensures AllocatorOk(s.allocators[a], s.marks, s.issued)
  {
    hide AllocatorOk;
  }

  lemma CrashBlocks(s: State, a: nat)
    requires BlocksOk(s)
    ensures BlocksOk(Crash(s, a))
  {
    hide AllocatorOk;
  }

  /** The identity handed out is new, not zero, and fits sixty-four bits. */
  lemma AllocateStep(s: State, a: nat, c: nat)
    requires Inv(s)
    ensures Inv(Allocate(s, a, c))
    ensures Allocate(s, a, c) != s ==>
      a in s.allocators && s.allocators[a].next !in s.issued && 0 < s.allocators[a].next <= UINT64_MAX
  {
    var t := Allocate(s, a, c);
    if a in s.allocators && s.allocators[a].remaining > 0 && c in s.creators && s.creators[c].phase == Allocating {
      AllocateBlocks(s, a, c);
      forall d | d in t.creators ensures CreatorOk(t, d) { if d != c { assert CreatorOk(s, d); } }
      forall d, e
        | d in t.creators && e in t.creators && SameCandidate(t.creators[d], t.creators[e])
        ensures d == e
      {
        if d != c { assert CreatorOk(s, d); }
        if e != c { assert CreatorOk(s, e); }
      }
    }
  }

  lemma AllocateBlocks(s: State, a: nat, c: nat)
    requires BlocksOk(s) && a in s.allocators && s.allocators[a].remaining > 0 && c in s.creators
    requires s.creators[c].phase == Allocating
    ensures BlocksOk(Allocate(s, a, c)) && s.allocators[a].next !in s.issued && 0 < s.allocators[a].next <= UINT64_MAX
  {
    var t, id := Allocate(s, a, c), s.allocators[a].next;
    assert AllocatorOk(s.allocators[a], s.marks, s.issued) && Owns(s.allocators[a], id);
    forall b | b in t.allocators ensures AllocatorOk(t.allocators[b], t.marks, t.issued) {
      assert AllocatorOk(s.allocators[b], s.marks, s.issued);
      forall i | Owns(t.allocators[b], i) ensures i !in t.issued { assert Owns(s.allocators[b], i); }
    }
    forall b, d, i | b in t.allocators && d in t.allocators && Owns(t.allocators[b], i) && Owns(t.allocators[d], i)
      ensures b == d
    {
      assert Owns(s.allocators[b], i) && Owns(s.allocators[d], i);
    }
  }

  /** A creator moves on without touching claims or records. */
  lemma MoveStep(s: State, c: nat, phase: Phase)
    requires Inv(s) && c in s.creators && CreatorOk(Move(s, c, phase), c) && !phase.Claiming?
    ensures Inv(Move(s, c, phase))
  {
    var t := Move(s, c, phase);
    BlocksKept(s, t);
    forall d | d in t.creators ensures CreatorOk(t, d) { if d != c { assert CreatorOk(s, d); } }
  }

  lemma ReaderStep(s: State, c: nat)
    requires Inv(s)
    ensures Inv(ReadClaim(s, c)) && Inv(Compare(s, c)) && Inv(CheckEntity(s, c))
  {
    hide Inv, Move;
    if c in s.creators {
      CreatorAt(s, c);
      var x := s.creators[c];
      MoveOk(s, c);
      MoveStep(s, c, Allocating);
      MoveStep(s, c, Conflict);
      if x.operation in s.claims { MoveStep(s, c, Claimed(s.claims[x.operation])); }
      if x.phase.Claimed? && x.phase.claim.creation == x.creation { MoveStep(s, c, Creating(x.phase.claim.id)); }
      if x.phase.Checking? { MoveStep(s, c, Returned(x.phase.id)); }
    }
  }

  lemma CreatorAt(s: State, c: nat)
    requires Inv(s) && c in s.creators
    ensures CreatorOk(s, c)
    ensures s.creators[c].phase.Checking? ==> s.entities[s.creators[c].phase.id] == s.creators[c].creation
  {
    assert CreatorOk(s, c);
    var x := s.creators[c];
    if x.phase.Checking? {
      var o :| o in s.claims && s.claims[o] == Claim(x.phase.id, s.entities[x.phase.id]);
    }
  }

  lemma MoveOk(s: State, c: nat)
    requires c in s.creators && CreatorOk(s, c)
    ensures var x := s.creators[c];
      && CreatorOk(Move(s, c, Allocating), c) && CreatorOk(Move(s, c, Conflict), c)
      && (x.operation in s.claims ==> CreatorOk(Move(s, c, Claimed(s.claims[x.operation])), c))
      && (x.phase.Claimed? && x.phase.claim.creation == x.creation ==>
            CreatorOk(Move(s, c, Creating(x.phase.claim.id)), c))
      && (x.phase.Checking? && s.entities[x.phase.id] == x.creation ==> CreatorOk(Move(s, c, Returned(x.phase.id)), c))
      && (x.phase.Creating? && x.phase.id in s.entities ==> CreatorOk(Move(s, c, Checking(x.phase.id)), c))
      && CreatorOk(Move(s, c, Reading), c)
  {
  }

  lemma BeginStep(s: State, c: nat, operation: Operation, creation: Creation)
    requires Inv(s)
    ensures Inv(Begin(s, c, operation, creation))
  {
    var t := Begin(s, c, operation, creation);
    BlocksKept(s, t);
    forall d | d in t.creators ensures CreatorOk(t, d) { if d != c { assert CreatorOk(s, d); } }
  }

  lemma WriteClaimStep(s: State, c: nat)
    requires Inv(s)
    ensures Inv(WriteClaim(s, c))
  {
    hide BlocksOk, ClaimsOk, CreatorOk;
    if c in s.creators && s.creators[c].phase.Claiming? {
      CreatorAt(s, c);
      MoveOk(s, c);
      MoveStep(s, c, Reading);
      if s.creators[c].operation !in s.claims {
        BlocksKept(s, WriteClaim(s, c));
        ClaimWritten(s, c);
      }
    }
  }

  /** What a creator knows stays true while claims and records are only added, unless its own candidate is claimed. */
  lemma CreatorLater(s: State, t: State, c: nat)
    requires c in s.creators && CreatorOk(s, c) && c in t.creators && t.creators[c] == s.creators[c]
    requires t.issued == s.issued
    requires forall o :: o in s.claims ==> o in t.claims && t.claims[o] == s.claims[o]
    requires forall id :: id in s.entities ==> id in t.entities && t.entities[id] == s.entities[id]
    requires forall o :: o in t.claims && o !in s.claims ==> s.creators[c].phase != Claiming(t.claims[o].id)
    ensures CreatorOk(t, c)
  {
  }

  lemma ClaimWritten(s: State, c: nat)
    requires ClaimsOk(s) && c in s.creators && s.creators[c].phase.Claiming? && s.creators[c].operation !in s.claims
    requires CreatorOk(s, c)
    ensures ClaimsOk(WriteClaim(s, c))
  {
    var t := WriteClaim(s, c);
    assert CreatorOk(t, c) && forall o :: o in s.claims ==> s.claims[o].id != s.creators[c].phase.candidate;
    hide CreatorOk;
    forall d | d in t.creators ensures CreatorOk(t, d) { if d != c { CreatorLater(s, t, d); } }
    forall id | id in t.entities ensures exists o :: o in t.claims && t.claims[o] == Claim(id, t.entities[id]) {
      var o :| o in s.claims && s.claims[o] == Claim(id, s.entities[id]);
      assert o in t.claims;
    }
  }

  lemma WriteEntityStep(s: State, c: nat)
    requires Inv(s)
    ensures Inv(WriteEntity(s, c))
  {
    hide BlocksOk, ClaimsOk, CreatorOk;
    if c in s.creators && s.creators[c].phase.Creating? {
      CreatorAt(s, c);
      MoveOk(s, c);
      var x := s.creators[c];
      if x.phase.id in s.entities {
        MoveStep(s, c, Checking(x.phase.id));
      } else {
        BlocksKept(s, WriteEntity(s, c));
        EntityWritten(s, c);
      }
    }
  }

  lemma EntityWritten(s: State, c: nat)
    requires ClaimsOk(s) && c in s.creators && s.creators[c].phase.Creating? && s.creators[c].phase.id !in s.entities
    requires CreatorOk(s, c)
    ensures ClaimsOk(WriteEntity(s, c))
  {
    var t, x := WriteEntity(s, c), s.creators[c];
    assert CreatorOk(t, c) && x.operation in s.claims && s.claims[x.operation] == Claim(x.phase.id, x.creation);
    hide CreatorOk;
    forall d | d in t.creators ensures CreatorOk(t, d) { if d != c { CreatorLater(s, t, d); } }
    forall id | id in t.entities ensures exists o :: o in t.claims && t.claims[o] == Claim(id, t.entities[id]) {
      if id != x.phase.id { var o :| o in s.claims && s.claims[o] == Claim(id, s.entities[id]); }
    }
  }

  lemma InvStep(s: State, x: Action)
    requires Inv(s)
    ensures Inv(Do(s, x))
  {
    hide Inv, AddAllocator, ReadMark, Reserve, Allocate, Crash, Begin, ReadClaim, WriteClaim, Compare, WriteEntity,
         CheckEntity;
    match x
    case DoAddAllocator(a, block) => AllocatorStep(s, a, block);
    case DoReadMark(a) => AllocatorStep(s, a, 0);
    case DoReserve(a) => ReserveStep(s, a);
    case DoAllocate(a, c) => AllocateStep(s, a, c);
    case DoCrash(a) => AllocatorStep(s, a, 0);
    case DoBegin(c, operation, creation) => BeginStep(s, c, operation, creation);
    case DoReadClaim(c) => ReaderStep(s, c);
    case DoWriteClaim(c) => WriteClaimStep(s, c);
    case DoCompare(c) => ReaderStep(s, c);
    case DoWriteEntity(c) => WriteEntityStep(s, c);
    case DoCheckEntity(c) => ReaderStep(s, c);
  }

  lemma {:induction false} InvRun(s: State, xs: seq<Action>)
    requires Inv(s)
    ensures Inv(Run(s, xs))
    decreases xs
  {
    hide Inv, Do;
    if xs != [] {
      InvStep(s, xs[0]);
      InvRun(Do(s, xs[0]), xs[1..]);
    }
  }

  // ---- the theorems, over every run ----

  /** Every identity handed out is one that was never handed out before, is not zero and fits sixty-four bits. */
  lemma IdentitiesDistinct(xs: seq<Action>, a: nat, c: nat)
    requires var s := Run(START, xs); Allocate(s, a, c) != s
    ensures var s := Run(START, xs); var id := s.allocators[a].next;
      a in s.allocators && id !in s.issued && id in Allocate(s, a, c).issued && 0 < id <= UINT64_MAX
  {
    hide Run;
    InvRun(START, xs);
    AllocateStep(Run(START, xs), a, c);
  }

  /** Successful creations return one identity per key, however many racers and retries there were, and different
      identities for different keys; the identity-collision exit is never taken. */
  lemma CreationsAgree(xs: seq<Action>, c: nat, d: nat)
    requires var s := Run(START, xs); c in s.creators && d in s.creators
    ensures var s := Run(START, xs); var x, y := s.creators[c], s.creators[d];
      && !x.phase.Collided?
      && (x.phase.Returned? && y.phase.Returned? ==>
            && (x.operation == y.operation <==> x.phase.id == y.phase.id)
            && (x.operation == y.operation ==> x.creation == y.creation))
  {
    hide Run;
    InvRun(START, xs);
    CreatorAt(Run(START, xs), c);
    CreatorAt(Run(START, xs), d);
  }

  // ---- nothing is skipped ----

  predicate Held(s: State, id: nat) { id in s.issued || exists a :: a in s.allocators && Owns(s.allocators[a], id) }

  predicate Used(s: State) { forall id :: 0 < id <= s.marks.value ==> Held(s, id) }

  lemma HeldStep(s: State, x: Action, id: nat)
    requires Held(s, id) && !x.DoCrash?
    ensures Held(Do(s, x), id)
  {
    hide Do;
    var t := Do(s, x);
    if id in s.issued {
      StillIssued(s, x);
    } else {
      var a :| a in s.allocators && Owns(s.allocators[a], id);
      StillOwned(s, x, a, id);
    }
  }

  lemma StillIssued(s: State, x: Action)
    ensures s.issued <= Do(s, x).issued
  {
  }

  lemma StillOwned(s: State, x: Action, a: nat, id: nat)
    requires a in s.allocators && Owns(s.allocators[a], id) && !x.DoCrash?
    ensures var t := Do(s, x); id in t.issued || (a in t.allocators && Owns(t.allocators[a], id))
  {
    hide Begin, ReadClaim, WriteClaim, Compare, WriteEntity, CheckEntity;
    match x
    case DoBegin(_, _, _) => AllocatorsKept(s, x);
    case DoReadClaim(_) => AllocatorsKept(s, x);
    case DoWriteClaim(_) => AllocatorsKept(s, x);
    case DoCompare(_) => AllocatorsKept(s, x);
    case DoWriteEntity(_) => AllocatorsKept(s, x);
    case DoCheckEntity(_) => AllocatorsKept(s, x);
    case _ =>
  }

  lemma AllocatorsKept(s: State, x: Action)
    requires !x.DoAddAllocator? && !x.DoReadMark? && !x.DoReserve? && !x.DoAllocate? && !x.DoCrash?
    ensures Do(s, x).allocators == s.allocators
  {
  }

  lemma OnlyReserves(s: State, x: Action)
    requires !x.DoReserve?
    ensures Do(s, x).marks == s.marks
  {
  }

  lemma UsedStep(s: State, x: Action)
    requires Inv(s) && Used(s) && !x.DoCrash?
    ensures Used(Do(s, x))
  {
    hide Inv, Do, Held;
    var t := Do(s, x);
    forall id | 0 < id <= t.marks.value ensures Held(t, id) {
      if id <= s.marks.value {
        HeldStep(s, x, id);
      } else if x.DoReserve? {
        ReservesHeld(s, x.a, id);
      } else {
        OnlyReserves(s, x);
      }
    }
  }

  lemma ReservesHeld(s: State, a: nat, id: nat)
    requires Inv(s) && s.marks.value < id <= Do(s, DoReserve(a)).marks.value
    ensures Held(Do(s, DoReserve(a)), id)
  {
    hide Inv;
    var t := Reserve(s, a);
    InvBlocks(s, a);
    assert Owns(t.allocators[a], id);
  }

  lemma InvBlocks(s: State, a: nat)
    requires Inv(s) && a in s.allocators
    ensures AllocatorOk(s.allocators[a], s.marks, s.issued) && s.marks.value <= UINT64_MAX
  {
    hide ClaimsOk, AllocatorOk;
  }

  lemma StartInv()
    ensures Inv(START)
  {
  }

  lemma {:induction false} UsedRun(s: State, xs: seq<Action>)
    requires Inv(s) && Used(s) && forall i :: 0 <= i < |xs| ==> !xs[i].DoCrash?
    ensures Used(Run(s, xs))
    decreases xs
  {
    hide Inv, Used, Do;
    if xs != [] {
      InvStep(s, xs[0]);
      UsedStep(s, xs[0]);
      UsedRun(Do(s, xs[0]), xs[1..]);
    }
  }

  /** Over every run without a crash no identity is lost: each one below the mark was handed out or lies in the block of
      an allocator. */
  lemma NothingSkipped(xs: seq<Action>, id: nat)
    requires forall i :: 0 <= i < |xs| ==> !xs[i].DoCrash?
    requires 0 < id <= Run(START, xs).marks.value
    ensures var s := Run(START, xs);
      id in s.issued || exists a :: a in s.allocators && Owns(s.allocators[a], id)
  {
    hide Run;
    UsedRun(START, xs);
    assert Held(Run(START, xs), id);
  }

  // ---- undisturbed ----

  /** An allocator that has run out and is left alone gets the identities right above the mark: a whole block, or as
      many as there are. */
  lemma Reserves(s: State, a: nat)
    requires Inv(s) && a in s.allocators && s.allocators[a].remaining == 0
    ensures var t := Reserve(ReadMark(s, a), a); var block := s.allocators[a].block;
      && a in t.allocators && t.creators == s.creators && t.claims == s.claims && t.entities == s.entities
      && t.issued == s.issued
      && t.marks.value == (if s.marks.value + block < UINT64_MAX then s.marks.value + block else UINT64_MAX)
      && forall id: nat :: Owns(t.allocators[a], id) <==> s.marks.value < id <= t.marks.value
  {
    hide Inv;
    InvBlocks(s, a);
  }

  /** The rest of a creation whose claim is known, left alone. */
  function Finished(s: State, c: nat): State { CheckEntity(WriteEntity(Compare(s, c), c), c) }

  lemma Finishes(s: State, c: nat)
    requires Inv(s) && c in s.creators && s.creators[c].phase.Claimed?
    ensures var x, t := s.creators[c], Finished(s, c); var claim := x.phase.claim;
      && c in t.creators && t.claims == s.claims && t.issued == s.issued
      && (if claim.creation == x.creation then
            t.creators[c].phase == Returned(claim.id) && t.entities == s.entities[claim.id := x.creation]
          else t.creators[c].phase == Conflict && t.entities == s.entities)
  {
    hide Inv;
    CreatorAt(s, c);
    var x := s.creators[c];
    if x.phase.claim.id in s.entities { EntityOf(s, x.operation); }
  }

  lemma EntityOf(s: State, o: Operation)
    requires Inv(s) && o in s.claims && s.claims[o].id in s.entities
    ensures s.entities[s.claims[o].id] == s.claims[o].creation
  {
    hide BlocksOk, CreatorOk;
    var id := s.claims[o].id;
    var p :| p in s.claims && s.claims[p] == Claim(id, s.entities[id]);
  }

  /** A creation up to its claim, left alone with one allocator. */
  function Attempted(s: State, a: nat, c: nat): State {
    WriteClaim(Allocate(Reserve(ReadMark(ReadClaim(s, c), a), a), a, c), c)
  }

  lemma FindsClaim(s: State, a: nat, c: nat)
    requires Inv(s) && c in s.creators && s.creators[c].phase == Reading && s.creators[c].operation in s.claims
    ensures var x, t := s.creators[c], Attempted(s, a, c);
      && c in t.creators && t.creators[c] == x.(phase := Claimed(s.claims[x.operation]))
      && t.claims == s.claims && t.entities == s.entities && t.issued == s.issued
  {
    hide Inv, ReadMark, Reserve;
    var u := ReadClaim(s, c);
    MarksOnly(u, a);
    MarksOnly(ReadMark(u, a), a);
  }

  lemma MarksOnly(s: State, a: nat)
    ensures var t := ReadMark(s, a);
      t.creators == s.creators && t.claims == s.claims && t.entities == s.entities && t.issued == s.issued
    ensures var t := Reserve(s, a);
      t.creators == s.creators && t.claims == s.claims && t.entities == s.entities && t.issued == s.issued
  {
  }

  lemma MakesClaim(s: State, a: nat, c: nat)
    requires Inv(s) && c in s.creators && s.creators[c].phase == Reading && s.creators[c].operation !in s.claims
    requires a in s.allocators && (s.allocators[a].remaining > 0 || s.marks.value < UINT64_MAX)
    ensures var x, t := s.creators[c], Attempted(s, a, c);
      && c in t.creators && t.creators[c].phase.Claimed?
      && var claim := t.creators[c].phase.claim;
         && t.creators[c] == x.(phase := Claimed(claim)) && claim.creation == x.creation && claim.id !in s.issued
         && t.claims == s.claims[x.operation := claim] && t.entities == s.entities && t.issued == s.issued + {claim.id}
  {
    hide Inv, ReadMark, Reserve;
    var u := ReadClaim(s, c);
    ReaderStep(s, c);
    MarksOnly(u, a);
    MarksOnly(ReadMark(u, a), a);
    Stocked(u, a);
    var v := Reserve(ReadMark(u, a), a);
    AllocatorStep(u, a, 0);
    ReserveStep(ReadMark(u, a), a);
    AllocateStep(v, a, c);
  }

  lemma Stocked(s: State, a: nat)
    requires Inv(s) && a in s.allocators && (s.allocators[a].remaining > 0 || s.marks.value < UINT64_MAX)
    ensures var t := Reserve(ReadMark(s, a), a); a in t.allocators && t.allocators[a].remaining > 0
  {
    hide Inv;
    InvBlocks(s, a);
  }

  /** In every reachable state a creation that is left alone, with an allocator that is not out of identities, comes to
      its end: the identity already claimed for its key if the same thing was asked for, a conflict if something else
      was, and otherwise a new identity; its claim and its record are in place, and nothing else has changed. */
  lemma CreationCompletes(xs: seq<Action>, a: nat, c: nat)
    requires var s := Run(START, xs);
      && c in s.creators && s.creators[c].phase == Reading && a in s.allocators
      && (s.creators[c].operation in s.claims || s.allocators[a].remaining > 0 || s.marks.value < UINT64_MAX)
    ensures var s := Run(START, xs); var t := Finished(Attempted(s, a, c), c);
      var x := s.creators[c];
      && c in t.creators
      && if x.operation in s.claims && s.claims[x.operation].creation != x.creation then
           t.creators[c].phase == Conflict && t.claims == s.claims && t.entities == s.entities && t.issued == s.issued
         else
           && t.creators[c].phase.Returned?
           && var id := t.creators[c].phase.id;
              && t.entities == s.entities[id := x.creation]
              && t.claims == s.claims[x.operation := Claim(id, x.creation)]
              && (if x.operation in s.claims then id == s.claims[x.operation].id && t.issued == s.issued
                  else id !in s.issued && t.issued == s.issued + {id})
  {
    hide Run, Inv, Attempted, Finished;
    StartInv();
    InvRun(START, xs);
    var s := Run(START, xs);
    var x, t := s.creators[c], Attempted(s, a, c);
    AttemptedInv(s, a, c);
    if x.operation in s.claims { FindsClaim(s, a, c); } else { MakesClaim(s, a, c); }
    Finishes(t, c);
  }

  lemma AttemptedInv(s: State, a: nat, c: nat)
    requires Inv(s)
    ensures Inv(Attempted(s, a, c))
  {
    hide Inv, ReadClaim, ReadMark, Reserve, Allocate, WriteClaim;
    ReaderStep(s, c);
    AllocatorStep(ReadClaim(s, c), a, 0);
    ReserveStep(ReadMark(ReadClaim(s, c), a), a);
    AllocateStep(Reserve(ReadMark(ReadClaim(s, c), a), a), a, c);
    WriteClaimStep(Allocate(Reserve(ReadMark(ReadClaim(s, c), a), a), a, c), c);
  }
}
