/** The other hands, undisturbed: creation, the timer scanner and the retirement of tombstones; and the names they go
    by. */
module Workers {
  import opened Bytes
  import opened TimerState
  import opened Protocol
  import L = Leases
  import opened Chains
  import T = TimerIndexes
  import opened Rounds
  import opened Duties

  // ---- names ----

  /** The node of an incarnation: everything before the first slash. */
  function NodeOf(owner: bytes): bytes {
    if owner == [] || owner[0] == 0x2f then [] else [owner[0]] + NodeOf(owner[1..])
  }

  /** A node has no slash in its name, so that an incarnation matches its own node and no other. */
  lemma {:induction false} MatchesNode(owner: bytes, node: bytes)
    requires 0x2f !in node
    ensures Matches(owner, node) <==> NodeOf(owner) == node
    decreases owner
  {
    if owner == [] || owner[0] == 0x2f {
      assert node == [] ==> (Matches(owner, node) <==> NodeOf(owner) == node);
    } else if node == [] {
      assert NodeOf(owner) != [];
    } else {
      MatchesNode(owner[1..], node[1..]);
      assert node == [node[0]] + node[1..] && owner == [owner[0]] + owner[1..];
      if |owner| > |node| { assert owner[..|node|] == [owner[0]] + owner[1..][..|node[1..]|]; }
    }
  }

  function DigitValue(c: byte): nat { if 0x30 <= c < 0x3a then c - 0x30 else if 0x61 <= c < 0x67 then c - 0x57 else 0 }

  function HexValue(text: bytes): nat {
    if text == [] then 0
    else
      HexValue(text[..|text| - 1]) * 16 + DigitValue(text[|text| - 1])
  }

  function Pow16(n: nat): nat { if n == 0 then 1 else 16 * Pow16(n - 1) }

  /** The text of an identity tells it: two identities that fit have different texts. */
  lemma {:induction false} HexTextTells(n: nat, digits: nat)
    requires n < Pow16(digits)
    ensures |HexText(n, digits)| == digits && HexValue(HexText(n, digits)) == n
    decreases digits
  {
    if digits > 0 {
      HexTextTells(n / 16, digits - 1);
      var front := HexText(n / 16, digits - 1);
      var d := if n % 16 < 10 then 0x30 + n % 16 else 0x57 + n % 16;
      assert HexText(n, digits) == front + [d];
      assert (front + [d])[..|front|] == front;
    }
  }

  // ---- creation ----

  /** From every reachable state: an identity that is free gets a record that nobody owns, with the state and placement
      it was created with and nothing else, and any host the placement allows can run its first call at once, which
      leaves that state; an identity that is taken keeps its record. */
  lemma CreatedServes(actions: seq<Action>, id: Id, placement: bytes, state: bytes, k: Key, h: Terms, reply: Reply)
    returns (round: seq<Action>)
    requires k.id == id && k.owner != [] && k !in Reached(actions).jobs && Lasting(h) && 0 <= h.time && h.limits.room
    requires id !in Reached(actions).store && (placement == [] || Matches(k.owner, placement))
    ensures By(round, k, h)
    ensures var s := Reached(actions); var t := Create(s, id, placement, state); var u := Run(t, round);
      && t == s.(revision := s.revision + 1, store := t.store) && id in t.store
      && t.store == s.store[id := t.store[id]] && Create(t, id, [], []) == t
      && id in u.store && u.store == t.store[id := u.store[id]] && u.jobs == s.jobs
      && var now := u.store[id].value;
         && now.owner == k.owner && now.fence == 1 && now.expires == h.time + h.lease && now.initialized
         && now.placement == placement && now.transfer == 0 && !now.destroyed && now.snap.state == state
         && now.snap.timers.entries == [] && now.snap.delivery.outbox == [] && now.snap.delivery.inbox == map[]
  {
    hide Run, By, Matches;
    var s := Reached(actions);
    var make := [Serve(DoCreate(id, placement, state))];
    RunOne(s, make[0]);
    RunConcat(START, actions, make);
    var t := Create(s, id, placement, state);
    assert t == Reached(actions + make);
    SmallRoomy(t, k, Call, h);
    round := CallCompletes(actions + make, k, h, reply);
  }

  // ---- the timer scanner ----

  predicate SameElsewhere(was: map<Id, Entry>, now: map<Id, Entry>, id: Id) { now - {id} == was - {id} }

  /** An undisturbed scan of an entity's entry: it goes if the entity has no timers or is gone, it is left alone while
      its producer may still commit, and otherwise it names the record's earliest due time; every other entry stays. */
  lemma ScanSettles(s: State, w: nat, id: Id)
    requires id in Bucket(s, Shard(id)).value
    ensures var t := ScanWrite(ScanRecord(ScanBucket(s, w, id), w), w);
      var was, now := Bucket(s, Shard(id)).value, Bucket(t, Shard(id)).value;
      && t.store == s.store && t.jobs == s.jobs && SameElsewhere(was, now, id)
      && if id !in s.store || s.store[id].value.destroyed then id !in now
         else if Unsettled(was[id], s.store[id]) then now == was
         else if s.store[id].value.snap.timers.entries == [] then id !in now
         else
           var r := s.store[id].value;
           && id in now && !now[id].pending && now[id].due == Earliest(r.snap.timers.entries)
           && now[id].token == r.snap.timers.token && now[id].base == s.store[id].version
           && now[id].fence == r.fence && now[id].placement == r.placement
  {
    hide Shard, Earliest, Unsettled;
    var b := Bucket(s, Shard(id));
    var c := Scan(id, b, false, Stored(0, NOBODY), map[]);
    var u := s.(scans := s.scans[w := c]);
    assert ScanBucket(s, w, id) == u;
    assert u.scans[w] == c && Bucket(u, Shard(id)) == b;
    ScanReads(u, w, c);
  }

  lemma ScanReads(u: State, w: nat, c: Scan)
    requires w in u.scans && u.scans[w] == c && !c.seen && c.id in c.bucket.value
    requires Bucket(u, Shard(c.id)) == c.bucket
    ensures var t := ScanWrite(ScanRecord(u, w), w); var id := c.id;
      var was, now := c.bucket.value, Bucket(t, Shard(id)).value;
      && t.store == u.store && t.jobs == u.jobs && SameElsewhere(was, now, id)
      && if id !in u.store || u.store[id].value.destroyed then id !in now
         else if Unsettled(was[id], u.store[id]) then now == was
         else if u.store[id].value.snap.timers.entries == [] then id !in now
         else
           var r := u.store[id].value;
           && id in now && !now[id].pending && now[id].due == Earliest(r.snap.timers.entries)
           && now[id].token == r.snap.timers.token && now[id].base == u.store[id].version
           && now[id].fence == r.fence && now[id].placement == r.placement
  {
    hide Shard, Earliest, Unsettled, ScanWrite, Bucket;
    var id := c.id;
    var stop := u.(scans := u.scans - {w});
    assert Bucket(stop, Shard(id)) == c.bucket by { SameBucket(u, stop, Shard(id)); }
    assert ScanWrite(stop, w) == stop by { NoScan(stop, w); }
    var gone := c.(seen := true, entries := c.bucket.value - {id});
    Replaces(u, w, c, gone);
    if id in u.store {
      Replaces(u, w, c, gone.(record := u.store[id]));
      Replaces(u, w, c, gone.(record := u.store[id], entries := c.bucket.value[id := T.Confirmed(u.store[id])]));
    }
  }

  lemma SameBucket(s: State, t: State, shard: nat)
    requires s.index == t.index
    ensures Bucket(s, shard) == Bucket(t, shard)
  {
  }

  lemma NoScan(s: State, w: nat)
    requires w !in s.scans
    ensures ScanWrite(s, w) == s
  {
  }

  /** The scanner's write takes effect if the bucket is as it was read. */
  lemma Replaces(u: State, w: nat, c: Scan, planned: Scan)
    requires planned.seen && planned.id == c.id && planned.bucket == c.bucket == Bucket(u, Shard(c.id))
    ensures var t := ScanWrite(u.(scans := u.scans[w := planned]), w);
      Bucket(t, Shard(c.id)).value == planned.entries && t.store == u.store && t.jobs == u.jobs
  {
    hide Shard;
  }

  // ---- retirement ----

  /** An undisturbed retirement takes a tombstone out of the registry, and nobody else; a source that is not a tombstone
      stays. */
  lemma RetireSettles(s: State, w: nat, id: Id)
    requires w !in s.retires
    ensures var t := WriteRetired(ListRetired(ReadRetired(s, w, id), w), w);
      && t.store == s.store && t.jobs == s.jobs
      && (id in s.store && s.store[id].value.destroyed && AllDone(s.store[id].value.snap.delivery.outbox) ==>
            t.registry.value == s.registry.value - {id})
      && (id !in s.store || !s.store[id].value.destroyed ==> t.registry == s.registry)
  {
  }
}
