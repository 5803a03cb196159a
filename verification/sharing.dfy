/** Replicas and retained snapshots over a whole history: who holds a version keeps it, whatever happens to the
    replicas. */
module Sharing {
  import opened Bytes
  import opened Values
  import opened UpdateCodec
  import opened Applying
  import opened DeltaApplication
  import opened Replicas

  // ---- what the heap holds, as values ----

  /** A replica's fields. */
  datatype View = View(image: Carrier?, revision: nat, initialized: bool, bytes: nat)

  /** A carrier's fields. */
  datatype Version = Version(holders: nat, image: Image)

  type Views = map<Replica, View>

  type Versions = map<Carrier, Version>

  const NOTHING := View(null, 0, false, 0)

  ghost predicate ViewOk(v: View, w: Versions) {
    if v.image == null then v == NOTHING
    else
      && v.image in w.Keys && v.initialized
      && var c := w[v.image];
         c.holders > 0 && c.image.revision == v.revision && Whole(c.image.values) && v.bytes == Charge(c.image.values)
  }

  lemma EmptyOk(w: Versions)
    ensures ViewOk(NOTHING, w)
  {
  }

  /** The replicas on a carrier. */
  ghost function Users(m: Views, c: Carrier): set<Replica> { set r | r in m && m[r].image == c }

  /** Every use count is the number of replicas on the carrier plus the number of readers that retained it. */
  ghost predicate Counted(m: Views, w: Versions, readers: multiset<Carrier>) {
    && (forall c :: c in readers ==> c in w)
    && (forall c :: c in w ==> w[c].holders == |Users(m, c)| + readers[c])
  }

  /** Every retained snapshot is what it was when it was retained. */
  ghost predicate Unaltered(w: Versions, snapshots: seq<Carrier>, kept: seq<Image>) {
    |kept| == |snapshots| && forall i :: 0 <= i < |kept| ==> snapshots[i] in w && w[snapshots[i]].image == kept[i]
  }

  ghost predicate Sound(m: Views, w: Versions, snapshots: seq<Carrier>, kept: seq<Image>) {
    && (forall r :: r in m ==> ViewOk(m[r], w)) && Counted(m, w, multiset(snapshots)) && Unaltered(w, snapshots, kept)
  }

  // ---- use counts ----

  function One(b: bool): nat { if b then 1 else 0 }

  lemma UsersMoved(m: Views, r: Replica, v: View, c: Carrier)
    ensures |Users(m[r := v], c)| == |Users(m, c)| - One(r in m && m[r].image == c) + One(v.image == c)
  {
    var others := Users(m, c) - {r};
    if r in m && m[r].image == c { assert Users(m, c) == others + {r}; } else { assert Users(m, c) == others; }
    if v.image == c { assert Users(m[r := v], c) == others + {r}; } else { assert Users(m[r := v], c) == others; }
  }

  lemma UsersNone(m: Views, c: Carrier)
    requires forall r :: r in m ==> m[r].image != c
    ensures |Users(m, c)| == 0
  {
    assert Users(m, c) == {};
  }

  lemma UsersTwo(m: Views, r: Replica, s: Replica, c: Carrier)
    requires r in m && s in m && m[r].image == m[s].image == c
    ensures |Users(m, c)| >= 1 + One(r != s)
  {
    assert Users(m, c) == (Users(m, c) - {r, s}) + {r, s};
    assert |{r, s}| == 1 + One(r != s);
  }

  /** A replica on a carrier counts, a second one counts again, and so does a reader. */
  lemma Shares(m: Views, w: Versions, snapshots: seq<Carrier>, kept: seq<Image>, r: Replica, s: Replica)
    requires Sound(m, w, snapshots, kept) && r in m && s in m && m[r].image == m[s].image && m[r].image != null
    ensures m[r].image in w.Keys && w[m[r].image].holders >= 1 + One(r != s) + One(m[r].image in snapshots)
  {
    hide Users, Whole, Charge, Unaltered;
    assert ViewOk(m[r], w);
    UsersTwo(m, r, s, m[r].image);
  }

  // ---- one replica changes ----

  /** The carriers after the replica `r` has changed from `was` to `now`: only a carrier that nobody else holds changes
      what it carries, and at most one carrier is new, held by the replica alone. */
  predicate Changed(w: Versions, after: Versions, was: View, now: View) {
    && (forall c :: c in w ==>
          && c in after && after[c].holders + One(was.image == c) == w[c].holders + One(now.image == c)
          && (after[c].image == w[c].image || (was.image == c && now.image == c && w[c].holders == 1)))
    && (forall c :: c in after && c !in w ==> now.image == c && after[c].holders == 1)
  }

  function With(w: Versions, c: Carrier, v: Version): Versions { w[c := v] }

  /** Applying keeps the carrier, which is written only if nobody else holds it, or leaves it for a new one. */
  lemma AppliedChange(w: Versions, after: Versions, was: View, now: View)
    requires was.image != null ==> was.image in w.Keys && was.image in after.Keys && w[was.image].holders > 0
    requires now.image == null ==> was.image == null && after == w
    requires now.image != null ==> now.image in after.Keys
    requires now.image != null && was.image == null ==>
      now.image !in w.Keys && after == w[now.image := after[now.image]] && after[now.image].holders == 1
    requires now.image != null && was.image != null ==>
      after == With(With(w, was.image, after[was.image]), now.image, after[now.image])
    requires now.image != null && was.image != null && now.image != was.image ==>
      && now.image !in w.Keys && after[now.image].holders == 1 && after[was.image].holders + 1 == w[was.image].holders
      && after[was.image].image == w[was.image].image
    requires now.image != null && was.image != null && now.image == was.image ==>
      && after[was.image].holders == w[was.image].holders
      && (after[was.image].image == w[was.image].image || w[was.image].holders == 1)
    ensures Changed(w, after, was, now)
  {
  }

  lemma CountedChange(m: Views, w: Versions, readers: multiset<Carrier>, r: Replica, v: View, after: Versions)
    requires Counted(m, w, readers) && Changed(w, after, if r in m then m[r] else NOTHING, v)
    requires forall s :: s in m && m[s].image != null ==> m[s].image in w.Keys
    ensures Counted(m[r := v], after, readers)
  {
    hide Users;
    forall c | c in after ensures after[c].holders == |Users(m[r := v], c)| + readers[c] {
      UsersMoved(m, r, v, c);
      if c !in w { UsersNone(m, c); }
    }
  }

  /** Nobody but `r` sees the change. */
  lemma OthersKeep(m: Views, w: Versions, snapshots: seq<Carrier>, kept: seq<Image>, r: Replica, v: View,
                   after: Versions, s: Replica)
    requires Sound(m, w, snapshots, kept) && Changed(w, after, if r in m then m[r] else NOTHING, v) && s in m && s != r
    ensures ViewOk(m[s], after) && (m[s].image != null ==> after[m[s].image].image == w[m[s].image].image)
  {
    hide Counted, Unaltered, Whole, Charge;
    assert ViewOk(m[s], w);
    if m[s].image != null {
      Shares(m, w, snapshots, kept, s, s);
      if r in m && m[r].image == m[s].image { Shares(m, w, snapshots, kept, r, s); }
    }
  }

  /** No reader sees it either. */
  lemma ReadersKeep(m: Views, w: Versions, snapshots: seq<Carrier>, kept: seq<Image>, r: Replica, v: View,
                    after: Versions, i: nat)
    requires Sound(m, w, snapshots, kept) && Changed(w, after, if r in m then m[r] else NOTHING, v) && i < |kept|
    ensures i < |snapshots| && snapshots[i] in after && after[snapshots[i]].image == kept[i]
  {
    hide Counted, ViewOk;
    if r in m && m[r].image == snapshots[i] { Shares(m, w, snapshots, kept, r, r); }
  }

  lemma SoundChange(m: Views, w: Versions, snapshots: seq<Carrier>, kept: seq<Image>, r: Replica, v: View,
                    after: Versions)
    requires Sound(m, w, snapshots, kept) && Changed(w, after, if r in m then m[r] else NOTHING, v) && ViewOk(v, after)
    ensures Sound(m[r := v], after, snapshots, kept)
  {
    hide Counted, ViewOk, Changed;
    forall s | s in m && m[s].image != null ensures m[s].image in w.Keys { Shares(m, w, snapshots, kept, s, s); }
    CountedChange(m, w, multiset(snapshots), r, v, after);
    var t := m[r := v];
    forall s | s in t ensures ViewOk(t[s], after) {
      if s != r { OthersKeep(m, w, snapshots, kept, r, v, after, s); }
    }
    forall i | 0 <= i < |kept| ensures snapshots[i] in after && after[snapshots[i]].image == kept[i] {
      ReadersKeep(m, w, snapshots, kept, r, v, after, i);
    }
  }

  lemma SoundLeave(m: Views, w: Versions, snapshots: seq<Carrier>, kept: seq<Image>, r: Replica)
    requires Sound(m, w, snapshots, kept) && r in m && m[r].image == null
    ensures Sound(m - {r}, w, snapshots, kept)
  {
    hide ViewOk, Unaltered;
    forall c | c in w ensures Users(m - {r}, c) == Users(m, c) {}
  }

  // ---- readers come and go ----

  lemma SoundKeep(m: Views, w: Versions, snapshots: seq<Carrier>, kept: seq<Image>, c: Carrier)
    requires Sound(m, w, snapshots, kept) && c in w
    ensures Sound(m, w[c := w[c].(holders := w[c].holders + 1)], snapshots + [c], kept + [w[c].image])
  {
    hide Users, Whole, Charge;
    var after := w[c := w[c].(holders := w[c].holders + 1)];
    forall r | r in m ensures ViewOk(m[r], after) { assert ViewOk(m[r], w); }
  }

  function Without<T>(s: seq<T>, j: nat): seq<T>
    requires j < |s|
  {
    s[..j] + s[j + 1..]
  }

  predicate Distinct<T(==)>(s: seq<T>) { forall i, j :: 0 <= i < j < |s| ==> s[i] != s[j] }

  lemma DistinctWithout<T>(s: seq<T>, j: nat)
    requires Distinct(s) && j < |s|
    ensures Distinct(Without(s, j)) && forall x :: x in Without(s, j) <==> x in s && x != s[j]
  {
    var t := Without(s, j);
    assert forall x :: 0 <= x < |t| ==> t[x] == s[if x < j then x else x + 1];
    forall x | x in s && x != s[j] ensures x in t {
      var i :| 0 <= i < |s| && s[i] == x;
      assert t[if i < j then i else i - 1] == x;
    }
  }

  lemma DistinctAt<T>(s: seq<T>, i: nat, j: nat)
    requires Distinct(s) && i < |s| && j < |s| && i != j
    ensures s[i] != s[j]
  {
  }

  lemma DistinctMore<T>(s: seq<T>, x: T)
    requires Distinct(s) && x !in s
    ensures Distinct(s + [x])
  {
  }

  lemma Parted(snapshots: seq<Carrier>, j: nat)
    requires j < |snapshots|
    ensures multiset(snapshots) == multiset(Without(snapshots, j)) + multiset{snapshots[j]}
  {
    assert snapshots == snapshots[..j] + [snapshots[j]] + snapshots[j + 1..];
  }

  lemma UnalteredLetGo(w: Versions, snapshots: seq<Carrier>, kept: seq<Image>, j: nat, after: Versions)
    requires Unaltered(w, snapshots, kept) && j < |snapshots|
    requires after.Keys == w.Keys && forall c :: c in w ==> after[c].image == w[c].image
    ensures Unaltered(after, Without(snapshots, j), Without(kept, j))
  {
    var s, k := Without(snapshots, j), Without(kept, j);
    assert forall x :: 0 <= x < |s| ==> s[x] == snapshots[if x < j then x else x + 1];
    assert forall x :: 0 <= x < |k| ==> k[x] == kept[if x < j then x else x + 1];
  }

  lemma CountedLetGo(m: Views, w: Versions, readers: multiset<Carrier>, c: Carrier)
    requires Counted(m, w, readers + multiset{c})
    ensures c in w && w[c].holders > 0 && Counted(m, w[c := w[c].(holders := w[c].holders - 1)], readers)
  {
    hide Users;
    assert c in readers + multiset{c};
  }

  lemma SoundLetGo(m: Views, w: Versions, snapshots: seq<Carrier>, kept: seq<Image>, j: nat)
    requires Sound(m, w, snapshots, kept) && j < |snapshots|
    ensures snapshots[j] in w && w[snapshots[j]].holders > 0
    ensures var c := snapshots[j];
      Sound(m, w[c := w[c].(holders := w[c].holders - 1)], Without(snapshots, j), Without(kept, j))
  {
    hide Counted, Unaltered, Whole, Charge, Without;
    var c := snapshots[j];
    Parted(snapshots, j);
    CountedLetGo(m, w, multiset(Without(snapshots, j)), c);
    var after := w[c := w[c].(holders := w[c].holders - 1)];
    UnalteredLetGo(w, snapshots, kept, j, after);
    forall r | r in m ensures ViewOk(m[r], after) {
      assert ViewOk(m[r], w);
      if m[r].image == c { Shares(m, w, snapshots, kept, r, r); }
    }
  }

  // ---- histories ----

  /** What the owner of replicas and snapshots may do next; places are counted from the front. */
  datatype Step =
    | Make
    | CopyOf(i: nat)
    | CopyInto(i: nat, j: nat)
    | ApplyTo(i: nat, update: Update, budget: nat)
    | Clear(i: nat)
    | Discard(i: nat)
    | Keep(i: nat)
    | LetGo(j: nat)

  /** Where a snapshot is after a step: a release before it moves it forward, its own release ends it. */
  function Moved(step: Step, p: nat): Option<nat> {
    if !step.LetGo? || p < step.j then Some(p) else if step.j == p then None else Some(p - 1)
  }

  /** Where a snapshot is after all steps, if nobody has let it go. */
  function Place(steps: seq<Step>, p: nat): Option<nat> {
    if steps == [] then Some(p)
    else match Place(steps[..|steps| - 1], p)
      case None => None
      case Some(q) => Moved(steps[|steps| - 1], q)
  }

  /** What is in `was` and not let go is still there in `now`. */
  predicate Stays<T(==)>(steps: seq<Step>, was: seq<T>, now: seq<T>) {
    forall p: nat :: p < |was| ==>
      match Place(steps, p) case None => true case Some(q) => q < |now| && now[q] == was[p]
  }

  lemma StaysNone<T>(steps: seq<Step>, was: seq<T>)
    ensures Stays(steps[..0], was, was)
  {
  }

  lemma StaysAll<T>(steps: seq<Step>, was: seq<T>, now: seq<T>)
    requires Stays(steps, was, now)
    ensures forall p: nat :: p < |was| && Place(steps, p).Some? ==>
      Place(steps, p).value < |now| && now[Place(steps, p).value] == was[p]
  {
  }

  /** A step lets one go or only adds. */
  lemma StaysStep<T>(steps: seq<Step>, n: nat, was: seq<T>, now: seq<T>, after: seq<T>)
    requires n < |steps| && Stays(steps[..n], was, now)
    requires if steps[n].LetGo? && steps[n].j < |now| then after == Without(now, steps[n].j) else now <= after
    ensures Stays(steps[..n + 1], was, after)
  {
    var so, next := steps[..n], steps[..n + 1];
    assert next[..n] == so && next[n] == steps[n];
    forall p: nat | p < |was|
      ensures match Place(next, p) case None => true case Some(q) => q < |after| && after[q] == was[p]
    {
      assert Place(so, p).Some? ==> Place(so, p).value < |now| && now[Place(so, p).value] == was[p];
    }
  }

  ghost function ViewOf(r: Replica): View
    reads r
  {
    View(r.image, r.revision, r.initialized, r.bytes)
  }

  ghost function VersionOf(c: Carrier): Version
    reads c
  {
    Version(c.holders, Image(c.revision, c.values))
  }

  /** Replicas that share carriers with each other and with the readers of retained snapshots. */
  class Pool {
    var replicas: seq<Replica>
    var snapshots: seq<Carrier>   // what readers hold
    ghost var kept: seq<Image>    // what each of them held when it was retained
    ghost var carriers: set<Carrier>

    ghost function Seen(): Views
      reads this, replicas
    {
      map r | r in replicas :: ViewOf(r)
    }

    ghost function Carried(): Versions
      reads this, carriers
    {
      map c | c in carriers :: VersionOf(c)
    }

    ghost predicate Valid()
      reads this, replicas, carriers
    {
      Distinct(replicas) && Sound(Seen(), Carried(), snapshots, kept)
    }

    constructor ()
      ensures Valid() && replicas == [] && snapshots == [] && carriers == {}
    {
      replicas, snapshots, kept, carriers := [], [], [], {};
    }

    /** A replica of the pool is sound by itself. */
    lemma ReplicaValid(r: Replica)
      requires Valid() && r in replicas
      ensures r.Valid() && (r.image != null ==> r.image in carriers)
    {
      hide Counted, Unaltered, Whole, Charge;
      assert ViewOk(Seen()[r], Carried());
    }

    lemma ViewValid(r: Replica)
      requires r.Valid() && (r.image != null ==> r.image in carriers)
      ensures ViewOk(ViewOf(r), Carried())
    {
    }

    lemma NothingValid(r: Replica)
      requires r.Valid() && r.image == null
      ensures ViewOf(r) == NOTHING
    {
    }

    /** A new, empty replica. */
    method Add()
      requires Valid()
      modifies `replicas
      ensures Valid() && |replicas| == |old(replicas)| + 1 && replicas[..|old(replicas)|] == old(replicas)
      ensures fresh(replicas[|old(replicas)|]) && replicas[|old(replicas)|].Contents() == None
    {
      hide Sound, Distinct;
      ghost var m, w := Seen(), Carried();
      var r := new Replica();
      DistinctMore(replicas, r);
      replicas := replicas + [r];
      assert Seen() == m[r := NOTHING] && Carried() == w;
      SoundChange(m, w, snapshots, kept, r, NOTHING, w);
    }

    /** Empties a replica. */
    method Clear(i: nat)
      requires Valid() && i < |replicas|
      modifies replicas[i], carriers
      ensures Valid() && replicas[i].Contents() == None
      ensures forall c | c in carriers :: VersionOf(c).image == old(VersionOf(c)).image
    {
      hide Sound, Distinct, ViewOk, Replica.Valid;
      ghost var m, w := Seen(), Carried();
      var r := replicas[i];
      ReplicaValid(r);
      r.Reset();
      NothingValid(r);
      assert Seen() == m[r := NOTHING];
      EmptyOk(Carried());
      SoundChange(m, w, snapshots, kept, r, NOTHING, Carried());
    }

    /** A copy of a replica shares its carrier. */
    method AddCopy(i: nat)
      requires Valid() && i < |replicas|
      modifies `replicas, carriers
      ensures Valid() && |replicas| == |old(replicas)| + 1 && replicas[..|old(replicas)|] == old(replicas)
      ensures fresh(replicas[|old(replicas)|]) && replicas[|old(replicas)|].Contents() == old(replicas[i].Contents())
      ensures forall c | c in carriers :: VersionOf(c).image == old(VersionOf(c)).image
    {
      hide Sound, Distinct, ViewOk, Replica.Valid;
      ghost var m, w := Seen(), Carried();
      var from := replicas[i];
      ReplicaValid(from);
      var r := new Replica.Copy(from);
      DistinctMore(replicas, r);
      replicas := replicas + [r];
      assert Seen() == m[r := ViewOf(r)];
      ViewValid(r);
      SoundChange(m, w, snapshots, kept, r, ViewOf(r), Carried());
    }

    /** One replica becomes a copy of another; assigning a replica to itself changes nothing. */
    method Assign(i: nat, j: nat)
      requires Valid() && i < |replicas| && j < |replicas|
      modifies replicas[i], carriers
      ensures Valid() && replicas[i].Contents() == old(replicas[j].Contents())
      ensures forall c | c in carriers :: VersionOf(c).image == old(VersionOf(c)).image
    {
      hide Sound, Distinct, ViewOk, Replica.Valid;
      if i == j { return; }
      ghost var m, w := Seen(), Carried();
      var r, from := replicas[i], replicas[j];
      DistinctAt(replicas, i, j);
      ReplicaValid(r);
      ReplicaValid(from);
      if r.image != null && r.image == from.image { Shares(m, w, snapshots, kept, r, from); }
      r.Become(from);
      assert Seen() == m[r := ViewOf(r)];
      ViewValid(r);
      SoundChange(m, w, snapshots, kept, r, ViewOf(r), Carried());
    }

    /** Applies an update to one replica: a carrier that anybody else holds keeps what it carries. */
    method ApplyTo(i: nat, u: Update, budget: nat) returns (ok: Result<bool>)
      requires Valid() && i < |replicas| && Sorted(u.values)
      modifies `carriers, replicas[i], carriers
      ensures Valid() && carriers >= old(carriers) && fresh(carriers - old(carriers))
      ensures ok.Ok? <==> Applying.Apply(old(replicas[i].Contents()), u, budget).Ok?
      ensures ok == Ok(true) ==> replicas[i].Contents().Some?
      ensures ok == Ok(true) ==>
        Applying.Apply(old(replicas[i].Contents()), u, budget).value == Applied(replicas[i].Contents().value,
            replicas[i].bytes)
      ensures Changed(old(Carried()), Carried(), old(ViewOf(replicas[i])), ViewOf(replicas[i]))
    {
      hide Sound, Distinct, ViewOk, Changed, Sorted, Applying.Apply, Replica.Valid;
      ghost var m, w := Seen(), Carried();
      var r := replicas[i];
      ReplicaValid(r);
      ok := Take(r, u, budget);
      assert Seen() == m[r := ViewOf(r)];
      ViewValid(r);
      SoundChange(m, w, snapshots, kept, r, ViewOf(r), Carried());
    }

    /** What applying does to the carriers. */
    method Take(r: Replica, u: Update, budget: nat) returns (ok: Result<bool>)
      requires r.Valid() && Sorted(u.values) && (r.image != null ==> r.image in carriers)
      modifies `carriers, r, carriers
      ensures r.Valid() && (r.image != null ==> r.image in carriers)
      ensures carriers >= old(carriers) && fresh(carriers - old(carriers))
      ensures ok.Ok? <==> Applying.Apply(old(r.Contents()), u, budget).Ok?
      ensures ok == Ok(true) ==> r.Contents().Some?
      ensures ok == Ok(true) ==>
        Applying.Apply(old(r.Contents()), u, budget).value == Applied(r.Contents().value, r.bytes)
      ensures Changed(old(Carried()), Carried(), old(ViewOf(r)), ViewOf(r))
    {
      hide Changed, Sorted, Applying.Apply, Encodable, Whole, Charge, Applying.Overlay, Held;
      ghost var w, was, view := Carried(), r.image, ViewOf(r);
      ok := r.Apply(u, budget);
      if r.image != null { carriers := carriers + {r.image}; }
      if was == null {
        assert Carried() == if r.image == null then w else w[r.image := VersionOf(r.image)];
      } else {
        ghost var c: Carrier, d: Carrier := was, r.image;
        assert Carried() == With(With(w, c, VersionOf(c)), d, VersionOf(d));
      }
      AppliedChange(w, Carried(), view, ViewOf(r));
    }

    /** A replica goes out of scope. */
    method Discard(i: nat)
      requires Valid() && i < |replicas|
      modifies `replicas, replicas[i], carriers
      ensures Valid() && replicas == Without(old(replicas), i)
      ensures forall c | c in carriers :: VersionOf(c).image == old(VersionOf(c)).image
    {
      hide Sound, Distinct, ViewOk, Replica.Valid;
      Clear(i);
      ghost var m, w, r := Seen(), Carried(), replicas[i];
      DistinctWithout(replicas, i);
      replicas := Without(replicas, i);
      assert Seen() == m - {r} && Carried() == w by { hide Without; }
      SoundLeave(m, w, snapshots, kept, r);
    }

    /** A reader retains the current version of a replica that has one. */
    method Keep(i: nat)
      requires Valid() && i < |replicas|
      modifies `snapshots, `kept, carriers
      ensures Valid()
      ensures kept == old(kept) + match old(replicas[i].Contents()) case None => [] case Some(image) => [image]
      ensures |snapshots| >= |old(snapshots)| && snapshots[..|old(snapshots)|] == old(snapshots)
      ensures forall c | c in carriers :: VersionOf(c).image == old(VersionOf(c)).image
    {
      hide Sound, Distinct, ViewOk, Replica.Valid;
      ghost var m, w := Seen(), Carried();
      var r := replicas[i];
      ReplicaValid(r);
      ghost var image := r.Contents();
      var c := r.Retain();
      if c != null {
        SoundKeep(m, w, snapshots, kept, c);
        assert w[c].image == image.value;
        snapshots, kept := snapshots + [c], kept + [image.value];
        assert Seen() == m && Carried() == w[c := w[c].(holders := w[c].holders + 1)];
      } else {
        assert Seen() == m && Carried() == w && kept + [] == kept;
      }
    }

    /** A reader lets its snapshot go. */
    method LetGo(j: nat)
      requires Valid() && j < |snapshots|
      modifies `snapshots, `kept, carriers
      ensures Valid() && snapshots == Without(old(snapshots), j) && |old(kept)| == |old(snapshots)|
      ensures kept == Without(old(kept), j)
      ensures forall c | c in carriers :: VersionOf(c).image == old(VersionOf(c)).image
    {
      hide Sound, Distinct, Without;
      ghost var m, w := Seen(), Carried();
      KeptMatches(m, w, snapshots, kept);
      SoundLetGo(m, w, snapshots, kept, j);
      var c := snapshots[j];
      c.holders := c.holders - 1;
      snapshots, kept := Without(snapshots, j), Without(kept, j);
      assert Seen() == m && Carried() == w[c := w[c].(holders := w[c].holders - 1)];
    }

    /** Over any history of replicas and readers: every snapshot that was held before and has not been let go is the
        same version, with what it carried before; every other one is what it was when it was retained; and every
        replica is sound. */
    method Interleave(steps: seq<Step>)
      requires Valid() && forall n :: 0 <= n < |steps| && steps[n].ApplyTo? ==> Sorted(steps[n].update.values)
      modifies this, replicas, carriers
      ensures Valid() && |kept| == |snapshots|
      ensures forall i :: 0 <= i < |kept| ==> Image(snapshots[i].revision, snapshots[i].values) == kept[i]
      ensures forall p | 0 <= p < |old(snapshots)| && Place(steps, p).Some? ::
        var q := Place(steps, p).value;
        && q < |snapshots| && snapshots[q] == old(snapshots)[p]
        && Image(snapshots[q].revision, snapshots[q].values)
           == old(Image(snapshots[p].revision, snapshots[p].values))
      ensures forall r | r in replicas :: r.Valid()
    {
      hide Valid, Sorted, Replica.Valid, Stays;
      Unchanged();
      ghost var held, were := snapshots, kept;
      StaysNone(steps, held);
      StaysNone(steps, were);
      for n := 0 to |steps|
        invariant Stays(steps[..n], held, snapshots) && Stays(steps[..n], were, kept)
        invariant Valid() && carriers >= old(carriers) && fresh(carriers - old(carriers))
        invariant forall i :: 0 <= i < |replicas| ==> replicas[i] in old(replicas) || fresh(replicas[i])
      {
        Unchanged();
        ghost var now, known := snapshots, kept;
        match steps[n] {
          case Make => Add();
          case CopyOf(i) => if i < |replicas| { AddCopy(i); }
          case CopyInto(i, j) => if i < |replicas| && j < |replicas| { Assign(i, j); }
          case ApplyTo(i, u, budget) => if i < |replicas| { var ok := ApplyTo(i, u, budget); }
          case Clear(i) => if i < |replicas| { Clear(i); }
          case Discard(i) => if i < |replicas| { Discard(i); }
          case Keep(i) => if i < |replicas| { Keep(i); }
          case LetGo(j) => if j < |snapshots| { LetGo(j); }
        }
        StaysStep(steps, n, held, now, snapshots);
        StaysStep(steps, n, were, known, kept);
      }
      Unchanged();
      assert steps[..|steps|] == steps;
      StaysAll(steps, held, snapshots);
      StaysAll(steps, were, kept);
      forall r | r in replicas ensures r.Valid() { ReplicaValid(r); }
    }

    lemma Unchanged()
      requires Valid()
      ensures |kept| == |snapshots|
      ensures forall i :: 0 <= i < |kept| ==> Image(snapshots[i].revision, snapshots[i].values) == kept[i]
    {
      hide Counted, ViewOk;
      forall i | 0 <= i < |kept| ensures Image(snapshots[i].revision, snapshots[i].values) == kept[i] {
        assert Carried()[snapshots[i]].image == kept[i];
      }
    }
  }

  lemma KeptMatches(m: Views, w: Versions, snapshots: seq<Carrier>, kept: seq<Image>)
    requires Sound(m, w, snapshots, kept)
    ensures |kept| == |snapshots| && forall i :: 0 <= i < |snapshots| ==> snapshots[i] in w
  {
    hide Counted, ViewOk;
  }
}
