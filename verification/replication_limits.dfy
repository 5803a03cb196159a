/** The two ways a sent update can fail to arrive, each as a run of a subscription that ends with the client's refusal.
    */
module ReplicationLimits {
  import opened Bytes
  import opened Values
  import opened ValueCodec
  import opened UpdateCodec
  import opened Framing
  import opened Packets
  import opened Diffs
  import opened Deltas
  import opened DeltaSoundness
  import opened Applying
  import opened DeltaApplication
  import opened Staging
  import opened Replication

  // ---- an entity with sixteen texts ----

  function Text(n: nat): Value { Str(seq(n, _ => 0)) }

  /** `n` attributes of `size` bytes with rising one-letter names, and a last one of `last` bytes. */
  function Pages(first: byte, n: nat, size: nat, last: nat): seq<Field>
    requires first + n < 256
    decreases n
  {
    if n == 0 then [Field([first], Text(last))] else [Field([first], Text(size))] + Pages(first + 1, n - 1, size, last)
  }

  const BLANK := Pages(0x61, 15, 0, 0)
  const WRITTEN := Pages(0x61, 15, 65536, 65401)

  function Letters(): set<bytes> { set i: byte | 0x61 <= i < 0x71 :: [i] }

  lemma {:induction false} PagesAt(first: byte, n: nat, size: nat, last: nat)
    requires first + n < 256
    ensures var fs := Pages(first, n, size, last);
      |fs| == n + 1 && forall i :: 0 <= i < |fs| ==> fs[i] == Field([first + i], Text(if i < n then size else last))
    decreases n
  {
    hide Text;
    if n > 0 { PagesAt(first + 1, n - 1, size, last); }
  }

  lemma {:induction false} PagesMeasures(first: byte, n: nat, size: nat, last: nat)
    requires first + n < 256 && size <= 65536 && last <= 65536
    ensures var fs := Pages(first, n, size, last);
      FieldsSize(fs) == n * (size + 7) + last + 7 && FieldsNodes(fs) == n + 1 && FieldsHeight(fs) == 1
    decreases n
  {
    hide Size, Nodes, Height, Text;
    var fs := Pages(first, n, size, last);
    TextMeasures(if n == 0 then last else size);
    if n == 0 {
      assert fs[1..] == [];
    } else {
      PagesMeasures(first + 1, n - 1, size, last);
      assert fs[1..] == Pages(first + 1, n - 1, size, last);
      assert n * (size + 7) == (n - 1) * (size + 7) + (size + 7);
    }
  }

  lemma TextMeasures(n: nat)
    ensures Size(Text(n)) == n + 5 && Nodes(Text(n)) == 1 && Height(Text(n)) == 0
  {
  }

  lemma LettersRise(a: byte, b: byte)
    requires a < b
    ensures Less([a], [b])
  {
  }

  lemma PagesShaped(first: byte, fs: seq<Field>)
    requires 0x61 <= first && first + |fs| <= 256
    requires forall i :: 0 <= i < |fs| ==> fs[i].name == [first + i] && fs[i].value.Str? && |fs[i].value.text| <= 65536
    ensures FieldShapes(fs, true) && TypedFields(fs)
  {
    hide Less;
    forall i, j | 0 <= i < j < |fs| ensures Less(fs[i].name, fs[j].name) { LettersRise(first + i, first + j); }
  }

  /** Both images are valid at any revision; the written one fills a record to the last byte. */
  lemma PagesValid(revision: nat, size: nat, last: nat)
    requires revision < U64 && (size == last == 0 || (size == 65536 && last == 65401))
    ensures var image := Snapshot(revision, Pages(0x61, 15, size, last));
      && ValidImage(image) && UpdateSize(image) == 23 + 15 * (size + 7) + last + 7
      && View(image, Letters()) == image
  {
    hide Pages, FieldShapes, TypedFields, FieldsSize, FieldsNodes, FieldsHeight;
    var fs := Pages(0x61, 15, size, last);
    PagesMeasures(0x61, 15, size, last);
    PagesAt(0x61, 15, size, last);
    PagesShaped(0x61, fs);
    NoPatches(Snapshot(revision, fs));
    AllVisible(fs, 0);
  }

  lemma {:induction false} AllVisible(fs: seq<Field>, i: nat)
    requires i <= |fs| <= 16 && forall x :: 0 <= x < |fs| ==> fs[x].name == [0x61 + x]
    ensures Project(fs[i..], Letters()) == fs[i..]
    decreases |fs| - i
  {
    if i < |fs| {
      assert fs[i..][0] == fs[i] && fs[i..][1..] == fs[i + 1..];
      assert fs[i].name in Letters() by { var b: byte := 0x61 + i; assert 0x61 <= b < 0x71 && [b] == fs[i].name; }
      AllVisible(fs, i + 1);
    }
  }

  /** The watch of the blank entity is accepted. */
  lemma BlankStarts(name: Name, lease: nat, revision: nat, owner: bool)
    requires ValidPacketName(name) && SHORTEST_LEASE <= lease < U32 && revision < U64
    ensures var s := Start(name, lease, Snapshot(revision, BLANK), Letters(), owner, WATCH_LIMIT);
      && s.Some? && Inv(s.value) && s.value.open && !s.value.regressed && !s.value.oversized && |s.value.link| == 1
      && s.value.name == name && s.value.visible == Letters() && s.value.last == Snapshot(revision, BLANK)
  {
    hide Pages, ValidImage, UpdateSize, View, EncodePacket, Inv, ImageBytes, Charge;
    PagesValid(revision, 0, 0);
    BlankCharge();
    StartTracked(name, lease, Snapshot(revision, BLANK), Letters(), owner, WATCH_LIMIT);
  }

  lemma BlankCharge()
    ensures Charge(BLANK) <= WATCH_LIMIT
  {
    hide UpdateSize, Pages;
    PagesValid(0, 0, 0);
    PagesBytes(0x61, 15);
  }

  lemma {:induction false} PagesBytes(first: byte, n: nat)
    requires first + n < 256
    ensures ImageBytes(Pages(first, n, 0, 0)) == 256 + 257 * (n + 1)
    decreases n
  {
    var fs := Pages(first, n, 0, 0);
    if n == 0 {
      assert fs[1..] == [];
    } else {
      PagesBytes(first + 1, n - 1);
      assert fs[1..] == Pages(first + 1, n - 1, 0, 0);
    }
  }

  // ---- a revision that falls ----

  /** A commit with a lower revision is sent as a snapshot that the replica rejects. */
  lemma FallenRevisionRefused(name: Name, lease: nat, revision: nat, owner: bool)
    requires ValidPacketName(name) && SHORTEST_LEASE <= lease < U32 && 0 < revision < U64
    ensures var s := Start(name, lease, Snapshot(revision, BLANK), Letters(), owner, WATCH_LIMIT);
      s.Some? && Run(s.value, [Commit(Snapshot(revision - 1, BLANK), owner, true, true)] + Deliveries(2)).refused
  {
    hide Pages, ValidImage, UpdateSize, View, EncodePacket, Inv, Start, Run, Delta;
    BlankStarts(name, lease, revision, owner);
    PagesValid(revision, 0, 0);
    PagesValid(revision - 1, 0, 0);
    var s := Start(name, lease, Snapshot(revision, BLANK), Letters(), owner, WATCH_LIMIT).value;
    DeltaPacket(name, s.last, Snapshot(revision - 1, BLANK));
    BadCommitRefused(s, Snapshot(revision - 1, BLANK), owner);
  }

  // ---- an update that is a record but not a packet ----

  /** Texts that changed are sent whole. */
  lemma {:induction false} TextChoices(prev: seq<Field>, roots: seq<Field>)
    requires forall i :: 0 <= i < |roots| ==> TextChanged(prev, roots[i])
    ensures var cs := WholeChoices(prev, roots);
      && ContainerChoices(prev, roots) == cs && FieldChoices(prev, roots, 0) == Ok(Some(cs))
      && ValuesOf(roots, cs) == roots && PatchesOf(cs) == []
    decreases roots
  {
    hide Lookup, Diff, Same;
    if roots != [] {
      TextDiff(prev, roots[0]);
      TextChoices(prev, roots[1..]);
      assert WholeChoices(prev, roots)[1..] == WholeChoices(prev, roots[1..]);
      assert [roots[0]] + roots[1..] == roots;
    }
  }

  predicate TextChanged(prev: seq<Field>, f: Field) {
    && Has(prev, f.name) && Lookup(prev, f.name).value.Str? && f.value.Str? && Lookup(prev, f.name).value != f.value
  }

  lemma TextDiff(prev: seq<Field>, f: Field)
    requires TextChanged(prev, f)
    ensures !Same(Lookup(prev, f.name).value, f.value)
    ensures Diff(f.name, [], Lookup(prev, f.name).value, f.value) == Ok([Replacement(f.name, [], f.value)])
  {
    hide Lookup;
  }

  /** Sixteen texts named by rising letters. */
  predicate Lettered(fs: seq<Field>) {
    |fs| == 16 && forall i :: 0 <= i < |fs| ==> fs[i].name == [0x61 + i] && fs[i].value.Str?
  }

  lemma LetteredSorted(fs: seq<Field>)
    requires Lettered(fs)
    ensures Sorted(fs)
  {
    hide Less;
    forall i, j | 0 <= i < j < |fs| ensures Less(fs[i].name, fs[j].name) { LettersRise(0x61 + i, 0x61 + j); }
  }

  lemma ChangedAt(a: seq<Field>, b: seq<Field>, i: nat)
    requires Lettered(a) && Lettered(b) && i < 16 && a[i].value != b[i].value
    ensures TextChanged(a, b[i]) && Has(b, a[i].name)
  {
    hide Lookup;
    LetteredSorted(a);
    LetteredSorted(b);
    LookupAt(a, i);
    LookupAt(b, i);
  }

  /** When every text changed, the delta is every root, whole. */
  lemma LetteredDelta(a: seq<Field>, b: seq<Field>)
    requires Lettered(a) && Lettered(b) && forall i :: 0 <= i < 16 ==> a[i].value != b[i].value
    ensures Delta(Snapshot(0, a), Snapshot(1, b)) == Ok(Update(0, 1, false, b, []))
  {
    hide WholeChoices, ContainerChoices, FieldChoices, ValuesOf, PatchesOf, WireLength, Lookup, TextChanged;
    forall i | 0 <= i < 16 ensures TextChanged(a, b[i]) && Has(b, a[i].name) { ChangedAt(a, b, i); }
    TextChoices(a, b);
  }

  lemma WrittenDelta()
    ensures Delta(Snapshot(0, BLANK), Snapshot(1, WRITTEN)) == Ok(Update(0, 1, false, WRITTEN, []))
  {
    hide Pages, Delta;
    PagesAt(0x61, 15, 0, 0);
    PagesAt(0x61, 15, 65536, 65401);
    PagesLettered(BLANK, 0, 0);
    PagesLettered(WRITTEN, 65536, 65401);
    forall i | 0 <= i < 16 ensures BLANK[i].value != WRITTEN[i].value {
      assert |BLANK[i].value.text| == 0 < |WRITTEN[i].value.text|;
    }
    LetteredDelta(BLANK, WRITTEN);
  }

  lemma PagesLettered(fs: seq<Field>, size: nat, last: nat)
    requires |fs| == 16 && forall i :: 0 <= i < |fs| ==> fs[i] == Field([0x61 + i], Text(if i < 15 then size else last))
    ensures Lettered(fs) && forall i :: 0 <= i < |fs| ==> |fs[i].value.text| == if i < 15 then size else last
  {
  }

  /** A commit within every limit of the record format, at the next revision and of the same roots, whose packet is too
      long for the client to open. */
  lemma FullRecordRefused(name: Name, lease: nat, owner: bool)
    requires ValidPacketName(name) && SHORTEST_LEASE <= lease < U32
    ensures var s := Start(name, lease, Snapshot(0, BLANK), Letters(), owner, WATCH_LIMIT);
      && ValidImage(Snapshot(1, WRITTEN)) && s.Some?
      && Run(s.value, [Commit(Snapshot(1, WRITTEN), owner, true, true)] + Deliveries(2)).refused
  {
    hide Pages, ValidImage, View, EncodePacket, Inv, Start, Run, Delta, Encode, UpdateSize;
    BlankStarts(name, lease, 0, owner);
    PagesValid(0, 0, 0);
    PagesValid(1, 65536, 65401);
    var s := Start(name, lease, Snapshot(0, BLANK), Letters(), owner, WATCH_LIMIT).value;
    var next := Snapshot(1, WRITTEN);
    DeltaPacket(name, s.last, next);
    WrittenDelta();
    PacketLong(name, Update(0, 1, false, WRITTEN, []));
    BadCommitRefused(s, next, owner);
  }

  lemma PacketLong(name: Name, u: Update)
    requires EncodePacket(name, 0, u).Ok? && u == Update(0, 1, false, WRITTEN, [])
    ensures |EncodePacket(name, 0, u).value| > LIMIT
  {
    hide Pages, Encode, EntityKey, Put;
    PagesValid(1, 65536, 65401);
    WireLengthExact(u);
    UpdateExact(SizeOnly(0), u);
    assert UpdateSize(u) == LIMIT;
  }
}
