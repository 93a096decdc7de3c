/** Clean pages hold the object's bytes, and pinned bytes do not move.

    `Mutable` names the bytes that some step may change; readers admitted by `pin_clean`
    never see one. `Pledged` names the bytes that are clean or can become clean without
    being written; every step keeps them equal to the object as long as fetches write the
    object's bytes and a punch reported as failed left the file alone.
 */
module EntryCoherence {
  import opened Geometry
  import opened EntryModel
  import opened EntryOwnership
  import opened EntryWorld
  import opened EntryGuards
  import opened EntrySafety

  // ---------------------------------------------------------------- bytes that may change

  /** The block is unpinned, and nothing in it is pending or bad. */
  ghost predicate IdleRegion(e: Entry, r: nat)
    requires e.blockPages > 0
  {
    && r < |e.pins| && e.pins[r] == 0
    && forall p | 0 <= p < |e.pages| && Block(e, p) == r :: e.pages[p] == Clean || e.pages[p] == Missing
  }

  predicate TailByte(w: World, i: nat, x: nat)
    requires i < |w.e.claims|
  {
    InTail(w.e.claims[i], x / PAGE) && MayTouch(w, i)
  }

  predicate RetryByte(w: World, k: nat, x: nat)
    requires k < |w.e.parts| && |w.e.parts| == |w.e.partStates| == |w.partReady|
  {
    w.e.partStates[k] == Retrying && w.partReady[k] && PartOverlaps(w.e.parts[k], x, x + 1)
  }

  /** The only bytes of the file that a step may change. */
  ghost predicate Mutable(w: World, x: nat)
    requires Sound(w)
  {
    || (exists i :: 0 <= i < |w.e.claims| && TailByte(w, i, x))
    || (exists k :: 0 <= k < |w.e.parts| && RetryByte(w, k, x))
    || (exists k :: 0 <= k < |w.ev| && w.ev[k].block == Quot(x / PAGE, w.e.blockPages))
    || IdleRegion(w.e, Quot(x / PAGE, w.e.blockPages))
  }

  /** The unpublished, possibly written bytes of a claim lie in its tail. */
  lemma UnpublishedInTail(e: Entry, a: ActiveFetch, x: nat)
    requires WF(e) && Aligned(e, a) && a.offset + a.published <= x < a.offset + a.length
    ensures InTail(a, x / PAGE) && x / PAGE < |e.pages|
  {
    MultipleSum(a.offset, a.published, BlockSize(e));
    MultipleScale(a.offset + a.published, e.blockPages);
  }

  lemma RangeByte(e: Entry, a: ActiveFetch, x: nat)
    requires WF(e) && Aligned(e, a) && x < e.size
    ensures a.offset <= x < a.offset + a.length <==> InRange(a, x / PAGE)
  {
    MultipleScale(a.offset, e.blockPages);
    if Multiple(a.offset + a.length, BlockSize(e)) { MultipleScale(a.offset + a.length, e.blockPages); }
  }

  lemma WriteTouches(w: World, c: FetchClaim, data: seq<Byte>, x: nat)
    requires Safe(w) && Enabled(w, Write(c, data)) && x < |w.file|
    requires ByteOf(Apply(w, Write(c, data)).file, x) != ByteOf(w.file, x)
    ensures Mutable(w, x)
  {
    hide Owned, Ledger, PartsGuarded, FetchesGuarded, ReadersGuarded, PartRetriesGuarded, Modes, OpsLedger, PartsTile, Sum;
    var i := Find(w.e.claims, c);
    ActiveBounds(w, c);
    UnpublishedInTail(w.e, w.e.claims[i], x);
    assert TailByte(w, i, x);
  }

  lemma FinishTouches(w: World, c: FetchClaim, holes: set<nat>, x: nat)
    requires Safe(w) && Enabled(w, Finish(c, holes)) && x < |w.file|
    requires ByteOf(Apply(w, Finish(c, holes)).file, x) != ByteOf(w.file, x)
    ensures var i := Find(w.e.claims, c);
            i < |w.e.claims| && Quot(x / PAGE, w.e.blockPages) in holes && TailByte(w, i, x)
    ensures Mutable(w, x)
  {
    hide Owned, Ledger, PartsGuarded, FetchesGuarded, ReadersGuarded, PartRetriesGuarded, Modes, ProgressOk, OpsLedger,
         PartsTile, Sum, FinishFetch;
    var i := Find(w.e.claims, c);
    var b := Quot(x / PAGE, w.e.blockPages);
    assert Unfinished(w.e, w.e.claims[i], b);
    var q :| 0 <= q < |w.e.pages| && InTail(w.e.claims[i], q) && Block(w.e, q) == b && w.e.pages[q] == ReadPending;
    TailWholeBlocks(w.e, w.e.claims[i], q, x / PAGE);
    assert TailByte(w, i, x);
  }

  lemma EvictTouches(w: World, punched: bool, x: nat)
    requires Safe(w) && x < |w.file|
    requires ByteOf(Apply(w, EvictNow(punched)).file, x) != ByteOf(w.file, x)
    ensures IdleRegion(w.e, Quot(x / PAGE, w.e.blockPages))
  {
    hide Owned, Ledger, PartsGuarded, FetchesGuarded, ReadersGuarded, PartRetriesGuarded, Modes, ProgressOk, OpsLedger,
         PartsTile, Sum, ScanEntry, Aligned;
    ScanShape(w.e);
  }

  /** Whatever a step does, it changes only mutable bytes. */
  lemma OnlyMutableBytesChange(w: World, event: Event, x: nat)
    requires Safe(w) && Enabled(w, event) && x < |w.file|
    requires ByteOf(Apply(w, event).file, x) != ByteOf(w.file, x)
    ensures Mutable(w, x)
  {
    hide Owned, Ledger, PartsGuarded, FetchesGuarded, ReadersGuarded, PartRetriesGuarded, Modes, ProgressOk, OpsLedger,
         WF, MayTouch, FinishFetch, EvictOne, EvictBegin, PublishClean, IdleRegion, Mutable;
    match event
    case Write(c, data) => WriteTouches(w, c, data, x);
    case Finish(c, holes) => FinishTouches(w, c, holes, x);
    case EvictNow(punched) => EvictTouches(w, punched, x); IdleMutable(w, x);
    case Punch(k) => PunchTouches(w, k, x);
    case WritePart(c, at, data) => PartTouches(w, c, at, data, x);
    case _ =>
  }

  lemma IdleMutable(w: World, x: nat)
    requires Sound(w) && IdleRegion(w.e, Quot(x / PAGE, w.e.blockPages))
    ensures Mutable(w, x)
  {
  }

  lemma PunchTouches(w: World, k: nat, x: nat)
    requires Safe(w) && Enabled(w, Punch(k)) && x < |w.file|
    requires ByteOf(Apply(w, Punch(k)).file, x) != ByteOf(w.file, x)
    ensures w.ev[k].block == Quot(x / PAGE, w.e.blockPages) && Mutable(w, x)
  {
    hide Owned, Ledger, PartsGuarded, FetchesGuarded, ReadersGuarded, PartRetriesGuarded, Modes, ProgressOk, OpsLedger;
  }

  lemma PartTouches(w: World, c: ChecksumClaim, at: nat, data: seq<Byte>, x: nat)
    requires Safe(w) && Enabled(w, WritePart(c, at, data)) && x < |w.file|
    requires ByteOf(Apply(w, WritePart(c, at, data)).file, x) != ByteOf(w.file, x)
    ensures Mutable(w, x)
  {
    hide Owned, Ledger, PartsGuarded, FetchesGuarded, ReadersGuarded, PartRetriesGuarded, Modes, ProgressOk, OpsLedger;
    assert RetryByte(w, c.part, x);
  }

  /** A byte under an admitted reader is not mutable. */
  lemma PinnedImmutable(w: World, k: nat, x: nat)
    requires Safe(w) && k < |w.readers| && w.readers[k].clean
    requires w.readers[k].offset <= x < w.readers[k].offset + w.readers[k].length
    ensures !Mutable(w, x)
  {
    hide Owned, Ledger, PartsGuarded, FetchesGuarded, Modes, ProgressOk, OpsLedger, PartsTile, Sum, Aligned;
    var r, p, b := w.readers[k], x / PAGE, w.e.blockPages;
    RangeCovers(b, r.offset, r.length, p);
    assert PageStable(w.e.claims, w.ev, b, w.progress, p);
    if IdleRegion(w.e, Quot(p, b)) { UnpinnedUnheld(w, Quot(p, b)); }
  }

  lemma ReaderInside(w: World, k: nat)
    requires Safe(w) && k < |w.readers|
    ensures w.readers[k].offset + w.readers[k].length <= |w.file| == |w.remote| == w.e.size
  {
  }

  /** A step keeps the object, so the file keeps its size. */
  lemma SameObject(w: World, event: Event)
    requires Safe(w) && Enabled(w, event)
    ensures Apply(w, event).remote == w.remote && |Apply(w, event).file| == |w.file|
  {
    StepKeepsSafe(w, event);
    ObjectKept(w, event);
    hide Apply, Enabled;
  }

  lemma ObjectKept(w: World, event: Event)
    requires Sound(w) && Enabled(w, event)
    ensures Apply(w, event).remote == w.remote
  {
    hide WF, MayTouch, FinishFetch, RollbackFetch, MarkBad, PinFetchVerification, BeginRetry, ClaimFetch, PinClean, Pin,
         Unpin, SetReferenced, ClaimChecksum, ChecksumMismatch, BeginChecksumRetry, FinishChecksum, AbandonChecksum,
         EvictOne, EvictBegin, EvictEnd, PublishClean, TryExport, FinishManifest, ManifestUnavailable, Fits;
  }

  /** No step changes a byte that an admitted reader holds, whatever bytes are written. */
  lemma PinnedBytesStable(w: World, event: Event, k: nat, x: nat)
    requires Safe(w) && Enabled(w, event) && k < |w.readers| && w.readers[k].clean
    requires w.readers[k].offset <= x < w.readers[k].offset + w.readers[k].length
    ensures x < |w.file| == |Apply(w, event).file| && Apply(w, event).file[x] == w.file[x]
  {
    assert Sound(w);
    hide Safe, Mutable, Apply, Enabled;
    StepKeepsSafe(w, event);
    SameObject(w, event);
    ReaderInside(w, k);
    PinnedImmutable(w, k, x);
    if ByteOf(Apply(w, event).file, x) != ByteOf(w.file, x) { OnlyMutableBytesChange(w, event, x); }
  }

  // ---------------------------------------------------------------- who pledges a byte

  /** A claim pledges bytes of its tail, and bytes of the range it verifies. */
  lemma ClaimPledgePlace(w: World, i: nat, x: nat)
    requires Safe(w) && i < |w.e.claims| && x < w.e.size
    ensures ClaimPledges(w.e.claims[i], w.progress, x) ==>
              InTail(w.e.claims[i], x / PAGE) || (w.e.claims[i].verifying && InRange(w.e.claims[i], x / PAGE))
    ensures x / PAGE < |w.e.pages|
  {
    hide Owned, Ledger, PartsGuarded, FetchesGuarded, ReadersGuarded, PartRetriesGuarded, Modes, OpsLedger, PartsTile, Sum,
         Multiple;
    var a := w.e.claims[i];
    assert Aligned(w.e, a);
    if a.offset + a.published <= x < a.offset + a.length { UnpublishedInTail(w.e, a, x); }
    RangeByte(w.e, a, x);
  }

  lemma VerifierReserves(w: World, j: nat, p: nat)
    requires Safe(w) && j < |w.e.claims| && p < |w.e.pages|
    ensures w.e.blockPages > 0
    ensures w.e.claims[j].verifying && InRange(w.e.claims[j], p) ==>
              PageReserved(w.e.claims, w.ev, w.e.blockPages, j, p)
  {
    hide WF, Owned, Ledger, PartsGuarded, ReadersGuarded, PartRetriesGuarded, Modes, ProgressOk, OpsLedger, PageReserved;
    EntryShape(w.e);
    assert w.e.claims[j].verifying ==> RangeReserved(|w.e.pages|, w.e.claims, w.ev, w.e.blockPages, j);
  }

  /** A byte in the tail of claim `i` is pledged by that claim or by nobody. */
  lemma TailPledge(w: World, i: nat, x: nat)
    requires Safe(w) && i < |w.e.claims| && x < w.e.size && InTail(w.e.claims[i], x / PAGE)
    ensures x / PAGE < |w.e.pages| && w.e.pages[x / PAGE] != Clean
    ensures forall k | 0 <= k < |w.ev| :: !EvictionPledges(w.ev[k], x / PAGE)
    ensures forall j | 0 <= j < |w.e.claims| && j != i :: !ClaimPledges(w.e.claims[j], w.progress, x)
  {
    hide WF, Ledger, PartsGuarded, ReadersGuarded, PartRetriesGuarded, Modes, ProgressOk, OpsLedger, Owned, ClaimPledges,
         InTail;
    var p := x / PAGE;
    ClaimPledgePlace(w, i, x);
    TailNotEvicting(w.e, w.ev, i, p);
    TailFacts(w.e.pages, w.e.claims, w.ev, w.e.blockPages, i, p);
    forall j | 0 <= j < |w.e.claims| && j != i ensures !ClaimPledges(w.e.claims[j], w.progress, x) {
      ClaimPledgePlace(w, j, x);
      VerifierReserves(w, j, p);
    }
  }

  lemma TailFacts(pages: seq<PageState>, claims: seq<ActiveFetch>, ev: seq<Evicting>, b: nat, i: nat, p: nat)
    requires Owned(pages, claims, ev, b) && i < |claims| && p < |pages| && InTail(claims[i], p)
    requires NoEviction(ev, b, p)
    ensures pages[p] != Clean
    ensures forall j | 0 <= j < |claims| && j != i :: !InTail(claims[j], p)
    ensures forall k | 0 <= k < |ev| :: p !in ev[k].taken
  {
    forall k | 0 <= k < |ev| ensures p !in ev[k].taken {
      assert EvictionHolds(pages, claims, b, ev[k]);
    }
  }

  /** A byte of a block under eviction is pledged by that eviction or by nobody. */
  lemma EvictionPledge(w: World, k: nat, x: nat)
    requires Safe(w) && k < |w.ev| && x < w.e.size && w.ev[k].block == Quot(x / PAGE, w.e.blockPages)
    ensures x / PAGE < |w.e.pages| && w.e.pages[x / PAGE] != Clean
    ensures forall l | 0 <= l < |w.ev| && l != k :: !EvictionPledges(w.ev[l], x / PAGE)
    ensures forall j | 0 <= j < |w.e.claims| :: !ClaimPledges(w.e.claims[j], w.progress, x)
  {
    hide WF, Ledger, PartsGuarded, ReadersGuarded, PartRetriesGuarded, Modes, ProgressOk, OpsLedger, ClaimPledges, InTail;
    var p := x / PAGE;
    LastPage(w, x);
    assert EvictionHolds(w.e.pages, w.e.claims, w.e.blockPages, w.ev[k]);
    forall l | 0 <= l < |w.ev| && l != k ensures !EvictionPledges(w.ev[l], p) {
      assert EvictionHolds(w.e.pages, w.e.claims, w.e.blockPages, w.ev[l]);
      assert w.ev[l].block != w.ev[k].block;
    }
    forall j | 0 <= j < |w.e.claims| ensures !ClaimPledges(w.e.claims[j], w.progress, x) {
      ClaimPledgePlace(w, j, x);
      assert !InTail(w.e.claims[j], p);
      VerifierReserves(w, j, p);
    }
  }

  lemma LastPage(w: World, x: nat)
    requires Safe(w) && x < w.e.size
    ensures x / PAGE < |w.e.pages| && |w.file| == |w.remote| == w.e.size && w.e.blockPages > 0
  {
  }

  /** A byte of an idle region is pledged only by being clean. */
  lemma IdlePledge(w: World, x: nat)
    requires Safe(w) && x < w.e.size && w.e.blockPages > 0 && IdleRegion(w.e, Quot(x / PAGE, w.e.blockPages))
    ensures forall k | 0 <= k < |w.ev| :: !EvictionPledges(w.ev[k], x / PAGE)
    ensures forall j | 0 <= j < |w.e.claims| :: !ClaimPledges(w.e.claims[j], w.progress, x)
  {
    hide WF, Ledger, PartsGuarded, FetchesGuarded, ReadersGuarded, PartRetriesGuarded, Modes, ProgressOk, OpsLedger,
         ClaimPledges, InTail;
    var p := x / PAGE;
    LastPage(w, x);
    UnpinnedUnheld(w, Quot(p, w.e.blockPages));
    assert w.e.pages[p] == Clean || w.e.pages[p] == Missing;
    forall k | 0 <= k < |w.ev| ensures !EvictionPledges(w.ev[k], p) {
      assert EvictionHolds(w.e.pages, w.e.claims, w.e.blockPages, w.ev[k]);
    }
    forall j | 0 <= j < |w.e.claims| ensures !ClaimPledges(w.e.claims[j], w.progress, x) {
      ClaimPledgePlace(w, j, x);
      assert !InTail(w.e.claims[j], p);
      ClaimShape(w.e, j);
      if InRange(w.e.claims[j], p) { RangeCovers(w.e.blockPages, w.e.claims[j].offset, w.e.claims[j].length, p); }
    }
  }

  // ---------------------------------------------------------------- every event keeps coherence

  /** Fewer clean pages and nothing else new: every byte stays coherent. */
  lemma CoherentFewer(w: World, w': World, x: nat)
    requires |w.file| == |w.remote| && w'.remote == w.remote && w'.file == w.file && x < |w.file| && ByteRight(w, x)
    requires w'.e.claims == w.e.claims && w'.ev == w.ev && w'.progress == w.progress && |w'.e.pages| == |w.e.pages|
    requires forall p | 0 <= p < |w.e.pages| && w'.e.pages[p] == Clean :: w.e.pages[p] == Clean
    ensures ByteRight(w', x)
  {
    hide ClaimPledges, EvictionPledges;
  }

  /** Writing object bytes anywhere, and more progress on claim `i`, keeps coherence. */
  lemma CoherentWrite(w: World, w': World, at: nat, data: seq<Byte>, i: nat, x: nat)
    requires |w.file| == |w.remote| && x < |w.file| && ByteRight(w, x) && at + |data| <= |w.file|
    requires w' == w.(file := Overwrite(w.file, at, data), progress := w'.progress, tainted := w'.tainted)
    requires at <= x < at + |data| ==> data[x - at] == w.remote[x]
    requires forall j | 0 <= j < |w.e.claims| :: ClaimPledges(w.e.claims[j], w'.progress, x) ==>
                    ClaimPledges(w.e.claims[j], w.progress, x) || at <= x < at + |data|
    ensures ByteRight(w', x)
  {
    hide ClaimPledges, EvictionPledges, PAGE;
  }

  lemma CoherentByWrite(w: World, c: FetchClaim, data: seq<Byte>, x: nat)
    requires Safe(w) && Enabled(w, Write(c, data)) && x < |w.file| && ByteRight(w, x)
    requires x !in Apply(w, Write(c, data)).tainted
    ensures ByteRight(Apply(w, Write(c, data)), x)
  {
    hide WF, Owned, Ledger, PartsGuarded, FetchesGuarded, ReadersGuarded, PartRetriesGuarded, Modes, ProgressOk, OpsLedger,
         PriorClean, ByteRight, MayTouch;
    ActiveBounds(w, c);
    var w', i := Apply(w, Write(c, data)), Find(w.e.claims, c);
    var at := c.offset + w.progress[c.id].written;
    OtherIds(w.e, i);
    CoherentWrite(w, w', at, data, i, x);
  }

  lemma CoherentByWritePart(w: World, c: ChecksumClaim, at: nat, data: seq<Byte>, x: nat)
    requires Safe(w) && Enabled(w, WritePart(c, at, data)) && x < |w.file| && ByteRight(w, x)
    requires x !in Apply(w, WritePart(c, at, data)).tainted
    ensures ByteRight(Apply(w, WritePart(c, at, data)), x)
  {
    hide WF, Owned, Ledger, PartsGuarded, FetchesGuarded, ReadersGuarded, PartRetriesGuarded, Modes, ProgressOk, OpsLedger,
         PriorClean, ByteRight;
    LiveInside(w.e, c);
    CoherentWrite(w, Apply(w, WritePart(c, at, data)), at, data, 0, x);
  }

  lemma CoherentByClaim(w: World, o: nat, l: nat, n: nat, x: nat)
    requires Safe(w) && x < |w.file| && ByteRight(w, x)
    ensures ByteRight(Apply(w, Claim(o, l, n)), x)
  {
    hide Owned, Ledger, PartsGuarded, FetchesGuarded, ReadersGuarded, PartRetriesGuarded, Modes, ProgressOk, OpsLedger,
         ClaimFetch, WF;
    var (e', r) := ClaimFetch(w.e, o, l, n);
    if r.Claimed? {
      var start, stop := ClaimedBlocks(w.e, o, l, n);
      CoherentByBlocks(w, start, stop, x);
    } else {
      UnclaimedKeeps(w.e, o, l, n);
      assert w.(e := e', progress := w.progress) == w;
    }
  }

  lemma NewFetchPriors(e: Entry, start: nat, stop: nat, p: nat)
    requires WF(e) && start < stop <= |e.pins| && p < |e.pages|
    ensures var f := NewFetch(e, start, stop);
            PriorClean(f, p) ==> e.pages[p] == Clean
  {
    hide Aligned, PartsTile, Sum;
    NewFetchTail(e, start, stop);
    BlockSpan(e, start, stop);
  }

  lemma CoherentByBlocks(w: World, start: nat, stop: nat, x: nat)
    requires Safe(w) && start < stop <= |w.e.pins| && x < |w.file| && ByteRight(w, x)
    ensures ByteRight(w.(e := ClaimBlocks(w.e, start, stop), progress := w.progress[w.e.nextId := Progress(0, false)]), x)
  {
    hide WF, Owned, Ledger, PartsGuarded, FetchesGuarded, ReadersGuarded, PartRetriesGuarded, Modes, ProgressOk, OpsLedger,
         PriorClean, NewFetch;
    ClaimFields(w.e, start, stop);
    LastPage(w, x);
    NewFetchPriors(w.e, start, stop, x / PAGE);
    var f := NewFetch(w.e, start, stop);
    var progress' := w.progress[w.e.nextId := Progress(0, false)];
    assert forall i | 0 <= i < |w.e.claims| ::
        ClaimPledges(w.e.claims[i], progress', x) == ClaimPledges(w.e.claims[i], w.progress, x);
    var e' := ClaimBlocks(w.e, start, stop);
    assert forall i | 0 <= i < |w.e.claims| :: e'.claims[i] == w.e.claims[i];
    assert e'.pages[x / PAGE] == Clean ==> w.e.pages[x / PAGE] == Clean;
  }

  lemma PublishedFields(e: Entry, e': Entry, i: nat, upTo: nat)
    requires i < |e.claims| && Published(e, e', i, upTo)
    ensures i < |e'.claims| && e'.claims[i] == e.claims[i].(published := e'.claims[i].published)
    ensures e.claims[i].published <= e'.claims[i].published <= Max(e.claims[i].published, upTo)
  {
  }

  /** Bytes of the pages that publication turns clean were written by the claim. */
  lemma PublishedWritten(w: World, e': Entry, i: nat, upTo: nat, x: nat)
    requires Safe(w) && i < |w.e.claims| && Published(w.e, e', i, upTo) && Aligned(w.e, e'.claims[i])
    requires w.e.claims[i].id in w.progress && upTo <= w.progress[w.e.claims[i].id].written
    requires x < w.e.size && TailLo(w.e.claims[i]) <= x / PAGE < TailLo(e'.claims[i])
    ensures ClaimPledges(w.e.claims[i], w.progress, x)
  {
    hide Owned, Ledger, PartsGuarded, FetchesGuarded, ReadersGuarded, PartRetriesGuarded, Modes, OpsLedger, ProgressOk;
    ClaimShape(w.e, i);
    hide WF, Published, Aligned;
    PublishedFields(w.e, e', i, upTo);
    var a, a' := w.e.claims[i], e'.claims[i];
    PublishedEnd(w.e, a', x);
    assert a.offset + a.published <= x;
  }

  /** A byte of a published page lies before the published end. */
  lemma PublishedEnd(e: Entry, a: ActiveFetch, x: nat)
    requires e.blockPages > 0 && Aligned(e, a) && x < e.size && x / PAGE < TailLo(a)
    ensures x < a.offset + a.published
  {
    hide Quot, Multiple;
    if Multiple(a.published, BlockSize(e)) {
      MultipleSum(a.offset, a.published, BlockSize(e));
      MultipleScale(a.offset + a.published, e.blockPages);
    } else if Multiple(a.offset + a.length, BlockSize(e)) {
      MultipleScale(a.offset + a.length, e.blockPages);
    }
  }

  lemma CoherentByPublished(w: World, e': Entry, i: nat, upTo: nat, x: nat)
    requires Safe(w) && i < |w.e.claims| && Published(w.e, e', i, upTo) && Aligned(w.e, e'.claims[i])
    requires w.e.claims[i].id in w.progress && upTo <= w.progress[w.e.claims[i].id].written
    requires x < |w.file| && ByteRight(w, x)
    ensures ByteRight(w.(e := e'), x)
  {
    hide WF, Owned, Ledger, PartsGuarded, FetchesGuarded, ReadersGuarded, PartRetriesGuarded, Modes, ProgressOk, OpsLedger,
         Aligned;
    LastPage(w, x);
    PublishedTail(w.e, e', i, upTo);
    if TailLo(w.e.claims[i]) <= x / PAGE < TailLo(e'.claims[i]) { PublishedWritten(w, e', i, upTo, x); }
    assert forall j | 0 <= j < |w.e.claims| ::
        ClaimPledges(e'.claims[j], w.progress, x) ==> ClaimPledges(w.e.claims[j], w.progress, x);
  }

  lemma CoherentByPublish(w: World, c: FetchClaim, published: nat, upTo: nat, final: bool, x: nat)
    requires Safe(w) && Enabled(w, Publish(c, published, upTo, final)) && x < |w.file| && ByteRight(w, x)
    ensures ByteRight(Apply(w, Publish(c, published, upTo, final)), x)
  {
    hide WF, Owned, Ledger, PartsGuarded, FetchesGuarded, ReadersGuarded, PartRetriesGuarded, Modes, ProgressOk, OpsLedger,
         PublishClean, Aligned, ByteRight;
    PublishFields(w.e, c, published, upTo, final);
    var e' := PublishClean(w.e, c, published, upTo, final);
    if e' != w.e {
      CoherentByPublished(w, e', Find(w.e.claims, c), upTo, x);
    } else {
      assert w.(e := e') == w;
    }
  }

  /** Dropping claim `i` where only its own pledges could give trouble. */
  lemma CoherentDrop(w: World, w': World, i: nat, x: nat)
    requires |w.file| == |w.remote| && w'.remote == w.remote && |w'.file| == |w.file| && x < |w.file| && ByteRight(w, x)
    requires i < |w.e.claims| && w'.e.claims == Without(w.e.claims, i) && w'.ev == w.ev && w'.progress == w.progress
    requires |w'.e.pages| == |w.e.pages|
    requires x / PAGE < |w.e.pages| && w'.e.pages[x / PAGE] == Clean ==> Pledged(w, x) && w'.file[x] == w.file[x]
    requires || w'.file[x] == w.file[x]
             || ((forall k | 0 <= k < |w.ev| :: !EvictionPledges(w.ev[k], x / PAGE)) &&
                 forall j | 0 <= j < |w.e.claims| && j != i :: !ClaimPledges(w.e.claims[j], w.progress, x))
    ensures ByteRight(w', x)
  {
    hide ClaimPledges, EvictionPledges;
    if j :| 0 <= j < |w'.e.claims| && ClaimPledges(w'.e.claims[j], w.progress, x) {
      assert w'.e.claims[j] == w.e.claims[if j < i then j else j + 1];
    }
  }

  lemma CoherentByFinish(w: World, c: FetchClaim, holes: set<nat>, x: nat)
    requires Safe(w) && Enabled(w, Finish(c, holes)) && x < |w.file| && ByteRight(w, x)
    ensures ByteRight(Apply(w, Finish(c, holes)), x)
  {
    hide WF, Owned, Ledger, PartsGuarded, FetchesGuarded, ReadersGuarded, PartRetriesGuarded, Modes, ProgressOk, OpsLedger,
         ByteRight, EndFetch, Unfinished, MayTouch, ClaimPledges;
    var i := Find(w.e.claims, c);
    if i < |w.e.claims| {
      var a := w.e.claims[i];
      var pages := Turn(w.e.pages, TailLo(a), TailHi(a), ReadPending, Missing);
      ClaimShape(w.e, i);
      LastPage(w, x);
      EndFields(w.e, i, pages);
      var w' := Apply(w, Finish(c, holes));
      if ByteOf(w'.file, x) != ByteOf(w.file, x) {
        FinishTouches(w, c, holes, x);
        TailPledge(w, i, x);
      }
      CoherentDrop(w, w', i, x);
    }
  }

  lemma CoherentByRollback(w: World, c: FetchClaim, x: nat)
    requires Safe(w) && x < |w.file| && ByteRight(w, x)
    ensures ByteRight(Apply(w, Rollback(c)), x)
  {
    hide Owned, Ledger, PartsGuarded, FetchesGuarded, ReadersGuarded, PartRetriesGuarded, Modes, ProgressOk, OpsLedger,
         ByteRight, EndFetch, PartsTile, Sum;
    var i := Find(w.e.claims, c);
    if i < |w.e.claims| {
      ClaimShape(w.e, i);
      LastPage(w, x);
      EndFields(w.e, i, Restore(w.e, w.e.claims[i]));
      var w' := Apply(w, Rollback(c));
      assert InTail(w.e.claims[i], x / PAGE) && w'.e.pages[x / PAGE] == Clean ==> PriorClean(w.e.claims[i], x / PAGE);
      CoherentDrop(w, w', i, x);
    }
  }

  lemma CoherentBySpoil(w: World, c: FetchClaim, x: nat)
    requires Safe(w) && x < |w.file| && ByteRight(w, x)
    ensures ByteRight(Apply(w, Spoil(c)), x)
  {
    hide WF, Owned, Ledger, PartsGuarded, FetchesGuarded, ReadersGuarded, PartRetriesGuarded, Modes, ProgressOk, OpsLedger,
         ByteRight, MarkBad;
    SpoilFields(w.e, c);
    CoherentFewer(w, Apply(w, Spoil(c)), x);
  }

  /** Claim `i` changes but pledges nothing new. */
  lemma CoherentClaim(w: World, w': World, i: nat, x: nat)
    requires |w.file| == |w.remote| && w'.remote == w.remote && w'.file == w.file && x < |w.file| && ByteRight(w, x)
    requires w'.ev == w.ev && |w'.e.pages| == |w.e.pages| && |w'.e.claims| == |w.e.claims| && i < |w.e.claims|
    requires forall p | 0 <= p < |w.e.pages| && w'.e.pages[p] == Clean :: w.e.pages[p] == Clean
    requires forall j | 0 <= j < |w.e.claims| && j != i ::
               w'.e.claims[j] == w.e.claims[j] &&
               (w.e.claims[j].id in w.progress ==>
                  w.e.claims[j].id in w'.progress && w'.progress[w.e.claims[j].id] == w.progress[w.e.claims[j].id])
    requires forall j | 0 <= j < |w.e.claims| :: w.e.claims[j].id in w.progress
    requires ClaimPledges(w'.e.claims[i], w'.progress, x) ==> Pledged(w, x)
    ensures ByteRight(w', x)
  {
    hide EvictionPledges, PriorClean;
    assert forall j | 0 <= j < |w.e.claims| && j != i ::
        ClaimPledges(w'.e.claims[j], w'.progress, x) == ClaimPledges(w.e.claims[j], w.progress, x);
  }

  lemma CoherentByVerify(w: World, c: FetchClaim, x: nat)
    requires Safe(w) && x < |w.file| && ByteRight(w, x)
    ensures ByteRight(Apply(w, VerifyFetch(c)), x)
  {
    hide WF, Owned, Ledger, PartsGuarded, FetchesGuarded, ReadersGuarded, PartRetriesGuarded, Modes, OpsLedger,
         ByteRight, PinFetchVerification;
    VerifyFields(w.e, c);
    var w', i := Apply(w, VerifyFetch(c)), Find(w.e.claims, c);
    if w'.e != w.e {
      EntryShape(w.e);
      LastPage(w, x);
      var a := w.e.claims[i];
      assert a.offset <= x < a.offset + a.length ==> w.e.pages[x / PAGE] == Clean;
      CoherentClaim(w, w', i, x);
    } else {
      assert w' == w;
    }
  }

  lemma RetryByteVerified(e: Entry, i: nat, x: nat)
    requires WF(e) && i < |e.claims| && x < e.size
    ensures InTail(e.claims[i].(published := 0, retrying := true), x / PAGE) ==>
              e.claims[i].offset <= x < e.claims[i].offset + e.claims[i].length
  {
    hide PartsTile, Sum;
    assert Aligned(e, e.claims[i]);
    RangeByte(e, e.claims[i], x);
    RetryTail(e, i, e.claims[i].(published := 0, retrying := true));
  }

  lemma CoherentByRetry(w: World, c: FetchClaim, x: nat)
    requires Safe(w) && x < |w.file| && ByteRight(w, x)
    ensures ByteRight(Apply(w, Retry(c)), x)
  {
    hide WF, Owned, Ledger, PartsGuarded, FetchesGuarded, ReadersGuarded, PartRetriesGuarded, Modes, OpsLedger,
         ByteRight, BeginRetry, RetryPinsReady, Aligned;
    RetryFields(w.e, c);
    var w', i := Apply(w, Retry(c)), Find(w.e.claims, c);
    if !w.e.stale && i < |w.e.claims| && w.e.claims[i].verifying {
      EntryShape(w.e);
      LastPage(w, x);
      OtherIds(w.e, i);
      RetryByteVerified(w.e, i, x);
      CoherentClaim(w, w', i, x);
    }
  }

  lemma CoherentByAbandon(w: World, c: ChecksumClaim, x: nat)
    requires Safe(w) && Enabled(w, AbandonPart(c)) && x < |w.file| && ByteRight(w, x)
    ensures ByteRight(Apply(w, AbandonPart(c)), x)
  {
    hide WF, Owned, Ledger, PartsGuarded, FetchesGuarded, ReadersGuarded, PartRetriesGuarded, Modes, ProgressOk, OpsLedger,
         ByteRight;
    LiveInside(w.e, c);
    EntryShape(w.e);
    CoherentFewer(w, Apply(w, AbandonPart(c)), x);
  }

  lemma CoherentByEvictNow(w: World, punched: bool, x: nat)
    requires Safe(w) && x < |w.file| && ByteRight(w, x)
    ensures ByteRight(Apply(w, EvictNow(punched)), x)
  {
    hide WF, Owned, Ledger, PartsGuarded, FetchesGuarded, ReadersGuarded, PartRetriesGuarded, Modes, ProgressOk, OpsLedger,
         ScanEntry, Victim, IdleRegion, ClaimPledges, EvictionPledges;
    EntryShape(w.e);
    LastPage(w, x);
    var w' := Apply(w, EvictNow(punched));
    if ByteOf(w'.file, x) != ByteOf(w.file, x) {
      EvictTouches(w, punched, x);
      IdlePledge(w, x);
    }
  }

  lemma CoherentByEvictStart(w: World, x: nat)
    requires Safe(w) && x < |w.file| && ByteRight(w, x)
    ensures ByteRight(Apply(w, EvictStart), x)
  {
    hide WF, Owned, Ledger, PartsGuarded, FetchesGuarded, ReadersGuarded, PartRetriesGuarded, Modes, ProgressOk, OpsLedger,
         ScanEntry, Victim, ClaimPledges;
    EntryShape(w.e);
    LastPage(w, x);
    var w' := Apply(w, EvictStart);
    assert forall k | 0 <= k < |w.ev| :: w'.ev[k] == w.ev[k];
  }

  lemma CoherentByPunch(w: World, k: nat, x: nat)
    requires Safe(w) && Enabled(w, Punch(k)) && x < |w.file| && ByteRight(w, x)
    ensures ByteRight(Apply(w, Punch(k)), x)
  {
    hide WF, Owned, Ledger, PartsGuarded, FetchesGuarded, ReadersGuarded, PartRetriesGuarded, Modes, ProgressOk, OpsLedger,
         ClaimPledges;
    EntryShape(w.e);
    var w' := Apply(w, Punch(k));
    if ByteOf(w'.file, x) != ByteOf(w.file, x) {
      PunchTouches(w, k, x);
      EvictionPledge(w, k, x);
    }
  }

  /** Ending an eviction keeps a byte coherent exactly when the punch was reported, did not
      happen, or happened to leave the object's byte. */
  lemma CoherentByEvictStop(w: World, k: nat, reported: bool, x: nat)
    requires Safe(w) && Enabled(w, EvictStop(k, reported)) && x < |w.file| && ByteRight(w, x)
    ensures ByteRight(Apply(w, EvictStop(k, reported)), x) <==>
              (w.ev[k].punched && x / PAGE in w.ev[k].taken ==> reported || w.file[x] == w.remote[x])
  {
    hide WF, Owned, Ledger, PartsGuarded, FetchesGuarded, ReadersGuarded, PartRetriesGuarded, Modes, ProgressOk, OpsLedger,
         ClaimPledges, EvictionPledges, Pledged;
    LastPage(w, x);
    var p, w' := x / PAGE, Apply(w, EvictStop(k, reported));
    if p in w.ev[k].taken {
      TakenBlock(w, k, p);
      EvictionPledge(w, k, x);
      StopTaken(w, w', k, x);
    } else {
      StopOther(w, w', k, x);
    }
  }

  lemma TakenBlock(w: World, k: nat, p: nat)
    requires Safe(w) && k < |w.ev| && p in w.ev[k].taken
    ensures w.e.blockPages > 0 && w.ev[k].block == Quot(p, w.e.blockPages)
  {
    hide WF, Ledger, PartsGuarded, FetchesGuarded, ReadersGuarded, PartRetriesGuarded, Modes, ProgressOk, OpsLedger;
    assert EvictionHolds(w.e.pages, w.e.claims, w.e.blockPages, w.ev[k]);
  }

  lemma StopTaken(w: World, w': World, k: nat, x: nat)
    requires k < |w.ev| && w'.ev == Without(w.ev, k) && w'.e.claims == w.e.claims && w'.progress == w.progress
    requires x / PAGE in w.ev[k].taken && x / PAGE < |w.e.pages| == |w'.e.pages| && w.e.pages[x / PAGE] != Clean
    requires forall l | 0 <= l < |w.ev| && l != k :: !EvictionPledges(w.ev[l], x / PAGE)
    requires forall j | 0 <= j < |w.e.claims| :: !ClaimPledges(w.e.claims[j], w.progress, x)
    ensures Pledged(w', x) <==> w'.e.pages[x / PAGE] == Clean
    ensures Pledged(w, x) <==> !w.ev[k].punched
  {
    hide ClaimPledges;
    assert forall l | 0 <= l < |w'.ev| :: w'.ev[l] == w.ev[if l < k then l else l + 1];
  }

  lemma StopOther(w: World, w': World, k: nat, x: nat)
    requires k < |w.ev| && w'.ev == Without(w.ev, k) && w'.e.claims == w.e.claims && w'.progress == w.progress
    requires x / PAGE !in w.ev[k].taken && x / PAGE < |w.e.pages| == |w'.e.pages|
    requires w'.e.pages[x / PAGE] == w.e.pages[x / PAGE]
    ensures Pledged(w', x) <==> Pledged(w, x)
  {
    hide ClaimPledges;
    if l :| 0 <= l < |w'.ev| && EvictionPledges(w'.ev[l], x / PAGE) {
      assert EvictionPledges(w.ev[if l < k then l else l + 1], x / PAGE);
    }
    if l :| 0 <= l < |w.ev| && EvictionPledges(w.ev[l], x / PAGE) {
      assert EvictionPledges(w'.ev[if l < k then l else l - 1], x / PAGE);
    }
  }

  /** Pages and claims are the same. */
  ghost predicate Quiet(e: Entry, e': Entry) { e'.pages == e.pages && e'.claims == e.claims }

  lemma QuietPins(e: Entry, o: nat, l: nat)
    requires e.blockPages > 0 && l > 0
    ensures Quiet(e, SetReferenced(AddRegionPins(e, o, l), o, l)) && Quiet(e, AddRegionPins(e, o, l))
    ensures Quiet(e, DropRegionPins(e, o, l)) && Quiet(e, SetReferenced(e, o, l))
  {
    hide Sum;
  }

  lemma CoherentByPins(w: World, event: Event, x: nat)
    requires Safe(w) && Enabled(w, event) && x < |w.file| && ByteRight(w, x)
    requires event.ReadPin? || event.RawPin? || event.Release? || event.Touch?
    ensures ByteRight(Apply(w, event), x)
  {
    hide WF, Owned, Ledger, PartsGuarded, FetchesGuarded, ReadersGuarded, PartRetriesGuarded, Modes, ProgressOk, OpsLedger,
         ByteRight, PinClean, Pin, SetReferenced, AddRegionPins, DropRegionPins;
    EntryShape(w.e);
    match event {
      case ReadPin(_, o, l) => ReadPinFields(w.e, o, l); QuietPins(w.e, o, l);
      case RawPin(_, o, l) => RawPinFields(w.e, o, l); QuietPins(w.e, o, l);
      case Release(k) => QuietPins(w.e, w.readers[k].offset, w.readers[k].length);
      case Touch(o, l) => if l > 0 { QuietPins(w.e, o, l); }
    }
    CoherentFewer(w, Apply(w, event), x);
  }

  lemma CoherentByManifest(w: World, event: Event, x: nat)
    requires Safe(w) && Enabled(w, event) && x < |w.file| && ByteRight(w, x)
    requires event.LoadManifest? || event.ManifestLoaded? || event.ManifestFailed?
    ensures ByteRight(Apply(w, event), x)
  {
    hide WF, Owned, Ledger, PartsGuarded, FetchesGuarded, ReadersGuarded, PartRetriesGuarded, Modes, ProgressOk, OpsLedger,
         ByteRight, ManifestValid;
    EntryShape(w.e);
    ManifestApply(w, event);
    hide Apply, Enabled;
    CoherentFewer(w, Apply(w, event), x);
  }

  lemma ManifestApply(w: World, event: Event)
    requires Safe(w) && Enabled(w, event) && (event.LoadManifest? || event.ManifestLoaded? || event.ManifestFailed?)
    ensures var w' := Apply(w, event);
            && w'.remote == w.remote && w'.file == w.file && w'.ev == w.ev && w'.progress == w.progress
            && w'.e.claims == w.e.claims && w'.e.pages == w.e.pages
  {
    hide WF, Owned, Ledger, PartsGuarded, FetchesGuarded, ReadersGuarded, PartRetriesGuarded, Modes, ProgressOk, OpsLedger,
         ManifestValid, BeginManifest, Enabled;
    ManifestBegun(w.e);
  }

  lemma ManifestBegun(e: Entry)
    ensures var e' := BeginManifest(e).0;
            e' == e.(manifest := e'.manifest, checksumOps := e'.checksumOps)
  {
  }

  lemma CoherentByCheckClaim(w: World, event: Event, x: nat)
    requires Safe(w) && Enabled(w, event) && x < |w.file| && ByteRight(w, x)
    requires event.CheckPart?
    ensures ByteRight(Apply(w, event), x)
  {
    hide WF, Owned, Ledger, PartsGuarded, FetchesGuarded, ReadersGuarded, PartRetriesGuarded, Modes, ProgressOk, OpsLedger,
         ByteRight, ClaimPartFrom;
    EntryShape(w.e);
    if event.o < w.e.size { ClaimedPart(w.e, 0, event.o, event.o + Min(event.l, w.e.size - event.o), event.skip); }
    CoherentFewer(w, Apply(w, event), x);
  }

  lemma CoherentByCheck(w: World, event: Event, x: nat)
    requires Safe(w) && Enabled(w, event) && x < |w.file| && ByteRight(w, x)
    requires event.Mismatch? || event.RetryPart? || event.FinishPart?
    ensures ByteRight(Apply(w, event), x)
  {
    hide WF, Owned, Ledger, PartsGuarded, FetchesGuarded, ReadersGuarded, PartRetriesGuarded, Modes, ProgressOk, OpsLedger,
         ByteRight, RetryPinsReady, Fits, Sum, AddPins, DropPins;
    EntryShape(w.e);
    CoherentFewer(w, Apply(w, event), x);
  }

  lemma CoherentByFlag(w: World, event: Event, x: nat)
    requires Safe(w) && Enabled(w, event) && x < |w.file| && ByteRight(w, x)
    requires event.Retired? || event.Export? || event.DisableEviction? || event.WriterEnters?
    ensures ByteRight(Apply(w, event), x)
  {
    hide WF, Owned, Ledger, PartsGuarded, FetchesGuarded, ReadersGuarded, PartRetriesGuarded, Modes, ProgressOk, OpsLedger,
         ByteRight, Exportable;
    EntryShape(w.e);
    CoherentFewer(w, Apply(w, event), x);
  }

  predicate FetchEvent(event: Event)
  {
    event.Claim? || event.Write? || event.Publish? || event.Finish? || event.Rollback? || event.Spoil? ||
    event.VerifyFetch? || event.Retry?
  }

  lemma FetchKeepsByte(w: World, event: Event, x: nat)
    requires Safe(w) && Enabled(w, event) && x < |w.file| && ByteRight(w, x) && x !in Apply(w, event).tainted && FetchEvent(event)
    ensures ByteRight(Apply(w, event), x)
  {
    assert Sound(w);
    hide Safe, Enabled, Apply, ByteRight;
    match event
    case Claim(o, l, n) => CoherentByClaim(w, o, l, n, x);
    case Write(c, data) => CoherentByWrite(w, c, data, x);
    case Publish(c, published, upTo, final) => CoherentByPublish(w, c, published, upTo, final, x);
    case Finish(c, holes) => CoherentByFinish(w, c, holes, x);
    case Rollback(c) => CoherentByRollback(w, c, x);
    case Spoil(c) => CoherentBySpoil(w, c, x);
    case VerifyFetch(c) => CoherentByVerify(w, c, x);
    case Retry(c) => CoherentByRetry(w, c, x);
  }

  predicate EvictEvent(event: Event) { event.EvictNow? || event.EvictStart? || event.Punch? || event.EvictStop? }

  lemma EvictKeepsByte(w: World, event: Event, x: nat)
    requires Safe(w) && Enabled(w, event) && x < |w.file| && ByteRight(w, x) && x !in Apply(w, event).tainted && EvictEvent(event)
    ensures ByteRight(Apply(w, event), x)
  {
    assert Sound(w);
    if event.EvictStop? { StopUntainted(w, event.eviction, event.reported, x); }
    hide Safe, Enabled, Apply, ByteRight;
    match event
    case EvictNow(punched) => CoherentByEvictNow(w, punched, x);
    case EvictStart => CoherentByEvictStart(w, x);
    case Punch(k) => CoherentByPunch(w, k, x);
    case EvictStop(k, reported) => CoherentByEvictStop(w, k, reported, x);
  }

  lemma StopUntainted(w: World, k: nat, reported: bool, x: nat)
    requires Sound(w) && Enabled(w, EvictStop(k, reported)) && x < |w.file| && x !in Apply(w, EvictStop(k, reported)).tainted
    ensures k < |w.ev| && (w.ev[k].punched && x / PAGE in w.ev[k].taken ==> reported || w.file[x] == w.remote[x])
  {
    hide WF;
  }

  lemma StepKeepsRight(w: World, event: Event, x: nat)
    requires Safe(w) && Enabled(w, event) && x < |w.file| && ByteRight(w, x) && x !in Apply(w, event).tainted
    ensures ByteRight(Apply(w, event), x)
  {
    assert Sound(w);
    hide Safe, Enabled, Apply, ByteRight;
    if FetchEvent(event) {
      FetchKeepsByte(w, event, x);
    } else if EvictEvent(event) {
      EvictKeepsByte(w, event, x);
    } else {
      match event
      case WritePart(c, at, data) => CoherentByWritePart(w, c, at, data, x);
      case AbandonPart(c) => CoherentByAbandon(w, c, x);
      case LoadManifest => CoherentByManifest(w, event, x);
      case ManifestLoaded(_) => CoherentByManifest(w, event, x);
      case ManifestFailed => CoherentByManifest(w, event, x);
      case CheckPart(_, _, _) => CoherentByCheckClaim(w, event, x);
      case Mismatch(_) => CoherentByCheck(w, event, x);
      case RetryPart(_) => CoherentByCheck(w, event, x);
      case FinishPart(_, _) => CoherentByCheck(w, event, x);
      case Retired => CoherentByFlag(w, event, x);
      case Export(_) => CoherentByFlag(w, event, x);
      case DisableEviction => CoherentByFlag(w, event, x);
      case WriterEnters => CoherentByFlag(w, event, x);
      case _ => CoherentByPins(w, event, x);
    }
  }

  /** A byte is cleared by a write of the object's byte and in no other way. */
  lemma TaintCleared(w: World, event: Event, x: nat)
    requires Sound(w) && Enabled(w, event) && x < |w.file| && x in w.tainted && x !in Apply(w, event).tainted
    ensures ByteOf(Apply(w, event).file, x) == ByteOf(w.remote, x) && Apply(w, event).remote == w.remote
  {
    hide WF, MayTouch, FinishFetch, RollbackFetch, MarkBad, PinFetchVerification, BeginRetry, ClaimFetch, PinClean, Pin,
         Unpin, SetReferenced, ClaimChecksum, ChecksumMismatch, BeginChecksumRetry, FinishChecksum, AbandonChecksum,
         EvictOne, EvictBegin, EvictEnd, PublishClean, TryExport, FinishManifest, ManifestUnavailable, Fits;
    match event
    case Write(c, _) => ActiveBounds(w, c);
    case WritePart(c, _, _) => LiveInside(w.e, c);
    case _ =>
  }

  /** Every step keeps every byte coherent: it stays right unless the environment gets it wrong. */
  lemma StepKeepsByte(w: World, event: Event, x: nat)
    requires Safe(w) && Enabled(w, event) && x < |w.file| && ByteCoherent(w, x)
    ensures ByteCoherent(Apply(w, event), x)
  {
    assert Sound(w);
    hide Safe, Enabled, Apply;
    if x !in Apply(w, event).tainted {
      if x in w.tainted {
        TaintCleared(w, event, x);
      } else {
        hide ByteRight;
        StepKeepsRight(w, event, x);
      }
    }
  }

  /** The environment behaves: fetches write the object's bytes, and a punch reported as failed has left the file alone. */
  ghost predicate Honest(w: World, event: Event)
    requires Sound(w) && Enabled(w, event)
  {
    match event
    case Write(c, data) =>
      ActiveBounds(w, c);
      Faithful(w.remote, c.offset + w.progress[c.id].written, data)
    case WritePart(c, at, data) =>
      LiveInside(w.e, c);
      Faithful(w.remote, at, data)
    case EvictStop(k, reported) => w.ev[k].punched ==> reported
    case _ => true
  }

  lemma HonestyTaintsNothing(w: World, event: Event)
    requires Sound(w) && Enabled(w, event) && Honest(w, event)
    ensures Apply(w, event).tainted <= w.tainted
  {
    hide WF, MayTouch, FinishFetch, RollbackFetch, MarkBad, PinFetchVerification, BeginRetry, ClaimFetch, PinClean, Pin,
         Unpin, SetReferenced, ClaimChecksum, ChecksumMismatch, BeginChecksumRetry, FinishChecksum, AbandonChecksum,
         EvictOne, EvictBegin, EvictEnd, PublishClean, TryExport, FinishManifest, ManifestUnavailable, Fits, Retainted, Erased, Faithful, Overwrite;
    match event
    case Write(c, data) =>
      ActiveBounds(w, c);
      FaithfulClears(w.tainted, w.remote, c.offset + w.progress[c.id].written, data);
    case WritePart(c, at, data) =>
      LiveInside(w.e, c);
      FaithfulClears(w.tainted, w.remote, at, data);
    case _ =>
  }

  lemma FaithfulClears(tainted: set<nat>, remote: seq<Byte>, at: nat, data: seq<Byte>)
    requires at + |data| <= |remote| && Faithful(remote, at, data)
    ensures Retainted(tainted, remote, at, data) <= tainted
  {
    forall x | at <= x < at + |data| ensures data[x - at] == remote[x] { assert data[x - at] == remote[at + (x - at)]; }
  }

  /** One step keeps safety and coherence. */
  lemma StepKeepsInv(w: World, event: Event)
    requires Inv(w) && Enabled(w, event)
    ensures Inv(Apply(w, event))
  {
    var w' := Apply(w, event);
    StepKeepsSafe(w, event);
    SameObject(w, event);
    hide Safe, Enabled, Apply, ByteCoherent;
    forall x: nat | x < |w'.file| ensures ByteCoherent(w', x) {
      StepKeepsByte(w, event, x);
    }
  }
}
