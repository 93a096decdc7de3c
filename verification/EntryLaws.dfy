/** What each operation of an entry answers and does, page by page and count by count.

    These laws do not go through the helper functions that the operations are built from:
    they say when an operation succeeds, which pages and pins it changes, and which
    operations undo each other.
 */
module EntryLaws {
  import opened Geometry
  import opened EntryModel
  import opened EntryOwnership
  import opened EntrySafety
  import opened EntryWellFormed

  // ---------------------------------------------------------------- publication

  /** Where the block of page `p` ends, cut at the end of the object. */
  function BlockEnd(e: Entry, p: nat): nat
    requires e.blockPages > 0
  {
    Min(e.size, Times(Block(e, p) + 1, BlockSize(e)))
  }

  /** The block of page `p` is complete in the first `length` bytes of the claim: it ends there at a block boundary, or at
      the end of the object when the response is final. */
  predicate Complete(e: Entry, a: ActiveFetch, length: nat, final: bool, p: nat)
    requires e.blockPages > 0
  {
    BlockEnd(e, p) <= a.offset + length && (Multiple(BlockEnd(e, p), BlockSize(e)) || final)
  }

  lemma {:induction false} MultipleBelow(x: nat, y: nat, b: nat)
    requires b > 0 && Multiple(x, b) && x <= y
    ensures x <= RoundDown(y, b)
  {
    if x > 0 { MultipleBelow(x - b, y - b, b); }
  }

  lemma BlockEdges(e: Entry, p: nat)
    requires WF(e) && p < |e.pages|
    ensures Times(Block(e, p), BlockSize(e)) <= p * PAGE < Times(Block(e, p) + 1, BlockSize(e)) && p * PAGE < e.size
    ensures Multiple(Times(Block(e, p) + 1, BlockSize(e)), BlockSize(e))
  {
    hide Aligned, PartsTile, Sum;
    var k := Block(e, p);
    QuotBelow(p, e.blockPages, k);
    QuotBelow(p, e.blockPages, k + 1);
    TimesScale(k, e.blockPages);
    TimesScale(k + 1, e.blockPages);
    MultipleTimes(k + 1, BlockSize(e));
  }

  /** A page lies before a block boundary, or before the end of the object, exactly when its block does. */
  lemma PageBefore(e: Entry, p: nat, r: nat)
    requires WF(e) && p < |e.pages| && (Multiple(r, BlockSize(e)) || r == e.size)
    ensures p < (r + PAGE - 1) / PAGE <==> BlockEnd(e, p) <= r
  {
    hide Aligned, PartsTile, Sum;
    if Multiple(r, BlockSize(e)) {
      MultipleScale(r, e.blockPages);
      var n := Quot(r, BlockSize(e));
      QuotBelow(p, e.blockPages, n);
      BlockEdges(e, p);
      TimesScale(n, e.blockPages);
      TimesMonotone(Block(e, p) + 1, Max(n, Block(e, p) + 1), BlockSize(e));
      TimesMonotone(n, Max(n, Block(e, p)), BlockSize(e));
      hide Multiple, Quot, Times, WF;
    }
  }

  /** The published end of an aligned claim is a block boundary or the end of the object. */
  lemma PublishedEdge(e: Entry, a: ActiveFetch)
    requires e.blockPages > 0 && Aligned(e, a)
    ensures Multiple(a.offset + a.published, BlockSize(e)) || a.offset + a.published == e.size
  {
    hide Quot;
    MultipleSum(a.offset, a.published, BlockSize(e));
  }

  lemma BeforeTail(e: Entry, a: ActiveFetch, p: nat)
    requires WF(e) && Aligned(e, a) && p < |e.pages|
    ensures p < TailLo(a) <==> BlockEnd(e, p) <= a.offset + a.published
    ensures p < TailHi(a) <==> BlockEnd(e, p) <= a.offset + a.length
  {
    hide PartsTile, Sum;
    PublishedEdge(e, a);
    PageBefore(e, p, a.offset + a.published);
    PageBefore(e, p, a.offset + a.length);
  }

  lemma TargetReaches(e: Entry, a: ActiveFetch, length: nat, final: bool, p: nat)
    requires WF(e) && Aligned(e, a) && p < |e.pages| && a.offset <= BlockEnd(e, p) <= a.offset + a.length
    ensures BlockEnd(e, p) <= a.offset + PublishTarget(e, a, length, final) <==> Complete(e, a, length, final, p)
  {
    hide PartsTile, Sum, Quot;
    var b, d, progress := BlockSize(e), BlockEnd(e, p) - a.offset, Min(length, a.length);
    BlockEdges(e, p);
    MultipleSum(a.offset, d, b);
    MultipleSum(a.offset, a.length, b);
    RoundMultiple(progress, b);
    if Multiple(d, b) && d <= progress { MultipleBelow(d, progress, b); }
    hide Multiple, WF;
  }

  lemma RoundMultiple(x: nat, b: nat)
    requires b > 0
    ensures Multiple(RoundDown(x, b), b)
  {
    RoundDownIsTimes(x, b);
    MultipleTimes(Quot(x, b), b);
  }

  lemma TailMoves(e: Entry, a: ActiveFetch, length: nat, final: bool, p: nat)
    requires WF(e) && Aligned(e, a) && p < |e.pages|
    ensures var a' := a.(published := Max(a.published, PublishTarget(e, a, length, final)));
            && (TailLo(a) <= p < TailLo(a') <==> InTail(a, p) && Complete(e, a, length, final, p))
            && (InTail(a', p) <==> InTail(a, p) && !Complete(e, a, length, final, p))
  {
    var a' := a.(published := Max(a.published, PublishTarget(e, a, length, final)));
    PublishAligned(e, a, length, final);
    BeforeTail(e, a, p);
    BeforeTail(e, a', p);
    if TailLo(a) <= p < TailHi(a) { TargetReaches(e, a, length, final, p); }
    hide *;
  }

  lemma PublishedPages(e: Entry, c: FetchClaim, published: nat, length: nat, final: bool)
    requires WF(e) && !e.stale && Active(e, c) && (published < length || (published == length && final))
    ensures var i := Find(e.claims, c);
            var a, e' := e.claims[i], PublishClean(e, c, published, length, final);
            var a' := a.(published := Max(a.published, PublishTarget(e, a, length, final)));
            e'.claims == e.claims[i := a'] && e'.pages == Turn(e.pages, TailLo(a), TailLo(a'), ReadPending, Clean)
  {
    hide WF, PublishTarget, TailLo;
  }

  /** `publish_clean` on a live claim with something to say: a page becomes clean exactly when it is pending in the tail
      and its block is complete, and exactly the incomplete blocks of the tail stay in it. */
  lemma PublishIsExact(e: Entry, c: FetchClaim, published: nat, length: nat, final: bool, p: nat)
    requires WF(e) && !e.stale && Active(e, c) && (published < length || (published == length && final)) && p < |e.pages|
    ensures var i := Find(e.claims, c);
            var a, e' := e.claims[i], PublishClean(e, c, published, length, final);
            && |e'.pages| == |e.pages| && |e'.claims| == |e.claims|
            && e'.pages[p] == (if InTail(a, p) && e.pages[p] == ReadPending && Complete(e, a, length, final, p) then Clean else e.pages[p])
            && (InTail(e'.claims[i], p) <==> InTail(a, p) && !Complete(e, a, length, final, p))
  {
    var i := Find(e.claims, c);
    var a := e.claims[i];
    assert Aligned(e, a);
    PublishedPages(e, c, published, length, final);
    TailMoves(e, a, length, final, p);
    hide WF, Aligned, PublishTarget, PublishClean, Complete, TailLo, TailHi;
  }

  /** Once the whole response is there, the claim has no pending page left and is published to its end. */
  lemma FinalPublicationIsWhole(e: Entry, c: FetchClaim, published: nat, length: nat)
    requires WF(e) && !e.stale && Active(e, c) && published <= length && e.claims[Find(e.claims, c)].length <= length
    ensures var i := Find(e.claims, c);
            var a, e' := e.claims[i], PublishClean(e, c, published, length, true);
            && |e'.pages| == |e.pages| && |e'.claims| == |e.claims| && e'.claims[i].published == a.length
            && (forall p | 0 <= p < |e.pages| && InTail(a, p) :: e'.pages[p] == if e.pages[p] == ReadPending then Clean else e.pages[p])
  {
    var i := Find(e.claims, c);
    var a := e.claims[i];
    assert Aligned(e, a);
    forall p | 0 <= p < |e.pages| && InTail(a, p)
      ensures PublishClean(e, c, published, length, true).pages[p] == if e.pages[p] == ReadPending then Clean else e.pages[p]
    {
      PublishIsExact(e, c, published, length, true, p);
      BeforeTail(e, a, p);
    }
  }

  /** Without a live claim, or with nothing new to say, nothing happens. */
  lemma PublishRefuses(e: Entry, c: FetchClaim, published: nat, length: nat, final: bool)
    requires WF(e) && (e.stale || !Active(e, c) || length < published || (length == published && !final))
    ensures PublishClean(e, c, published, length, final) == e
  {
  }

  // ---------------------------------------------------------------- pins

  /** `pin_clean` admits a reader exactly on a live generation, on clean pages, beside no bad or retrying part, below the
      pin limit. Admitted, it has one pin on each region of the range; otherwise nothing changes. */
  lemma PinCleanIff(e: Entry, o: nat, l: nat)
    requires WF(e) && Inside(e, o, l)
    ensures EndPage(o, l) <= |e.pages| && RegionHi(e, o, l) <= |e.pins| == |e.referenced| && |e.parts| == |e.partStates|
    ensures PinClean(e, o, l).1 == Admitted <==>
            && !e.stale
            && (forall p | FirstPage(o) <= p < EndPage(o, l) :: e.pages[p] == Clean)
            && (forall k | 0 <= k < |e.parts| && PartOverlaps(e.parts[k], o, o + l) :: e.partStates[k] != PartBad && e.partStates[k] != Retrying)
            && (forall r | RegionLo(e, o) <= r < RegionHi(e, o, l) :: e.pins[r] != PIN_MAX)
    ensures PinClean(e, o, l).1 == Admitted ==> PinnedOnce(e, PinClean(e, o, l).0, o, l)
    ensures PinClean(e, o, l).1 == Admitted ==> forall r | RegionLo(e, o) <= r < RegionHi(e, o, l) :: PinClean(e, o, l).0.referenced[r]
    ensures PinClean(e, o, l).1 != Admitted ==> PinClean(e, o, l).0 == e
  {
    hide Aligned, PartsTile, Sum, Quot;
    RangeBounds(e, o, l);
  }

  /** One pin more on each region of the range and no other. */
  predicate PinnedOnce(e: Entry, e': Entry, o: nat, l: nat)
    requires e.blockPages > 0 && l > 0
  {
    && e' == e.(pins := e'.pins, pinnedRegions := e'.pinnedRegions, referenced := e'.referenced)
    && |e'.pins| == |e.pins| && |e'.referenced| == |e.referenced|
    && (forall r | 0 <= r < |e.pins| :: e'.pins[r] == e.pins[r] + if RegionLo(e, o) <= r < RegionHi(e, o, l) then 1 else 0)
    && (forall r | 0 <= r < |e.referenced| && e'.referenced[r] != e.referenced[r] :: e'.referenced[r] && RegionLo(e, o) <= r < RegionHi(e, o, l))
  }

  lemma PinIff(e: Entry, o: nat, l: nat)
    requires WF(e) && Inside(e, o, l)
    ensures RegionHi(e, o, l) <= |e.pins|
    ensures Pin(e, o, l).1 == Admitted <==>
            !e.stale && forall r | RegionLo(e, o) <= r < RegionHi(e, o, l) :: e.pins[r] != PIN_MAX
    ensures Pin(e, o, l).1 == PinStale <==> e.stale
    ensures Pin(e, o, l).1 == Admitted ==> PinnedOnce(e, Pin(e, o, l).0, o, l)
    ensures Pin(e, o, l).1 != Admitted ==> Pin(e, o, l).0 == e
  {
    hide Aligned, PartsTile, Sum, Quot;
    RangeBounds(e, o, l);
  }

  /** A bad part of a live range is reported before a part that is fetched again. */
  lemma BlockedIff(e: Entry, o: nat, l: nat)
    requires WF(e) && Inside(e, o, l)
    ensures |e.parts| == |e.partStates|
    ensures ChecksumBlocked(e, o, l) == BadBlocks <==>
            !e.stale && exists k :: 0 <= k < |e.parts| && PartOverlaps(e.parts[k], o, o + l) && e.partStates[k] == PartBad
    ensures ChecksumBlocked(e, o, l) == RetryBlocks <==>
            && !e.stale
            && (exists k :: 0 <= k < |e.parts| && PartOverlaps(e.parts[k], o, o + l) && e.partStates[k] == Retrying)
            && (forall k | 0 <= k < |e.parts| && PartOverlaps(e.parts[k], o, o + l) :: e.partStates[k] != PartBad)
  {
    hide Aligned, PartsTile, Sum;
  }

  /** Unpinning undoes pinning; only reference bits stay. */
  lemma UnpinUndoesPin(e: Entry, o: nat, l: nat)
    requires WF(e) && Inside(e, o, l)
    ensures WF(Pin(e, o, l).0) && WF(PinClean(e, o, l).0)
    ensures Pin(e, o, l).1 == Admitted ==> Unpin(Pin(e, o, l).0, o, l) == e
    ensures PinClean(e, o, l).1 == Admitted ==>
              Unpin(PinClean(e, o, l).0, o, l) == e.(referenced := PinClean(e, o, l).0.referenced)
  {
    hide WF, Pin, PinClean, Sum, Quot, PinnedOnce, DropRegionPins;
    PinKeepsWF(e, o, l);
    PinCleanKeepsWF(e, o, l);
    PinTotals(e);
    if Pin(e, o, l).1 == Admitted {
      PinIff(e, o, l);
      DropUndoes(e, Pin(e, o, l).0, o, l);
      PinKeepsBits(e, o, l);
    }
    if PinClean(e, o, l).1 == Admitted {
      PinCleanIff(e, o, l);
      DropUndoes(e, PinClean(e, o, l).0, o, l);
    }
  }

  lemma PinKeepsBits(e: Entry, o: nat, l: nat)
    requires WF(e) && Inside(e, o, l)
    ensures Pin(e, o, l).0.referenced == e.referenced
  {
    hide WF, Sum, Quot, PinsFull;
  }

  lemma PinTotals(e: Entry)
    requires WF(e)
    ensures e.blockPages > 0 && e.pinnedRegions == Sum(e.pins)
  {
  }

  lemma DropUndoes(e: Entry, e': Entry, o: nat, l: nat)
    requires e.blockPages > 0 && l > 0 && PinnedOnce(e, e', o, l) && e.pinnedRegions == Sum(e.pins)
    ensures DropRegionPins(e', o, l) == e.(referenced := e'.referenced)
    ensures e'.referenced == e.referenced ==> DropRegionPins(e', o, l) == e
  {
    hide Sum, Quot;
    assert DropPins(e'.pins, RegionLo(e, o), RegionHi(e, o, l)) == e.pins;
  }

  // ---------------------------------------------------------------- claims

  /** There is always something to scan from the first missing page on. */
  lemma LimitAhead(e: Entry, missing: nat, requestEnd: nat, expansion: nat)
    requires WF(e) && missing < |e.pages|
    ensures Block(e, missing) < ScanLimit(e, requestEnd, Block(e, missing), expansion) <= |e.pins|
  {
    hide Aligned, PartsTile, Sum;
    BlockInRange(e, missing);
    PiecesBounds(Max(expansion, BlockSize(e)), BlockSize(e));
  }

  /** The request begins, after clean pages, with the missing page `p`. */
  predicate FirstMissing(e: Entry, o: nat, l: nat, p: nat)
    requires o < e.size && EndPage(o, Min(l, e.size - o)) <= |e.pages|
  {
    && FirstPage(o) <= p < EndPage(o, Min(l, e.size - o)) && e.pages[p] == Missing
    && forall q | FirstPage(o) <= q < p :: e.pages[q] == Clean
  }

  /** `claim_fetch` claims exactly when the first page of the request that is not clean is missing and its block is idle. */
  lemma ClaimIff(e: Entry, o: nat, l: nat, expansion: nat)
    requires WF(e)
    ensures l > 0 && o < e.size ==> EndPage(o, Min(l, e.size - o)) <= |e.pages|
    ensures ClaimFetch(e, o, l, expansion).1.Claimed? <==>
            && !e.stale && !e.dirty && !e.exported && l > 0 && o < e.size
            && exists p :: FirstMissing(e, o, l, p) && !BlockBusy(e, Block(e, p))
    ensures ClaimFetch(e, o, l, expansion).1 == ClaimStale <==> e.stale
  {
    hide Aligned, PartsTile, Sum, Quot, BlockBusy, BlockClean, ClaimBlocks, NewFetch;
    if l > 0 && o < e.size {
      var len := Min(l, e.size - o);
      RangeBounds(e, o, len);
      var missing := FirstNot(e.pages, FirstPage(o), EndPage(o, len), Clean);
      if missing < EndPage(o, len) && e.pages[missing] == Missing {
        LimitAhead(e, missing, o + len, expansion);
        assert FirstMissing(e, o, l, missing);
        assert forall p | FirstMissing(e, o, l, p) :: p == missing;
        ScanStarts(e, Block(e, missing), ScanLimit(e, o + len, Block(e, missing), expansion));
      } else {
        assert forall p :: !FirstMissing(e, o, l, p);
      }
    }
  }

  lemma ScanStarts(e: Entry, start: nat, limit: nat)
    requires e.blockPages > 0 && start < limit
    ensures ScanStop(e, start, start, limit) > start <==> !BlockBusy(e, start)
    ensures ScanStop(e, start, start, limit) <= limit
  {
    hide BlockBusy, BlockClean;
  }

  lemma {:induction false} ScanStops(e: Entry, start: nat, b: nat, limit: nat)
    requires e.blockPages > 0 && start <= b <= limit
    ensures var t := ScanStop(e, start, b, limit);
            && (t == limit || BlockBusy(e, t) || (t != start && BlockClean(e, t)))
            && forall k | b <= k < t && k != start :: !BlockClean(e, k)
    decreases limit - b
  {
    hide BlockBusy, BlockClean;
    if b < limit && !(BlockBusy(e, b) || (b != start && BlockClean(e, b))) { ScanStops(e, start, b + 1, limit); }
  }

  /** How far a claim reaches: blocks `[start, stop)` from the first missing page on, none busy and none but the first
      wholly clean; it ends before a busy or clean block, or covers the request and the read-ahead as far as the object
      goes, and its last block begins before that. */
  lemma ClaimIsMaximal(e: Entry, o: nat, l: nat, expansion: nat) returns (start: nat, stop: nat)
    requires WF(e) && ClaimFetch(e, o, l, expansion).1.Claimed?
    ensures start < stop <= |e.pins| && l > 0 && o < e.size && EndPage(o, Min(l, e.size - o)) <= |e.pages|
    ensures ClaimFetch(e, o, l, expansion).0 == ClaimBlocks(e, start, stop)
    ensures exists p :: FirstMissing(e, o, l, p) && Block(e, p) == start
    ensures forall b | start <= b < stop :: !BlockBusy(e, b) && (b != start ==> !BlockClean(e, b))
    ensures var wanted := Max(o + Min(l, e.size - o), Times(start, BlockSize(e)) + Max(expansion, BlockSize(e)));
            && (BlockBusy(e, stop) || BlockClean(e, stop) || Times(stop, BlockSize(e)) >= Min(e.size, wanted))
            && Times(stop - 1, BlockSize(e)) < wanted
  {
    hide *;
    EntryShape(e);
    var missing, limit;
    missing, start, limit, stop := ClaimScan(e, o, l, expansion);
    ScanStops(e, start, start, limit);
    BlockInRange(e, missing);
    LimitWanted(e, o + Min(l, e.size - o), start, expansion);
    TimesMonotone(stop, limit, BlockSize(e));
    TimesMonotone(stop - 1, limit - 1, BlockSize(e));
    assert FirstMissing(e, o, l, missing) && Block(e, missing) == start;
  }

  lemma ClaimScan(e: Entry, o: nat, l: nat, expansion: nat) returns (missing: nat, start: nat, limit: nat, stop: nat)
    requires WF(e) && ClaimFetch(e, o, l, expansion).1.Claimed?
    ensures l > 0 && o < e.size && EndPage(o, Min(l, e.size - o)) <= |e.pages| && missing < |e.pages|
    ensures FirstMissing(e, o, l, missing) && start == Block(e, missing) && start < stop <= limit <= |e.pins|
    ensures limit == ScanLimit(e, o + Min(l, e.size - o), start, expansion) && stop == ScanStop(e, start, start, limit)
    ensures ClaimFetch(e, o, l, expansion).0 == ClaimBlocks(e, start, stop)
  {
    hide Aligned, PartsTile, Sum, Quot, BlockBusy, BlockClean, NewFetch;
    var len := Min(l, e.size - o);
    RangeBounds(e, o, len);
    missing := FirstNot(e.pages, FirstPage(o), EndPage(o, len), Clean);
    start := Block(e, missing);
    limit := ScanLimit(e, o + len, start, expansion);
    stop := ScanStop(e, start, start, limit);
    LimitAhead(e, missing, o + len, expansion);
  }

  lemma LimitWanted(e: Entry, requestEnd: nat, start: nat, expansion: nat)
    requires WF(e) && start < |e.pins|
    ensures var limit := ScanLimit(e, requestEnd, start, expansion);
            var wanted := Max(requestEnd, Times(start, BlockSize(e)) + Max(expansion, BlockSize(e)));
            && Times(limit, BlockSize(e)) >= Min(e.size, wanted)
            && (limit > 0 ==> Times(limit - 1, BlockSize(e)) < wanted)
  {
    hide Aligned, PartsTile, Sum;
    var b, x := BlockSize(e), Max(expansion, BlockSize(e));
    PiecesBounds(requestEnd, b);
    PiecesBounds(x, b);
    RegionsCover(e);
    BoundOf(|e.pins|, Pieces(requestEnd, b), start, Pieces(x, b), requestEnd, x, e.size, b);
    hide Times, Pieces, Quot, WF;
  }

  lemma BoundOf(pins: nat, n: nat, start: nat, k: nat, requestEnd: nat, x: nat, size: nat, b: nat)
    requires requestEnd <= Times(n, b) < requestEnd + b && x <= Times(k, b) < x + b && size <= Times(pins, b)
    ensures var limit, wanted := Min(pins, Max(n, start + k)), Max(requestEnd, Times(start, b) + x);
            && Times(limit, b) >= Min(size, wanted)
            && (limit > 0 ==> Times(limit - 1, b) < wanted)
  {
    TimesSum(start, k, b);
    var m := start + k;
    var limit := Min(pins, Max(n, m));
    TimesMonotone(Min(n, m), Max(n, m), b);
    if limit > 0 {
      TimesMonotone(limit - 1, Max(n, m) - 1, b);
      assert Times(Max(n, m), b) == b + Times(Max(n, m) - 1, b);
    }
    hide Times;
  }

  lemma {:induction false} TimesSum(k: nat, l: nat, b: nat)
    ensures Times(k + l, b) == Times(k, b) + Times(l, b)
  {
    if k > 0 { TimesSum(k - 1, l, b); }
  }

  /** The regions cover the object. */
  lemma RegionsCover(e: Entry)
    requires WF(e)
    ensures e.size <= Times(|e.pins|, BlockSize(e))
  {
    PiecesBounds(|e.pages|, e.blockPages);
    TimesScale(|e.pins|, e.blockPages);
  }

  /** Rolling a fresh claim back leaves the entry as it was, but for the next identifier. */
  lemma RollbackUndoesClaim(e: Entry, o: nat, l: nat, expansion: nat)
    requires WF(e) && ClaimFetch(e, o, l, expansion).1.Claimed?
    ensures WF(ClaimFetch(e, o, l, expansion).0)
    ensures RollbackFetch(ClaimFetch(e, o, l, expansion).0, ClaimFetch(e, o, l, expansion).1.claim) == e.(nextId := e.nextId + 1)
  {
    ClaimFetchKeepsWF(e, o, l, expansion);
    var start, stop := ClaimedBlocks(e, o, l, expansion);
    var e', c := ClaimFetch(e, o, l, expansion).0, ClaimFetch(e, o, l, expansion).1.claim;
    ClaimNamed(e, o, l, expansion, start, stop);
    ClaimFound(e, start, stop, c);
    RestoredPages(e, start, stop);
    var f := NewFetch(e, start, stop);
    assert Without(e'.claims, |e.claims|) == e.claims;
    hide WF, ClaimFetch, NewFetch, Restore, Fill, Find;
  }

  lemma ClaimNamed(e: Entry, o: nat, l: nat, expansion: nat, start: nat, stop: nat)
    requires WF(e) && ClaimFetch(e, o, l, expansion).1.Claimed? && start < stop <= |e.pins|
    requires ClaimFetch(e, o, l, expansion).0 == ClaimBlocks(e, start, stop)
    ensures Names(NewFetch(e, start, stop), ClaimFetch(e, o, l, expansion).1.claim)
  {
    hide Aligned, PartsTile, Sum, BlockBusy, BlockClean;
    var e' := ClaimFetch(e, o, l, expansion).0;
    assert e'.claims[|e.claims|] == NewFetch(e, start, stop);
  }

  lemma ClaimFound(e: Entry, start: nat, stop: nat, c: FetchClaim)
    requires WF(e) && start < stop <= |e.pins| && Names(NewFetch(e, start, stop), c)
    ensures Find(ClaimBlocks(e, start, stop).claims, c) == |e.claims|
  {
    hide Aligned, PartsTile, Sum;
    var claims := ClaimBlocks(e, start, stop).claims;
    assert claims[|e.claims|] == NewFetch(e, start, stop);
    assert forall k | 0 <= k < |e.claims| :: claims[k] == e.claims[k] && e.claims[k].id < e.nextId;
  }

  lemma RestoredPages(e: Entry, start: nat, stop: nat)
    requires WF(e) && start < stop <= |e.pins|
    ensures var e', f := ClaimBlocks(e, start, stop), NewFetch(e, start, stop);
            Aligned(e', f) && Restore(e', f) == e.pages && !f.verifying
  {
    NewFetchTail(e, start, stop);
    ClaimBlocksPages(e, start, stop);
    var e', f := ClaimBlocks(e, start, stop), NewFetch(e, start, stop);
    AlignedFrame(e, e');
    BlockSpan(e, start, stop);
    assert f.priorStates == e.pages[Times(start, e.blockPages)..Min(|e.pages|, Times(stop, e.blockPages))];
    hide WF, Aligned, NewFetch, ClaimBlocks, Quot, Times;
    forall p | 0 <= p < |e.pages| ensures Restore(e', f)[p] == e.pages[p] { }
  }

  /** A claim is of this generation, new, and answers to its own name. */
  lemma ClaimIsNew(e: Entry, o: nat, l: nat, expansion: nat)
    requires WF(e) && ClaimFetch(e, o, l, expansion).1.Claimed?
    ensures var (e', r) := ClaimFetch(e, o, l, expansion);
            && r.claim.epoch == e.epoch && !Active(e, r.claim) && Active(e', r.claim)
            && Find(e'.claims, r.claim) == |e.claims| && e'.claims[..|e.claims|] == e.claims
  {
    hide Aligned, PartsTile, Sum, Quot, BlockBusy, BlockClean, ScanStop, ScanLimit;
    var (e', r) := ClaimFetch(e, o, l, expansion);
    var i := Find(e'.claims, r.claim);
    assert e'.claims[|e.claims|].id == e.nextId && Names(e'.claims[|e.claims|], r.claim);
    assert forall k | 0 <= k < |e.claims| :: e'.claims[k] == e.claims[k] && e.claims[k].id < e.nextId;
  }

  // ---------------------------------------------------------------- the end of a fetch

  /** Finishing makes missing exactly the pending pages of the tail, and ends the claim. */
  lemma FinishIsExact(e: Entry, c: FetchClaim)
    requires WF(e)
    ensures var i, e' := Find(e.claims, c), FinishFetch(e, c);
            if i == |e.claims| then e' == e
            else
              && |e'.pages| == |e.pages| && e'.claims == e.claims[..i] + e.claims[i + 1..]
              && forall p | 0 <= p < |e.pages| ::
                   e'.pages[p] == if InTail(e.claims[i], p) && e.pages[p] == ReadPending then Missing else e.pages[p]
  {
    var i := Find(e.claims, c);
    if i < |e.claims| {
      var a := e.claims[i];
      ClaimShape(e, i);
      EndFields(e, i, Turn(e.pages, TailLo(a), TailHi(a), ReadPending, Missing));
      assert Without(e.claims, i) == e.claims[..i] + e.claims[i + 1..];
      hide WF, EndFetch, TailLo, TailHi;
    }
  }

  /** A mismatch marks bad exactly the tail, or the whole range of a fetch under verification. */
  lemma MarkBadIsExact(e: Entry, c: FetchClaim)
    requires WF(e)
    ensures var i, e' := Find(e.claims, c), MarkBad(e, c);
            if e.stale || i == |e.claims| then e' == e
            else
              var a := e.claims[i];
              && |e'.pages| == |e.pages| && e' == e.(pages := e'.pages)
              && forall p | 0 <= p < |e.pages| ::
                   e'.pages[p] == if (if a.verifying then FirstPage(a.offset) else TailLo(a)) <= p < TailHi(a) then Bad else e.pages[p]
  {
    hide WF, TailLo, TailHi;
  }

  /** A verifying fetch is fetched again: its whole range is pending, and it may start once all pins on it are those of
      verifiers. Asking again while waiting changes nothing. */
  lemma RetryIff(e: Entry, c: FetchClaim)
    requires WF(e)
    ensures var i, r := Find(e.claims, c), BeginRetry(e, c).1;
            && (r == RetryStale <==> e.stale || i == |e.claims|)
            && (r == RetryWithoutPin <==> !e.stale && i < |e.claims| && !e.claims[i].verifying)
            && (r == RetryReady || r == RetryWaits <==> !e.stale && i < |e.claims| && e.claims[i].verifying)
            && (r == RetryStale || r == RetryWithoutPin ==> BeginRetry(e, c).0 == e)
    ensures var i, (e', r) := Find(e.claims, c), BeginRetry(e, c);
            !e.stale && i < |e.claims| && e.claims[i].verifying ==>
              && e'.pins == e.pins && |e'.pages| == |e.pages| && RegionHi(e, e.claims[i].offset, e.claims[i].length) <= |e.pins|
              && (forall p | 0 <= p < |e.pages| :: e'.pages[p] ==
                    if !e.claims[i].retrying && FirstPage(e.claims[i].offset) <= p < TailHi(e.claims[i]) then ReadPending else e.pages[p])
              && (r == RetryReady <==>
                    forall k | RegionLo(e, e.claims[i].offset) <= k < RegionHi(e, e.claims[i].offset, e.claims[i].length) ::
                      e.pins[k] <= VerifierPins(e', k))
  {
    var i := Find(e.claims, c);
    EntryShape(e);
    if i < |e.claims| {
      ClaimShape(e, i);
      RangeBounds(e, e.claims[i].offset, e.claims[i].length);
      RetryKeepsShape(e, i);
      hide WF, VerifierPins, Quot;
    }
  }

  /** Verification starts exactly on a fully published, clean, unshared fetch with no part check about and pins to spare. */
  lemma VerificationIff(e: Entry, c: FetchClaim)
    requires WF(e)
    ensures var i := Find(e.claims, c);
            PinFetchVerification(e, c).1 == VerifyPinned <==>
            && !e.stale && i < |e.claims|
            && (e.claims[i].verifying || (Verifiable(e, i) && !PinsFull(e.pins, RegionLo(e, e.claims[i].offset), RegionHi(e, e.claims[i].offset, e.claims[i].length))))
    ensures PinFetchVerification(e, c).1 != VerifyPinned ==> PinFetchVerification(e, c).0 == e
  {
    var i := Find(e.claims, c);
    if i < |e.claims| {
      ClaimShape(e, i);
      RangeBounds(e, e.claims[i].offset, e.claims[i].length);
      hide WF, PinsFull, AllState, AddRegionPins;
    }
  }

  ghost predicate Verifiable(e: Entry, i: nat)
    requires WF(e) && i < |e.claims|
    ensures Verifiable(e, i) ==> RegionHi(e, e.claims[i].offset, e.claims[i].length) <= |e.pins|
  {
    var a := e.claims[i];
    ClaimShape(e, i);
    RangeBounds(e, a.offset, a.length);
    && a.published == a.length && e.checksumOps == 0 && e.manifest != Available
    && (forall p | FirstPage(a.offset) <= p < TailHi(a) :: e.pages[p] == Clean)
    && (forall k | 0 <= k < |e.claims| && k != i :: a.offset + a.length <= e.claims[k].offset || e.claims[k].offset + e.claims[k].length <= a.offset)
  }

  // ---------------------------------------------------------------- checks of parts

  /** A live check ends as the verdict says, and gives back its pins; one that is over changes nothing. */
  lemma FinishSettles(e: Entry, c: ChecksumClaim, valid: bool)
    requires WF(e) && (CheckLive(e, c) ==> Inside(e, c.offset, c.size))
    ensures var e' := FinishChecksum(e, c, valid);
            if !CheckLive(e, c) then e' == e
            else
              && e'.partStates == e.partStates[c.part := if valid then Verified else PartBad]
              && e'.pages == e.pages && e'.claims == e.claims && e'.parts == e.parts && UnpinnedOnce(e, e', c.offset, c.size)
  {
    hide WF, Sum, Quot;
    EntryShape(e);
  }

  /** Giving a check up forgets its result and its pages, and gives back its pins. */
  lemma AbandonForgets(e: Entry, c: ChecksumClaim)
    requires WF(e) && (CheckLive(e, c) ==> Inside(e, c.offset, c.size))
    ensures var e' := AbandonChecksum(e, c);
            if !CheckLive(e, c) then e' == e
            else
              && e'.partStates == e.partStates[c.part := Unverified] && e'.claims == e.claims && |e'.pages| == |e.pages|
              && (forall p | 0 <= p < |e.pages| ::
                    e'.pages[p] == if FirstPage(c.offset) <= p < EndPage(c.offset, c.size) && e.pages[p] == Clean then Missing else e.pages[p])
              && UnpinnedOnce(e, e', c.offset, c.size)
  {
    hide WF, Sum, Quot;
    EntryShape(e);
  }

  /** A mismatch closes a part under verification to readers until it is settled; any other one changes nothing. */
  lemma MismatchCloses(e: Entry, c: ChecksumClaim, o: nat, l: nat)
    requires WF(e) && Inside(e, o, l)
    ensures WF(ChecksumMismatch(e, c)) && |e.parts| == |e.partStates|
    ensures var e' := ChecksumMismatch(e, c);
            var hit := !e.stale && c.epoch == e.epoch && c.part < |e.parts| && e.partStates[c.part] == Verifying;
            && (!hit ==> e' == e)
            && (hit ==> e' == e.(partStates := e.partStates[c.part := Retrying]))
            && (hit && PartOverlaps(e.parts[c.part], o, o + l) ==> PinClean(e', o, l).1 != Admitted)
  {
    hide WF, PinClean;
    EntryShape(e);
    MismatchWF(e, c);
    PinCleanIff(ChecksumMismatch(e, c), o, l);
  }

  lemma MismatchWF(e: Entry, c: ChecksumClaim)
    requires WF(e)
    ensures WF(ChecksumMismatch(e, c))
  {
    hide Sum, PartsTile;
    assert forall i | 0 <= i < |e.claims| :: Aligned(e, e.claims[i]);
    hide Aligned;
  }

  /** A live check that fetches its part again may start once all pins on the part are those of verifiers; the part is
      closed to readers from the first time it asks. */
  lemma ChecksumRetryIff(e: Entry, c: ChecksumClaim)
    requires WF(e) && (CheckLive(e, c) ==> Inside(e, c.offset, c.size))
    ensures e.blockPages > 0 && |e.parts| == |e.partStates|
    ensures BeginChecksumRetry(e, c).1 == RetryStale <==> e.stale || !CheckLive(e, c)
    ensures e.stale || !CheckLive(e, c) ==> BeginChecksumRetry(e, c).0 == e
    ensures var (e', r) := BeginChecksumRetry(e, c);
            !e.stale && CheckLive(e, c) ==>
              && e' == e.(partStates := e.partStates[c.part := Retrying]) && RegionHi(e, c.offset, c.size) <= |e.pins|
              && (r == RetryReady || r == RetryWaits)
              && (r == RetryReady <==>
                    forall k | RegionLo(e, c.offset) <= k < RegionHi(e, c.offset, c.size) :: e.pins[k] <= VerifierPins(e, k))
  {
    EntryShape(e);
    if !e.stale && CheckLive(e, c) {
      RangeBounds(e, c.offset, c.size);
      var e' := BeginChecksumRetry(e, c).0;
      forall k ensures VerifierPins(e', k) == VerifierPins(e, k) {
        assert PartFlags(e'.parts, e'.partStates, e.blockPages, k) == PartFlags(e.parts, e.partStates, e.blockPages, k);
      }
      hide WF, VerifierPins, Quot;
    }
  }

  /** One pin less on each region of the range that has one. */
  predicate UnpinnedOnce(e: Entry, e': Entry, o: nat, l: nat)
    requires e.blockPages > 0 && l > 0
  {
    |e'.pins| == |e.pins| &&
    forall r | 0 <= r < |e.pins| ::
      e'.pins[r] == if RegionLo(e, o) <= r < RegionHi(e, o, l) && e.pins[r] > 0 then e.pins[r] - 1 else e.pins[r]
  }

  /** Part `k` overlaps the range and decides: it is bad, under a check that is not to be skipped, or ready for one. */
  ghost predicate Decides(e: Entry, k: nat, lo: nat, hi: nat, skip: bool)
    requires WF(e) && k < |e.parts|
  {
    PartInside(e, k);
    RangeBounds(e, e.parts[k].offset, e.parts[k].size);
    && PartOverlaps(e.parts[k], lo, hi)
    && (e.partStates[k] == PartBad || (Checking(e.partStates[k]) && !skip) || (e.partStates[k] == Unverified && PartClean(e, k)))
  }

  /** The loop of `claim_checksum` stops at the first part that decides, and answers by its state. */
  lemma {:induction false} FirstPartDecides(e: Entry, k: nat, lo: nat, hi: nat, skip: bool) returns (m: nat)
    requires WF(e) && k <= |e.parts|
    ensures k <= m <= |e.parts| && forall j | k <= j < m :: !Decides(e, j, lo, hi, skip)
    ensures m < |e.parts| ==> Decides(e, m, lo, hi, skip) && e.parts[m].size > 0 && RegionHi(e, e.parts[m].offset, e.parts[m].size) <= |e.pins|
    ensures ClaimPartFrom(e, k, lo, hi, skip).1 ==
            if m == |e.parts| then ChecksumNone
            else if e.partStates[m] == PartBad then ChecksumIsBad
            else if e.partStates[m] != Unverified then ChecksumWait
            else if PinsFull(e.pins, RegionLo(e, e.parts[m].offset), RegionHi(e, e.parts[m].offset, e.parts[m].size)) then ChecksumOverflow
            else ChecksumVerify(ChecksumClaim(m, e.epoch, e.parts[m].offset, e.parts[m].size))
    decreases |e.parts| - k
  {
    if k == |e.parts| {
      m := k;
      ClaimPartEnd(e, lo, hi, skip);
    } else {
      ClaimPartUnfold(e, k, lo, hi, skip);
      PartInside(e, k);
      hide WF, ClaimPartFrom, PinsFull, AllState, VerifyPart;
      if Decides(e, k, lo, hi, skip) {
        m := k;
      } else {
        m := FirstPartDecides(e, k + 1, lo, hi, skip);
      }
    }
  }

  // ---------------------------------------------------------------- manifest

  /** A manifest is loaded exactly once, and never for an exported or stale generation or beside a verifying fetch. */
  lemma ManifestLoadsIff(e: Entry)
    ensures BeginManifest(e).1 == ManifestLoads <==>
            !e.stale && !e.exported && e.manifest == Unknown && forall k | 0 <= k < |e.claims| :: !e.claims[k].verifying
    ensures BeginManifest(e).0 ==
            if BeginManifest(e).1 == ManifestLoads then e.(manifest := Loading, checksumOps := e.checksumOps + 1)
            else if e.exported && !e.stale && e.manifest == Unknown then e.(manifest := Unavailable)
            else e
    ensures BeginManifest(e).1 == ManifestStale <==> e.stale
  {
  }

  /** What arrives is kept exactly when it tiles the object with non-empty values; every part of it is then unverified. */
  lemma ManifestIff(e: Entry, given: seq<ChecksumPart>)
    ensures var e' := FinishManifest(e, given);
            && e'.manifest == (if !e.stale && given != [] && PartsTile(given, e.size) && (forall k | 0 <= k < |given| :: given[k].value != "") then Available else Unavailable)
            && e'.parts == (if e'.manifest == Available then given else []) && |e'.partStates| == |e'.parts|
            && forall k | 0 <= k < |e'.partStates| :: e'.partStates[k] == Unverified
  {
    hide PartsTile;
  }

  // ---------------------------------------------------------------- eviction and export

  /** A synchronous eviction that succeeds takes the clean pages of one evictable region, and nothing else. */
  lemma EvictionIsExact(e: Entry, punched: bool)
    requires WF(e)
    ensures var (e', victim) := EvictOne(e, punched);
            && e'.pins == e.pins && e'.claims == e.claims && |e'.pages| == |e.pages|
            && (victim >= 0 ==> punched && victim < |e.pins| && Victim(e, victim))
            && (e.unlimited || e.stale || e.evictionDisabled || e.dirty || e.exported ==> e' == e && victim < 0)
            && (forall p | 0 <= p < |e.pages| :: e'.pages[p] == if Block(e, p) == victim && e.pages[p] == Clean then Missing else e.pages[p])
  {
    hide Aligned, PartsTile, Sum, Quot;
  }

  /** No other flag keeps an entry out of eviction: the hand takes a victim it stands on that was not used since. */
  lemma HandTakes(e: Entry, region: nat)
    requires WF(e) && !e.unlimited && !e.stale && !e.evictionDisabled && !e.dirty && !e.exported
    requires region < |e.pins| && e.hand % |e.pins| == region && !e.referenced[region] && Victim(e, region)
    ensures EvictOne(e, true).1 == region && EvictBegin(e).1 == region
  {
    hide Aligned, PartsTile, Sum, Quot, Victim;
  }

  /** An asynchronous eviction that is reported as failed leaves the pages as they were; one that succeeded has taken the
      clean pages of an evictable region. */
  lemma EvictionUndoneOrDone(e: Entry)
    requires WF(e) && EvictBegin(e).1 >= 0
    ensures var (e', victim) := EvictBegin(e);
            var taken := CleanPages(e, victim);
            && victim < |e.pins| && Victim(e, victim) && taken != {}
            && !e.unlimited && !e.stale && !e.evictionDisabled && !e.dirty && !e.exported
            && EvictEnd(e', taken, false).pages == e.pages
            && (forall p | 0 <= p < |e.pages| :: e'.pages[p] == if p in taken then ReadPending else e.pages[p])
            && (forall p | 0 <= p < |e.pages| :: EvictEnd(e', taken, true).pages[p] == if p in taken then Missing else e.pages[p])
  {
    hide Aligned, PartsTile, Sum, Quot;
    var victim := EvictBegin(e).1;
    assert Victim(e, victim);
    var p :| 0 <= p < |e.pages| && Block(e, p) == victim && e.pages[p] == Clean;
    assert p in CleanPages(e, victim);
  }

  /** Export succeeds exactly on a live, clean, unwritten generation of an unlimited cache with nothing under way and no
      bad part, and with every part verified when that is asked for. */
  lemma ExportIff(e: Entry, verify: bool)
    requires WF(e)
    ensures |e.parts| == |e.partStates|
    ensures TryExport(e, verify).1 <==>
            && e.unlimited && !e.stale && !e.detached && !e.dirty && e.claims == [] && e.checksumOps == 0
            && (forall r | 0 <= r < |e.pins| :: e.pins[r] == 0)
            && (forall p | 0 <= p < |e.pages| :: e.pages[p] == Clean)
            && (forall k | 0 <= k < |e.parts| :: e.partStates[k] != PartBad)
            && (verify ==> e.manifest == Available && (e.size != 0 ==> e.parts != []))
            && (verify ==> forall k | 0 <= k < |e.parts| :: e.partStates[k] == Verified)
    ensures TryExport(e, verify).0 == if TryExport(e, verify).1 then e.(exported := true, evictionDisabled := true) else e
  {
    SumIsZero(e.pins);
    hide Sum, Aligned, PartsTile;
  }

  /** A writer enters exactly when the generation is neither exported nor stale, and from then on nothing is fetched into
      it, evicted from it or exported. */
  lemma WriteIff(e: Entry, o: nat, l: nat, expansion: nat, punched: bool, verify: bool)
    requires WF(e)
    ensures var (e', granted) := PrepareWrite(e);
            && (granted <==> !e.exported && !e.stale) && (!granted ==> e' == e) && WF(e')
            && (granted ==>
                  && !ClaimFetch(e', o, l, expansion).1.Claimed? && EvictOne(e', punched) == (e', -1) && EvictBegin(e') == (e', -1)
                  && !TryExport(e', verify).1)
  {
    assert WF(PrepareWrite(e).0);
    hide Sum, Aligned, PartsTile;
  }

  /** A retired generation admits nothing and starts nothing; only what is under way can still end. */
  lemma RetiredRefuses(e: Entry, o: nat, l: nat, expansion: nat, c: FetchClaim, skip: bool, punched: bool, verify: bool)
    requires WF(e) && Inside(e, o, l)
    ensures var r := Retire(e);
            && WF(r) && r.claims == e.claims && r.pages == e.pages && r.pins == e.pins && r.partStates == e.partStates
            && Pin(r, o, l) == (r, PinStale) && PinClean(r, o, l) == (r, Refused)
            && ClaimFetch(r, o, l, expansion) == (r, ClaimStale) && PinFetchVerification(r, c) == (r, VerifyRefused)
            && BeginRetry(r, c) == (r, RetryStale) && ClaimChecksum(r, o, l, skip) == (r, ChecksumStale)
            && BeginManifest(r) == (r, ManifestStale) && EvictOne(r, punched) == (r, -1) && EvictBegin(r) == (r, -1)
            && !TryExport(r, verify).1 && !PrepareWrite(r).1
  {
    assert WF(Retire(e));
    hide WF, Sum, Quot;
  }

  lemma {:induction false} SumIsZero(s: seq<nat>)
    ensures Sum(s) == 0 <==> forall r | 0 <= r < |s| :: s[r] == 0
  {
    if s != [] {
      SumIsZero(s[1..]);
      assert forall r | 1 <= r < |s| :: s[r] == s[1..][r - 1];
    }
  }
}
