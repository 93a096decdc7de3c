/** Who owns a pending page of one generation.

    An active fetch owns the pages of its unpublished tail, an asynchronous eviction owns
    the clean pages it took. The invariant `Own` says that these owners never meet, that
    an eviction holds its whole block, and that nobody else's page is pending. Every
    operation of the entry keeps it.
 */
module EntryOwnership {
  import opened Geometry
  import opened EntryModel

  /** An eviction between its claim and the end of its hole punch. */
  datatype Evicting = Evicting(block: nat, taken: set<nat>, punched: bool)

  ghost predicate TailsDisjoint(n: nat, claims: seq<ActiveFetch>)
  {
    forall i, j, p | 0 <= i < j < |claims| && 0 <= p < n :: !(InTail(claims[i], p) && InTail(claims[j], p))
  }

  ghost predicate TailsPending(pages: seq<PageState>, claims: seq<ActiveFetch>)
  {
    forall i, p | 0 <= i < |claims| && 0 <= p < |pages| && InTail(claims[i], p) ::
      pages[p] == ReadPending || pages[p] == Bad
  }

  /** Rolling a claim back can only bring back settled pages. */
  ghost predicate PriorsSettled(claims: seq<ActiveFetch>)
  {
    forall i, k | 0 <= i < |claims| && 0 <= k < |claims[i].priorStates| ::
      claims[i].priorStates[k] == Clean || claims[i].priorStates[k] == Missing
  }

  /** The page is outside every active tail. */
  ghost predicate NoTail(claims: seq<ActiveFetch>, p: nat)
  {
    forall i | 0 <= i < |claims| :: !InTail(claims[i], p)
  }

  /** No eviction holds the block of the page. */
  ghost predicate NoEviction(ev: seq<Evicting>, b: nat, p: nat)
    requires b > 0
  {
    forall k | 0 <= k < |ev| :: ev[k].block != Quot(p, b)
  }

  /** An eviction holds its whole block: the pages it took are pending, the others were missing. */
  ghost predicate EvictionHolds(pages: seq<PageState>, claims: seq<ActiveFetch>, b: nat, v: Evicting)
    requires b > 0
  {
    && v.taken != {}
    && (forall p | p in v.taken :: p < |pages| && Quot(p, b) == v.block)
    && (forall p | 0 <= p < |pages| && Quot(p, b) == v.block ::
          pages[p] == (if p in v.taken then ReadPending else Missing) && NoTail(claims, p))
  }

  ghost predicate HasOwner(claims: seq<ActiveFetch>, ev: seq<Evicting>, p: nat)
  {
    || (exists i :: 0 <= i < |claims| && InTail(claims[i], p))
    || (exists k :: 0 <= k < |ev| && p in ev[k].taken)
  }

  /** The ownership invariant over page states, claims and evictions in flight. */
  ghost predicate Owned(pages: seq<PageState>, claims: seq<ActiveFetch>, ev: seq<Evicting>, b: nat)
  {
    && b > 0
    && TailsDisjoint(|pages|, claims)
    && TailsPending(pages, claims)
    && PriorsSettled(claims)
    && (forall k | 0 <= k < |ev| :: EvictionHolds(pages, claims, b, ev[k]))
    && (forall k, l | 0 <= k < l < |ev| :: ev[k].block != ev[l].block)
    && (forall p | 0 <= p < |pages| && pages[p] == ReadPending :: HasOwner(claims, ev, p))
  }

  ghost predicate Own(e: Entry, ev: seq<Evicting>)
  {
    WF(e) && Owned(e.pages, e.claims, ev, e.blockPages)
  }

  // ---------------------------------------------------------------- block arithmetic of tails

  /** Tails begin and end on block boundaries: two pages of one block are both in or both out. */
  lemma TailWholeBlocks(e: Entry, a: ActiveFetch, p: nat, q: nat)
    requires WF(e) && Aligned(e, a)
    requires p < |e.pages| && q < |e.pages| && Block(e, p) == Block(e, q)
    ensures InTail(a, p) <==> InTail(a, q)
  {
    if a.published < a.length {
      MultipleSum(a.offset, a.published, BlockSize(e));
      BoundaryPage(e, a.offset + a.published, p, q);
    }
    if Multiple(a.offset + a.length, BlockSize(e)) {
      BoundaryPage(e, a.offset + a.length, p, q);
    }
  }

  /** A page below a block-aligned byte offset has its whole block below it. */
  lemma BoundaryPage(e: Entry, o: nat, p: nat, q: nat)
    requires e.blockPages > 0 && Block(e, p) == Block(e, q) && Multiple(o, BlockSize(e))
    ensures o % PAGE == 0
    ensures p < o / PAGE <==> q < o / PAGE
  {
    MultipleScale(o, e.blockPages);
    QuotBelow(p, e.blockPages, Quot(o, BlockSize(e)));
    QuotBelow(q, e.blockPages, Quot(o, BlockSize(e)));
  }

  /** Pages `[lo, hi)`, cut off at the end of the object, in bytes. */
  lemma PageArithmetic(size: nat, lo: nat, hi: nat)
    ensures (lo * PAGE + PAGE - 1) / PAGE == (lo * PAGE) / PAGE == lo
    ensures (Min(size, hi * PAGE) + PAGE - 1) / PAGE == Min((size + PAGE - 1) / PAGE, hi)
  {
  }

  lemma NewFetchFields(e: Entry, start: nat, stop: nat)
    requires WF(e) && start < stop <= |e.pins|
    ensures var f, lo, hi := NewFetch(e, start, stop), Times(start, e.blockPages), Times(stop, e.blockPages);
            && f.offset == lo * PAGE == Times(start, BlockSize(e)) && lo * PAGE < e.size && lo < hi
            && f.offset + f.length == Min(e.size, hi * PAGE) && hi * PAGE == Times(stop, BlockSize(e))
            && f.published == 0 && |f.priorStates| == Min(|e.pages|, hi) - lo && f.length > 0
            && |e.pages| == (e.size + PAGE - 1) / PAGE && e.blockPages > 0
  {
    hide Aligned, PartsTile, Sum, Times;
    BlockSpan(e, start, stop);
  }

  lemma NewFetchShape(e: Entry, start: nat, stop: nat)
    requires WF(e) && start < stop <= |e.pins|
    ensures var f := NewFetch(e, start, stop);
            && Aligned(e, f) && TailLo(f) == FirstPage(f.offset) == Times(start, e.blockPages)
            && TailHi(f) == Min(|e.pages|, Times(stop, e.blockPages))
  {
    hide NewFetch, WF, Times, Multiple;
    NewFetchFields(e, start, stop);
    PageArithmetic(e.size, Times(start, e.blockPages), Times(stop, e.blockPages));
    MultipleTimes(start, BlockSize(e));
    MultipleTimes(stop, BlockSize(e));
    MultipleZero(BlockSize(e));
  }

  lemma MultipleZero(b: nat)
    requires b > 0
    ensures Multiple(0, b)
  {
  }

  /** The tail of a fresh claim is exactly its blocks. */
  lemma NewFetchTail(e: Entry, start: nat, stop: nat)
    requires WF(e) && start < stop <= |e.pins|
    ensures Aligned(e, NewFetch(e, start, stop))
    ensures FirstPage(NewFetch(e, start, stop).offset) == Times(start, e.blockPages)
    ensures TailHi(NewFetch(e, start, stop)) == Min(|e.pages|, Times(stop, e.blockPages))
    ensures forall p | 0 <= p < |e.pages| ::
              InTail(NewFetch(e, start, stop), p) <==> start <= Block(e, p) < stop
  {
    NewFetchShape(e, start, stop);
    hide NewFetch, Aligned, TailLo, TailHi, Sum, PartsTile;
    var f := NewFetch(e, start, stop);
    forall p | 0 <= p < |e.pages| ensures InTail(f, p) <==> start <= Block(e, p) < stop {
      QuotBelow(p, e.blockPages, start);
      QuotBelow(p, e.blockPages, stop);
    }
  }

  /** Publication keeps claims aligned and only ever shrinks the tail. */
  lemma PublishAligned(e: Entry, a: ActiveFetch, length: nat, final: bool)
    requires WF(e) && Aligned(e, a)
    ensures PublishTarget(e, a, length, final) <= Min(length, a.length)
    ensures Aligned(e, a.(published := Max(a.published, PublishTarget(e, a, length, final))))
  {
    var progress := Min(length, a.length);
    RoundDownIsTimes(progress, BlockSize(e));
    MultipleTimes(Quot(progress, BlockSize(e)), BlockSize(e));
  }

  // ---------------------------------------------------------------- sums of pins

  lemma {:induction false} SumAddPins(s: seq<nat>, lo: nat, hi: nat)
    requires lo <= hi <= |s|
    ensures Sum(AddPins(s, lo, hi)) == Sum(s) + (hi - lo)
  {
    if s != [] {
      var t := AddPins(s, lo, hi);
      if hi == 0 {
        assert t == s;
      } else if lo == 0 {
        SumAddPins(s[1..], 0, hi - 1);
        assert t[1..] == AddPins(s[1..], 0, hi - 1);
      } else {
        SumAddPins(s[1..], lo - 1, hi - 1);
        assert t[1..] == AddPins(s[1..], lo - 1, hi - 1);
      }
    }
  }

  // ---------------------------------------------------------------- operations keep well-formedness

  lemma PinRangeWF(e: Entry, o: nat, l: nat)
    requires WF(e) && Inside(e, o, l)
    ensures RegionLo(e, o) <= RegionHi(e, o, l) <= |e.pins|
    ensures WF(AddRegionPins(e, o, l)) && WF(DropRegionPins(e, o, l))
  {
    RangeBounds(e, o, l);
    SumAddPins(e.pins, RegionLo(e, o), RegionHi(e, o, l));
    AlignedFrame(e, AddRegionPins(e, o, l));
    AlignedFrame(e, DropRegionPins(e, o, l));
  }

  /** Any change of page states, part states or counters alone leaves the claims aligned. */
  lemma AlignedFrame(e: Entry, e': Entry)
    requires e.blockPages > 0 && e'.blockPages == e.blockPages && e'.size == e.size
    ensures forall a :: Aligned(e', a) <==> Aligned(e, a)
  {
  }

  lemma EndFetchWF(e: Entry, i: nat)
    requires WF(e) && i < |e.claims|
    ensures WF(EndFetch(e, i))
  {
    hide PartsTile, RoundDown, Sum;
    assert Aligned(e, e.claims[i]);
    PinRangeWF(e, e.claims[i].offset, e.claims[i].length);
    AlignedFrame(e, EndFetch(e, i));
    hide Aligned;
  }

  lemma ClaimBlocksPages(e: Entry, start: nat, stop: nat)
    requires WF(e) && start < stop <= |e.pins|
    ensures WF(ClaimBlocks(e, start, stop))
    ensures forall p | 0 <= p < |e.pages| :: ClaimBlocks(e, start, stop).pages[p] ==
              if InTail(NewFetch(e, start, stop), p) then ReadPending else e.pages[p]
  {
    NewFetchTail(e, start, stop);
    AlignedFrame(e, ClaimBlocks(e, start, stop));
    forall p | 0 <= p < |e.pages| ensures ClaimBlocks(e, start, stop).pages[p] ==
              if InTail(NewFetch(e, start, stop), p) then ReadPending else e.pages[p]
    {
      QuotBelow(p, e.blockPages, start);
      QuotBelow(p, e.blockPages, stop);
    }
  }

  lemma NewPriorsSettled(e: Entry, start: nat, stop: nat)
    requires WF(e) && start < stop <= |e.pins|
    requires forall b | start <= b < stop :: !BlockBusy(e, b)
    ensures forall k | 0 <= k < |NewFetch(e, start, stop).priorStates| ::
              NewFetch(e, start, stop).priorStates[k] == Clean || NewFetch(e, start, stop).priorStates[k] == Missing
  {
    BlockSpan(e, start, stop);
    var f := NewFetch(e, start, stop);
    forall k | 0 <= k < |f.priorStates| ensures f.priorStates[k] == Clean || f.priorStates[k] == Missing {
      var p := Times(start, e.blockPages) + k;
      QuotBelow(p, e.blockPages, start);
      QuotBelow(p, e.blockPages, stop);
      assert !BlockBusy(e, Block(e, p));
    }
  }

  // ---------------------------------------------------------------- steps that keep ownership

  /** A block without pending or bad pages belongs to nobody. */
  lemma IdleBlockUnowned(pages: seq<PageState>, claims: seq<ActiveFetch>, ev: seq<Evicting>, b: nat, p: nat)
    requires Owned(pages, claims, ev, b) && p < |pages|
    requires forall q | 0 <= q < |pages| && Quot(q, b) == Quot(p, b) :: pages[q] != ReadPending && pages[q] != Bad
    ensures NoTail(claims, p) && NoEviction(ev, b, p)
  {
    assert pages[p] != ReadPending && pages[p] != Bad;
    forall k | 0 <= k < |ev| ensures ev[k].block != Quot(p, b) {
      assert EvictionHolds(pages, claims, b, ev[k]);
      var q :| q in ev[k].taken;
      assert Quot(q, b) == ev[k].block && pages[q] == ReadPending;
    }
  }

  /** A clean page belongs to nobody, and neither does its block. */
  lemma CleanUnowned(pages: seq<PageState>, claims: seq<ActiveFetch>, ev: seq<Evicting>, b: nat, p: nat)
    requires Owned(pages, claims, ev, b) && p < |pages| && pages[p] == Clean
    ensures NoTail(claims, p) && NoEviction(ev, b, p)
  {
    forall k | 0 <= k < |ev| ensures ev[k].block != Quot(p, b) {
      assert EvictionHolds(pages, claims, b, ev[k]);
    }
  }

  /** A new claim over pages without owner. */
  lemma AddClaim(pages: seq<PageState>, claims: seq<ActiveFetch>, ev: seq<Evicting>, b: nat,
                 f: ActiveFetch, pages': seq<PageState>)
    requires Owned(pages, claims, ev, b) && |pages'| == |pages|
    requires forall p | 0 <= p < |pages| && InTail(f, p) :: NoTail(claims, p) && NoEviction(ev, b, p)
    requires forall p | 0 <= p < |pages| :: pages'[p] == if InTail(f, p) then ReadPending else pages[p]
    requires forall k | 0 <= k < |f.priorStates| :: f.priorStates[k] == Clean || f.priorStates[k] == Missing
    ensures Owned(pages', claims + [f], ev, b)
  {
    var claims' := claims + [f];
    forall k | 0 <= k < |ev| ensures EvictionHolds(pages', claims', b, ev[k]) {
      assert EvictionHolds(pages, claims, b, ev[k]);
      forall p | 0 <= p < |pages| && Quot(p, b) == ev[k].block ensures !InTail(f, p) {
        assert !NoEviction(ev, b, p);
      }
    }
    forall p | 0 <= p < |pages| && pages'[p] == ReadPending ensures HasOwner(claims', ev, p) {
      if InTail(f, p) {
        assert InTail(claims'[|claims|], p);
      } else {
        assert HasOwner(claims, ev, p);
        if i :| 0 <= i < |claims| && InTail(claims[i], p) { assert InTail(claims'[i], p); }
      }
    }
  }

  /** Claim `i` gives up part of its tail, whose pages are settled. */
  lemma ShrinkClaim(pages: seq<PageState>, claims: seq<ActiveFetch>, ev: seq<Evicting>, b: nat,
                    i: nat, a: ActiveFetch, pages': seq<PageState>)
    requires Owned(pages, claims, ev, b) && |pages'| == |pages| && i < |claims|
    requires a.priorStates == claims[i].priorStates
    requires forall p | 0 <= p < |pages| :: InTail(a, p) ==> InTail(claims[i], p)
    requires forall p | 0 <= p < |pages| ::
               if InTail(claims[i], p) && !InTail(a, p) then pages'[p] != ReadPending else pages'[p] == pages[p]
    ensures Owned(pages', claims[i := a], ev, b)
  {
    var claims' := claims[i := a];
    forall k | 0 <= k < |ev| ensures EvictionHolds(pages', claims', b, ev[k]) {
      assert EvictionHolds(pages, claims, b, ev[k]);
      forall p | 0 <= p < |pages| && Quot(p, b) == ev[k].block
        ensures pages'[p] == pages[p] && NoTail(claims', p)
      {
        assert NoTail(claims, p) && !InTail(claims[i], p);
      }
    }
    forall p | 0 <= p < |pages| && pages'[p] == ReadPending ensures HasOwner(claims', ev, p) {
      assert HasOwner(claims, ev, p);
      if j :| 0 <= j < |claims| && InTail(claims[j], p) { assert InTail(claims'[j], p); }
    }
  }

  /** A claim whose tail is empty can be dropped. */
  lemma DropClaim(pages: seq<PageState>, claims: seq<ActiveFetch>, ev: seq<Evicting>, b: nat, i: nat)
    requires Owned(pages, claims, ev, b) && i < |claims|
    requires forall p | 0 <= p < |pages| :: !InTail(claims[i], p)
    ensures Owned(pages, Without(claims, i), ev, b)
  {
    var claims' := Without(claims, i);
    assert forall j | 0 <= j < |claims'| :: claims'[j] == claims[if j < i then j else j + 1];
    forall k | 0 <= k < |ev| ensures EvictionHolds(pages, claims', b, ev[k]) {
      assert EvictionHolds(pages, claims, b, ev[k]);
      forall p | 0 <= p < |pages| && Quot(p, b) == ev[k].block ensures NoTail(claims', p) {
        assert NoTail(claims, p);
      }
    }
    forall p | 0 <= p < |pages| && pages[p] == ReadPending ensures HasOwner(claims', ev, p) {
      assert HasOwner(claims, ev, p);
      if j :| 0 <= j < |claims| && InTail(claims[j], p) {
        assert j != i && InTail(claims'[if j < i then j else j - 1], p);
      }
    }
  }

  /** Claim `i` ends; its tail has been settled. */
  lemma EndClaim(pages: seq<PageState>, claims: seq<ActiveFetch>, ev: seq<Evicting>, b: nat,
                 i: nat, pages': seq<PageState>)
    requires Owned(pages, claims, ev, b) && |pages'| == |pages| && i < |claims|
    requires forall p | 0 <= p < |pages| ::
               if InTail(claims[i], p) then pages'[p] != ReadPending else pages'[p] == pages[p]
    ensures Owned(pages', Without(claims, i), ev, b)
  {
    var a := claims[i].(published := claims[i].length);
    assert forall p: nat :: !InTail(a, p);
    ShrinkClaim(pages, claims, ev, b, i, a, pages');
    DropClaim(pages', claims[i := a], ev, b, i);
    assert Without(claims[i := a], i) == Without(claims, i);
  }

  /** Page `p` lies in the claimed range, published or not. */
  predicate InRange(a: ActiveFetch, p: nat) { FirstPage(a.offset) <= p < TailHi(a) }

  ghost predicate PageReserved(claims: seq<ActiveFetch>, ev: seq<Evicting>, b: nat, i: nat, p: nat)
    requires b > 0
  {
    NoEviction(ev, b, p) && forall j | 0 <= j < |claims| && j != i :: !InTail(claims[j], p)
  }

  /** Nobody but claim `i` may hold a page of its range. */
  ghost predicate RangeReserved(n: nat, claims: seq<ActiveFetch>, ev: seq<Evicting>, b: nat, i: nat)
    requires b > 0 && i < |claims|
  {
    forall p | 0 <= p < n && InRange(claims[i], p) :: PageReserved(claims, ev, b, i, p)
  }

  /** A verifying claim takes its whole range back as its tail. */
  lemma RetryClaim(pages: seq<PageState>, claims: seq<ActiveFetch>, ev: seq<Evicting>, b: nat,
                   i: nat, a: ActiveFetch, pages': seq<PageState>)
    requires Owned(pages, claims, ev, b) && |pages'| == |pages| && i < |claims|
    requires RangeReserved(|pages|, claims, ev, b, i) && a.priorStates == claims[i].priorStates
    requires forall p: nat :: InTail(a, p) <==> InRange(claims[i], p)
    requires forall p: nat :: InTail(claims[i], p) ==> InTail(a, p)
    requires forall p | 0 <= p < |pages| :: pages'[p] == if InTail(a, p) then ReadPending else pages[p]
    ensures Owned(pages', claims[i := a], ev, b)
  {
    var claims' := claims[i := a];
    forall k | 0 <= k < |ev| ensures EvictionHolds(pages', claims', b, ev[k]) {
      assert EvictionHolds(pages, claims, b, ev[k]);
      forall p | 0 <= p < |pages| && Quot(p, b) == ev[k].block
        ensures NoTail(claims', p) && pages'[p] == pages[p]
      {
        assert NoTail(claims, p) && !PageReserved(claims, ev, b, i, p);
        assert !InTail(a, p);
      }
    }
    forall j, p | 0 <= j < |claims| && j != i && 0 <= p < |pages| && InTail(a, p) ensures !InTail(claims[j], p) {
      assert PageReserved(claims, ev, b, i, p);
    }
    forall p | 0 <= p < |pages| && pages'[p] == ReadPending ensures HasOwner(claims', ev, p) {
      if InTail(a, p) {
        assert InTail(claims'[i], p);
      } else {
        assert HasOwner(claims, ev, p);
        if j :| 0 <= j < |claims| && InTail(claims[j], p) { assert InTail(claims'[j], p); }
      }
    }
  }

  /** Pages without owner may take any settled state; owned tail pages may become bad. */
  lemma ChangePages(pages: seq<PageState>, claims: seq<ActiveFetch>, ev: seq<Evicting>, b: nat,
                    pages': seq<PageState>)
    requires Owned(pages, claims, ev, b) && |pages'| == |pages|
    requires forall p | 0 <= p < |pages| && pages'[p] != pages[p] ::
               pages'[p] != ReadPending && NoEviction(ev, b, p) && (pages'[p] == Bad || NoTail(claims, p))
    ensures Owned(pages', claims, ev, b)
  {
    forall k | 0 <= k < |ev| ensures EvictionHolds(pages', claims, b, ev[k]) {
      assert EvictionHolds(pages, claims, b, ev[k]);
      forall p | 0 <= p < |pages| && Quot(p, b) == ev[k].block ensures pages'[p] == pages[p] {
        assert !NoEviction(ev, b, p);
      }
    }
    forall i, p | 0 <= i < |claims| && 0 <= p < |pages| && InTail(claims[i], p)
      ensures pages'[p] == ReadPending || pages'[p] == Bad
    {
      assert !NoTail(claims, p);
    }
  }

  /** An eviction takes the clean pages of an idle block. */
  lemma AddEviction(pages: seq<PageState>, claims: seq<ActiveFetch>, ev: seq<Evicting>, b: nat,
                    v: Evicting, pages': seq<PageState>)
    requires Owned(pages, claims, ev, b) && |pages'| == |pages| && v.taken != {}
    requires forall p | 0 <= p < |pages| && Quot(p, b) == v.block :: pages[p] == Clean || pages[p] == Missing
    requires forall p :: p in v.taken <==> 0 <= p < |pages| && Quot(p, b) == v.block && pages[p] == Clean
    requires forall p | 0 <= p < |pages| :: pages'[p] == if p in v.taken then ReadPending else pages[p]
    ensures Owned(pages', claims, ev + [v], b)
  {
    var ev' := ev + [v];
    forall p | 0 <= p < |pages| && Quot(p, b) == v.block ensures NoTail(claims, p) && NoEviction(ev, b, p) {
      IdleBlockUnowned(pages, claims, ev, b, p);
    }
    var q :| q in v.taken;
    assert NoEviction(ev, b, q);
    forall k | 0 <= k < |ev'| ensures EvictionHolds(pages', claims, b, ev'[k]) {
      if k < |ev| { assert EvictionHolds(pages, claims, b, ev[k]); }
    }
    forall p | 0 <= p < |pages| && pages'[p] == ReadPending ensures HasOwner(claims, ev', p) {
      if p in v.taken {
        assert p in ev'[|ev|].taken;
      } else {
        assert HasOwner(claims, ev, p);
        if k :| 0 <= k < |ev| && p in ev[k].taken { assert p in ev'[k].taken; }
      }
    }
  }

  /** An eviction ends and settles the pages it took. */
  lemma EndEviction(pages: seq<PageState>, claims: seq<ActiveFetch>, ev: seq<Evicting>, b: nat,
                    k: nat, to: PageState, pages': seq<PageState>)
    requires Owned(pages, claims, ev, b) && |pages'| == |pages| && k < |ev| && to != ReadPending
    requires forall p | 0 <= p < |pages| :: pages'[p] == if p in ev[k].taken then to else pages[p]
    ensures Owned(pages', claims, Without(ev, k), b)
  {
    hide EvictionHolds, TailsPending, TailsDisjoint, HasOwner, PriorsSettled;
    var ev' := Without(ev, k);
    EndEvictionTails(pages, claims, b, ev[k], to, pages');
    forall j | 0 <= j < |ev'| ensures EvictionHolds(pages', claims, b, ev'[j]) {
      EndEvictionOthers(pages, claims, ev, b, k, to, pages', j);
    }
    forall p | 0 <= p < |pages| && pages'[p] == ReadPending ensures HasOwner(claims, ev', p) {
      EndEvictionOwner(pages, claims, ev, b, k, to, pages', p);
    }
    EndEvictionBlocks(ev, k);
  }

  lemma EndEvictionBlocks(ev: seq<Evicting>, k: nat)
    requires k < |ev| && forall j, l | 0 <= j < l < |ev| :: ev[j].block != ev[l].block
    ensures var ev' := Without(ev, k);
            forall j, l | 0 <= j < l < |ev'| :: ev'[j].block != ev'[l].block
  {
    var ev' := Without(ev, k);
    forall j, l | 0 <= j < l < |ev'| ensures ev'[j].block != ev'[l].block {
      var j0, l0 := if j < k then j else j + 1, if l < k then l else l + 1;
      assert ev'[j] == ev[j0] && ev'[l] == ev[l0];
    }
  }

  lemma EndEvictionOthers(pages: seq<PageState>, claims: seq<ActiveFetch>, ev: seq<Evicting>, b: nat,
                          k: nat, to: PageState, pages': seq<PageState>, j: nat)
    requires Owned(pages, claims, ev, b) && |pages'| == |pages| && k < |ev| && j < |ev| - 1
    requires forall p | 0 <= p < |pages| :: pages'[p] == if p in ev[k].taken then to else pages[p]
    ensures EvictionHolds(pages', claims, b, Without(ev, k)[j])
  {
    var l := if j < k then j else j + 1;
    hide EvictionHolds, TailsPending, TailsDisjoint, HasOwner, PriorsSettled;
    assert EvictionHolds(pages, claims, b, ev[l]) && EvictionHolds(pages, claims, b, ev[k]);
    assert ev[l].block != ev[k].block;
    OtherEviction(pages, claims, b, ev[k], ev[l], to, pages');
  }

  lemma EndEvictionOwner(pages: seq<PageState>, claims: seq<ActiveFetch>, ev: seq<Evicting>, b: nat,
                         k: nat, to: PageState, pages': seq<PageState>, p: nat)
    requires Owned(pages, claims, ev, b) && |pages'| == |pages| && k < |ev| && to != ReadPending
    requires p < |pages| && pages'[p] == ReadPending
    requires pages'[p] == if p in ev[k].taken then to else pages[p]
    ensures HasOwner(claims, Without(ev, k), p)
  {
    hide EvictionHolds, TailsPending, TailsDisjoint, PriorsSettled;
    OwnerSurvives(claims, ev, k, p);
  }

  lemma EndEvictionTails(pages: seq<PageState>, claims: seq<ActiveFetch>, b: nat, v: Evicting, to: PageState,
                         pages': seq<PageState>)
    requires b > 0 && TailsPending(pages, claims) && EvictionHolds(pages, claims, b, v) && |pages'| == |pages|
    requires forall p | 0 <= p < |pages| :: pages'[p] == if p in v.taken then to else pages[p]
    ensures TailsPending(pages', claims)
  {
    forall i, p | 0 <= i < |claims| && 0 <= p < |pages| && InTail(claims[i], p) ensures p !in v.taken {
      assert !NoTail(claims, p);
    }
  }

  lemma OwnerSurvives(claims: seq<ActiveFetch>, ev: seq<Evicting>, k: nat, p: nat)
    requires k < |ev| && HasOwner(claims, ev, p) && p !in ev[k].taken
    ensures HasOwner(claims, Without(ev, k), p)
  {
    if j :| 0 <= j < |ev| && p in ev[j].taken {
      assert p in Without(ev, k)[if j < k then j else j - 1].taken;
    }
  }

  lemma OtherEviction(pages: seq<PageState>, claims: seq<ActiveFetch>, b: nat,
                      v: Evicting, w: Evicting, to: PageState, pages': seq<PageState>)
    requires b > 0 && |pages'| == |pages| && v.block != w.block
    requires EvictionHolds(pages, claims, b, v) && EvictionHolds(pages, claims, b, w)
    requires forall p | 0 <= p < |pages| :: pages'[p] == if p in v.taken then to else pages[p]
    ensures EvictionHolds(pages', claims, b, w)
  {
  }

  /** Renaming nothing: claims with the same tails own the same pages. */
  lemma SameTails(pages: seq<PageState>, claims: seq<ActiveFetch>, ev: seq<Evicting>, b: nat,
                  i: nat, a: ActiveFetch)
    requires Owned(pages, claims, ev, b) && i < |claims|
    requires a.priorStates == claims[i].priorStates
    requires forall p: nat :: InTail(a, p) <==> InTail(claims[i], p)
    ensures Owned(pages, claims[i := a], ev, b)
  {
    ShrinkClaim(pages, claims, ev, b, i, a, pages);
  }

  // ---------------------------------------------------------------- what ownership gives

  /** A pending page has exactly one owner, and no block mixes pending pages with clean ones. */
  lemma OneOwner(e: Entry, ev: seq<Evicting>, p: nat)
    requires Own(e, ev) && p < |e.pages| && e.pages[p] == ReadPending
    ensures HasOwner(e.claims, ev, p)
    ensures forall i, j | 0 <= i < |e.claims| && 0 <= j < |e.claims| ::
              InTail(e.claims[i], p) && InTail(e.claims[j], p) ==> i == j
    ensures forall k, l | 0 <= k < |ev| && 0 <= l < |ev| ::
              p in ev[k].taken && p in ev[l].taken ==> k == l
    ensures forall i, k | 0 <= i < |e.claims| && 0 <= k < |ev| ::
              !(InTail(e.claims[i], p) && p in ev[k].taken)
    ensures forall q | 0 <= q < |e.pages| && Block(e, q) == Block(e, p) :: e.pages[q] != Clean
  {
    assert HasOwner(e.claims, ev, p);
    assert forall k | 0 <= k < |ev| :: EvictionHolds(e.pages, e.claims, e.blockPages, ev[k]);
    forall q | 0 <= q < |e.pages| && Block(e, q) == Block(e, p) ensures e.pages[q] != Clean {
      if i :| 0 <= i < |e.claims| && InTail(e.claims[i], p) {
        TailWholeBlocks(e, e.claims[i], p, q);
      }
    }
  }

  /** The abort of `finish_claim` cannot fire: pages an eviction took are still pending when it ends. */
  lemma EvictionNeverAborts(e: Entry, ev: seq<Evicting>, k: nat)
    requires Own(e, ev) && k < |ev|
    ensures ev[k].taken != {} && forall p | p in ev[k].taken :: p < |e.pages| && e.pages[p] == ReadPending
  {
    assert EvictionHolds(e.pages, e.claims, e.blockPages, ev[k]);
  }
}
