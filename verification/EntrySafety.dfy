/** Every event keeps the safety invariant of a generation. */
module EntrySafety {
  import opened Geometry
  import opened EntryModel
  import opened EntryOwnership
  import opened EntryWorld
  import opened EntryLedger
  import opened EntryGuards

  /** Only flags, counters of the clock, or reference bits changed. */
  ghost predicate Cosmetic(e: Entry, e': Entry)
  {
    e' == e.(referenced := e'.referenced, hand := e'.hand, stale := e'.stale, exported := e'.exported,
             evictionDisabled := e'.evictionDisabled, dirty := e'.dirty)
    && |e'.referenced| == |e.referenced| && e'.hand < HAND_LIMIT
  }

  lemma KeepCosmetic(w: World, e': Entry)
    requires Safe(w) && Cosmetic(w.e, e')
    ensures Safe(w.(e := e'))
  {
    AlignedFrame(w.e, e');
    LedgerFrame(w.e, w.readers, e');
  }

  // ---------------------------------------------------------------- fetches

  /** What a successful claim did. */
  lemma ClaimedBlocks(e: Entry, o: nat, l: nat, x: nat) returns (start: nat, stop: nat)
    requires WF(e) && ClaimFetch(e, o, l, x).1.Claimed?
    ensures start < stop <= |e.pins| && forall b | start <= b < stop :: !BlockBusy(e, b)
    ensures ClaimFetch(e, o, l, x).0 == ClaimBlocks(e, start, stop)
    ensures ClaimFetch(e, o, l, x).1.claim.id == e.nextId
    ensures !e.stale && !e.dirty && !e.exported
  {
    var len := Min(l, e.size - o);
    RangeBounds(e, o, len);
    var missing := FirstNot(e.pages, FirstPage(o), EndPage(o, len), Clean);
    start := Block(e, missing);
    stop := ScanStop(e, start, start, ScanLimit(e, o + len, start, x));
  }

  lemma UnpinnedUnheld(w: World, r: nat)
    requires Safe(w) && r < |w.e.pins| && w.e.pins[r] == 0
    ensures Unheld(w.e.blockPages, w.e.parts, w.e.partStates, w.readers, w.e.claims, r)
  {
    HeldRegion(w.e, w.readers, r);
  }

  lemma ClaimOwn(e: Entry, ev: seq<Evicting>, start: nat, stop: nat)
    requires Own(e, ev) && start < stop <= |e.pins| && forall b | start <= b < stop :: !BlockBusy(e, b)
    ensures Own(ClaimBlocks(e, start, stop), ev)
  {
    var f := NewFetch(e, start, stop);
    ClaimBlocksPages(e, start, stop);
    NewFetchTail(e, start, stop);
    NewPriorsSettled(e, start, stop);
    forall p | 0 <= p < |e.pages| && InTail(f, p) ensures NoTail(e.claims, p) && NoEviction(ev, e.blockPages, p) {
      assert !BlockBusy(e, Block(e, p));
      IdleBlockUnowned(e.pages, e.claims, ev, e.blockPages, p);
    }
    AddClaim(e.pages, e.claims, ev, e.blockPages, f, ClaimBlocks(e, start, stop).pages);
  }

  lemma KeepWrite(w: World, c: FetchClaim, data: seq<Byte>)
    requires Safe(w) && Enabled(w, Write(c, data))
    ensures Safe(Apply(w, Write(c, data)))
  {
    var w' := Apply(w, Write(c, data));
    var i := Find(w.e.claims, c);
    assert forall j | 0 <= j < |w.e.claims| ::
        Unready(w.e.claims[j], w'.progress) == Unready(w.e.claims[j], w.progress);
    forall k, p | 0 <= k < |w.readers| && w.readers[k].clean && 0 <= p < |w.e.pages| &&
                  Covers(w.e.blockPages, w.readers[k].offset, w.readers[k].length, p)
      ensures PageStable(w.e.claims, w.ev, w.e.blockPages, w'.progress, p)
    {
      assert PageStable(w.e.claims, w.ev, w.e.blockPages, w.progress, p);
    }
  }

  lemma EntryShape(e: Entry)
    requires WF(e)
    ensures e.blockPages > 0 && |e.parts| == |e.partStates|
  {
  }

  lemma ClaimShape(e: Entry, i: nat)
    requires WF(e) && i < |e.claims|
    ensures e.blockPages > 0 && |e.parts| == |e.partStates| && Inside(e, e.claims[i].offset, e.claims[i].length)
  {
    assert Aligned(e, e.claims[i]);
  }

  lemma PagesWF(e: Entry, pages: seq<PageState>)
    requires WF(e) && |pages| == |e.pages|
    ensures WF(e.(pages := pages))
  {
    AlignedFrame(e, e.(pages := pages));
  }

  lemma EndModes(e: Entry, e': Entry, progress: map<nat, Progress>, i: nat)
    requires Modes(e) && ProgressOk(e.claims, progress) && i < |e.claims|
    requires e'.claims == Without(e.claims, i) && e'.manifest == e.manifest
    ensures Modes(e') && ProgressOk(e'.claims, progress)
  {
  }

  lemma EndLedger(e: Entry, readers: seq<Reader>, i: nat, pages: seq<PageState>)
    requires WF(e) && Ledger(e, readers) && i < |e.claims| && |pages| == |e.pages|
    ensures WF(e.(pages := pages)) && e.claims[i].length > 0
    ensures WF(EndFetch(e.(pages := pages), i)) && Ledger(EndFetch(e.(pages := pages), i), readers)
  {
    PagesWF(e, pages);
    ClaimShape(e, i);
    EndFetchWF(e.(pages := pages), i);
    LedgerFrame(e, readers, e.(pages := pages));
    DropFetch(e.(pages := pages), readers, i);
  }

  /** `e'` is `e` but for pages, claims, pins and their total. */
  ghost predicate ClaimsOnly(e: Entry, e': Entry)
  {
    e' == e.(pages := e'.pages, claims := e'.claims, pins := e'.pins, pinnedRegions := e'.pinnedRegions,
             nextId := e'.nextId)
    && |e'.pages| == |e.pages| && |e'.pins| == |e.pins|
  }

  lemma EndFields(e: Entry, i: nat, pages: seq<PageState>)
    requires e.blockPages > 0 && i < |e.claims| && e.claims[i].length > 0 && |pages| == |e.pages|
    ensures var e' := EndFetch(e.(pages := pages), i);
            ClaimsOnly(e, e') && e'.pages == pages && e'.claims == Without(e.claims, i)
  {
  }

  /** The parts of the invariant that speak about claims carry over to the new entry. */
  lemma KeepClaimsOnly(w: World, e': Entry, progress': map<nat, Progress>, file: seq<Byte>)
    requires Safe(w) && ClaimsOnly(w.e, e') && |file| == |w.file|
    requires WF(e') && Owned(e'.pages, e'.claims, w.ev, w.e.blockPages) && Ledger(e', w.readers)
    requires Guarded(|w.e.pages|, e'.claims, w.ev, w.e.blockPages, w.e.parts, w.e.partStates, w.readers, progress')
    requires Modes(e') && ProgressOk(e'.claims, progress')
    ensures Safe(w.(e := e', progress := progress', file := file))
  {
    hide Owned, Ledger, PartsGuarded, FetchesGuarded, ReadersGuarded, PartRetriesGuarded, Modes, ProgressOk, Aligned,
         PartsTile, Sum;
  }

  /** Ending claim `i` after settling its tail keeps everything. */
  lemma KeepEnd(w: World, i: nat, pages: seq<PageState>, file: seq<Byte>)
    requires Safe(w) && i < |w.e.claims| && |pages| == |w.e.pages| && |file| == |w.file|
    requires forall p | 0 <= p < |pages| ::
               if InTail(w.e.claims[i], p) then pages[p] != ReadPending else pages[p] == w.e.pages[p]
    ensures WF(w.e.(pages := pages)) && w.e.claims[i].length > 0
    ensures Safe(w.(e := EndFetch(w.e.(pages := pages), i), file := file))
  {
    hide WF, Owned, Ledger, PartsGuarded, FetchesGuarded, ReadersGuarded, PartRetriesGuarded, Modes, ProgressOk,
         OpsLedger, EndFetch;
    ClaimShape(w.e, i);
    EndLedger(w.e, w.readers, i, pages);
    EndFields(w.e, i, pages);
    var e' := EndFetch(w.e.(pages := pages), i);
    EndClaim(w.e.pages, w.e.claims, w.ev, w.e.blockPages, i, pages);
    GuardDrop(|w.e.pages|, w.e.claims, w.ev, w.e.blockPages, w.e.parts, w.e.partStates, w.readers, w.progress, i);
    EndModes(w.e, e', w.progress, i);
    KeepClaimsOnly(w, e', w.progress, file);
    assert w.(progress := w.progress) == w;
  }

  /** Publication gives up a prefix of the tail: the pages between the old and the new tail. */
  ghost predicate Published(e: Entry, e': Entry, i: nat, upTo: nat)
    requires i < |e.claims|
  {
    && ClaimsOnly(e, e') && e'.pins == e.pins && e'.pinnedRegions == e.pinnedRegions && e'.nextId == e.nextId
    && |e'.claims| == |e.claims|
    && e'.claims == e.claims[i := e.claims[i].(published := e'.claims[i].published)]
    && e.claims[i].published <= e'.claims[i].published <= Max(e.claims[i].published, upTo)
    && e'.claims[i].published <= e.claims[i].length
    && (forall p | 0 <= p < |e.pages| :: e'.pages[p] ==
          if TailLo(e.claims[i]) <= p < TailLo(e'.claims[i]) && e.pages[p] == ReadPending then Clean else e.pages[p])
  }

  lemma PublishFields(e: Entry, c: FetchClaim, published: nat, upTo: nat, final: bool)
    requires WF(e)
    ensures var i, e' := Find(e.claims, c), PublishClean(e, c, published, upTo, final);
            e' == e || (i < |e.claims| && Published(e, e', i, upTo) && Aligned(e, e'.claims[i]))
  {
    hide RoundDown, PartsTile, Sum;
    var i := Find(e.claims, c);
    if i < |e.claims| { PublishAligned(e, e.claims[i], upTo, final); }
  }

  lemma PublishedWF(e: Entry, e': Entry, i: nat, upTo: nat)
    requires WF(e) && i < |e.claims| && Published(e, e', i, upTo) && Aligned(e, e'.claims[i])
    ensures WF(e')
  {
    hide PartsTile, Sum;
    AlignedFrame(e, e');
  }

  lemma PublishedTail(e: Entry, e': Entry, i: nat, upTo: nat)
    requires WF(e) && i < |e.claims| && Published(e, e', i, upTo)
    ensures TailLo(e.claims[i]) <= TailLo(e'.claims[i]) <= TailHi(e.claims[i]) == TailHi(e'.claims[i])
  {
    ClaimShape(e, i);
  }

  lemma KeepPublished(w: World, e': Entry, i: nat, upTo: nat)
    requires Safe(w) && i < |w.e.claims| && Published(w.e, e', i, upTo) && Aligned(w.e, e'.claims[i])
    requires w.e.claims[i].id in w.progress && upTo <= w.progress[w.e.claims[i].id].written
    ensures Safe(w.(e := e'))
  {
    hide WF, Owned, Ledger, PartsGuarded, FetchesGuarded, ReadersGuarded, PartRetriesGuarded, OpsLedger, Aligned;
    ClaimShape(w.e, i);
    PublishedWF(w.e, e', i, upTo);
    PublishedTail(w.e, e', i, upTo);
    ShrinkClaim(w.e.pages, w.e.claims, w.ev, w.e.blockPages, i, e'.claims[i], e'.pages);
    LedgerFrame(w.e, w.readers, e');
    GuardShrink(|w.e.pages|, w.e.claims, w.ev, w.e.blockPages, w.e.parts, w.e.partStates, w.readers,
                w.progress, i, e'.claims[i]);
    PublishModes(w.e, e', w.progress, i);
    KeepClaimsOnly(w, e', w.progress, w.file);
    assert w.(progress := w.progress, file := w.file) == w;
  }

  lemma PublishModes(e: Entry, e': Entry, progress: map<nat, Progress>, i: nat)
    requires Modes(e) && ProgressOk(e.claims, progress) && i < |e.claims| && e'.manifest == e.manifest
    requires |e'.claims| == |e.claims| && e'.claims == e.claims[i := e.claims[i].(published := e'.claims[i].published)]
    requires e.claims[i].published <= e'.claims[i].published <= e.claims[i].length
    requires e'.claims[i].published <= progress[e.claims[i].id].written
    ensures Modes(e') && ProgressOk(e'.claims, progress)
  {
  }

  lemma KeepPublish(w: World, c: FetchClaim, published: nat, upTo: nat, final: bool)
    requires Safe(w) && Enabled(w, Publish(c, published, upTo, final))
    ensures Safe(Apply(w, Publish(c, published, upTo, final)))
  {
    hide WF, Owned, Ledger, PartsGuarded, FetchesGuarded, ReadersGuarded, PartRetriesGuarded, Modes,
         OpsLedger, PublishClean, Aligned;
    PublishFields(w.e, c, published, upTo, final);
    var e' := PublishClean(w.e, c, published, upTo, final);
    if e' != w.e {
      KeepPublished(w, e', Find(w.e.claims, c), upTo);
    } else {
      assert w.(e := e') == w;
    }
  }

  lemma ClaimGuards(w: World, start: nat, stop: nat, progress': map<nat, Progress>)
    requires Safe(w) && start < stop <= |w.e.pins| && forall b | start <= b < stop :: !BlockBusy(w.e, b)
    requires forall i | 0 <= i < |w.e.claims| :: Unready(w.e.claims[i], w.progress) ==> Unready(w.e.claims[i], progress')
    ensures Guarded(|w.e.pages|, w.e.claims + [NewFetch(w.e, start, stop)], w.ev, w.e.blockPages, w.e.parts,
                    w.e.partStates, w.readers, progress')
  {
    hide Owned, Ledger, PartsGuarded, FetchesGuarded, ReadersGuarded, PartRetriesGuarded, Modes, ProgressOk, OpsLedger,
         Unheld, Sum, PartsTile;
    var f := NewFetch(w.e, start, stop);
    NewFetchTail(w.e, start, stop);
    forall p | 0 <= p < |w.e.pages| && InTail(f, p)
      ensures Unheld(w.e.blockPages, w.e.parts, w.e.partStates, w.readers, w.e.claims, Quot(p, w.e.blockPages))
    {
      BlockInRange(w.e, p);
      assert !BlockBusy(w.e, Block(w.e, p));
      UnpinnedUnheld(w, Block(w.e, p));
    }
    GuardAddClaim(|w.e.pages|, w.e.claims, w.ev, w.e.blockPages, w.e.parts, w.e.partStates, w.readers,
                  w.progress, f, progress');
  }

  lemma ClaimModes(e: Entry, e': Entry, f: ActiveFetch, progress: map<nat, Progress>)
    requires Modes(e) && ProgressOk(e.claims, progress) && e'.manifest == e.manifest && e'.claims == e.claims + [f]
    requires !f.verifying && !f.retrying && f.published == 0
    requires forall i | 0 <= i < |e.claims| :: e.claims[i].id != f.id
    ensures Modes(e') && ProgressOk(e'.claims, progress[f.id := Progress(0, false)])
    ensures forall i | 0 <= i < |e.claims| ::
              Unready(e.claims[i], progress) ==> Unready(e.claims[i], progress[f.id := Progress(0, false)])
  {
  }

  lemma ClaimFields(e: Entry, start: nat, stop: nat)
    requires WF(e) && start < stop <= |e.pins|
    ensures ClaimsOnly(e, ClaimBlocks(e, start, stop)) && ClaimBlocks(e, start, stop).pins == e.pins
    ensures ClaimBlocks(e, start, stop).claims == e.claims + [NewFetch(e, start, stop)]
    ensures var f := NewFetch(e, start, stop);
            !f.verifying && !f.retrying && f.published == 0 && f.id == e.nextId
    ensures forall i | 0 <= i < |e.claims| :: e.claims[i].id != e.nextId
    ensures e.blockPages > 0 && |e.parts| == |e.partStates|
  {
    hide Aligned, Sum, PartsTile;
  }

  lemma KeepClaimBlocks(w: World, start: nat, stop: nat)
    requires Safe(w) && start < stop <= |w.e.pins| && forall b | start <= b < stop :: !BlockBusy(w.e, b)
    ensures Safe(w.(e := ClaimBlocks(w.e, start, stop), progress := w.progress[w.e.nextId := Progress(0, false)]))
  {
    hide WF, Owned, Ledger, PartsGuarded, FetchesGuarded, ReadersGuarded, PartRetriesGuarded, Modes, ProgressOk,
         OpsLedger, ClaimBlocks, NewFetch, BlockBusy;
    var e', f := ClaimBlocks(w.e, start, stop), NewFetch(w.e, start, stop);
    var progress' := w.progress[w.e.nextId := Progress(0, false)];
    ClaimFields(w.e, start, stop);
    ClaimOwn(w.e, w.ev, start, stop);
    AddFetch(w.e, w.readers, f, e');
    ClaimModes(w.e, e', f, w.progress);
    ClaimGuards(w, start, stop, progress');
    KeepClaimsOnly(w, e', progress', w.file);
    assert w.(e := e', progress := progress', file := w.file) == w.(e := e', progress := progress');
  }

  lemma KeepClaim(w: World, o: nat, l: nat, x: nat)
    requires Safe(w)
    ensures Safe(Apply(w, Claim(o, l, x)))
  {
    hide WF, Owned, Ledger, PartsGuarded, FetchesGuarded, ReadersGuarded, PartRetriesGuarded, Modes, ProgressOk,
         OpsLedger, ClaimBlocks, NewFetch, BlockBusy, ClaimFetch;
    var (e', r) := ClaimFetch(w.e, o, l, x);
    if r.Claimed? {
      var start, stop := ClaimedBlocks(w.e, o, l, x);
      KeepClaimBlocks(w, start, stop);
    } else {
      UnclaimedKeeps(w.e, o, l, x);
      assert w.(e := e', progress := w.progress) == w;
    }
  }

  lemma UnclaimedKeeps(e: Entry, o: nat, l: nat, x: nat)
    requires WF(e)
    ensures ClaimFetch(e, o, l, x).1.Claimed? || ClaimFetch(e, o, l, x).0 == e
  {
    hide Aligned, Sum, PartsTile, ScanStop, FirstNot, ClaimBlocks;
  }

  lemma SameOps(e: Entry, e': Entry)
    requires OpsLedger(e) && e'.checksumOps == e.checksumOps && e'.manifest == e.manifest && e'.partStates == e.partStates
    ensures OpsLedger(e')
  {
  }

  lemma KeepFinish(w: World, c: FetchClaim, holes: set<nat>)
    requires Safe(w) && Enabled(w, Finish(c, holes))
    ensures Safe(Apply(w, Finish(c, holes)))
  {
    var i := Find(w.e.claims, c);
    if i < |w.e.claims| {
      var a := w.e.claims[i];
      KeepEnd(w, i, Turn(w.e.pages, TailLo(a), TailHi(a), ReadPending, Missing),
              PunchBlocks(w.file, w.e.blockPages, holes));
    }
  }

  lemma KeepRollback(w: World, c: FetchClaim)
    requires Safe(w)
    ensures Safe(Apply(w, Rollback(c)))
  {
    hide Owned, Ledger, PartsGuarded, FetchesGuarded, ReadersGuarded, PartRetriesGuarded, Modes, ProgressOk, OpsLedger,
         PartsTile, Sum, EndFetch;
    var i := Find(w.e.claims, c);
    if i < |w.e.claims| {
      RestoreSettles(w.e, w.ev, i);
      KeepEnd(w, i, Restore(w.e, w.e.claims[i]), w.file);
      assert w.(file := w.file) == w;
    }
  }

  lemma RestoreSettles(e: Entry, ev: seq<Evicting>, i: nat)
    requires Own(e, ev) && i < |e.claims|
    ensures e.blockPages > 0 && Aligned(e, e.claims[i])
    ensures var r := Restore(e, e.claims[i]);
            forall p | 0 <= p < |r| ::
              if InTail(e.claims[i], p) then r[p] != ReadPending else r[p] == e.pages[p]
  {
    hide PartsTile, Sum, EvictionHolds, HasOwner, TailsDisjoint, TailsPending;
    assert Aligned(e, e.claims[i]);
  }

  /** Changing page states without touching claims. */
  lemma KeepPages(w: World, e': Entry, file: seq<Byte>)
    requires Safe(w) && e' == w.e.(pages := e'.pages) && |e'.pages| == |w.e.pages| && |file| == |w.file|
    requires Owned(e'.pages, w.e.claims, w.ev, w.e.blockPages)
    ensures Safe(w.(e := e', file := file))
  {
    AlignedFrame(w.e, e');
    LedgerFrame(w.e, w.readers, e');
  }

  /** The pages `e'` marks bad are the claim's own: its tail, or the whole range it verifies. */
  lemma SpoilOwned(w: World, i: nat, pages: seq<PageState>)
    requires Safe(w) && i < |w.e.claims| && |pages| == |w.e.pages|
    requires forall p | 0 <= p < |pages| && pages[p] != w.e.pages[p] ::
               pages[p] == Bad && (InTail(w.e.claims[i], p) || (w.e.claims[i].verifying && InRange(w.e.claims[i], p)))
    ensures Owned(pages, w.e.claims, w.ev, w.e.blockPages)
  {
    hide WF, Ledger, PartsGuarded, ReadersGuarded, PartRetriesGuarded, Modes, ProgressOk, OpsLedger, Owned;
    EntryShape(w.e);
    forall p | 0 <= p < |pages| && pages[p] != w.e.pages[p] ensures NoEviction(w.ev, w.e.blockPages, p) {
      if InTail(w.e.claims[i], p) {
        TailNotEvicting(w.e, w.ev, i, p);
      } else {
        assert RangeReserved(|w.e.pages|, w.e.claims, w.ev, w.e.blockPages, i);
        assert PageReserved(w.e.claims, w.ev, w.e.blockPages, i, p);
      }
    }
    ChangePages(w.e.pages, w.e.claims, w.ev, w.e.blockPages, pages);
  }

  lemma SpoilFields(e: Entry, c: FetchClaim)
    requires WF(e)
    ensures var e', i := MarkBad(e, c), Find(e.claims, c);
            && e' == e.(pages := e'.pages) && |e'.pages| == |e.pages|
            && (i == |e.claims| ==> e' == e)
            && forall p | 0 <= p < |e.pages| && e'.pages[p] != e.pages[p] ::
                 e'.pages[p] == Bad && i < |e.claims| &&
                 (InTail(e.claims[i], p) || (e.claims[i].verifying && InRange(e.claims[i], p)))
  {
    hide PartsTile, Sum, RoundDown;
  }

  lemma KeepSpoil(w: World, c: FetchClaim)
    requires Safe(w)
    ensures Safe(Apply(w, Spoil(c)))
  {
    hide WF, Owned, Ledger, PartsGuarded, FetchesGuarded, ReadersGuarded, PartRetriesGuarded, Modes, ProgressOk,
         OpsLedger, MarkBad;
    SpoilFields(w.e, c);
    var e', i := MarkBad(w.e, c), Find(w.e.claims, c);
    if i < |w.e.claims| {
      SpoilOwned(w, i, e'.pages);
      KeepPages(w, e', w.file);
      assert w.(e := e', file := w.file) == w.(e := e');
    }
  }

  lemma TailNotEvicting(e: Entry, ev: seq<Evicting>, i: nat, p: nat)
    requires Own(e, ev) && i < |e.claims| && p < |e.pages| && InTail(e.claims[i], p)
    ensures NoEviction(ev, e.blockPages, p)
  {
    forall k | 0 <= k < |ev| ensures ev[k].block != Quot(p, e.blockPages) {
      assert EvictionHolds(e.pages, e.claims, e.blockPages, ev[k]);
      assert !NoTail(e.claims, p);
    }
  }

  /** Claim `i` became a verifier: one pin more on each of its regions, nothing else. */
  lemma VerifyFields(e: Entry, c: FetchClaim)
    requires WF(e)
    ensures var i, e' := Find(e.claims, c), PinFetchVerification(e, c).0;
            e' != e ==>
               && i < |e.claims| && !e.stale && !e.claims[i].verifying && e.claims[i].published == e.claims[i].length
               && e.checksumOps == 0 && e.manifest != Available
               && AllState(e.pages, FirstPage(e.claims[i].offset), Min(TailHi(e.claims[i]), |e.pages|), Clean)
               && (forall k | 0 <= k < |e.claims| && k != i :: Apart(e.claims[i], e.claims[k]))
               && Inside(e, e.claims[i].offset, e.claims[i].length)
               && e' == AddRegionPins(e, e.claims[i].offset, e.claims[i].length).(
                          claims := e.claims[i := e.claims[i].(verifying := true)])
  {
    hide PartsTile, Sum, RoundDown, AddRegionPins;
    var i := Find(e.claims, c);
    if i < |e.claims| {
      ClaimShape(e, i);
      RangeBounds(e, e.claims[i].offset, e.claims[i].length);
      if PinFetchVerification(e, c).0 != e { VerifyRefusesOthers(e, i); }
    }
  }

  lemma VerifyWF(e: Entry, i: nat, e': Entry)
    requires WF(e) && i < |e.claims| && Inside(e, e.claims[i].offset, e.claims[i].length)
    requires e' == AddRegionPins(e, e.claims[i].offset, e.claims[i].length).(
                     claims := e.claims[i := e.claims[i].(verifying := true)])
    ensures WF(e') && ClaimsOnly(e, e') && e'.pages == e.pages
  {
    hide PartsTile, Sum, RoundDown;
    PinRangeWF(e, e.claims[i].offset, e.claims[i].length);
    AlignedFrame(e, e');
  }

  lemma VerifyModes(e: Entry, e': Entry, progress: map<nat, Progress>, i: nat)
    requires Modes(e) && OpsLedger(e) && ProgressOk(e.claims, progress) && i < |e.claims| && e'.manifest == e.manifest
    requires e'.claims == e.claims[i := e.claims[i].(verifying := true)]
    requires e.claims[i].published == e.claims[i].length && e.checksumOps == 0 && e.manifest != Available
    ensures Modes(e') && ProgressOk(e'.claims, progress)
  {
  }

  lemma VerifyGuards(w: World, i: nat, claims': seq<ActiveFetch>)
    requires Safe(w) && i < |w.e.claims| && w.e.manifest != Available
    requires AllState(w.e.pages, FirstPage(w.e.claims[i].offset), Min(TailHi(w.e.claims[i]), |w.e.pages|), Clean)
    requires forall k | 0 <= k < |w.e.claims| && k != i :: Apart(w.e.claims[i], w.e.claims[k])
    requires claims' == w.e.claims[i := w.e.claims[i].(verifying := true)]
    ensures Guarded(|w.e.pages|, claims', w.ev, w.e.blockPages, w.e.parts, w.e.partStates, w.readers, w.progress)
  {
    hide Owned, Ledger, FetchesGuarded, PartRetriesGuarded, Modes, ProgressOk, OpsLedger, Aligned, Sum, PartsTile;
    GuardVerifyFetch(w.e, w.ev, i);
    assert w.e.parts == [];
    assert forall p: nat | PageStable(w.e.claims, w.ev, w.e.blockPages, w.progress, p) ::
        PageStable(claims', w.ev, w.e.blockPages, w.progress, p);
  }

  lemma KeepVerifyFetch(w: World, c: FetchClaim)
    requires Safe(w)
    ensures Safe(Apply(w, VerifyFetch(c)))
  {
    hide WF, Owned, Ledger, PartsGuarded, FetchesGuarded, ReadersGuarded, PartRetriesGuarded, Modes, ProgressOk,
         OpsLedger, PinFetchVerification, AddRegionPins, Apart, AllState;
    VerifyFields(w.e, c);
    var i, e' := Find(w.e.claims, c), PinFetchVerification(w.e, c).0;
    if e' != w.e {
      ClaimShape(w.e, i);
      VerifyWF(w.e, i, e');
      SameTails(w.e.pages, w.e.claims, w.ev, w.e.blockPages, i, w.e.claims[i].(verifying := true));
      AddVerifyingFetch(w.e, w.readers, i, e');
      VerifyGuards(w, i, e'.claims);
      VerifyModes(w.e, e', w.progress, i);
      KeepClaimsOnly(w, e', w.progress, w.file);
      assert w.(e := e', progress := w.progress, file := w.file) == w.(e := e');
    }
  }

  lemma VerifyRefusesOthers(e: Entry, i: nat)
    requires i < |e.claims|
    requires !OthersMeet(e.claims, i)
    ensures forall k | 0 <= k < |e.claims| && k != i :: Apart(e.claims[i], e.claims[k])
  {
  }

  /** What `begin_retry` does to a verifying claim. */
  lemma RetryFields(e: Entry, c: FetchClaim)
    requires WF(e)
    ensures var i := Find(e.claims, c);
            var (e', r) := BeginRetry(e, c);
            if e.stale || i == |e.claims| || !e.claims[i].verifying
            then r == RetryStale || r == RetryWithoutPin
            else
              && (r == RetryWaits || r == RetryReady)
              && Inside(e, e.claims[i].offset, e.claims[i].length) && WF(e')
              && (r == RetryReady <==> RetryPinsReady(e', e.claims[i].offset, e.claims[i].length))
              && (e.claims[i].retrying ==> e' == e)
              && (!e.claims[i].retrying ==>
                    && ClaimsOnly(e, e') && e'.pins == e.pins
                    && e'.claims == e.claims[i := e.claims[i].(published := 0, retrying := true)]
                    && forall p | 0 <= p < |e.pages| ::
                         e'.pages[p] == if InRange(e.claims[i], p) then ReadPending else e.pages[p])
  {
    hide PartsTile, Sum, RoundDown, RetryPinsReady;
    var i := Find(e.claims, c);
    if i < |e.claims| { RetryKeepsShape(e, i); }
  }

  lemma NoPartsWhileVerifying(e: Entry, i: nat)
    requires WF(e) && Modes(e) && i < |e.claims| && e.claims[i].verifying
    ensures e.parts == [] && e.partStates == []
  {
    hide PartsTile, Sum, Aligned;
  }

  /** When readiness is reported, no reader's blocks meet the claim. */
  lemma ReadyMeansClear(e: Entry, readers: seq<Reader>, e': Entry, a: ActiveFetch)
    requires WF(e') && Ledger(e', readers) && Inside(e', a.offset, a.length)
    requires e'.blockPages == e.blockPages && RetryPinsReady(e', a.offset, a.length)
    ensures forall k, p: nat | 0 <= k < |readers| && InRange(a, p) ::
              !Covers(e.blockPages, readers[k].offset, readers[k].length, p)
  {
    hide PartsTile, Sum, Aligned, RetryPinsReady, Ledger, PinsFull;
    RetryReadyMeansNoReader(e', readers, a.offset, a.length);
    forall k, p: nat | 0 <= k < |readers| && InRange(a, p)
      ensures !Covers(e.blockPages, readers[k].offset, readers[k].length, p)
    {
      RangeCovers(e.blockPages, a.offset, a.length, p);
      assert NoReaderOn(readers, e.blockPages, Quot(p, e.blockPages));
    }
  }

  lemma FirstRetryOwned(w: World, i: nat, claims': seq<ActiveFetch>, pages: seq<PageState>)
    requires Safe(w) && i < |w.e.claims| && w.e.claims[i].verifying && |pages| == |w.e.pages|
    requires claims' == w.e.claims[i := w.e.claims[i].(published := 0, retrying := true)]
    requires forall p | 0 <= p < |w.e.pages| ::
               pages[p] == if InRange(w.e.claims[i], p) then ReadPending else w.e.pages[p]
    ensures Owned(pages, claims', w.ev, w.e.blockPages)
  {
    hide Owned, Ledger, PartsGuarded, ReadersGuarded, PartRetriesGuarded, Modes, ProgressOk, OpsLedger, Sum, PartsTile;
    var a := w.e.claims[i];
    assert Aligned(w.e, a);
    MultipleScale(a.offset, w.e.blockPages);
    assert RangeReserved(|w.e.pages|, w.e.claims, w.ev, w.e.blockPages, i);
    RetryClaim(w.e.pages, w.e.claims, w.ev, w.e.blockPages, i, claims'[i], pages);
  }

  lemma FirstRetryModes(e: Entry, e': Entry, progress: map<nat, Progress>, i: nat, ready: bool)
    requires Modes(e) && ProgressOk(e.claims, progress) && i < |e.claims| && e'.manifest == e.manifest
    requires e'.claims == e.claims[i := e.claims[i].(published := 0, retrying := true)] && e.claims[i].verifying
    requires forall j | 0 <= j < |e.claims| && j != i :: e.claims[j].id != e.claims[i].id
    ensures Modes(e') && ProgressOk(e'.claims, progress[e.claims[i].id := Progress(0, ready)])
  {
  }

  lemma OtherIds(e: Entry, i: nat)
    requires WF(e) && i < |e.claims|
    ensures forall j | 0 <= j < |e.claims| && j != i :: e.claims[j].id != e.claims[i].id
  {
    hide PartsTile, Sum, Aligned;
  }

  lemma KeepFirstRetry(w: World, i: nat, e': Entry, ready: bool)
    requires Safe(w) && i < |w.e.claims| && w.e.claims[i].verifying && !w.e.claims[i].retrying
    requires WF(e') && ClaimsOnly(w.e, e') && e'.pins == w.e.pins
    requires e'.claims == w.e.claims[i := w.e.claims[i].(published := 0, retrying := true)]
    requires forall p | 0 <= p < |w.e.pages| ::
               e'.pages[p] == if InRange(w.e.claims[i], p) then ReadPending else w.e.pages[p]
    requires Inside(e', w.e.claims[i].offset, w.e.claims[i].length)
    requires ready ==> RetryPinsReady(e', w.e.claims[i].offset, w.e.claims[i].length)
    ensures Safe(w.(e := e', progress := w.progress[w.e.claims[i].id := Progress(0, ready)]))
  {
    hide WF, Owned, Ledger, PartsGuarded, FetchesGuarded, ReadersGuarded, PartRetriesGuarded, Modes, ProgressOk,
         OpsLedger, RetryPinsReady;
    ClaimShape(w.e, i);
    OtherIds(w.e, i);
    NoPartsWhileVerifying(w.e, i);
    FirstRetryOwned(w, i, e'.claims, e'.pages);
    LedgerFrame(w.e, w.readers, e');
    if ready { ReadyMeansClear(w.e, w.readers, e', w.e.claims[i]); }
    var progress' := w.progress[w.e.claims[i].id := Progress(0, ready)];
    RetryTail(w.e, i, e'.claims[i]);
    GuardRetry(w.e, w.ev, w.readers, w.progress, i, e'.claims[i], progress');
    FirstRetryModes(w.e, e', w.progress, i, ready);
    KeepClaimsOnly(w, e', progress', w.file);
    assert w.(e := e', progress := progress', file := w.file) == w.(e := e', progress := progress');
  }

  lemma RetryTail(e: Entry, i: nat, a: ActiveFetch)
    requires WF(e) && i < |e.claims| && a == e.claims[i].(published := 0, retrying := true)
    ensures forall p: nat :: InTail(a, p) <==> InRange(e.claims[i], p)
  {
    hide PartsTile, Sum;
    assert Aligned(e, e.claims[i]);
    MultipleScale(a.offset, e.blockPages);
  }

  /** Asking again: nothing moves, and readiness is reported only without readers. */
  lemma KeepRetryAgain(w: World, i: nat, was: Progress, ready: bool)
    requires Safe(w) && i < |w.e.claims| && w.e.claims[i].verifying && w.e.claims[i].retrying
    requires w.e.claims[i].id in w.progress && was == w.progress[w.e.claims[i].id]
    requires Inside(w.e, w.e.claims[i].offset, w.e.claims[i].length)
    requires ready ==> was.ready || RetryPinsReady(w.e, w.e.claims[i].offset, w.e.claims[i].length)
    requires was.ready ==> ready
    ensures Safe(w.(progress := w.progress[w.e.claims[i].id := Progress(was.written, ready)]))
  {
    hide WF, Owned, Ledger, PartsGuarded, FetchesGuarded, PartRetriesGuarded, Modes, ProgressOk, OpsLedger,
         RetryPinsReady;
    ClaimShape(w.e, i);
    OtherIds(w.e, i);
    var progress' := w.progress[w.e.claims[i].id := Progress(was.written, ready)];
    if ready && !was.ready { ReadyMeansClear(w.e, w.readers, w.e, w.e.claims[i]); }
    SameProgress(w.e.claims, w.progress, i, ready);
    forall k, p | 0 <= k < |w.readers| && w.readers[k].clean && 0 <= p < |w.e.pages| &&
                  Covers(w.e.blockPages, w.readers[k].offset, w.readers[k].length, p)
      ensures PageStable(w.e.claims, w.ev, w.e.blockPages, progress', p)
    {
      assert PageStable(w.e.claims, w.ev, w.e.blockPages, w.progress, p);
      if InTail(w.e.claims[i], p) { TailInside(w.e, i, p); }
    }
  }

  lemma TailInside(e: Entry, i: nat, p: nat)
    requires WF(e) && i < |e.claims| && InTail(e.claims[i], p)
    ensures InRange(e.claims[i], p)
  {
    assert Aligned(e, e.claims[i]);
  }

  lemma SameProgress(claims: seq<ActiveFetch>, progress: map<nat, Progress>, i: nat, ready: bool)
    requires ProgressOk(claims, progress) && i < |claims|
    ensures ProgressOk(claims, progress[claims[i].id := Progress(progress[claims[i].id].written, ready)])
  {
  }

  lemma RetryKnown(w: World, i: nat)
    requires Safe(w) && i < |w.e.claims|
    ensures w.e.claims[i].id in w.progress
  {
  }

  lemma KeepRetry(w: World, c: FetchClaim)
    requires Safe(w)
    ensures Safe(Apply(w, Retry(c)))
  {
    hide WF, Owned, Ledger, PartsGuarded, FetchesGuarded, ReadersGuarded, PartRetriesGuarded, Modes, ProgressOk,
         OpsLedger, RetryPinsReady, BeginRetry;
    RetryFields(w.e, c);
    var i := Find(w.e.claims, c);
    var (e', r) := BeginRetry(w.e, c);
    if !w.e.stale && i < |w.e.claims| && w.e.claims[i].verifying {
      RetryKnown(w, i);
      var was := w.progress[c.id];
      if w.e.claims[i].retrying {
        KeepRetryAgain(w, i, was, was.ready || r == RetryReady);
        assert w.(e := e') == w;
      } else {
        KeepFirstRetry(w, i, e', r == RetryReady);
      }
    }
  }

  // ---------------------------------------------------------------- readers

  /** `e'` is `e` but for pins and reference bits. */
  ghost predicate PinsOnly(e: Entry, e': Entry)
  {
    e' == e.(pins := e'.pins, pinnedRegions := e'.pinnedRegions, referenced := e'.referenced)
  }

  lemma KeepReaders(w: World, e': Entry, readers': seq<Reader>)
    requires Safe(w) && PinsOnly(w.e, e') && WF(e') && Ledger(e', readers')
    requires forall k | 0 <= k < |readers'| :: Inside(w.e, readers'[k].offset, readers'[k].length)
    requires ReadersGuarded(|w.e.pages|, w.e.claims, w.ev, w.e.blockPages, readers', w.progress)
    requires PartRetriesGuarded(w.e.parts, w.e.partStates, w.partReady, readers')
    ensures Safe(w.(e := e', readers := readers'))
  {
    hide Owned, Ledger, PartsGuarded, FetchesGuarded, ReadersGuarded, PartRetriesGuarded, ProgressOk, Aligned,
         PartsTile, Sum;
  }

  lemma AdmitReader(w: World, x: Reader, e': Entry)
    requires Safe(w) && Inside(w.e, x.offset, x.length)
    requires e' == AddRegionPins(w.e, x.offset, x.length) ||
             e' == SetReferenced(AddRegionPins(w.e, x.offset, x.length), x.offset, x.length)
    ensures WF(e') && PinsOnly(w.e, e') && Ledger(e', w.readers + [x])
  {
    hide Owned, PartsGuarded, FetchesGuarded, ReadersGuarded, PartRetriesGuarded, ProgressOk, Modes, OpsLedger,
         PartsTile, Sum, RoundDown;
    PinRangeWF(w.e, x.offset, x.length);
    AlignedFrame(w.e, e');
    AddReader(w.e, w.readers, x, e');
  }

  lemma ReadPinFields(e: Entry, o: nat, l: nat)
    requires WF(e) && Inside(e, o, l)
    ensures var (e', r) := PinClean(e, o, l);
            if r == Admitted then
              && e' == SetReferenced(AddRegionPins(e, o, l), o, l)
              && EndPage(o, l) <= |e.pages| && AllState(e.pages, FirstPage(o), EndPage(o, l), Clean)
              && !e.stale && ChecksumBlocked(e, o, l) == NotBlocked
            else e' == e
  {
    hide PartsTile, Sum, Aligned, ChecksumBlocked, AddRegionPins, SetReferenced;
    RangeBounds(e, o, l);
  }

  lemma AdmittedAvoidsRetries(w: World, x: Reader)
    requires Safe(w) && Inside(w.e, x.offset, x.length) && !w.e.stale
    requires ChecksumBlocked(w.e, x.offset, x.length) == NotBlocked
    ensures PartRetriesGuarded(w.e.parts, w.e.partStates, w.partReady, w.readers + [x])
  {
    hide Owned, Ledger, PartsGuarded, FetchesGuarded, ReadersGuarded, ProgressOk, Aligned, PartsTile, Sum, Modes;
  }

  lemma KeepReadPin(w: World, t: nat, o: nat, l: nat)
    requires Safe(w) && Enabled(w, ReadPin(t, o, l))
    ensures Safe(Apply(w, ReadPin(t, o, l)))
  {
    hide WF, Owned, Ledger, PartsGuarded, FetchesGuarded, ReadersGuarded, PartRetriesGuarded, Modes, ProgressOk,
         OpsLedger, PinClean, AddRegionPins, SetReferenced, AllState, ChecksumBlocked;
    EntryShape(w.e);
    ReadPinFields(w.e, o, l);
    var (e', r) := PinClean(w.e, o, l);
    if r == Admitted {
      var x := Reader(t, o, l, true);
      AdmitReader(w, x, e');
      forall p | 0 <= p < |w.e.pages| && Covers(w.e.blockPages, o, l, p)
        ensures PageUnowned(w.e.claims, w.ev, w.e.blockPages, p)
      {
        CleanRangeUnowned(w.e, w.ev, o, l, p);
      }
      GuardAddReader(|w.e.pages|, w.e.claims, w.ev, w.e.blockPages, w.readers, w.progress, x);
      AdmittedAvoidsRetries(w, x);
      KeepReaders(w, e', w.readers + [x]);
    }
  }

  lemma RawPinFields(e: Entry, o: nat, l: nat)
    requires WF(e) && Inside(e, o, l)
    ensures var (e', r) := Pin(e, o, l);
            if r == Admitted then e' == AddRegionPins(e, o, l) else e' == e
  {
    hide PartsTile, Sum, Aligned, AddRegionPins;
  }

  lemma KeepRawPin(w: World, t: nat, o: nat, l: nat)
    requires Safe(w) && Enabled(w, RawPin(t, o, l))
    ensures Safe(Apply(w, RawPin(t, o, l)))
  {
    hide WF, Owned, Ledger, PartsGuarded, FetchesGuarded, ReadersGuarded, Modes, ProgressOk,
         OpsLedger, Pin, AddRegionPins;
    EntryShape(w.e);
    RawPinFields(w.e, o, l);
    var (e', r) := Pin(w.e, o, l);
    if r == Admitted {
      var x := Reader(t, o, l, false);
      AdmitReader(w, x, e');
      GuardAddReader(|w.e.pages|, w.e.claims, w.ev, w.e.blockPages, w.readers, w.progress, x);
      KeepReaders(w, e', w.readers + [x]);
    }
  }

  lemma FewerReaders(w: World, k: nat)
    requires Safe(w) && k < |w.readers|
    ensures ReadersGuarded(|w.e.pages|, w.e.claims, w.ev, w.e.blockPages, Without(w.readers, k), w.progress)
    ensures PartRetriesGuarded(w.e.parts, w.e.partStates, w.partReady, Without(w.readers, k))
  {
    hide WF, Owned, Ledger, PartsGuarded, FetchesGuarded, ProgressOk, Modes, OpsLedger;
    var readers' := Without(w.readers, k);
    assert forall j | 0 <= j < |readers'| :: readers'[j] == w.readers[if j < k then j else j + 1];
  }

  lemma KeepRelease(w: World, k: nat)
    requires Safe(w) && k < |w.readers|
    ensures Safe(Apply(w, Release(k)))
  {
    hide WF, Owned, Ledger, PartsGuarded, FetchesGuarded, ReadersGuarded, PartRetriesGuarded, Modes, ProgressOk,
         OpsLedger, DropPins;
    var x := w.readers[k];
    var e' := Unpin(w.e, x.offset, x.length);
    PinRangeWF(w.e, x.offset, x.length);
    DropReader(w.e, w.readers, k);
    FewerReaders(w, k);
    KeepReaders(w, e', Without(w.readers, k));
  }

  // ---------------------------------------------------------------- checksum manifest and parts

  lemma KeepLoadManifest(w: World)
    requires Safe(w)
    ensures Safe(Apply(w, LoadManifest))
  {
    hide Owned, Ledger, PartsGuarded, FetchesGuarded, ReadersGuarded, PartRetriesGuarded, ProgressOk, PartsTile, Sum,
         RoundDown, CheckFlags, CountTrue;
    var e' := BeginManifest(w.e).0;
    if e' != w.e {
      AlignedFrame(w.e, e');
      LedgerFrame(w.e, w.readers, e');
    }
  }

  lemma NoChecks(states: seq<PartState>)
    requires forall k | 0 <= k < |states| :: !Checking(states[k])
    ensures CountTrue(CheckFlags(states)) == 0
  {
    CountNone(CheckFlags(states));
  }

  lemma KeepManifestEnd(w: World, e': Entry)
    requires Safe(w) && w.e.manifest == Loading
    requires e' == w.e.(parts := e'.parts, partStates := e'.partStates, manifest := e'.manifest, checksumOps := Less(w.e.checksumOps))
    requires (e'.manifest == Available && PartsTile(e'.parts, w.e.size)) || (e'.manifest == Unavailable && e'.parts == [])
    requires |e'.parts| == |e'.partStates| && forall k | 0 <= k < |e'.parts| :: e'.partStates[k] == Unverified
    ensures Safe(w.(e := e', partReady := seq(|e'.parts|, _ => false)))
  {
    hide Owned, FetchesGuarded, ReadersGuarded, ProgressOk, Sum, RoundDown;
    AlignedFrame(w.e, e');
    NoChecks(e'.partStates);
    assert w.e.parts == [] && CheckFlags(w.e.partStates) == [];
    assert forall i | 0 <= i < |w.e.claims| :: !w.e.claims[i].verifying;
    forall r | 0 <= r < |e'.pins| ensures e'.pins[r] == Holders(e', w.readers, r) {
      assert w.e.pins[r] == Holders(w.e, w.readers, r);
      assert PartFlags(w.e.parts, w.e.partStates, w.e.blockPages, r) == [];
      CountNone(PartFlags(e'.parts, e'.partStates, w.e.blockPages, r));
    }
  }

  lemma ManifestEndFields(e: Entry, parts: seq<ChecksumPart>)
    ensures var e' := FinishManifest(e, parts);
            && e' == e.(parts := e'.parts, partStates := e'.partStates, manifest := e'.manifest, checksumOps := Less(e.checksumOps))
            && ((e'.manifest == Available && PartsTile(e'.parts, e.size)) || (e'.manifest == Unavailable && e'.parts == []))
            && |e'.parts| == |e'.partStates| && forall k | 0 <= k < |e'.parts| :: e'.partStates[k] == Unverified
  {
  }

  lemma KeepManifestLoaded(w: World, parts: seq<ChecksumPart>)
    requires Safe(w) && w.e.manifest == Loading
    ensures Safe(Apply(w, ManifestLoaded(parts)))
  {
    hide WF, Owned, Ledger, PartsGuarded, FetchesGuarded, ReadersGuarded, PartRetriesGuarded, Modes, ProgressOk,
         OpsLedger;
    ManifestEndFields(w.e, parts);
    hide FinishManifest;
    KeepManifestEnd(w, FinishManifest(w.e, parts));
  }

  lemma KeepManifestFailed(w: World)
    requires Safe(w) && w.e.manifest == Loading
    ensures Safe(Apply(w, ManifestFailed))
  {
    hide WF, Owned, Ledger, PartsGuarded, FetchesGuarded, ReadersGuarded, PartRetriesGuarded, Modes, ProgressOk,
         OpsLedger;
    var e' := ManifestUnavailable(w.e);
    assert PartsTile([], w.e.size);
    KeepManifestEnd(w, e');
    assert seq(|e'.parts|, _ => false) == [];
  }

  /** What a successful part claim did. */
  lemma {:induction false} ClaimedPart(e: Entry, k: nat, lo: nat, hi: nat, skip: bool)
    requires WF(e) && k <= |e.parts|
    ensures var (e', r) := ClaimPartFrom(e, k, lo, hi, skip);
            if r.ChecksumVerify?
            then
              && r.claim.part < |e.parts| && e' == VerifyPart(e, r.claim.part)
              && e.partStates[r.claim.part] == Unverified
              && EndPage(e.parts[r.claim.part].offset, e.parts[r.claim.part].size) <= |e.pages|
              && PartClean(e, r.claim.part)
            else e' == e
    decreases |e.parts| - k
  {
    hide WF, PinsFull, AllState, VerifyPart, ClaimPartFrom;
    if k < |e.parts| {
      ClaimPartUnfold(e, k, lo, hi, skip);
      ClaimedPart(e, k + 1, lo, hi, skip);
    } else {
      ClaimPartEnd(e, lo, hi, skip);
    }
  }

  lemma VerifyPartGuards(w: World, k: nat)
    requires Safe(w) && k < |w.e.parts|
    requires EndPage(w.e.parts[k].offset, w.e.parts[k].size) <= |w.e.pages| && PartClean(w.e, k)
    ensures PartsGuarded(|w.e.pages|, w.e.claims, w.ev, w.e.blockPages, w.e.parts, w.e.partStates[k := Verifying])
  {
    hide Owned, Ledger, PartsGuarded, FetchesGuarded, ReadersGuarded, ProgressOk, Aligned, PartsTile, Sum, Modes, AllState;
    var part := w.e.parts[k];
    forall p | 0 <= p < |w.e.pages| && Covers(w.e.blockPages, part.offset, part.size, p)
      ensures PageUnowned(w.e.claims, w.ev, w.e.blockPages, p)
    {
      CleanRangeUnowned(w.e, w.ev, part.offset, part.size, p);
    }
    GuardAddPart(|w.e.pages|, w.e.claims, w.ev, w.e.blockPages, w.e.parts, w.e.partStates, k, Verifying);
  }

  /** `e'` is `e` but for pages, pins and the state of the parts. */
  ghost predicate ChecksOnly(e: Entry, e': Entry)
  {
    && e' == e.(pages := e'.pages, pins := e'.pins, pinnedRegions := e'.pinnedRegions,
                partStates := e'.partStates, checksumOps := e'.checksumOps)
    && |e'.pages| == |e.pages| && |e'.pins| == |e.pins| && |e'.partStates| == |e.partStates|
  }

  lemma KeepChecks(w: World, e': Entry, partReady': seq<bool>)
    requires Safe(w) && ChecksOnly(w.e, e') && |partReady'| == |w.partReady|
    requires WF(e') && Owned(e'.pages, w.e.claims, w.ev, w.e.blockPages) && Ledger(e', w.readers) && OpsLedger(e')
    requires PartsGuarded(|w.e.pages|, w.e.claims, w.ev, w.e.blockPages, w.e.parts, e'.partStates)
    requires PartRetriesGuarded(w.e.parts, e'.partStates, partReady', w.readers)
    ensures Safe(w.(e := e', partReady := partReady'))
  {
    hide Owned, Ledger, PartsGuarded, FetchesGuarded, ReadersGuarded, PartRetriesGuarded, ProgressOk, Aligned,
         PartsTile, Sum, OpsLedger;
  }

  lemma VerifyPartShape(e: Entry, k: nat)
    requires WF(e) && k < |e.parts|
    ensures ChecksOnly(e, VerifyPart(e, k)) && VerifyPart(e, k).pages == e.pages
    ensures VerifyPart(e, k).partStates == e.partStates[k := Verifying] && WF(VerifyPart(e, k))
  {
    hide PartsTile, Sum, RoundDown;
    PartInside(e, k);
    PinRangeWF(e, e.parts[k].offset, e.parts[k].size);
    AlignedFrame(e, VerifyPart(e, k));
  }

  lemma PartInside(e: Entry, k: nat)
    requires WF(e) && k < |e.parts|
    ensures Inside(e, e.parts[k].offset, e.parts[k].size)
  {
    hide Sum, Aligned;
  }

  lemma KeepVerifyPart(w: World, k: nat)
    requires Safe(w) && k < |w.e.parts| && w.e.partStates[k] == Unverified
    requires EndPage(w.e.parts[k].offset, w.e.parts[k].size) <= |w.e.pages| && PartClean(w.e, k)
    ensures Safe(w.(e := VerifyPart(w.e, k), partReady := w.partReady[k := false]))
  {
    hide WF, Owned, Ledger, PartsGuarded, FetchesGuarded, ReadersGuarded, Modes, ProgressOk,
         OpsLedger, VerifyPart, PartClean;
    VerifyPartShape(w.e, k);
    AddCheck(w.e, w.readers, k);
    VerifyPartGuards(w, k);
    EntryShape(w.e);
    assert PartRetriesGuarded(w.e.parts, w.e.partStates[k := Verifying], w.partReady[k := false], w.readers);
    KeepChecks(w, VerifyPart(w.e, k), w.partReady[k := false]);
  }

  lemma KeepCheckPart(w: World, o: nat, l: nat, skip: bool)
    requires Safe(w)
    ensures Safe(Apply(w, CheckPart(o, l, skip)))
  {
    hide WF, Owned, Ledger, PartsGuarded, FetchesGuarded, ReadersGuarded, PartRetriesGuarded, Modes, ProgressOk,
         OpsLedger, VerifyPart, PartClean, ClaimPartFrom;
    var (e', r) := ClaimChecksum(w.e, o, l, skip);
    ClaimedPart(w.e, 0, o, o + (if o <= w.e.size then Min(l, w.e.size - o) else 0), skip);
    if r.ChecksumVerify? {
      KeepVerifyPart(w, r.claim.part);
    } else {
      assert w.(e := e', partReady := w.partReady) == w;
    }
  }

  /** A checked part enters or stays in its retry; readiness needs the absence of readers. */
  lemma KeepPartRetry(w: World, k: nat, e': Entry, ready: bool)
    requires Safe(w) && k < |w.e.parts| && Checking(w.e.partStates[k])
    requires e' == w.e.(partStates := w.e.partStates[k := Retrying])
    requires
      || !ready
      || (w.e.partStates[k] == Retrying && w.partReady[k])
      || forall r | 0 <= r < |w.readers| && w.readers[r].clean ::
           !PartOverlaps(w.e.parts[k], w.readers[r].offset, w.readers[r].offset + w.readers[r].length)
    ensures Safe(w.(e := e', partReady := w.partReady[k := ready]))
  {
    hide WF, Owned, Ledger, FetchesGuarded, ReadersGuarded, Modes, ProgressOk;
    RetryStateWF(w.e, k, e');
    LedgerFrame(w.e, w.readers, e');
    PartStateOps(w.e, k, Retrying);
    KeepChecks(w, e', w.partReady[k := ready]);
  }

  lemma RetryStateWF(e: Entry, k: nat, e': Entry)
    requires WF(e) && k < |e.parts| && e' == e.(partStates := e.partStates[k := Retrying])
    ensures WF(e') && e.blockPages > 0 && |e.parts| == |e.partStates|
  {
    hide PartsTile, Sum, RoundDown;
    AlignedFrame(e, e');
  }

  lemma KeepMismatch(w: World, c: ChecksumClaim)
    requires Safe(w) && Enabled(w, Mismatch(c))
    ensures Safe(Apply(w, Mismatch(c)))
  {
    hide WF, Owned, Ledger, PartsGuarded, FetchesGuarded, ReadersGuarded, PartRetriesGuarded, Modes, ProgressOk,
         OpsLedger;
    EntryShape(w.e);
    var e' := ChecksumMismatch(w.e, c);
    if e' != w.e {
      KeepPartRetry(w, c.part, e', false);
    } else {
      assert w.(e := e') == w;
    }
  }

  lemma PartRetryClear(w: World, e': Entry, c: ChecksumClaim)
    requires Safe(w) && WF(e') && e'.blockPages == w.e.blockPages && Ledger(e', w.readers)
    requires c.part < |w.e.parts| && c.offset == w.e.parts[c.part].offset && c.size == w.e.parts[c.part].size
    requires Inside(e', c.offset, c.size) && RetryPinsReady(e', c.offset, c.size)
    ensures forall r | 0 <= r < |w.readers| ::
              !PartOverlaps(w.e.parts[c.part], w.readers[r].offset, w.readers[r].offset + w.readers[r].length)
  {
    hide Owned, PartsGuarded, FetchesGuarded, ReadersGuarded, PartRetriesGuarded, Modes, ProgressOk, OpsLedger, Ledger,
         Aligned, Sum, PartsTile, RetryPinsReady;
    RetryReadyMeansNoReader(e', w.readers, c.offset, c.size);
    forall r | 0 <= r < |w.readers|
      ensures !PartOverlaps(w.e.parts[c.part], w.readers[r].offset, w.readers[r].offset + w.readers[r].length)
    {
      var x := w.readers[r];
      var g := Quot(FirstPage(Max(c.offset, x.offset)), w.e.blockPages);
      if PartOverlaps(w.e.parts[c.part], x.offset, x.offset + x.length) {
        OverlapSharesRegion(w.e.blockPages, c.offset, c.size, x.offset, x.length);
      }
      assert RegionLo(e', c.offset) <= g < RegionHi(e', c.offset, c.size) ==> NoReaderOn(w.readers, w.e.blockPages, g);
    }
  }

  /** Byte ranges that overlap meet in the region of their first common byte. */
  lemma OverlapSharesRegion(b: nat, o: nat, l: nat, o': nat, l': nat)
    requires b > 0 && l > 0 && l' > 0 && o < o' + l' && o' < o + l
    ensures Spans(b, o, l, Quot(FirstPage(Max(o, o')), b)) && Spans(b, o', l', Quot(FirstPage(Max(o, o')), b))
  {
    var p := FirstPage(Max(o, o'));
    QuotMonotone(FirstPage(o), p, b);
    QuotMonotone(FirstPage(o'), p, b);
    QuotMonotone(p, EndPage(o, l) - 1, b);
    QuotMonotone(p, EndPage(o', l') - 1, b);
  }

  lemma KeepRetryPart(w: World, c: ChecksumClaim)
    requires Safe(w) && Enabled(w, RetryPart(c))
    ensures Safe(Apply(w, RetryPart(c)))
  {
    hide WF, Owned, Ledger, PartsGuarded, FetchesGuarded, ReadersGuarded, PartRetriesGuarded, Modes, ProgressOk,
         OpsLedger, RetryPinsReady;
    EntryShape(w.e);
    if !w.e.stale && CheckLive(w.e, c) {
      LiveInside(w.e, c);
      var (e', r) := BeginChecksumRetry(w.e, c);
      RetryStateWF(w.e, c.part, e');
      LedgerFrame(w.e, w.readers, e');
      if r == RetryReady { PartRetryClear(w, e', c); }
      KeepPartRetry(w, c.part, e', r == RetryReady || (w.partReady[c.part] && w.e.partStates[c.part] == Retrying));
    }
  }

  lemma KeepWritePart(w: World, c: ChecksumClaim, at: nat, data: seq<Byte>)
    requires Safe(w) && Enabled(w, WritePart(c, at, data))
    ensures Safe(Apply(w, WritePart(c, at, data)))
  {
    hide WF, Owned, Ledger, PartsGuarded, FetchesGuarded, ReadersGuarded, PartRetriesGuarded, Modes, ProgressOk,
         OpsLedger;
    LiveInside(w.e, c);
  }

  lemma EndCheckShape(e: Entry, c: ChecksumClaim, st: PartState, pages: seq<PageState>)
    requires WF(e) && CheckLive(e, c) && Fits(e, c) && |pages| == |e.pages|
    ensures c.size > 0 && WF(e.(pages := pages))
    ensures var e' := EndCheck(e.(pages := pages), c, st);
            ChecksOnly(e, e') && e'.pages == pages && e'.partStates == e.partStates[c.part := st] && WF(e')
  {
    hide PartsTile, Sum, RoundDown;
    PartInside(e, c.part);
    PagesWF(e, pages);
    PinRangeWF(e.(pages := pages), c.offset, c.size);
    AlignedFrame(e, EndCheck(e.(pages := pages), c, st));
  }

  lemma KeepEndCheck(w: World, c: ChecksumClaim, st: PartState, pages: seq<PageState>)
    requires Safe(w) && CheckLive(w.e, c) && Fits(w.e, c) && !Checking(st) && |pages| == |w.e.pages|
    requires Owned(pages, w.e.claims, w.ev, w.e.blockPages)
    ensures c.size > 0 && Safe(w.(e := EndCheck(w.e.(pages := pages), c, st)))
  {
    hide WF, Owned, Ledger, FetchesGuarded, ReadersGuarded, Modes, ProgressOk, OpsLedger, EndCheck;
    EntryShape(w.e);
    EndCheckShape(w.e, c, st, pages);
    var e1 := w.e.(pages := pages);
    var e' := EndCheck(e1, c, st);
    LedgerFrame(w.e, w.readers, e1);
    SameOps(w.e, e1);
    DropCheck(e1, w.readers, c, st);
    KeepChecks(w, e', w.partReady);
    assert w.(e := e', partReady := w.partReady) == w.(e := e');
  }

  lemma KeepFinishPart(w: World, c: ChecksumClaim, valid: bool)
    requires Safe(w) && Enabled(w, FinishPart(c, valid))
    ensures Safe(Apply(w, FinishPart(c, valid)))
  {
    hide WF, Owned, Ledger, PartsGuarded, FetchesGuarded, ReadersGuarded, PartRetriesGuarded, Modes, ProgressOk,
         OpsLedger, EndCheck;
    LiveInside(w.e, c);
    if CheckLive(w.e, c) {
      KeepEndCheck(w, c, if valid then Verified else PartBad, w.e.pages);
      assert w.e.(pages := w.e.pages) == w.e;
    } else {
      assert w.(e := w.e) == w;
    }
  }

  /** Clean pages may be given up at any time: they have no owner. */
  lemma GiveUpClean(w: World, pages: seq<PageState>)
    requires Safe(w) && |pages| == |w.e.pages|
    requires forall p | 0 <= p < |pages| && pages[p] != w.e.pages[p] :: w.e.pages[p] == Clean && pages[p] == Missing
    ensures Owned(pages, w.e.claims, w.ev, w.e.blockPages)
  {
    hide WF, Owned, Ledger, PartsGuarded, FetchesGuarded, ReadersGuarded, PartRetriesGuarded, Modes, ProgressOk, OpsLedger;
    EntryShape(w.e);
    forall p | 0 <= p < |pages| && pages[p] != w.e.pages[p]
      ensures NoEviction(w.ev, w.e.blockPages, p) && NoTail(w.e.claims, p)
    {
      CleanUnowned(w.e.pages, w.e.claims, w.ev, w.e.blockPages, p);
    }
    ChangePages(w.e.pages, w.e.claims, w.ev, w.e.blockPages, pages);
  }

  lemma KeepAbandonPart(w: World, c: ChecksumClaim)
    requires Safe(w) && Enabled(w, AbandonPart(c))
    ensures Safe(Apply(w, AbandonPart(c)))
  {
    hide WF, Owned, Ledger, PartsGuarded, FetchesGuarded, ReadersGuarded, PartRetriesGuarded, Modes, ProgressOk,
         OpsLedger, EndCheck;
    LiveInside(w.e, c);
    if CheckLive(w.e, c) {
      var pages := Turn(w.e.pages, FirstPage(c.offset), EndPage(c.offset, c.size), Clean, Missing);
      GiveUpClean(w, pages);
      KeepEndCheck(w, c, Unverified, pages);
    } else {
      assert w.(e := w.e) == w;
    }
  }

  // ---------------------------------------------------------------- eviction

  lemma ScanShape(e: Entry)
    requires WF(e) && Evictable(e)
    ensures Cosmetic(e, e.(hand := ScanEntry(e).hand, referenced := ScanEntry(e).referenced))
    ensures ScanEntry(e).victim >= 0 ==> ScanEntry(e).victim < |e.pins| && Victim(e, ScanEntry(e).victim)
  {
    hide Aligned, PartsTile, Sum;
  }

  lemma KeepEvictNow(w: World, punched: bool)
    requires Safe(w)
    ensures Safe(Apply(w, EvictNow(punched)))
  {
    hide WF, Owned, Ledger, PartsGuarded, FetchesGuarded, ReadersGuarded, PartRetriesGuarded, Modes, ProgressOk,
         OpsLedger, ScanEntry;
    EntryShape(w.e);
    if Evictable(w.e) {
      ScanShape(w.e);
      var s := ScanEntry(w.e);
      var e1 := w.e.(hand := s.hand, referenced := s.referenced);
      KeepCosmetic(w, e1);
      if s.victim >= 0 && punched {
        var pages := TurnBlock(w.e, s.victim, Clean, Missing);
        var w1 := w.(e := e1);
        GiveUpClean(w1, pages);
        KeepPages(w1, e1.(pages := pages), PunchBlocks(w.file, w.e.blockPages, {s.victim as nat}));
      }
    } else {
      assert w.(e := w.e) == w;
    }
  }

  lemma VictimTaken(w: World, b: nat)
    requires Safe(w) && b < |w.e.pins| && Victim(w.e, b)
    ensures CleanPages(w.e, b) != {}
    ensures Owned(TurnBlock(w.e, b, Clean, ReadPending), w.e.claims, w.ev + [Evicting(b, CleanPages(w.e, b), false)],
                  w.e.blockPages)
    ensures Guarded(|w.e.pages|, w.e.claims, w.ev + [Evicting(b, CleanPages(w.e, b), false)], w.e.blockPages,
                    w.e.parts, w.e.partStates, w.readers, w.progress)
  {
    hide Owned, Ledger, PartsGuarded, FetchesGuarded, ReadersGuarded, PartRetriesGuarded, Modes, ProgressOk, OpsLedger,
         Unheld, Sum, PartsTile;
    var v := Evicting(b, CleanPages(w.e, b), false);
    var q :| 0 <= q < |w.e.pages| && Block(w.e, q) == b && w.e.pages[q] == Clean;
    assert q in v.taken;
    AddEviction(w.e.pages, w.e.claims, w.ev, w.e.blockPages, v, TurnBlock(w.e, b, Clean, ReadPending));
    UnpinnedUnheld(w, b);
    GuardAddEviction(|w.e.pages|, w.e.claims, w.ev, w.e.blockPages, w.e.parts, w.e.partStates, w.readers, w.progress, v);
  }

  /** Pages and evictions change together. */
  lemma KeepEvictions(w: World, pages: seq<PageState>, ev': seq<Evicting>)
    requires Safe(w) && |pages| == |w.e.pages|
    requires Owned(pages, w.e.claims, ev', w.e.blockPages)
    requires Guarded(|w.e.pages|, w.e.claims, ev', w.e.blockPages, w.e.parts, w.e.partStates, w.readers, w.progress)
    ensures Safe(w.(e := w.e.(pages := pages), ev := ev'))
  {
    hide WF, Owned, Ledger, PartsGuarded, FetchesGuarded, ReadersGuarded, PartRetriesGuarded, Modes, ProgressOk, OpsLedger;
    EntryShape(w.e);
    PagesWF(w.e, pages);
    LedgerFrame(w.e, w.readers, w.e.(pages := pages));
    SameOps(w.e, w.e.(pages := pages));
    SameModes(w.e, w.e.(pages := pages));
  }

  lemma SameModes(e: Entry, e': Entry)
    requires Modes(e) && e'.claims == e.claims && e'.manifest == e.manifest
    ensures Modes(e')
  {
  }

  lemma KeepEvictStart(w: World)
    requires Safe(w)
    ensures Safe(Apply(w, EvictStart))
  {
    hide WF, Owned, Ledger, PartsGuarded, FetchesGuarded, ReadersGuarded, PartRetriesGuarded, Modes, ProgressOk,
         OpsLedger, ScanEntry, Victim;
    EntryShape(w.e);
    if Evictable(w.e) {
      ScanShape(w.e);
      var s := ScanEntry(w.e);
      var w1 := w.(e := w.e.(hand := s.hand, referenced := s.referenced));
      KeepCosmetic(w, w1.e);
      if s.victim >= 0 {
        var b: nat := s.victim;
        SameVictim(w.e, w1.e, b);
        VictimTaken(w1, b);
        KeepEvictions(w1, TurnBlock(w.e, b, Clean, ReadPending), w.ev + [Evicting(b, CleanPages(w.e, b), false)]);
      }
    } else {
      assert w.(e := w.e) == w;
    }
  }

  lemma CosmeticWF(e: Entry, e': Entry)
    requires WF(e) && Cosmetic(e, e')
    ensures WF(e')
  {
    AlignedFrame(e, e');
  }

  /** Whether a region is a victim does not depend on the clock. */
  lemma SameRegion(e: Entry, e': Entry, b: nat)
    requires e.blockPages > 0 && e'.blockPages == e.blockPages && e'.pages == e.pages && e'.pins == e.pins && b < |e.pins|
    ensures Victim(e', b) == Victim(e, b) && CleanPages(e', b) == CleanPages(e, b)
  {
  }

  lemma SameVictim(e: Entry, e': Entry, b: nat)
    requires e.blockPages > 0 && e'.blockPages == e.blockPages && e'.pages == e.pages && e'.pins == e.pins && b < |e.pins|
    requires Victim(e, b)
    ensures Victim(e', b) && CleanPages(e', b) == CleanPages(e, b)
    ensures TurnBlock(e', b, Clean, ReadPending) == TurnBlock(e, b, Clean, ReadPending)
  {
  }

  lemma KeepPunch(w: World, k: nat)
    requires Safe(w) && Enabled(w, Punch(k))
    ensures Safe(Apply(w, Punch(k)))
  {
    hide WF, Owned, Ledger, PartsGuarded, FetchesGuarded, ReadersGuarded, PartRetriesGuarded, Modes, ProgressOk, OpsLedger;
    EntryShape(w.e);
    var ev' := w.ev[k := w.ev[k].(punched := true)];
    PunchedOwned(w.e.pages, w.e.claims, w.ev, w.e.blockPages, k);
    assert forall j | 0 <= j < |ev'| :: ev'[j].block == w.ev[j].block;
    GuardFewerEvictions(|w.e.pages|, w.e.claims, w.ev, w.e.blockPages, w.e.parts, w.e.partStates, w.readers,
                        w.progress, ev');
    KeepEvictions(w, w.e.pages, ev');
    assert w.e.(pages := w.e.pages) == w.e;
    var w1 := w.(ev := ev');
    assert Safe(w1);
    var file' := PunchBlocks(w.file, w.e.blockPages, {w.ev[k].block});
    assert Apply(w, Punch(k)) == w1.(file := file');
  }

  lemma PunchedOwned(pages: seq<PageState>, claims: seq<ActiveFetch>, ev: seq<Evicting>, b: nat, k: nat)
    requires Owned(pages, claims, ev, b) && k < |ev|
    ensures Owned(pages, claims, ev[k := ev[k].(punched := true)], b)
  {
    var ev' := ev[k := ev[k].(punched := true)];
    forall j | 0 <= j < |ev'| ensures EvictionHolds(pages, claims, b, ev'[j]) {
      assert EvictionHolds(pages, claims, b, ev[j]);
    }
    forall p | 0 <= p < |pages| && pages[p] == ReadPending ensures HasOwner(claims, ev', p) {
      assert HasOwner(claims, ev, p);
      if j :| 0 <= j < |ev| && p in ev[j].taken { assert p in ev'[j].taken; }
    }
  }

  lemma KeepEvictStop(w: World, k: nat, reported: bool)
    requires Safe(w) && Enabled(w, EvictStop(k, reported))
    ensures Safe(Apply(w, EvictStop(k, reported)))
  {
    hide WF, Owned, Ledger, PartsGuarded, FetchesGuarded, ReadersGuarded, PartRetriesGuarded, Modes, ProgressOk, OpsLedger;
    EntryShape(w.e);
    var v, ev' := w.ev[k], Without(w.ev, k);
    var pages := EvictEnd(w.e, v.taken, reported).pages;
    EndEviction(w.e.pages, w.e.claims, w.ev, w.e.blockPages, k, if reported then Missing else Clean, pages);
    forall j | 0 <= j < |ev'| ensures exists i :: 0 <= i < |w.ev| && w.ev[i].block == ev'[j].block {
      assert ev'[j] == w.ev[if j < k then j else j + 1];
    }
    GuardFewerEvictions(|w.e.pages|, w.e.claims, w.ev, w.e.blockPages, w.e.parts, w.e.partStates, w.readers,
                        w.progress, ev');
    KeepEvictions(w, pages, ev');
  }

  // ---------------------------------------------------------------- every event

  lemma FlagFields(e: Entry, o: nat, l: nat, verify: bool)
    requires WF(e)
    ensures Cosmetic(e, e) && Cosmetic(e, Retire(e)) && Cosmetic(e, e.(evictionDisabled := true))
    ensures Cosmetic(e, PrepareWrite(e).0)
    ensures Cosmetic(e, TryExport(e, verify).0) && (l > 0 ==> Cosmetic(e, SetReferenced(e, o, l)))
  {
    hide Aligned, Sum, PartsTile, Exportable;
  }

  lemma KeepTouch(w: World, o: nat, l: nat)
    requires Safe(w)
    ensures Safe(Apply(w, Touch(o, l)))
  {
    hide WF, Owned, Ledger, PartsGuarded, FetchesGuarded, ReadersGuarded, PartRetriesGuarded, Modes, ProgressOk,
         OpsLedger, Cosmetic, SetReferenced;
    EntryShape(w.e);
    FlagFields(w.e, o, l, false);
    if l > 0 { KeepCosmetic(w, SetReferenced(w.e, o, l)); }
  }

  lemma KeepExport(w: World, verify: bool)
    requires Safe(w)
    ensures Safe(Apply(w, Export(verify)))
  {
    hide WF, Owned, Ledger, PartsGuarded, FetchesGuarded, ReadersGuarded, PartRetriesGuarded, Modes, ProgressOk,
         OpsLedger, Cosmetic, TryExport;
    FlagFields(w.e, 0, 0, verify);
    KeepCosmetic(w, TryExport(w.e, verify).0);
  }

  lemma FlagApply(w: World, event: Event)
    requires Safe(w) && (event.Retired? || event.DisableEviction? || event.WriterEnters?)
    ensures Apply(w, event) == w.(e := if event.Retired? then Retire(w.e)
                                       else if event.DisableEviction? then w.e.(evictionDisabled := true)
                                       else PrepareWrite(w.e).0)
  {
    hide WF, Owned, Ledger, PartsGuarded, FetchesGuarded, ReadersGuarded, PartRetriesGuarded, Modes, ProgressOk,
         OpsLedger, Retire, PrepareWrite;
  }

  lemma KeepFlags(w: World, event: Event)
    requires Safe(w) && (event.Retired? || event.DisableEviction? || event.WriterEnters?)
    ensures Safe(Apply(w, event))
  {
    hide WF, Owned, Ledger, PartsGuarded, FetchesGuarded, ReadersGuarded, PartRetriesGuarded, Modes, ProgressOk,
         OpsLedger, Cosmetic;
    FlagFields(w.e, 0, 0, false);
    FlagApply(w, event);
    hide Apply, Retire, PrepareWrite;
    KeepCosmetic(w, Retire(w.e));
    KeepCosmetic(w, w.e.(evictionDisabled := true));
    KeepCosmetic(w, PrepareWrite(w.e).0);
  }

  /** Every event, whatever the environment answers, keeps the safety invariant. */
  lemma StepKeepsSafe(w: World, event: Event)
    requires Safe(w) && Enabled(w, event)
    ensures Safe(Apply(w, event))
  {
    hide Safe, Apply;
    match event
    case Claim(o, l, x) => KeepClaim(w, o, l, x);
    case Write(c, data) => KeepWrite(w, c, data);
    case Publish(c, published, upTo, final) => KeepPublish(w, c, published, upTo, final);
    case Finish(c, holes) => KeepFinish(w, c, holes);
    case Rollback(c) => KeepRollback(w, c);
    case Spoil(c) => KeepSpoil(w, c);
    case VerifyFetch(c) => KeepVerifyFetch(w, c);
    case Retry(c) => KeepRetry(w, c);
    case ReadPin(t, o, l) => KeepReadPin(w, t, o, l);
    case RawPin(t, o, l) => KeepRawPin(w, t, o, l);
    case Release(k) => KeepRelease(w, k);
    case LoadManifest => KeepLoadManifest(w);
    case ManifestLoaded(parts) => KeepManifestLoaded(w, parts);
    case ManifestFailed => KeepManifestFailed(w);
    case CheckPart(o, l, skip) => KeepCheckPart(w, o, l, skip);
    case Mismatch(c) => KeepMismatch(w, c);
    case RetryPart(c) => KeepRetryPart(w, c);
    case WritePart(c, at, data) => KeepWritePart(w, c, at, data);
    case FinishPart(c, valid) => KeepFinishPart(w, c, valid);
    case AbandonPart(c) => KeepAbandonPart(w, c);
    case EvictNow(punched) => KeepEvictNow(w, punched);
    case EvictStart => KeepEvictStart(w);
    case Punch(k) => KeepPunch(w, k);
    case EvictStop(k, reported) => KeepEvictStop(w, k, reported);
    case Touch(o, l) => KeepTouch(w, o, l);
    case Export(verify) => KeepExport(w, verify);
    case _ => KeepFlags(w, event);
  }
}
