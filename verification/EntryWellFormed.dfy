/** Every operation of an entry keeps it well formed, whatever the environment. */
module EntryWellFormed {
  import opened Geometry
  import opened EntryModel
  import opened EntryOwnership
  import opened EntrySafety

  lemma PinCleanKeepsWF(e: Entry, o: nat, l: nat)
    requires WF(e) && (l > 0 ==> Inside(e, o, l))
    ensures WF(PinClean(e, o, l).0)
  {
    hide Aligned, PartsTile, Sum, ChecksumBlocked, AllState, PinsFull;
    var e' := PinClean(e, o, l).0;
    if e' != e {
      PinRangeWF(e, o, l);
      CosmeticWF(AddRegionPins(e, o, l), e');
    }
  }

  lemma TouchKeepsWF(e: Entry, o: nat, l: nat)
    requires WF(e) && l > 0
    ensures WF(SetReferenced(e, o, l))
  {
    hide Aligned, PartsTile, Sum;
    CosmeticWF(e, SetReferenced(e, o, l));
  }

  lemma PinKeepsWF(e: Entry, o: nat, l: nat)
    requires WF(e) && (l > 0 ==> Inside(e, o, l))
    ensures WF(Pin(e, o, l).0) && WF(Unpin(e, o, l))
  {
    if l > 0 {
      PinRangeWF(e, o, l);
      RangeBounds(e, o, l);
      hide WF, AddRegionPins, DropRegionPins;
    }
  }

  lemma ClaimFetchKeepsWF(e: Entry, o: nat, l: nat, expansion: nat)
    requires WF(e)
    ensures WF(ClaimFetch(e, o, l, expansion).0)
  {
    if ClaimFetch(e, o, l, expansion).1.Claimed? {
      var start, stop := ClaimedBlocks(e, o, l, expansion);
      ClaimBlocksPages(e, start, stop);
    }
  }

  lemma PublishKeepsWF(e: Entry, c: FetchClaim, published: nat, length: nat, final: bool)
    requires WF(e)
    ensures WF(PublishClean(e, c, published, length, final))
  {
    hide WF, Published, Aligned;
    PublishFields(e, c, published, length, final);
    var i, e' := Find(e.claims, c), PublishClean(e, c, published, length, final);
    hide PublishClean;
    EntryShape(e);
    if e' != e { PublishedWF(e, e', i, length); }
  }

  lemma EndKeepsWF(e: Entry, i: nat, pages: seq<PageState>)
    requires WF(e) && i < |e.claims| && |pages| == |e.pages|
    ensures e.claims[i].length > 0 && WF(EndFetch(e.(pages := pages), i))
  {
    hide EndFetch;
    ClaimShape(e, i);
    PagesWF(e, pages);
    EndFetchWF(e.(pages := pages), i);
  }

  lemma FinishKeepsWF(e: Entry, c: FetchClaim)
    requires WF(e)
    ensures WF(FinishFetch(e, c)) && WF(RollbackFetch(e, c)) && WF(MarkBad(e, c))
  {
    var i := Find(e.claims, c);
    if i < |e.claims| {
      var a := e.claims[i];
      ClaimShape(e, i);
      assert Aligned(e, a);
      EndKeepsWF(e, i, Turn(e.pages, TailLo(a), TailHi(a), ReadPending, Missing));
      EndKeepsWF(e, i, Restore(e, a));
      PagesWF(e, Fill(e.pages, if a.verifying then FirstPage(a.offset) else TailLo(a), TailHi(a), Bad));
      hide WF, EndFetch, Restore, Turn, Fill;
    }
  }

  lemma VerificationKeepsWF(e: Entry, c: FetchClaim)
    requires WF(e)
    ensures WF(PinFetchVerification(e, c).0)
  {
    var i := Find(e.claims, c);
    if i < |e.claims| {
      var a := e.claims[i];
      ClaimShape(e, i);
      RangeBounds(e, a.offset, a.length);
      VerifyWF(e, i, AddRegionPins(e, a.offset, a.length).(claims := e.claims[i := a.(verifying := true)]));
      hide WF, AddRegionPins, OthersMeet, PinsFull, AllState;
    }
  }

  lemma RetryKeepsWF(e: Entry, c: FetchClaim)
    requires WF(e)
    ensures WF(BeginRetry(e, c).0)
  {
    var i := Find(e.claims, c);
    if i < |e.claims| {
      RetryKeepsShape(e, i);
      hide WF, RetryPinsReady;
    }
  }

  lemma BeginManifestKeepsWF(e: Entry)
    requires WF(e)
    ensures WF(BeginManifest(e).0)
  {
    hide Aligned, Sum, PartsTile;
    AlignedFrame(e, BeginManifest(e).0);
  }

  lemma FinishManifestKeepsWF(e: Entry, parts: seq<ChecksumPart>)
    requires WF(e)
    ensures WF(FinishManifest(e, parts))
  {
    ManifestEndFields(e, parts);
    var e' := FinishManifest(e, parts);
    AlignedFrame(e, e');
    hide Aligned, Sum, FinishManifest;
    if e'.parts == [] { assert PartsTile(e'.parts, e.size); }
  }

  lemma ClaimPartKeepsWF(e: Entry, lo: nat, hi: nat, skip: bool)
    requires WF(e)
    ensures WF(ClaimPartFrom(e, 0, lo, hi, skip).0)
  {
    hide WF, VerifyPart, PartClean, ClaimPartFrom;
    ClaimedPart(e, 0, lo, hi, skip);
    var r := ClaimPartFrom(e, 0, lo, hi, skip).1;
    if r.ChecksumVerify? { VerifyPartShape(e, r.claim.part); }
  }

  lemma CheckKeepsWF(e: Entry, o: nat, l: nat, skip: bool)
    requires WF(e)
    ensures WF(ClaimChecksum(e, o, l, skip).0)
  {
    hide WF, ClaimPartFrom;
    ClaimPartKeepsWF(e, o, o + (if o <= e.size then Min(l, e.size - o) else 0), skip);
  }

  lemma RetryCheckKeepsWF(e: Entry, c: ChecksumClaim)
    requires WF(e)
    ensures WF(ChecksumMismatch(e, c))
    ensures (CheckLive(e, c) ==> Inside(e, c.offset, c.size)) ==> WF(BeginChecksumRetry(e, c).0)
  {
    if c.part < |e.partStates| {
      RetryStateWF(e, c.part, e.(partStates := e.partStates[c.part := Retrying]));
      hide WF, RetryPinsReady;
    }
  }

  lemma EndCheckKeepsWF(e: Entry, c: ChecksumClaim, st: PartState, pages: seq<PageState>)
    requires WF(e) && c.part < |e.partStates| && Inside(e, c.offset, c.size) && |pages| == |e.pages|
    ensures WF(EndCheck(e.(pages := pages), c, st))
  {
    hide PartsTile, Sum;
    PagesWF(e, pages);
    PinRangeWF(e.(pages := pages), c.offset, c.size);
    AlignedFrame(e, EndCheck(e.(pages := pages), c, st));
  }

  lemma FinishCheckKeepsWF(e: Entry, c: ChecksumClaim, valid: bool)
    requires WF(e) && (CheckLive(e, c) ==> Inside(e, c.offset, c.size))
    ensures WF(FinishChecksum(e, c, valid))
  {
    hide WF, EndCheck;
    EntryShape(e);
    if CheckLive(e, c) {
      assert e.(pages := e.pages) == e;
      EndCheckKeepsWF(e, c, if valid then Verified else PartBad, e.pages);
    }
  }

  lemma AbandonKeepsWF(e: Entry, c: ChecksumClaim)
    requires WF(e) && (CheckLive(e, c) ==> Inside(e, c.offset, c.size))
    ensures WF(AbandonChecksum(e, c))
  {
    hide WF, EndCheck, Turn;
    EntryShape(e);
    if CheckLive(e, c) {
      EndCheckKeepsWF(e, c, Unverified, Turn(e.pages, FirstPage(c.offset), EndPage(c.offset, c.size), Clean, Missing));
    }
  }

  lemma EvictKeepsWF(e: Entry, punched: bool)
    requires WF(e)
    ensures WF(EvictOne(e, punched).0) && WF(EvictBegin(e).0)
  {
    if Evictable(e) {
      var s := ScanEntry(e);
      var e' := e.(hand := s.hand, referenced := s.referenced);
      CosmeticWF(e, e');
      if s.victim >= 0 {
        PagesWF(e', TurnBlock(e, s.victim, Clean, Missing));
        PagesWF(e', TurnBlock(e, s.victim, Clean, ReadPending));
      }
      hide WF, ClockScan, TurnBlock;
    }
  }

  lemma EvictEndKeepsWF(e: Entry, taken: set<nat>, punched: bool)
    requires WF(e)
    ensures WF(EvictEnd(e, taken, punched))
  {
    PagesWF(e, EvictEnd(e, taken, punched).pages);
  }

  lemma ExportKeepsWF(e: Entry, verify: bool)
    requires WF(e)
    ensures WF(TryExport(e, verify).0)
  {
    CosmeticWF(e, e.(exported := true, evictionDisabled := true));
    CosmeticWF(e, e);
  }
}
