/** The two ends of a generation: retirement, after which it only drains, and export, after
    which it never changes.
 */
module EntryRetirement {
  import opened EntryModel
  import opened EntryOwnership
  import opened EntryWorld
  import opened EntryLedger
  import opened EntrySafety
  import opened EntryCoherence
  import opened EntryRuns

  // ---------------------------------------------------------------- quiescence

  /** Every claim, pin and check has been returned, and no manifest is loading. */
  ghost predicate Drained(w: World)
  {
    && w.e.claims == [] && w.readers == [] && w.e.manifest != Loading
    && forall k | 0 <= k < |w.e.partStates| :: !Checking(w.e.partStates[k])
  }

  lemma NoFlags(s: seq<bool>)
    ensures CountTrue(s) == 0 <==> forall k | 0 <= k < |s| :: !s[k]
  {
    if k :| 0 <= k < |s| && s[k] { CountPositive(s, k); } else { CountNone(s); }
  }

  lemma OpsZero(e: Entry)
    requires OpsLedger(e)
    ensures e.checksumOps == 0 <==>
            (e.manifest != Loading && forall k | 0 <= k < |e.partStates| :: !Checking(e.partStates[k]))
  {
    NoFlags(CheckFlags(e.partStates));
    assert forall k | 0 <= k < |e.partStates| :: CheckFlags(e.partStates)[k] == Checking(e.partStates[k]);
  }

  lemma PinsZero(w: World)
    requires Safe(w) && w.e.claims == [] && forall k | 0 <= k < |w.e.partStates| :: !Checking(w.e.partStates[k])
    ensures w.e.pinnedRegions == 0 <==> w.readers == []
  {
    hide Owned, PartsGuarded, FetchesGuarded, ReadersGuarded, PartRetriesGuarded, Modes, ProgressOk, OpsLedger, PartsTile,
         Aligned;
    SumZero(w.e.pins);
    var b := w.e.blockPages;
    forall r | 0 <= r < |w.e.pins| ensures w.e.pins[r] == CountTrue(ReaderFlags(w.readers, b, r)) {
      NoFlags(PartFlags(w.e.parts, w.e.partStates, b, r));
      NoFlags(FetchFlags(w.e.claims, b, r));
    }
    if w.readers != [] {
      var r := w.readers[0];
      RangeBounds(w.e, r.offset, r.length);
      var g := RegionLo(w.e, r.offset);
      assert ReaderFlags(w.readers, b, g)[0];
      CountPositive(ReaderFlags(w.readers, b, g), 0);
      assert w.e.pins[g] > 0;
    } else {
      forall r | 0 <= r < |w.e.pins| ensures w.e.pins[r] == 0 {
        assert ReaderFlags(w.readers, b, r) == [];
      }
    }
  }

  /** The quiescence test of the source is exact: it holds when, and only when, nothing is outstanding. */
  lemma QuiescentIffDrained(w: World)
    requires Safe(w)
    ensures Quiescent(w.e) <==> Drained(w)
  {
    hide WF, Owned, Ledger, PartsGuarded, FetchesGuarded, ReadersGuarded, PartRetriesGuarded, Modes, ProgressOk, OpsLedger;
    OpsZero(w.e);
    if w.e.claims == [] && w.e.checksumOps == 0 { PinsZero(w); }
  }

  // ---------------------------------------------------------------- after retirement

  /** `w'` is retired and holds nothing that `w` did not hold. */
  ghost predicate Drains(w: World, w': World)
  {
    && w'.e.stale
    && (forall i | 0 <= i < |w'.e.claims| :: w'.e.claims[i] in w.e.claims)
    && (forall k | 0 <= k < |w'.readers| :: w'.readers[k] in w.readers)
    && |w'.e.claims| <= |w.e.claims| && |w'.readers| <= |w.readers|
    && (forall k | 0 <= k < |w'.e.partStates| && Checking(w'.e.partStates[k]) ::
          k < |w.e.partStates| && Checking(w.e.partStates[k]))
    && (w'.e.manifest == Loading ==> w.e.manifest == Loading)
  }

  lemma DrainsByFetch(w: World, event: Event)
    requires Safe(w) && w.e.stale && Enabled(w, event)
    requires event.Claim? || event.Write? || event.Publish? || event.Finish? || event.Rollback? || event.Spoil? ||
             event.VerifyFetch? || event.Retry?
    ensures Drains(w, Apply(w, event))
  {
    hide WF, Owned, Ledger, PartsGuarded, FetchesGuarded, ReadersGuarded, PartRetriesGuarded, Modes, ProgressOk, OpsLedger,
         RetryPinsReady, MayTouch, Restore, Turn, Unfinished, EndFetch;
    match event
    case Finish(c, _) => DrainsByEnd(w, c);
    case Rollback(c) => DrainsByEnd(w, c);
    case _ =>
  }

  lemma DrainsByEnd(w: World, c: FetchClaim)
    requires Safe(w) && w.e.stale
    ensures Drains(w, w.(e := FinishFetch(w.e, c))) && Drains(w, w.(e := RollbackFetch(w.e, c)))
  {
    hide Owned, Ledger, PartsGuarded, FetchesGuarded, ReadersGuarded, PartRetriesGuarded, Modes, ProgressOk, OpsLedger,
         EndFetch, PartsTile, Sum;
    var i := Find(w.e.claims, c);
    if i < |w.e.claims| {
      var a := w.e.claims[i];
      ClaimShape(w.e, i);
      EndFields(w.e, i, Turn(w.e.pages, TailLo(a), TailHi(a), ReadPending, Missing));
      EndFields(w.e, i, Restore(w.e, a));
      forall k | 0 <= k < |w.e.claims| - 1 ensures Without(w.e.claims, i)[k] in w.e.claims {
        assert Without(w.e.claims, i)[k] == w.e.claims[if k < i then k else k + 1];
      }
    }
  }

  lemma DropFields(e: Entry, o: nat, l: nat)
    requires e.blockPages > 0 && l > 0
    ensures forall pages :: PinsOnly(e.(pages := pages), DropRegionPins(e.(pages := pages), o, l))
  {
    hide Sum;
  }

  lemma DrainsByPin(w: World, t: nat, o: nat, l: nat, clean: bool)
    requires Safe(w) && w.e.stale && Inside(w.e, o, l)
    ensures Drains(w, PinRange(w, t, o, l, clean))
  {
    hide WF, Owned, Ledger, PartsGuarded, FetchesGuarded, ReadersGuarded, PartRetriesGuarded, Modes, ProgressOk, OpsLedger;
  }

  lemma DrainsByRelease(w: World, k: nat)
    requires Safe(w) && w.e.stale && k < |w.readers|
    ensures Drains(w, Apply(w, Release(k)))
  {
    hide WF, Owned, Ledger, PartsGuarded, FetchesGuarded, ReadersGuarded, PartRetriesGuarded, Modes, ProgressOk, OpsLedger,
         DropRegionPins;
    EntryShape(w.e);
    DropFields(w.e, w.readers[k].offset, w.readers[k].length);
    assert w.e.(pages := w.e.pages) == w.e;
    forall j | 0 <= j < |w.readers| - 1 ensures Without(w.readers, k)[j] in w.readers {
      assert Without(w.readers, k)[j] == w.readers[if j < k then j else j + 1];
    }
  }

  lemma DrainsByManifest(w: World, event: Event)
    requires Safe(w) && w.e.stale && Enabled(w, event)
    requires event.LoadManifest? || event.ManifestLoaded? || event.ManifestFailed?
    ensures Drains(w, Apply(w, event))
  {
    hide WF, Owned, Ledger, PartsGuarded, FetchesGuarded, ReadersGuarded, PartRetriesGuarded, Modes, ProgressOk, OpsLedger;
  }

  lemma DrainsByCheck(w: World, event: Event)
    requires Safe(w) && w.e.stale && Enabled(w, event)
    requires event.CheckPart? || event.Mismatch? || event.RetryPart? || event.WritePart?
    ensures Drains(w, Apply(w, event))
  {
    hide WF, Owned, Ledger, PartsGuarded, FetchesGuarded, ReadersGuarded, PartRetriesGuarded, Modes, ProgressOk, OpsLedger, Fits;
  }

  lemma DrainsByEndCheck(e: Entry, c: ChecksumClaim, pages: seq<PageState>, st: PartState)
    requires e.blockPages > 0 && c.part < |e.partStates| && c.size > 0 && !Checking(st)
    ensures var e' := EndCheck(e.(pages := pages), c, st);
            && e'.stale == e.stale && e'.claims == e.claims && e'.manifest == e.manifest
            && |e'.partStates| == |e.partStates|
            && (forall k | 0 <= k < |e.partStates| && Checking(e'.partStates[k]) :: Checking(e.partStates[k]))
  {
    hide Sum;
  }

  lemma DrainsByFinishCheck(w: World, event: Event)
    requires Safe(w) && w.e.stale && Enabled(w, event) && event.FinishPart?
    ensures Drains(w, Apply(w, event))
  {
    hide WF, Owned, Ledger, PartsGuarded, FetchesGuarded, ReadersGuarded, PartRetriesGuarded, Modes, ProgressOk, OpsLedger, EndCheck;
    EntryShape(w.e);
    var c := event.check;
    LiveInside(w.e, c);
    if CheckLive(w.e, c) {
      DrainsByEndCheck(w.e, c, w.e.pages, Verified);
      DrainsByEndCheck(w.e, c, w.e.pages, PartBad);
      assert w.e.(pages := w.e.pages) == w.e;
    }
  }

  lemma DrainsByAbandonCheck(w: World, event: Event)
    requires Safe(w) && w.e.stale && Enabled(w, event) && event.AbandonPart?
    ensures Drains(w, Apply(w, event))
  {
    hide WF, Owned, Ledger, PartsGuarded, FetchesGuarded, ReadersGuarded, PartRetriesGuarded, Modes, ProgressOk, OpsLedger, EndCheck;
    EntryShape(w.e);
    var c := event.check;
    LiveInside(w.e, c);
    if CheckLive(w.e, c) {
      DrainsByEndCheck(w.e, c, Turn(w.e.pages, FirstPage(c.offset), EndPage(c.offset, c.size), Clean, Missing), Unverified);
    }
  }

  /** Once stale, a generation admits no fetch, pin or check; it can only give them back. */
  lemma RetiredOnlyDrains(w: World, event: Event)
    requires Safe(w) && w.e.stale && Enabled(w, event)
    ensures Drains(w, Apply(w, event))
  {
    hide WF, Owned, Ledger, PartsGuarded, FetchesGuarded, ReadersGuarded, PartRetriesGuarded, Modes, ProgressOk, OpsLedger,
         Drains;
    match event
    case Claim(_, _, _) => DrainsByFetch(w, event);
    case Write(_, _) => DrainsByFetch(w, event);
    case Publish(_, _, _, _) => DrainsByFetch(w, event);
    case Finish(_, _) => DrainsByFetch(w, event);
    case Rollback(_) => DrainsByFetch(w, event);
    case Spoil(_) => DrainsByFetch(w, event);
    case VerifyFetch(_) => DrainsByFetch(w, event);
    case Retry(_) => DrainsByFetch(w, event);
    case ReadPin(t, o, l) => DrainsByPin(w, t, o, l, true);
    case RawPin(t, o, l) => DrainsByPin(w, t, o, l, false);
    case Release(k) => DrainsByRelease(w, k);
    case Touch(_, _) => DrainsByOther(w, event); UnrelatedDrains(w, Apply(w, event));
    case LoadManifest => DrainsByManifest(w, event);
    case ManifestLoaded(_) => DrainsByManifest(w, event);
    case ManifestFailed => DrainsByManifest(w, event);
    case CheckPart(_, _, _) => DrainsByCheck(w, event);
    case Mismatch(_) => DrainsByCheck(w, event);
    case RetryPart(_) => DrainsByCheck(w, event);
    case WritePart(_, _, _) => DrainsByCheck(w, event);
    case FinishPart(_, _) => DrainsByFinishCheck(w, event);
    case AbandonPart(_) => DrainsByAbandonCheck(w, event);
    case EvictNow(punched) => DrainsByEviction(w, punched);
    case EvictStart => DrainsByEviction(w, false);
    case Punch(_) => DrainsByOther(w, event); UnrelatedDrains(w, Apply(w, event));
    case EvictStop(_, _) => DrainsByOther(w, event); UnrelatedDrains(w, Apply(w, event));
    case _ => DrainsByFlag(w, event); UnrelatedDrains(w, Apply(w, event));
  }

  lemma UnrelatedDrains(w: World, w': World)
    requires Unrelated(w, w') && w.e.stale
    ensures Drains(w, w')
  {
  }

  lemma DrainsByEviction(w: World, punched: bool)
    requires Safe(w) && w.e.stale
    ensures Drains(w, EvictRegion(w, punched)) && Drains(w, TakeRegion(w))
  {
    hide WF, Owned, Ledger, PartsGuarded, FetchesGuarded, ReadersGuarded, PartRetriesGuarded, Modes, ProgressOk, OpsLedger;
  }

  /** Only pages, flags, reference bits, the file and evictions in flight differ. */
  ghost predicate Unrelated(w: World, w': World)
  {
    && w'.e == w.e.(pages := w'.e.pages, referenced := w'.e.referenced, evictionDisabled := w'.e.evictionDisabled,
                    stale := w'.e.stale, dirty := w'.e.dirty, exported := w'.e.exported)
    && w'.readers == w.readers && (w.e.stale ==> w'.e.stale)
  }

  lemma DrainsByOther(w: World, event: Event)
    requires Safe(w) && Enabled(w, event)
    requires event.Punch? || event.EvictStop? || event.Touch?
    ensures Unrelated(w, Apply(w, event))
  {
    hide WF, Owned, Ledger, PartsGuarded, FetchesGuarded, ReadersGuarded, PartRetriesGuarded, Modes, ProgressOk, OpsLedger,
         SetReferenced, PunchBlocks;
    EntryShape(w.e);
    if event.Touch? && event.l > 0 { TouchFields(w.e, event.o, event.l); }
  }

  lemma DrainsByFlag(w: World, event: Event)
    requires Safe(w) && Enabled(w, event)
    requires event.Retired? || event.Export? || event.DisableEviction? || event.WriterEnters?
    ensures Unrelated(w, Apply(w, event))
  {
    hide WF, Owned, Ledger, PartsGuarded, FetchesGuarded, ReadersGuarded, PartRetriesGuarded, Modes, ProgressOk, OpsLedger, Exportable;
  }

  lemma TouchFields(e: Entry, o: nat, l: nat)
    requires e.blockPages > 0 && l > 0
    ensures SetReferenced(e, o, l) == e.(referenced := SetReferenced(e, o, l).referenced)
  {
  }

  /** A retired generation stays retired through every run, and once quiescent it stays quiescent. */
  lemma {:induction false} RetirementIsAbsorbing(w: World, events: seq<Event>)
    requires Safe(w) && w.e.stale && Allowed(w, events)
    ensures Safe(Run(w, events)) && Run(w, events).e.stale
    ensures |Run(w, events).e.claims| <= |w.e.claims| && |Run(w, events).readers| <= |w.readers|
    ensures Quiescent(w.e) ==> Quiescent(Run(w, events).e)
    decreases |events|
  {
    if events != [] {
      var w1 := Apply(w, events[0]);
      StepKeepsSafe(w, events[0]);
      RetiredOnlyDrains(w, events[0]);
      QuiescentIffDrained(w);
      QuiescentIffDrained(w1);
      hide Safe, Enabled, Apply, Quiescent;
      RetirementIsAbsorbing(w1, events[1..]);
    }
  }

  // ---------------------------------------------------------------- after export

  /** Everything is clean and nothing is under way. */
  ghost predicate Frozen(w: World)
  {
    && w.e.exported && w.e.claims == [] && w.ev == [] && w.e.manifest != Loading
    && (forall k | 0 <= k < |w.e.partStates| :: !Checking(w.e.partStates[k]))
    && (forall p | 0 <= p < |w.e.pages| :: w.e.pages[p] == Clean)
  }

  lemma EvictionShows(pages: seq<PageState>, claims: seq<ActiveFetch>, ev: seq<Evicting>, b: nat, k: nat)
    requires Owned(pages, claims, ev, b) && k < |ev|
    ensures exists p :: 0 <= p < |pages| && pages[p] == ReadPending
  {
    assert EvictionHolds(pages, claims, b, ev[k]);
    var p :| p in ev[k].taken;
    assert pages[p] == ReadPending;
  }

  /** A successful export finds a generation with nothing under way. */
  lemma ExportFreezes(w: World, verify: bool)
    requires Safe(w) && Exportable(w.e, verify)
    ensures Frozen(Apply(w, Export(verify))) && Apply(w, Export(verify)).e.evictionDisabled
  {
    hide WF, Ledger, PartsGuarded, FetchesGuarded, ReadersGuarded, PartRetriesGuarded, Modes, ProgressOk, OpsLedger;
    OpsZero(w.e);
    if w.ev != [] { EvictionShows(w.e.pages, w.e.claims, w.ev, w.e.blockPages, 0); }
  }

  ghost predicate Still(w: World, w': World)
  {
    Frozen(w') && w'.e.pages == w.e.pages && w'.file == w.file
  }

  lemma StillByFetch(w: World, event: Event)
    requires Safe(w) && Frozen(w) && Enabled(w, event)
    requires event.Claim? || event.Write? || event.Publish? || event.Finish? || event.Rollback? || event.Spoil? ||
             event.VerifyFetch? || event.Retry?
    ensures Still(w, Apply(w, event))
  {
    hide WF, Owned, Ledger, PartsGuarded, FetchesGuarded, ReadersGuarded, PartRetriesGuarded, Modes, ProgressOk, OpsLedger;
  }

  lemma StillByReader(w: World, event: Event)
    requires Safe(w) && Frozen(w) && Enabled(w, event)
    requires event.ReadPin? || event.RawPin? || event.Release? || event.Touch?
    ensures Still(w, Apply(w, event))
  {
    hide WF, Owned, Ledger, PartsGuarded, FetchesGuarded, ReadersGuarded, PartRetriesGuarded, Modes, ProgressOk, OpsLedger,
         PinClean, Pin, SetReferenced, AddRegionPins, DropRegionPins, Quiet;
    EntryShape(w.e);
    match event {
      case ReadPin(_, o, l) => ReadPinFields(w.e, o, l); StillPins(w.e, o, l);
      case RawPin(_, o, l) => RawPinFields(w.e, o, l); StillPins(w.e, o, l);
      case Release(k) => StillPins(w.e, w.readers[k].offset, w.readers[k].length);
      case Touch(o, l) => if l > 0 { StillPins(w.e, o, l); }
    }
  }

  ghost predicate PinsAndBits(e: Entry, e': Entry)
  {
    e' == e.(pins := e'.pins, pinnedRegions := e'.pinnedRegions, referenced := e'.referenced)
  }

  lemma StillPins(e: Entry, o: nat, l: nat)
    requires e.blockPages > 0 && l > 0
    ensures PinsAndBits(e, SetReferenced(AddRegionPins(e, o, l), o, l)) && PinsAndBits(e, AddRegionPins(e, o, l))
    ensures PinsAndBits(e, DropRegionPins(e, o, l)) && PinsAndBits(e, SetReferenced(e, o, l))
  {
    hide Sum;
  }

  lemma StillByManifest(w: World, event: Event)
    requires Safe(w) && Frozen(w) && Enabled(w, event)
    requires event.LoadManifest? || event.ManifestLoaded? || event.ManifestFailed?
    ensures Still(w, Apply(w, event))
  {
    hide WF, Owned, Ledger, PartsGuarded, FetchesGuarded, ReadersGuarded, PartRetriesGuarded, Modes, ProgressOk, OpsLedger;
  }

  lemma StillByCheck(w: World, event: Event)
    requires Safe(w) && Frozen(w) && Enabled(w, event)
    requires event.CheckPart? || event.Mismatch? || event.RetryPart? || event.WritePart? || event.FinishPart? ||
             event.AbandonPart?
    ensures Still(w, Apply(w, event))
  {
    hide WF, Owned, Ledger, PartsGuarded, FetchesGuarded, ReadersGuarded, PartRetriesGuarded, Modes, ProgressOk, OpsLedger, EndCheck,
         RetryPinsReady;
    EntryShape(w.e);
  }

  lemma StillByEviction(w: World, punched: bool)
    requires Safe(w) && Frozen(w)
    ensures Still(w, EvictRegion(w, punched)) && Still(w, TakeRegion(w))
  {
    hide WF, Owned, Ledger, PartsGuarded, FetchesGuarded, ReadersGuarded, PartRetriesGuarded, Modes, ProgressOk, OpsLedger;
  }

  /** There is no eviction in flight to go on with. */
  lemma FrozenNoEviction(w: World, k: nat)
    requires Frozen(w)
    ensures k >= |w.ev|
  {
  }

  lemma StillByFlag(w: World, event: Event)
    requires Safe(w) && Frozen(w) && Enabled(w, event)
    requires event.Retired? || event.Export? || event.DisableEviction? || event.WriterEnters?
    ensures Still(w, Apply(w, event))
  {
    hide WF, Owned, Ledger, PartsGuarded, FetchesGuarded, ReadersGuarded, PartRetriesGuarded, Modes, ProgressOk, OpsLedger, Exportable;
  }

  /** No event changes a page or a byte of an exported generation. */
  lemma FrozenStays(w: World, event: Event)
    requires Safe(w) && Frozen(w) && Enabled(w, event)
    ensures Still(w, Apply(w, event))
  {
    hide WF, Owned, Ledger, PartsGuarded, FetchesGuarded, ReadersGuarded, PartRetriesGuarded, Modes, ProgressOk, OpsLedger,
         Still, Frozen;
    match event
    case Claim(_, _, _) => StillByFetch(w, event);
    case Write(_, _) => StillByFetch(w, event);
    case Publish(_, _, _, _) => StillByFetch(w, event);
    case Finish(_, _) => StillByFetch(w, event);
    case Rollback(_) => StillByFetch(w, event);
    case Spoil(_) => StillByFetch(w, event);
    case VerifyFetch(_) => StillByFetch(w, event);
    case Retry(_) => StillByFetch(w, event);
    case ReadPin(_, _, _) => StillByReader(w, event);
    case RawPin(_, _, _) => StillByReader(w, event);
    case Release(_) => StillByReader(w, event);
    case Touch(_, _) => StillByReader(w, event);
    case LoadManifest => StillByManifest(w, event);
    case ManifestLoaded(_) => StillByManifest(w, event);
    case ManifestFailed => StillByManifest(w, event);
    case CheckPart(_, _, _) => StillByCheck(w, event);
    case Mismatch(_) => StillByCheck(w, event);
    case RetryPart(_) => StillByCheck(w, event);
    case WritePart(_, _, _) => StillByCheck(w, event);
    case FinishPart(_, _) => StillByCheck(w, event);
    case AbandonPart(_) => StillByCheck(w, event);
    case EvictNow(punched) => StillByEviction(w, punched);
    case EvictStart => StillByEviction(w, false);
    case Punch(k) => FrozenNoEviction(w, k);
    case EvictStop(k, _) => FrozenNoEviction(w, k);
    case _ => StillByFlag(w, event);
  }

  lemma {:induction false} FrozenRun(w: World, events: seq<Event>)
    requires Safe(w) && Frozen(w) && Allowed(w, events)
    ensures Still(w, Run(w, events))
    decreases |events|
  {
    if events != [] {
      StepKeepsSafe(w, events[0]);
      FrozenStays(w, events[0]);
      hide Safe, Enabled, Apply, Frozen;
      FrozenRun(Apply(w, events[0]), events[1..]);
    }
  }

  /** After a successful export no run changes any page state or any byte of the file, starts a
      fetch or check, or evicts anything. */
  lemma ExportedNeverChanges(w: World, verify: bool, events: seq<Event>)
    requires Safe(w) && TryExport(w.e, verify).1 && Allowed(w, [Export(verify)] + events)
    ensures Still(w, Run(w, [Export(verify)] + events))
  {
    assert ([Export(verify)] + events)[1..] == events;
    StepKeepsSafe(w, Export(verify));
    ExportFreezes(w, verify);
    ExportSame(w, verify);
    hide Safe, Apply, Frozen;
    FrozenRun(Apply(w, Export(verify)), events);
  }

  lemma ExportSame(w: World, verify: bool)
    requires Safe(w)
    ensures Apply(w, Export(verify)).e.pages == w.e.pages && Apply(w, Export(verify)).file == w.file
  {
    hide Safe;
  }
}
