/** What a generation remembers of its checksum verdicts, over whole runs.

    The state of a part is tied to the history of events: to the last verdict that a live
    check of that part came back with.
 */
module EntryVerdicts {
  import opened Geometry
  import opened EntryModel
  import opened EntryOwnership
  import opened EntryWorld
  import opened EntrySafety
  import opened EntryLaws
  import opened EntryRuns

  datatype Verdict = NoVerdict | Valid | Invalid

  lemma {:induction false} RunLast(w: World, events: seq<Event>)
    requires Safe(w) && Allowed(w, events) && events != []
    ensures var n := |events| - 1;
            && Allowed(w, events[..n]) && Safe(Run(w, events[..n])) && Enabled(Run(w, events[..n]), events[n])
            && Run(w, events) == Apply(Run(w, events[..n]), events[n])
    decreases |events|
  {
    hide Safe, Enabled, Apply;
    var n := |events| - 1;
    SafeSound(w);
    StepKeepsSafe(w, events[0]);
    if n > 0 {
      RunLast(Apply(w, events[0]), events[1..]);
      assert events[1..][..n - 1] == events[..n][1..] && events[..n][0] == events[0];
    }
  }

  /** The event ends a live check of part `k`. */
  predicate Settles(e: Entry, event: Event, k: nat)
  {
    event.FinishPart? && event.check.part == k && CheckLive(e, event.check)
  }

  /** The verdict of the last live check of part `k` that ended. */
  ghost function LastVerdict(w: World, events: seq<Event>, k: nat): Verdict
    requires Safe(w) && Allowed(w, events)
    decreases |events|
  {
    if events == [] then NoVerdict
    else
      RunLast(w, events);
      var n := |events| - 1;
      if Settles(Run(w, events[..n]).e, events[n], k) then (if events[n].valid then Valid else Invalid)
      else if events[n].ManifestLoaded? || events[n].ManifestFailed? then NoVerdict
      else LastVerdict(w, events[..n], k)
  }

  /** The states of the parts say what the verdicts were. */
  predicate Shows(st: PartState, v: Verdict)
  {
    (st == Verified <==> v == Valid) && (st == PartBad <==> v == Invalid)
  }

  ghost predicate SameParts(e: Entry, e': Entry) { e'.parts == e.parts && e'.partStates == e.partStates }

  // ---------------------------------------------------------------- events that leave the parts alone

  lemma FetchKeepsParts(w: World, event: Event)
    requires Safe(w) && Enabled(w, event)
    requires event.Claim? || event.Write? || event.Publish? || event.Spoil? || event.Retry?
    ensures SameParts(w.e, Apply(w, event).e)
  {
    hide WF, Owned, Ledger, PartsGuarded, FetchesGuarded, ReadersGuarded, PartRetriesGuarded, Modes, ProgressOk, OpsLedger,
         RetryPinsReady, MayTouch, Turn, PublishTarget, BlockBusy, ScanStop, FirstNot, Retainted;
  }

  lemma EndKeepsParts(w: World, event: Event)
    requires Safe(w) && Enabled(w, event) && (event.Finish? || event.Rollback? || event.VerifyFetch?)
    ensures SameParts(w.e, Apply(w, event).e)
  {
    hide WF, Owned, Ledger, PartsGuarded, FetchesGuarded, ReadersGuarded, PartRetriesGuarded, Modes, ProgressOk, OpsLedger,
         Turn, Restore, Sum, AllState, PinsFull, OthersMeet;
  }

  lemma PinsKeepParts(w: World, event: Event)
    requires Safe(w) && Enabled(w, event) && (event.ReadPin? || event.RawPin? || event.Release? || event.Touch?)
    ensures SameParts(w.e, Apply(w, event).e)
  {
    hide WF, Owned, Ledger, PartsGuarded, FetchesGuarded, ReadersGuarded, PartRetriesGuarded, Modes, ProgressOk, OpsLedger,
         Sum, AllState, PinsFull, ChecksumBlocked;
  }

  lemma OthersKeepParts(w: World, event: Event)
    requires Safe(w) && Enabled(w, event)
    requires event.LoadManifest? || event.WritePart? || event.EvictNow? || event.EvictStart? || event.Punch? ||
             event.EvictStop? || event.Retired? || event.Export? || event.DisableEviction? || event.WriterEnters?
    ensures SameParts(w.e, Apply(w, event).e)
  {
    hide WF, Owned, Ledger, PartsGuarded, FetchesGuarded, ReadersGuarded, PartRetriesGuarded, Modes, ProgressOk, OpsLedger,
         ClockScan, TurnBlock, CleanPages, Exportable, Retainted, Erased;
  }

  // ---------------------------------------------------------------- events that move a part

  /** `e'` has the parts of `e`, and the state of part `k` shows the verdict `settled` gives, or what it showed. */
  ghost predicate Moves(e: Entry, e': Entry, k: nat, settled: bool, valid: bool)
  {
    && e'.parts == e.parts && |e'.partStates| == |e.partStates|
    && (k < |e.partStates| ==>
          && (e'.partStates[k] == Verified <==> if settled then valid else e.partStates[k] == Verified)
          && (e'.partStates[k] == PartBad <==> if settled then !valid else e.partStates[k] == PartBad))
  }

  lemma ClaimMoves(w: World, o: nat, l: nat, skip: bool, k: nat)
    requires Safe(w)
    ensures Moves(w.e, Apply(w, CheckPart(o, l, skip)).e, k, false, false)
  {
    hide WF, Owned, Ledger, PartsGuarded, FetchesGuarded, ReadersGuarded, PartRetriesGuarded, Modes, ProgressOk, OpsLedger,
         VerifyPart, PartClean, ClaimPartFrom;
    EntryShape(w.e);
    var r := ClaimChecksum(w.e, o, l, skip).1;
    ClaimedPart(w.e, 0, o, o + (if o <= w.e.size then Min(l, w.e.size - o) else 0), skip);
    if r.ChecksumVerify? {
      VerifyPartShape(w.e, r.claim.part);
      assert w.e.partStates[r.claim.part] == Unverified;
    }
  }

  lemma RetryMoves(w: World, event: Event, k: nat)
    requires Safe(w) && Enabled(w, event) && (event.Mismatch? || event.RetryPart?)
    ensures Moves(w.e, Apply(w, event).e, k, false, false)
  {
    hide WF, Owned, Ledger, PartsGuarded, FetchesGuarded, ReadersGuarded, PartRetriesGuarded, Modes, ProgressOk, OpsLedger,
         RetryPinsReady;
    EntryShape(w.e);
  }

  lemma FinishMoves(w: World, c: ChecksumClaim, valid: bool, k: nat)
    requires Safe(w) && Enabled(w, FinishPart(c, valid))
    ensures Moves(w.e, Apply(w, FinishPart(c, valid)).e, k, Settles(w.e, FinishPart(c, valid), k), valid)
  {
    hide WF, Owned, Ledger, PartsGuarded, FetchesGuarded, ReadersGuarded, PartRetriesGuarded, Modes, ProgressOk, OpsLedger,
         FinishChecksum, UnpinnedOnce;
    EntryShape(w.e);
    LiveInside(w.e, c);
    FinishSettles(w.e, c, valid);
  }

  lemma AbandonMoves(w: World, c: ChecksumClaim, k: nat)
    requires Safe(w) && Enabled(w, AbandonPart(c))
    ensures Moves(w.e, Apply(w, AbandonPart(c)).e, k, false, false)
  {
    hide WF, Owned, Ledger, PartsGuarded, FetchesGuarded, ReadersGuarded, PartRetriesGuarded, Modes, ProgressOk, OpsLedger,
         Sum, Turn, Quot;
    EntryShape(w.e);
    LiveInside(w.e, c);
  }

  lemma StepMoves(w: World, event: Event, k: nat)
    requires Safe(w) && Enabled(w, event) && !event.ManifestLoaded? && !event.ManifestFailed?
    ensures Moves(w.e, Apply(w, event).e, k, Settles(w.e, event, k), event.FinishPart? && event.valid)
  {
    assert Sound(w);
    hide Safe, Apply, Enabled;
    match event
    case Claim(_, _, _) => FetchKeepsParts(w, event);
    case Write(_, _) => FetchKeepsParts(w, event);
    case Publish(_, _, _, _) => FetchKeepsParts(w, event);
    case Spoil(_) => FetchKeepsParts(w, event);
    case Retry(_) => FetchKeepsParts(w, event);
    case Finish(_, _) => EndKeepsParts(w, event);
    case Rollback(_) => EndKeepsParts(w, event);
    case VerifyFetch(_) => EndKeepsParts(w, event);
    case ReadPin(_, _, _) => PinsKeepParts(w, event);
    case RawPin(_, _, _) => PinsKeepParts(w, event);
    case Release(_) => PinsKeepParts(w, event);
    case Touch(_, _) => PinsKeepParts(w, event);
    case CheckPart(o, l, skip) => ClaimMoves(w, o, l, skip, k);
    case Mismatch(_) => RetryMoves(w, event, k);
    case RetryPart(_) => RetryMoves(w, event, k);
    case FinishPart(c, valid) => FinishMoves(w, c, valid, k);
    case AbandonPart(c) => AbandonMoves(w, c, k);
    case _ => OthersKeepParts(w, event);
  }

  lemma ManifestStarts(w: World, event: Event, k: nat)
    requires Safe(w) && Enabled(w, event) && (event.ManifestLoaded? || event.ManifestFailed?)
    ensures var e := Apply(w, event).e;
            |e.parts| == |e.partStates| && (k < |e.partStates| ==> e.partStates[k] == Unverified)
  {
    hide WF, Owned, Ledger, PartsGuarded, FetchesGuarded, ReadersGuarded, PartRetriesGuarded, Modes, ProgressOk, OpsLedger,
         ManifestValid;
  }

  // ---------------------------------------------------------------- over whole runs

  /** In every run of a generation that begins without parts, a part is verified exactly when its last check ended valid,
      and bad exactly when it ended invalid. */
  lemma {:induction false} PartsShowVerdicts(w: World, events: seq<Event>, k: nat)
    requires Safe(w) && w.e.parts == [] && Allowed(w, events)
    ensures var e := Run(w, events).e;
            |e.parts| == |e.partStates| && (k < |e.partStates| ==> Shows(e.partStates[k], LastVerdict(w, events, k)))
    decreases |events|
  {
    hide Safe, Enabled, Apply, Allowed;
    SafeParts(w);
    if events != [] {
      var n := |events| - 1;
      RunLast(w, events);
      hide Run;
      PartsShowVerdicts(w, events[..n], k);
      var u := Run(w, events[..n]);
      SafeSound(u);
      if events[n].ManifestLoaded? || events[n].ManifestFailed? {
        ManifestStarts(u, events[n], k);
      } else {
        StepMoves(u, events[n], k);
      }
    }
  }

  lemma SafeParts(w: World)
    requires Safe(w)
    ensures |w.e.parts| == |w.e.partStates|
  {
  }

  /** After any run a reader is not admitted to a range that overlaps a part whose last check ended invalid. */
  lemma InvalidPartsAreNotRead(w: World, events: seq<Event>, k: nat, o: nat, l: nat)
    requires Safe(w) && w.e.parts == [] && Allowed(w, events) && LastVerdict(w, events, k) == Invalid
    requires var e := Run(w, events).e;
             WF(e) && Inside(e, o, l) && k < |e.parts| && PartOverlaps(e.parts[k], o, o + l)
    ensures PinClean(Run(w, events).e, o, l).1 != Admitted
  {
    PartsShowVerdicts(w, events, k);
    PinCleanIff(Run(w, events).e, o, l);
    hide Run, WF, PinClean, LastVerdict, Quot;
  }
}
