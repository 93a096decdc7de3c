/** Whole runs of one generation: from opening it, through any interleaving of events.

    The theorems here are the promises of the cache: clean pages hold the object's bytes,
    bytes under an admitted reader never move, a retired generation drains and stays
    drained, an exported generation never changes again, and a crash loses no more than
    the pages that were pending.
 */
module EntryRuns {
  import opened Geometry
  import opened EntryModel
  import opened EntryOwnership
  import opened EntryWorld
  import opened EntrySafety
  import opened EntryCoherence

  /** Every event finds its caller's promises met. */
  ghost predicate Allowed(w: World, events: seq<Event>)
    requires Safe(w)
    decreases |events|
  {
    events == [] || (Enabled(w, events[0]) && (StepKeepsSafe(w, events[0]); Allowed(Apply(w, events[0]), events[1..])))
  }

  ghost function Run(w: World, events: seq<Event>): World
    requires Safe(w) && Allowed(w, events)
    decreases |events|
  {
    if events == [] then w else StepKeepsSafe(w, events[0]); Run(Apply(w, events[0]), events[1..])
  }

  // ---------------------------------------------------------------- opening

  /** A generation as the constructor leaves it: what was pending in the stored bitmap is missing. */
  function Opened(size: nat, blockPages: nat, epoch: nat, stored: seq<PageState>, unlimited: bool,
                  exported: bool, dirty: bool): Entry
    requires blockPages > 0
  {
    var regions := Pieces(|stored|, blockPages);
    Entry(size, blockPages, epoch, Turn(stored, 0, |stored|, ReadPending, Missing),
          seq(regions, _ => false), seq(regions, _ => 0), [], [], [], 1, 0, 0, 0, Unknown,
          exported, false, false, dirty, exported, unlimited)
  }

  /** The world around a freshly opened generation. */
  ghost predicate Fresh(w: World)
  {
    && w.e.blockPages > 0 && |w.file| == |w.remote| == w.e.size && |w.e.pages| == (w.e.size + PAGE - 1) / PAGE
    && (exists stored: seq<PageState> :: |stored| == |w.e.pages| &&
          w.e == Opened(w.e.size, w.e.blockPages, w.e.epoch, stored, w.e.unlimited, w.e.exported, w.e.dirty))
    && w.ev == [] && w.readers == [] && w.progress == map[] && w.partReady == []
  }

  lemma {:induction false} SumOfZeros(n: nat)
    ensures Sum(seq(n, _ => 0)) == 0
  {
    if n > 0 {
      assert seq<nat>(n, _ => 0)[1..] == seq<nat>(n - 1, _ => 0);
      SumOfZeros(n - 1);
    }
  }

  lemma FreshSafe(w: World)
    requires Fresh(w)
    ensures Safe(w)
  {
    FreshLedger(w);
    FreshWF(w);
    hide Ledger, ReaderFlags, WF;
    assert CheckFlags(w.e.partStates) == [];
  }

  lemma FreshWF(w: World)
    requires Fresh(w)
    ensures WF(w.e)
  {
    var stored: seq<PageState> :| |stored| == |w.e.pages| &&
      w.e == Opened(w.e.size, w.e.blockPages, w.e.epoch, stored, w.e.unlimited, w.e.exported, w.e.dirty);
    OpenedWF(w.e.size, w.e.blockPages, w.e.epoch, stored, w.e.unlimited, w.e.exported, w.e.dirty);
  }

  lemma OpenedWF(size: nat, blockPages: nat, epoch: nat, stored: seq<PageState>, unlimited: bool, exported: bool, dirty: bool)
    requires blockPages > 0 && |stored| == (size + PAGE - 1) / PAGE
    ensures WF(Opened(size, blockPages, epoch, stored, unlimited, exported, dirty))
  {
    SumOfZeros(Pieces(|stored|, blockPages));
  }

  /** A freshly opened generation satisfies the invariant exactly when its clean pages hold the
      object; one with nothing stored always does. */
  lemma FreshInvIff(w: World)
    requires Fresh(w) && w.tainted == {}
    ensures Inv(w) <==>
            forall x: nat | x < |w.file| && x / PAGE < |w.e.pages| && w.e.pages[x / PAGE] == Clean ::
              ByteOf(w.file, x) == ByteOf(w.remote, x)
  {
    FreshSafe(w);
    hide Safe;
    forall x: nat ensures Pledged(w, x) <==> x / PAGE < |w.e.pages| && w.e.pages[x / PAGE] == Clean {
      FreshPledge(w, w, x);
    }
    hide Fresh, Pledged;
    assert Coherent(w) <==> forall x: nat | x < |w.file| && Pledged(w, x) :: ByteOf(w.file, x) == ByteOf(w.remote, x) by {
      assert forall x: nat :: ByteCoherent(w, x) <==> (Pledged(w, x) ==> ByteOf(w.file, x) == ByteOf(w.remote, x));
    }
  }

  lemma FreshLedger(w: World)
    requires Fresh(w)
    ensures Ledger(w.e, w.readers)
  {
    forall r | 0 <= r < |w.e.pins|
      ensures w.e.pins[r] == CountTrue(ReaderFlags(w.readers, w.e.blockPages, r)) + VerifierPins(w.e, r)
    {
      assert ReaderFlags(w.readers, w.e.blockPages, r) == [];
      assert PartFlags(w.e.parts, w.e.partStates, w.e.blockPages, r) == [];
      assert FetchFlags(w.e.claims, w.e.blockPages, r) == [];
    }
  }

  // ---------------------------------------------------------------- coherence and ownership

  /** Safety and coherence hold at the end of every run. */
  lemma {:induction false} RunKeepsInv(w: World, events: seq<Event>)
    requires Inv(w) && Allowed(w, events)
    ensures Inv(Run(w, events))
    decreases |events|
  {
    if events != [] {
      var w1 := Apply(w, events[0]);
      StepKeepsInv(w, events[0]);
      hide Inv, Enabled, Apply;
      RunKeepsInv(w1, events[1..]);
    }
  }

  /** The object never changes. */
  lemma {:induction false} RunKeepsObject(w: World, events: seq<Event>)
    requires Safe(w) && Allowed(w, events)
    ensures Safe(Run(w, events)) && Run(w, events).remote == w.remote && |Run(w, events).file| == |w.file|
    decreases |events|
  {
    if events != [] {
      StepKeepsSafe(w, events[0]);
      SameObject(w, events[0]);
      hide Safe, Enabled, Apply;
      RunKeepsObject(Apply(w, events[0]), events[1..]);
    }
  }

  /** Cache coherence: at the end of any run from a coherent start, every byte of every clean page is
      the object's byte, unless the last write there was another byte or a punch that erased it
      was reported as failed. */
  lemma CleanPagesHoldTheObject(w: World, events: seq<Event>, x: nat)
    requires Inv(w) && Allowed(w, events)
    requires var w' := Run(w, events);
             x < |w.file| && x / PAGE < |w'.e.pages| && w'.e.pages[x / PAGE] == Clean && x !in w'.tainted
    ensures Inv(Run(w, events)) && |Run(w, events).file| == |w.file| == |w.remote|
    ensures Run(w, events).file[x] == w.remote[x]
  {
    RunKeepsInv(w, events);
    RunKeepsObject(w, events);
    var w' := Run(w, events);
    hide Run, Safe, Allowed;
    SizesAgree(w);
    assert ByteCoherent(w', x);
  }

  /** Every fetch writes the object's bytes, and no completed punch is reported as failed. */
  ghost predicate HonestRun(w: World, events: seq<Event>)
    requires Safe(w) && Allowed(w, events)
    decreases |events|
  {
    events == [] ||
    (Honest(w, events[0]) && (StepKeepsSafe(w, events[0]); HonestRun(Apply(w, events[0]), events[1..])))
  }

  /** Then no byte is excepted that was not to begin with. */
  lemma {:induction false} HonestRunTaintsNothing(w: World, events: seq<Event>)
    requires Safe(w) && Allowed(w, events) && HonestRun(w, events)
    ensures Run(w, events).tainted <= w.tainted
    decreases |events|
  {
    if events != [] {
      StepKeepsSafe(w, events[0]);
      HonestyTaintsNothing(w, events[0]);
      hide Safe, Enabled, Apply, Honest;
      HonestRunTaintsNothing(Apply(w, events[0]), events[1..]);
    }
  }

  lemma SizesAgree(w: World)
    requires Safe(w)
    ensures |w.file| == |w.remote| == w.e.size && WF(w.e) && w.e.blockPages > 0
  {
  }

  /** In every reachable state a pending page has one owner, and the pages an eviction took are still pending. */
  lemma PendingPagesAreOwned(w: World, events: seq<Event>, p: nat)
    requires Safe(w) && Allowed(w, events) && p < |Run(w, events).e.pages| && Run(w, events).e.pages[p] == ReadPending
    ensures var w' := Run(w, events);
            && HasOwner(w'.e.claims, w'.ev, p)
            && (forall i, j | 0 <= i < |w'.e.claims| && 0 <= j < |w'.e.claims| ::
                  InTail(w'.e.claims[i], p) && InTail(w'.e.claims[j], p) ==> i == j)
            && (forall i, k | 0 <= i < |w'.e.claims| && 0 <= k < |w'.ev| ::
                  !(InTail(w'.e.claims[i], p) && p in w'.ev[k].taken))
            && (forall k | 0 <= k < |w'.ev| :: EvictionIntact(w'.e.pages, w'.ev[k]))
  {
    RunKeepsObject(w, events);
    var w' := Run(w, events);
    hide Run, Allowed, Ledger, PartsGuarded, FetchesGuarded, ReadersGuarded, PartRetriesGuarded, Modes, ProgressOk, OpsLedger,
         WF, Owned;
    OneOwner(w'.e, w'.ev, p);
    forall k | 0 <= k < |w'.ev| ensures EvictionIntact(w'.e.pages, w'.ev[k]) {
      EvictionNeverAborts(w'.e, w'.ev, k);
    }
  }

  ghost predicate EvictionIntact(pages: seq<PageState>, v: Evicting)
  {
    v.taken != {} && forall p | p in v.taken :: p < |pages| && pages[p] == ReadPending
  }

  // ---------------------------------------------------------------- pinned bytes

  /** The reader holds its pin from the first state of the run to the last. */
  ghost predicate HeldThrough(w: World, events: seq<Event>, r: Reader)
    requires Safe(w) && Allowed(w, events)
    decreases |events|
  {
    && r in w.readers
    && (events == [] || (StepKeepsSafe(w, events[0]); HeldThrough(Apply(w, events[0]), events[1..], r)))
  }

  /** The bytes of a range admitted by `pin_clean` do not change before its `unpin`, whatever
      else happens and whatever bytes are written. */
  lemma {:induction false} PinnedBytesNeverMove(w: World, events: seq<Event>, r: Reader, x: nat)
    requires Safe(w) && Allowed(w, events) && HeldThrough(w, events, r) && r.clean
    requires r.offset <= x < r.offset + r.length
    ensures x < |w.file| == |Run(w, events).file| && Run(w, events).file[x] == w.file[x]
    decreases |events|
  {
    var k :| 0 <= k < |w.readers| && w.readers[k] == r;
    ReaderInside(w, k);
    if events != [] {
      StepKeepsSafe(w, events[0]);
      PinnedBytesStable(w, events[0], k, x);
      hide Safe, Enabled, Apply;
      PinnedBytesNeverMove(Apply(w, events[0]), events[1..], r, x);
    }
  }

  // ---------------------------------------------------------------- crash and reopen

  /** The process dies and the generation is opened again: claims, pins and checks are gone, and
      the constructor may punch blocks whose pages were all pending or missing. */
  ghost function Reopened(w: World, holes: set<nat>): World
    requires w.e.blockPages > 0
  {
    World(Opened(w.e.size, w.e.blockPages, w.e.epoch, w.e.pages, w.e.unlimited, w.e.exported, w.e.dirty),
          [], [], map[], [], PunchBlocks(w.file, w.e.blockPages, holes), w.remote, w.tainted)
  }

  ghost predicate Punchable(e: Entry, b: nat)
    requires e.blockPages > 0
  {
    forall p | 0 <= p < |e.pages| && Block(e, p) == b :: e.pages[p] == ReadPending || e.pages[p] == Missing
  }

  /** A crash at any moment loses only what was pending: the reopened generation is safe and
      coherent, and it has exactly the clean pages it had. */
  lemma CrashKeepsInv(w: World, holes: set<nat>)
    requires Inv(w) && w.e.blockPages > 0 && forall b | b in holes :: Punchable(w.e, b)
    ensures Inv(Reopened(w, holes))
    ensures |Reopened(w, holes).e.pages| == |w.e.pages|
    ensures forall p | 0 <= p < |w.e.pages| :: Reopened(w, holes).e.pages[p] == Clean <==> w.e.pages[p] == Clean
  {
    hide Safe;
    SizesAgree(w);
    SafePages(w);
    var w' := Reopened(w, holes);
    hide WF, Opened, Turn, ClaimPledges, EvictionPledges, Fresh, Pledged, Punchable;
    OpenedFields(w.e.size, w.e.blockPages, w.e.epoch, w.e.pages, w.e.unlimited, w.e.exported, w.e.dirty);
    ReopenedFresh(w, holes);
    FreshSafe(w');
    forall x: nat | x < |w'.file| ensures ByteCoherent(w', x) {
      assert ByteCoherent(w, x);
      FreshPledge(w, w', x);
      PunchedNotClean(w.e, holes, x / PAGE);
    }
  }

  lemma SafePages(w: World)
    requires Safe(w)
    ensures |w.e.pages| == (w.e.size + PAGE - 1) / PAGE
  {
  }

  lemma OpenedFields(size: nat, b: nat, epoch: nat, stored: seq<PageState>, unlimited: bool, exported: bool, dirty: bool)
    requires b > 0
    ensures var e := Opened(size, b, epoch, stored, unlimited, exported, dirty);
            && e.claims == [] && e.blockPages == b && e.size == size && |e.pages| == |stored|
            && forall p | 0 <= p < |stored| :: e.pages[p] == Clean <==> stored[p] == Clean
  {
  }

  lemma ReopenedFresh(w: World, holes: set<nat>)
    requires w.e.blockPages > 0 && |w.file| == |w.remote| == w.e.size && |w.e.pages| == (w.e.size + PAGE - 1) / PAGE
    ensures Fresh(Reopened(w, holes))
  {
    var e' := Reopened(w, holes).e;
    assert |w.e.pages| == |e'.pages| &&
           e' == Opened(e'.size, e'.blockPages, e'.epoch, w.e.pages, e'.unlimited, e'.exported, e'.dirty);
  }

  lemma FreshPledge(w: World, w': World, x: nat)
    requires w'.ev == [] && w'.e.claims == [] && |w'.e.pages| == |w.e.pages|
    requires forall p | 0 <= p < |w.e.pages| :: w'.e.pages[p] == Clean <==> w.e.pages[p] == Clean
    ensures Pledged(w', x) <==> x / PAGE < |w.e.pages| && w.e.pages[x / PAGE] == Clean
    ensures Pledged(w', x) ==> Pledged(w, x)
  {
  }

  lemma PunchedNotClean(e: Entry, holes: set<nat>, p: nat)
    requires e.blockPages > 0 && forall b | b in holes :: Punchable(e, b)
    ensures p < |e.pages| && e.pages[p] == Clean ==> Quot(p, e.blockPages) !in holes
  {
    assert Block(e, p) in holes ==> Punchable(e, Block(e, p));
  }

  // ---------------------------------------------------------------- a punch reported as failed

  /** One clean page that holds the byte 7 of a one-byte object. */
  function SmallWorld(): World
  {
    World(Opened(1, 1, 0, [Clean], false, false, false), [], [], map[], [], [7], [7], {})
  }

  lemma SmallOpens()
    ensures var w := SmallWorld();
            && Inv(w) && w.e.pages == [Clean] && w.e.pins == [0] && w.e.referenced == [false] && w.e.blockPages == 1
            && Evictable(w.e) && w.e.hand == 0 && w.ev == [] && w.file == [7] && w.remote == [7]
  {
    var w := SmallWorld();
    assert w.e.pages == [Clean] && w.e.pins == [0] && w.e.referenced == [false];
    assert w.e == Opened(w.e.size, w.e.blockPages, w.e.epoch, [Clean], w.e.unlimited, w.e.exported, w.e.dirty);
    assert Fresh(w);
    FreshSafe(w);
  }

  lemma SmallScan(e: Entry)
    requires WF(e) && Evictable(e) && e.hand == 0
    requires e.pages == [Clean] && e.pins == [0] && e.referenced == [false] && e.blockPages == 1
    ensures ScanEntry(e) == Scan(1, [false], 0) && CleanPages(e, 0) == {0}
    ensures TurnBlock(e, 0, Clean, ReadPending) == [ReadPending]
  {
    assert Block(e, 0) == 0 && e.pages[0] == Clean;
    assert Victim(e, 0);
  }

  lemma SmallEvicts(w: World)
    requires Safe(w) && Evictable(w.e) && w.e.hand == 0 && w.ev == []
    requires w.e.pages == [Clean] && w.e.pins == [0] && w.e.referenced == [false] && w.e.blockPages == 1
    ensures Enabled(w, EvictStart)
    ensures var w1 := Apply(w, EvictStart);
            && w1.e.pages == [ReadPending] && w1.ev == [Evicting(0, {0}, false)] && w1.e.blockPages == 1
            && w1.file == w.file && w1.remote == w.remote
  {
    hide WF, Owned, Ledger, PartsGuarded, FetchesGuarded, ReadersGuarded, PartRetriesGuarded, Modes, ProgressOk, OpsLedger,
         ScanEntry, CleanPages, TurnBlock;
    SmallScan(w.e);
  }

  lemma SmallPunch(w: World)
    requires Safe(w) && w.e.pages == [ReadPending] && w.ev == [Evicting(0, {0}, false)] && w.e.blockPages == 1 && w.file == [7]
    ensures Enabled(w, Punch(0)) && Apply(w, Punch(0)) == w.(file := [0], ev := [Evicting(0, {0}, true)])
  {
    hide Owned, Ledger, PartsGuarded, FetchesGuarded, ReadersGuarded, PartRetriesGuarded, Modes, ProgressOk, OpsLedger;
    assert PunchBlocks(w.file, 1, {0}) == [0];
  }

  lemma SmallStop(w: World)
    requires Safe(w) && w.e.pages == [ReadPending] && w.ev == [Evicting(0, {0}, true)]
    ensures Enabled(w, EvictStop(0, false))
    ensures Apply(w, EvictStop(0, false)).e.pages == [Clean] && Apply(w, EvictStop(0, false)).file == w.file
  {
    hide Owned, Ledger, PartsGuarded, FetchesGuarded, ReadersGuarded, PartRetriesGuarded, Modes, ProgressOk, OpsLedger;
  }

  lemma RunOne(w: World, event: Event, rest: seq<Event>)
    requires Safe(w) && Enabled(w, event) && Safe(Apply(w, event)) && Allowed(Apply(w, event), rest)
    ensures Allowed(w, [event] + rest) && Run(w, [event] + rest) == Run(Apply(w, event), rest)
  {
    hide Safe, Enabled, Apply;
    assert ([event] + rest)[1..] == rest;
  }

  /** Coherence does depend on the reported outcome of a punch: when a punch took effect but is
      reported as failed, the evicted page is clean again and shows zeros. The reactor does
      report a finished operation as failed once it was cancelled, timed out or shut down. */
  lemma MisreportedPunchBreaksCoherence() returns (events: seq<Event>)
    ensures Inv(SmallWorld()) && Allowed(SmallWorld(), events)
    ensures var w' := Run(SmallWorld(), events);
            w'.e.pages == [Clean] && w'.file == [0] && w'.remote == [7]
  {
    var w := SmallWorld();
    SmallOpens();
    hide Safe, Enabled, Apply, WF, SmallWorld;
    SafeSound(w);
    SmallEvicts(w);
    StepKeepsSafe(w, EvictStart);
    var w1 := Apply(w, EvictStart);
    SafeSound(w1);
    SmallPunch(w1);
    StepKeepsSafe(w1, Punch(0));
    var w2 := Apply(w1, Punch(0));
    SafeSound(w2);
    SmallStop(w2);
    StepKeepsSafe(w2, EvictStop(0, false));
    SameObject(w2, EvictStop(0, false));
    var w3 := Apply(w2, EvictStop(0, false));
    assert Allowed(w3, []) && Run(w3, []) == w3;
    RunOne(w2, EvictStop(0, false), []);
    RunOne(w1, Punch(0), [EvictStop(0, false)] + []);
    RunOne(w, EvictStart, [Punch(0)] + ([EvictStop(0, false)] + []));
    events := [EvictStart] + ([Punch(0)] + ([EvictStop(0, false)] + []));
  }

  lemma SafeSound(w: World)
    requires Safe(w)
    ensures Sound(w)
  {
  }
}
