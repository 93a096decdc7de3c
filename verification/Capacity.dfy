/** Capacity of the cache: the reservation ledger, and eviction that makes room.

    Every allocation first reserves its bytes; what it really used replaces the reservation
    when it finishes. Counters are 64-bit and saturate. When a reservation does not fit,
    regions and whole entries are evicted until it does or nothing is left to evict.
 */
module Capacity {
  import opened Geometry
  import opened EntryModel
  import opened EntryClock
  import opened EntrySafety
  import opened EntryWellFormed
  import EntryLaws

  const U64_MAX: nat := 0xFFFF_FFFF_FFFF_FFFF

  // ---------------------------------------------------------------- the ledger

  /** `outstanding` are the reservations that have been made and neither finished nor cancelled. */
  datatype Ledger = Ledger(pending: nat, used: nat, outstanding: seq<nat>)

  /** Limits: `maximum` zero means none; `unlimited` turns all checks off. */
  datatype Limits = Limits(unlimited: bool, maximum: nat)

  datatype Event =
    | Reserve(bytes: nat, available: nat, floor: nat)
    | Cancel(k: nat)
    | Finish(k: nat, grown: nat)
    | Freed(bytes: nat)

  function AddSaturating(x: nat, y: nat): nat { if x > U64_MAX - y then U64_MAX else x + y }

  function SubSaturating(x: nat, y: nat): nat { if x > y then x - y else 0 }

  /** `try_reserve_capacity`: room under the maximum, and room on the file system above its floor. */
  predicate Fits(l: Ledger, c: Limits, bytes: nat, available: nat, floor: nat)
  {
    && (c.maximum == 0 ||
        (l.used <= c.maximum && l.pending <= c.maximum - l.used && bytes <= c.maximum - l.used - l.pending))
    && available >= floor && l.pending <= available - floor && bytes <= available - floor - l.pending
  }

  function TryReserve(l: Ledger, c: Limits, bytes: nat, available: nat, floor: nat): (Ledger, bool)
    requires bytes <= U64_MAX
  {
    if c.unlimited then (l.(pending := AddSaturating(l.pending, bytes), outstanding := l.outstanding + [bytes]), true)
    else if Fits(l, c, bytes, available, floor)
    then (l.(pending := l.pending + bytes, outstanding := l.outstanding + [bytes]), true)
    else (l, false)
  }

  /** The largest allocation that a signed 64-bit delta can express. */
  const I64_MAX: nat := 0x7FFF_FFFF_FFFF_FFFF

  predicate Enabled(l: Ledger, event: Event)
  {
    match event
    case Reserve(bytes, available, _) => bytes <= U64_MAX && available <= U64_MAX
    case Cancel(k) => k < |l.outstanding|
    case Finish(k, grown) => k < |l.outstanding| && grown <= U64_MAX
    case Freed(bytes) => true
  }

  function Apply(l: Ledger, c: Limits, event: Event): Ledger
    requires Enabled(l, event)
  {
    match event
    case Reserve(bytes, available, floor) => TryReserve(l, c, bytes, available, floor).0
    case Cancel(k) =>
      l.(pending := SubSaturating(l.pending, l.outstanding[k]), outstanding := Without(l.outstanding, k))
    case Finish(k, grown) =>
      l.(pending := SubSaturating(l.pending, l.outstanding[k]), outstanding := Without(l.outstanding, k),
         used := AddSaturating(l.used, Min(grown, I64_MAX)))
    case Freed(bytes) => l.(used := SubSaturating(l.used, Min(bytes, I64_MAX)))
  }

  lemma {:induction false} SumAppend(s: seq<nat>, x: nat)
    ensures Sum(s + [x]) == Sum(s) + x
  {
    if s == [] {
      assert [x][1..] == [];
      assert [] + [x] == [x];
    } else {
      assert (s + [x])[1..] == s[1..] + [x];
      SumAppend(s[1..], x);
    }
  }

  lemma {:induction false} SumWithout(s: seq<nat>, k: nat)
    requires k < |s|
    ensures Sum(Without(s, k)) + s[k] == Sum(s)
  {
    var t := Without(s, k);
    if k == 0 {
      assert t == s[1..];
    } else {
      assert t[1..] == Without(s[1..], k - 1);
      SumWithout(s[1..], k - 1);
    }
  }

  /** The counter is the sum of what is outstanding. */
  predicate Exact(l: Ledger) { l.pending == Sum(l.outstanding) <= U64_MAX && l.used <= U64_MAX }

  predicate Within(l: Ledger, c: Limits) { !c.unlimited && c.maximum != 0 ==> l.used + l.pending <= c.maximum }

  /** A reservation keeps the ledger exact if and only if the sum still fits the counter; with limits it always does. */
  lemma ReserveExactIff(l: Ledger, c: Limits, bytes: nat, available: nat, floor: nat)
    requires Exact(l) && bytes <= U64_MAX && available <= U64_MAX
    ensures Exact(TryReserve(l, c, bytes, available, floor).0) <==> (!c.unlimited || Sum(l.outstanding) + bytes <= U64_MAX)
  {
    SumAppend(l.outstanding, bytes);
  }

  /** What saturation breaks: of two reservations without limits that do not fit the counter together, cancelling the first
      leaves the second outstanding and the counter at zero. */
  lemma SaturationForgets()
    ensures var c, none := Limits(true, 0), Ledger(0, 0, []);
            var one := Apply(none, c, Reserve(U64_MAX, 0, 0));
            var two := Apply(one, c, Reserve(1, 0, 0));
            && Exact(none) && Exact(one) && !Exact(two) && Enabled(two, Cancel(0))
            && Apply(two, c, Cancel(0)).pending == 0 && Apply(two, c, Cancel(0)).outstanding == [1]
  {
    assert [] + [U64_MAX] == [U64_MAX] && [U64_MAX] + [1] == [U64_MAX, 1];
    SumAppend([], U64_MAX);
    SumAppend([U64_MAX], 1);
    assert Without([U64_MAX, 1], 0) == [1];
  }

  /** An allocation grows by no more than it reserved, and reservations fit the counter. */
  predicate Regular(l: Ledger, c: Limits, event: Event)
    requires Enabled(l, event)
  {
    match event
    case Reserve(bytes, _, _) => c.unlimited ==> Sum(l.outstanding) + bytes <= U64_MAX
    case Finish(k, grown) => grown <= l.outstanding[k]
    case _ => true
  }

  lemma StepKeepsLedger(l: Ledger, c: Limits, event: Event)
    requires Exact(l) && Within(l, c) && Enabled(l, event) && Regular(l, c, event) && c.maximum <= U64_MAX
    ensures Exact(Apply(l, c, event)) && Within(Apply(l, c, event), c)
    ensures event.Cancel? || event.Finish? ==> Apply(l, c, event).pending + l.outstanding[event.k] == l.pending
  {
    match event
    case Reserve(bytes, available, floor) => SumAppend(l.outstanding, bytes);
    case Cancel(k) => SumWithout(l.outstanding, k);
    case Finish(k, _) => SumWithout(l.outstanding, k);
    case Freed(_) =>
  }

  predicate Allowed(l: Ledger, c: Limits, events: seq<Event>)
    decreases |events|
  {
    events == [] ||
    (Enabled(l, events[0]) && Regular(l, c, events[0]) && Allowed(Apply(l, c, events[0]), c, events[1..]))
  }

  function Run(l: Ledger, c: Limits, events: seq<Event>): Ledger
    requires Allowed(l, c, events)
    decreases |events|
  {
    if events == [] then l else Run(Apply(l, c, events[0]), c, events[1..])
  }

  /** In every run the pending counter is the sum of the outstanding reservations, so that no subtraction ever saturates,
      and allocated plus pending bytes never exceed a maximum that was met at the start. */
  lemma {:induction false} LedgerBalances(l: Ledger, c: Limits, events: seq<Event>)
    requires Exact(l) && Within(l, c) && c.maximum <= U64_MAX && Allowed(l, c, events)
    ensures Exact(Run(l, c, events)) && Within(Run(l, c, events), c)
    decreases |events|
  {
    if events != [] {
      StepKeepsLedger(l, c, events[0]);
      hide Exact, Within, Enabled, Regular, Apply;
      LedgerBalances(Apply(l, c, events[0]), c, events[1..]);
    }
  }

  function Grown(events: seq<Event>): nat
  {
    if events == [] then 0 else (if events[0].Finish? then events[0].grown else 0) + Grown(events[1..])
  }

  function Given(events: seq<Event>): nat
  {
    if events == [] then 0 else (if events[0].Freed? then events[0].bytes else 0) + Given(events[1..])
  }

  /** Every change of the allocated bytes fits a signed delta, and no more is freed than is allocated. */
  predicate Measured(l: Ledger, c: Limits, events: seq<Event>)
    requires Allowed(l, c, events)
    decreases |events|
  {
    events == [] ||
    (&& (events[0].Finish? ==> events[0].grown <= I64_MAX && l.used + events[0].grown <= U64_MAX)
     && (events[0].Freed? ==> events[0].bytes <= I64_MAX && events[0].bytes <= l.used)
     && Measured(Apply(l, c, events[0]), c, events[1..]))
  }

  /** The allocated bytes are what was there, and what finished allocations grew by, less what was freed. */
  lemma {:induction false} UsedIsConserved(l: Ledger, c: Limits, events: seq<Event>)
    requires Allowed(l, c, events) && Measured(l, c, events)
    ensures Run(l, c, events).used + Given(events) == l.used + Grown(events)
    decreases |events|
  {
    if events != [] { UsedIsConserved(Apply(l, c, events[0]), c, events[1..]); }
  }

  /** After every run a reservation is granted if and only if checks are off, or all that is allocated and outstanding
      stays within the maximum with it, and the file system has that much above its floor for all that is outstanding. */
  lemma GrantIff(l: Ledger, c: Limits, events: seq<Event>, bytes: nat, available: nat, floor: nat)
    requires Exact(l) && Within(l, c) && c.maximum <= U64_MAX && Allowed(l, c, events) && bytes <= U64_MAX
    ensures var s := Run(l, c, events);
            TryReserve(s, c, bytes, available, floor).1 <==>
              || c.unlimited
              || (&& (c.maximum != 0 ==> s.used + Sum(s.outstanding) + bytes <= c.maximum)
                  && floor + Sum(s.outstanding) + bytes <= available)
  {
    LedgerBalances(l, c, events);
  }

  // ---------------------------------------------------------------- what eviction uses up

  function CleanCount(pages: seq<PageState>): nat
  {
    if pages == [] then 0 else (if pages[0] == Clean then 1 else 0) + CleanCount(pages[1..])
  }

  lemma {:induction false} CleanCountLess(s: seq<PageState>, t: seq<PageState>)
    requires |t| == |s| && forall p | 0 <= p < |s| && t[p] == Clean :: s[p] == Clean
    ensures CleanCount(t) <= CleanCount(s)
    ensures (exists p :: 0 <= p < |s| && s[p] == Clean && t[p] != Clean) ==> CleanCount(t) < CleanCount(s)
  {
    if s != [] {
      CleanCountLess(s[1..], t[1..]);
      if p :| 0 <= p < |s| && s[p] == Clean && t[p] != Clean {
        if p > 0 { assert s[1..][p - 1] == Clean && t[1..][p - 1] != Clean; }
      }
    }
  }

  function CleanTotal(entries: seq<Entry>): nat
  {
    if entries == [] then 0 else CleanCount(entries[0].pages) + CleanTotal(entries[1..])
  }

  lemma {:induction false} CleanTotalUpdate(entries: seq<Entry>, i: nat, e: Entry)
    requires i < |entries|
    ensures CleanTotal(entries[i := e]) + CleanCount(entries[i].pages) == CleanTotal(entries) + CleanCount(e.pages)
  {
    var t := entries[i := e];
    if i > 0 {
      assert t[1..] == entries[1..][i - 1 := e];
      CleanTotalUpdate(entries[1..], i - 1, e);
    } else {
      assert t[1..] == entries[1..];
    }
  }

  lemma {:induction false} CleanTotalWithout(entries: seq<Entry>, i: nat)
    requires i < |entries|
    ensures CleanTotal(Without(entries, i)) <= CleanTotal(entries)
  {
    var t := Without(entries, i);
    if i == 0 {
      assert t == entries[1..];
    } else {
      assert t[1..] == Without(entries[1..], i - 1);
      CleanTotalWithout(entries[1..], i - 1);
    }
  }

  /** Evicting a region of an entry lowers its number of clean pages; a failed attempt leaves it. */
  lemma EvictionLowersClean(e: Entry, punched: bool)
    requires WF(e)
    ensures var (e', victim) := EvictOne(e, punched);
            && CleanCount(e'.pages) <= CleanCount(e.pages)
            && (victim >= 0 ==> CleanCount(e'.pages) < CleanCount(e.pages))
            && (victim < 0 ==> e'.pages == e.pages)
  {
    var (e', victim) := EvictOne(e, punched);
    CleanCountLess(e.pages, e'.pages);
    if victim >= 0 {
      var p :| 0 <= p < |e.pages| && Block(e, p) == victim && e.pages[p] == Clean;
      assert e'.pages[p] != Clean;
    }
  }

  // ---------------------------------------------------------------- two scans of one entry

  /** A scan looks at pins and pages only. */
  lemma {:induction false} ScanFrame(e: Entry, e': Entry, hand: nat, referenced: seq<bool>, n: nat)
    requires e.blockPages > 0 && |referenced| == |e.pins| > 0 && hand < HAND_LIMIT
    requires e'.blockPages == e.blockPages && e'.pins == e.pins && e'.pages == e.pages
    ensures ClockScan(e', hand, referenced, n) == ClockScan(e, hand, referenced, n)
    decreases n
  {
    if n > 0 {
      var region, next := Under(hand, |referenced|), Tick(hand);
      assert Victim(e', region) == Victim(e, region);
      hide Victim, Under, Tick;
      ScanFrame(e, e', next, if referenced[region] then referenced[region := false] else referenced, n - 1);
    }
  }

  /** Two attempts on one entry, with I/O that succeeds, find nothing. */
  ghost predicate TwiceEmpty(e: Entry)
    requires WF(e)
  {
    EvictKeepsWF(e, true);
    EvictOne(e, true).1 < 0 && EvictOne(EvictOne(e, true).0, true).1 < 0
  }

  /** Then there is nothing to evict in it, if its hand does not wrap. */
  lemma TwiceEmptyMeansNothing(e: Entry)
    requires WF(e) && Evictable(e) && |e.pins| + |e.pins| <= HAND_LIMIT && BothSmooth(e.hand, |e.pins|) && TwiceEmpty(e)
    ensures forall r | 0 <= r < |e.pins| :: !Victim(e, r)
  {
    EvictKeepsWF(e, true);
    hide Victim, WF, BothSmooth;
    var s := ScanEntry(e);
    var e' := EvictOne(e, true).0;
    assert e' == e.(hand := s.hand, referenced := s.referenced);
    ScanKnown(e);
    ScanFrame(e, e', s.hand, s.referenced, |s.referenced|);
    TwoScansEvict(e);
  }

  lemma ScanKnown(e: Entry)
    requires WF(e) && Evictable(e)
    ensures e.blockPages > 0 && |e.referenced| == |e.pins| > 0 && ScanEntry(e).hand < HAND_LIMIT
    ensures |ScanEntry(e).referenced| == |e.pins|
  {
  }

  // ---------------------------------------------------------------- one round of eviction

  ghost predicate AllWF(entries: seq<Entry>) { forall i | 0 <= i < |entries| :: WF(entries[i]) }

  /** Fewer clean pages, or as many and fewer entries. */
  predicate Lowered(after: seq<Entry>, before: seq<Entry>)
  {
    CleanTotal(after) < CleanTotal(before) || (CleanTotal(after) <= CleanTotal(before) && |after| < |before|)
  }

  /** `evict_one_region` on entry `i`. */
  lemma TryRegion(entries: seq<Entry>, i: nat, punched: bool)
    requires AllWF(entries) && i < |entries|
    ensures var (e', victim) := EvictOne(entries[i], punched);
            && AllWF(entries[i := e'])
            && CleanTotal(entries[i := e']) <= CleanTotal(entries)
            && (victim >= 0 ==> CleanTotal(entries[i := e']) < CleanTotal(entries))
  {
    EvictKeepsWF(entries[i], punched);
    EvictionLowersClean(entries[i], punched);
    hide WF, EvictOne, CleanCount;
    CleanTotalUpdate(entries, i, EvictOne(entries[i], punched).0);
  }

  /** The entry that step `j` of a pass looks at. */
  function Turned(begin: nat, j: nat, n: nat): (i: nat)
    requires n > 0
    ensures i < n
  {
    (begin + j) % n
  }

  lemma TurnedOnce(begin: nat, j: nat, k: nat, n: nat)
    requires j < k < n
    ensures Turned(begin, j, n) != Turned(begin, k, n)
  {
    ResiduesDiffer(begin + j, k - j, n);
  }

  /** One of the first `steps` steps looks at entry `i`. */
  ghost predicate Passed(begin: nat, steps: nat, n: nat, i: nat)
    requires n > 0
  {
    exists j :: 0 <= j < steps && Turned(begin, j, n) == i
  }

  lemma PassedNone(begin: nat, n: nat)
    ensures n > 0 ==> forall i :: !Passed(begin, 0, n, i)
  {
  }

  lemma PassedNext(begin: nat, k: nat, n: nat)
    requires k < n
    ensures !Passed(begin, k, n, Turned(begin, k, n))
    ensures forall i :: Passed(begin, k + 1, n, i) <==> Passed(begin, k, n, i) || i == Turned(begin, k, n)
  {
    forall j | 0 <= j < k ensures Turned(begin, j, n) != Turned(begin, k, n) { TurnedOnce(begin, j, k, n); }
    hide Turned;
  }

  lemma TurnedAll(begin: nat, n: nat, i: nat)
    requires i < n
    ensures Passed(begin, n, n, i)
  {
    StepsLand(begin, n, i);
    assert Turned(begin, StepsTo(begin, n, i), n) == i;
  }

  /** One attempt on each entry, from `begin` on, until one frees something. `reliable` says that punches succeed and free
      blocks; otherwise their outcomes are arbitrary. */
  method ScanPass(entries: seq<Entry>, begin: nat, reliable: bool) returns (after: seq<Entry>, evicted: bool)
    requires AllWF(entries)
    ensures AllWF(after) && |after| == |entries| && CleanTotal(after) <= CleanTotal(entries)
    ensures evicted ==> CleanTotal(after) < CleanTotal(entries)
    ensures reliable && !evicted ==>
              forall i | 0 <= i < |entries| :: EvictOne(entries[i], true).1 < 0 && after[i] == EvictOne(entries[i], true).0
  {
    hide WF, EvictOne, Turned, Passed;
    after := entries;
    PassedNone(begin, |entries|);
    var n := 0;
    while n < |entries|
      invariant 0 <= n <= |entries| == |after|
      invariant AllWF(after) && CleanTotal(after) <= CleanTotal(entries)
      invariant reliable ==> forall i | 0 <= i < |entries| && Passed(begin, n, |entries|, i) ::
                  EvictOne(entries[i], true).1 < 0 && after[i] == EvictOne(entries[i], true).0
      invariant forall i | 0 <= i < |entries| && !Passed(begin, n, |entries|, i) :: after[i] == entries[i]
    {
      var i := Turned(begin, n, |entries|);
      PassedNext(begin, n, |entries|);
      var punched: bool := *;
      punched := punched || reliable;
      TryRegion(after, i, punched);
      var (e', victim) := EvictOne(after[i], punched);
      after := after[i := e'];
      var freed: nat := *;
      if victim < 0 {
        freed := 0;
      } else if reliable && freed == 0 {
        freed := 512;
      }
      if freed != 0 {
        return after, true;
      }
      n := n + 1;
    }
    forall i | 0 <= i < |entries| ensures Passed(begin, |entries|, |entries|, i) { TurnedAll(begin, |entries|, i); }
    evicted := false;
  }

  /** `reclaim_closed_clean` may drop an entry that holds nothing. */
  predicate Reclaimable(e: Entry)
  {
    && !e.stale && !e.detached && !e.evictionDisabled && !e.dirty && !e.exported && Quiescent(e)
    && forall p | 0 <= p < |e.pages| :: e.pages[p] == Missing
  }

  /** Nothing is lost with the entry: it has no data, no unsent write, no reader and nothing under way. */
  ghost predicate Idle(e: Entry)
  {
    && !e.dirty && !e.exported && e.claims == [] && e.checksumOps == 0
    && (forall p | 0 <= p < |e.pages| :: e.pages[p] == Missing) && (forall r | 0 <= r < |e.pins| :: e.pins[r] == 0)
  }

  lemma ReclaimableIsIdle(e: Entry)
    requires WF(e) && Reclaimable(e)
    ensures Idle(e)
  {
    EntryLaws.SumIsZero(e.pins);
  }

  method ReclaimPass(entries: seq<Entry>, begin: nat) returns (after: seq<Entry>, reclaimed: bool)
    requires AllWF(entries)
    ensures AllWF(after) && CleanTotal(after) <= CleanTotal(entries)
    ensures if reclaimed then exists i :: 0 <= i < |entries| && Idle(entries[i]) && after == Without(entries, i) else after == entries
  {
    var n := 0;
    while n < |entries|
    {
      var i := Turned(begin, n, |entries|);
      var unused: bool := *;
      if unused && Reclaimable(entries[i]) {
        CleanTotalWithout(entries, i);
        ReclaimableIsIdle(entries[i]);
        return Without(entries, i), true;
      }
      n := n + 1;
    }
    return entries, false;
  }

  /** What a region's eviction depends on, apart from the clock. */
  predicate SameData(e: Entry, e': Entry)
  {
    e'.pages == e.pages && e'.pins == e.pins && e'.blockPages == e.blockPages
  }

  lemma EmptyKeepsData(e: Entry)
    requires WF(e)
    ensures EvictOne(e, true).1 < 0 ==> SameData(e, EvictOne(e, true).0)
  {
  }

  lemma SameDataTwice(e: Entry, e1: Entry, e2: Entry)
    requires SameData(e, e1) && SameData(e1, e2)
    ensures SameData(e, e2)
  {
  }

  /** Takes part in eviction, with a hand that two scans do not visibly wrap. */
  predicate Scannable(e: Entry)
  {
    Evictable(e) && |e.pins| > 0 && |e.pins| + |e.pins| <= HAND_LIMIT && e.hand < HAND_LIMIT && BothSmooth(e.hand, |e.pins|)
  }

  ghost predicate NoVictim(e: Entry) { e.blockPages > 0 ==> forall r | 0 <= r < |e.pins| :: !Victim(e, r) }

  lemma NothingToGive(e: Entry, e': Entry)
    requires WF(e) && Scannable(e) && TwiceEmpty(e) && SameData(e, e')
    ensures NoVictim(e')
  {
    TwiceEmptyMeansNothing(e);
    forall r | 0 <= r < |e.pins| ensures !Victim(e', r) { SameRegion(e, e', r); }
  }

  /** Eviction among the live entries: two passes for a region, then one for a whole entry. A successful round lowers
      the measure; an unsuccessful one, with reliable I/O, means that no entry had a region to give. */
  method EvictRound(entries: seq<Entry>, begin: nat, reliable: bool) returns (after: seq<Entry>, evicted: bool)
    requires AllWF(entries)
    ensures AllWF(after)
    ensures evicted ==> Lowered(after, entries)
    ensures !evicted ==> |after| == |entries| && CleanTotal(after) <= CleanTotal(entries)
    ensures reliable && !evicted ==> forall i | 0 <= i < |entries| :: TwiceEmpty(entries[i]) && SameData(entries[i], after[i])
  {
    hide WF, EvictOne, SameData;
    after, evicted := ScanPass(entries, begin, reliable);
    if evicted { return; }
    ghost var once := after;
    after, evicted := ScanPass(after, begin, reliable);
    if evicted { return; }
    assert reliable ==> forall i | 0 <= i < |entries| :: once[i] == EvictOne(entries[i], true).0;
    if reliable {
      forall i | 0 <= i < |entries| ensures SameData(entries[i], after[i]) {
        EmptyKeepsData(entries[i]);
        EmptyKeepsData(once[i]);
        SameDataTwice(entries[i], once[i], after[i]);
      }
    }
    after, evicted := ReclaimPass(after, begin);
  }

  /** `reserve_capacity`: evict until the reservation fits or nothing more can go. It ends because every round that goes
      on lowers the number of clean pages or of entries. When it fails although punches succeed, no live entry whose hand
      did not wrap in the last round, which began with the entries `last`, has a region left to evict. */
  method ReserveCapacity(l: Ledger, c: Limits, bytes: nat, entries: seq<Entry>, reliable: bool)
    returns (l': Ledger, after: seq<Entry>, reserved: bool, last: seq<Entry>)
    requires AllWF(entries) && bytes <= U64_MAX
    ensures AllWF(after) && CleanTotal(after) <= CleanTotal(entries)
    ensures reserved ==> l'.outstanding == l.outstanding + [bytes] && (Exact(l) && !c.unlimited ==> Exact(l')) && Within(l', c)
    ensures !reserved ==> l'.outstanding == l.outstanding && l'.pending == l.pending && l'.used <= l.used
    ensures !reserved && reliable ==>
              |last| == |after| && forall i | 0 <= i < |after| :: SameData(last[i], after[i]) && (Scannable(last[i]) ==> NoVictim(after[i]))
  {
    hide WF, SameData, Scannable, NoVictim, TwiceEmpty;
    l', after, last := l, entries, entries;
    while true
      invariant AllWF(after) && CleanTotal(after) <= CleanTotal(entries)
      invariant l'.outstanding == l.outstanding && l'.pending == l.pending && l'.used <= l.used
      decreases CleanTotal(after), |after|
    {
      var available: nat := *;
      var floor: nat := *;
      available := Min(available, U64_MAX);
      var (t, ok) := TryReserve(l', c, bytes, available, floor);
      if ok {
        assert Exact(l) ==> Exact(l');
        if Exact(l') { ReserveExactIff(l', c, bytes, available, floor); }
        return t, after, true, after;
      }
      var begin: nat := *;
      last := after;
      var evicted;
      after, evicted := EvictRound(after, begin, reliable);
      if !evicted {
        if reliable {
          forall i | 0 <= i < |after| ensures Scannable(last[i]) ==> NoVictim(after[i]) {
            if Scannable(last[i]) { NothingToGive(last[i], after[i]); }
          }
        }
        return l', after, false, last;
      }
      var freed: nat := *;
      l' := l'.(used := SubSaturating(l'.used, Min(freed, I64_MAX)));
    }
  }
}
