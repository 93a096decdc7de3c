/** The second-chance hand: when do two scans of an entry find a region to evict?

    The hand is a 64-bit counter taken modulo the number of regions. It visits every region
    in one scan unless it wraps during the scan while the number of regions does not divide
    2^64. `TwoScansEvict` and `WrapBreaksTwoScans` together make that exact.
 */
module EntryClock {
  import opened Geometry
  import opened EntryModel
  import opened EntryRuns

  /** Region that the scan looks at in its step `k`. */
  function Visit(hand: nat, n: nat, k: nat): nat
    requires n > 0
  {
    ((hand + k) % HAND_LIMIT) % n
  }

  ghost predicate Visited(hand: nat, n: nat, r: nat)
    requires n > 0
  {
    exists k :: 0 <= k < n && Visit(hand, n, k) == r
  }

  ghost predicate VisitsAll(hand: nat, n: nat)
    requires n > 0
  {
    forall r | 0 <= r < n :: Visited(hand, n, r)
  }

  /** The scan does not wrap, or wrapping does not show. */
  predicate Smooth(hand: nat, n: nat)
    requires n > 0
  {
    hand + n <= HAND_LIMIT || HAND_LIMIT % n == 0
  }

  // ---------------------------------------------------------------- which regions are visited

  lemma ModOf(n: nat, d: int, r: nat)
    requires r < n && n * d + r >= 0
    ensures (n * d + r) % n == r
  {
    if (n * d + r) % n != r {
      var q := (n * d + r) / n;
      var s := (n * d + r) % n;
      assert n * (q - d) == r - s;
      assert q - d <= -1 || q - d >= 1;
      if q - d >= 1 { MulMonotone(1, q - d, n); } else { MulMonotone(q - d, -1, n); }
    }
  }

  /** Stepping from `h` to the next number with residue `r`. */
  function StepsTo(h: nat, n: nat, r: nat): nat
    requires r < n
  {
    if r >= h % n then r - h % n else n + r - h % n
  }

  lemma StepsLand(h: nat, n: nat, r: nat)
    requires r < n
    ensures StepsTo(h, n, r) < n && (h + StepsTo(h, n, r)) % n == r
  {
    var d := h / n;
    assert h == n * d + h % n;
    if r >= h % n {
      ModOf(n, d, r);
    } else {
      assert n * (d + 1) == n * d + n;
      ModOf(n, d + 1, r);
    }
  }

  /** A smooth scan sees every region. */
  lemma SmoothVisitsAll(hand: nat, n: nat)
    requires n > 0 && hand < HAND_LIMIT && n <= HAND_LIMIT && Smooth(hand, n)
    ensures VisitsAll(hand, n)
  {
    forall r | 0 <= r < n ensures Visited(hand, n, r) {
      var k := StepsTo(hand, n, r);
      StepsLand(hand, n, r);
      if hand + k >= HAND_LIMIT {
        var d, c := HAND_LIMIT / n, (hand + k) / n;
        assert hand + k - HAND_LIMIT == n * (c - d) + r;
        ModOf(n, c - d, r);
      }
      assert Visit(hand, n, k) == r;
    }
  }

  /** The region that a scan with a visible wrap misses. */
  function Blind(hand: nat, n: nat): nat
    requires n > 0 && hand < HAND_LIMIT && HAND_LIMIT < hand + n
  {
    Max(HAND_LIMIT % n, n - (HAND_LIMIT - hand))
  }

  /** Visits before the wrap. */
  lemma VisitBefore(hand: nat, n: nat, k: nat)
    requires 0 < n && hand < HAND_LIMIT < hand + n && hand + k < HAND_LIMIT && HAND_LIMIT % n != 0
    ensures var m, q := HAND_LIMIT - hand, HAND_LIMIT % n;
            Visit(hand, n, k) == if q + k >= m then q + k - m else n + q + k - m
  {
    var m, d, q := HAND_LIMIT - hand, HAND_LIMIT / n, HAND_LIMIT % n;
    assert HAND_LIMIT == n * d + q;
    if q + k >= m {
      ModOf(n, d, q + k - m);
    } else {
      assert n * (d - 1) == n * d - n;
      ModOf(n, d - 1, n + q + k - m);
    }
  }

  lemma VisitAfter(hand: nat, n: nat, k: nat)
    requires 0 < n <= HAND_LIMIT && hand < HAND_LIMIT <= hand + k && k < n
    ensures Visit(hand, n, k) == hand + k - HAND_LIMIT
  {
    ModOf(n, 0, hand + k - HAND_LIMIT);
  }

  lemma BlindUnseen(hand: nat, n: nat, k: nat)
    requires 0 < n <= HAND_LIMIT && hand < HAND_LIMIT && !Smooth(hand, n) && k < n
    ensures Blind(hand, n) < n && Visit(hand, n, k) != Blind(hand, n)
  {
    hide Visit;
    if hand + k < HAND_LIMIT { VisitBefore(hand, n, k); } else { VisitAfter(hand, n, k); }
  }

  /** One scan looks at every region exactly when it is smooth. */
  lemma VisitsAllIffSmooth(hand: nat, n: nat)
    requires 0 < n <= HAND_LIMIT && hand < HAND_LIMIT
    ensures VisitsAll(hand, n) <==> Smooth(hand, n)
  {
    if Smooth(hand, n) {
      SmoothVisitsAll(hand, n);
    } else {
      forall k | 0 <= k < n ensures Visit(hand, n, k) != Blind(hand, n) {
        BlindUnseen(hand, n, k);
      }
      BlindUnseen(hand, n, 0);
      assert !Visited(hand, n, Blind(hand, n));
    }
  }

  /** Numbers less than `n` apart have different residues. */
  lemma ResiduesDiffer(x: nat, d: nat, n: nat)
    requires 0 < d < n
    ensures x % n != (x + d) % n
  {
    var q, r := x / n, x % n;
    assert x == n * q + r;
    if r + d < n {
      ModOf(n, q, r + d);
    } else {
      assert n * (q + 1) == n * q + n;
      ModOf(n, q + 1, r + d - n);
    }
  }

  /** Without a wrap no region is visited twice. */
  lemma VisitOnce(hand: nat, n: nat, j: nat, k: nat)
    requires n > 0 && hand + n <= HAND_LIMIT && j < k < n
    ensures Visit(hand, n, j) != Visit(hand, n, k)
  {
    VisitUnwrapped(hand, n, j);
    VisitUnwrapped(hand, n, k);
    hide Visit;
    ResiduesDiffer(hand + j, k - j, n);
  }

  lemma VisitUnwrapped(hand: nat, n: nat, k: nat)
    requires n > 0 && hand + k < HAND_LIMIT
    ensures Visit(hand, n, k) == (hand + k) % n
  {
  }

  // ---------------------------------------------------------------- what a scan leaves behind

  lemma VisitFirst(hand: nat, n: nat)
    requires n > 0 && hand < HAND_LIMIT
    ensures Visit(hand, n, 0) == Under(hand, n)
  {
  }

  lemma VisitNext(hand: nat, n: nat, k: nat)
    requires n > 0 && hand < HAND_LIMIT && k > 0
    ensures Visit(hand, n, k) == Visit(Tick(hand), n, k - 1)
  {
  }

  /** The first `n` steps look at region `r` (of `regions`). */
  predicate SeenIn(hand: nat, regions: nat, n: nat, r: nat)
    requires regions > 0
    decreases n
  {
    n > 0 && (Under(hand, regions) == r || SeenIn(Tick(hand), regions, n - 1, r))
  }

  lemma {:induction false} SeenIffVisited(hand: nat, regions: nat, n: nat, r: nat)
    requires regions > 0 && hand < HAND_LIMIT
    ensures SeenIn(hand, regions, n, r) <==> exists k :: 0 <= k < n && Visit(hand, regions, k) == r
    decreases n
  {
    if n > 0 {
      var next := Tick(hand);
      VisitFirst(hand, regions);
      SeenIffVisited(next, regions, n - 1, r);
      forall k | 0 < k < n ensures Visit(hand, regions, k) == Visit(next, regions, k - 1) { VisitNext(hand, regions, k); }
      hide Visit;
      if k :| 0 <= k < n - 1 && Visit(next, regions, k) == r { assert Visit(hand, regions, k + 1) == r; }
    }
  }

  /** A scan that found nothing cleared the bit of every region it saw, and no region it saw
      with a clear bit was a victim. */
  lemma {:induction false} EmptyScan(e: Entry, hand: nat, referenced: seq<bool>, n: nat, r: nat)
    requires e.blockPages > 0 && |referenced| == |e.pins| && r < |e.pins| && hand < HAND_LIMIT
    requires ClockScan(e, hand, referenced, n).victim == -1
    ensures var s := ClockScan(e, hand, referenced, n);
            && (!referenced[r] ==> !s.referenced[r])
            && (SeenIn(hand, |e.pins|, n, r) ==> !s.referenced[r] && (referenced[r] || !Victim(e, r)))
    decreases n
  {
    if n > 0 {
      hide Victim, Under, Tick;
      var region, next := Under(hand, |referenced|), Tick(hand);
      EmptyScan(e, next, if referenced[region] then referenced[region := false] else referenced, n - 1, r);
    }
  }

  lemma TickAdd(hand: nat, n: nat)
    requires n > 0
    ensures (Tick(hand) + (n - 1)) % HAND_LIMIT == (hand + n) % HAND_LIMIT
  {
  }

  lemma {:induction false} EmptyScanHand(e: Entry, hand: nat, referenced: seq<bool>, n: nat)
    requires e.blockPages > 0 && |referenced| == |e.pins| > 0 && hand < HAND_LIMIT
    requires ClockScan(e, hand, referenced, n).victim == -1
    ensures ClockScan(e, hand, referenced, n).hand == (hand + n) % HAND_LIMIT
    decreases n
  {
    if n > 0 {
      TickAdd(hand, n);
      hide Victim, Under, Tick;
      var region, next := Under(hand, |referenced|), Tick(hand);
      EmptyScanHand(e, next, if referenced[region] then referenced[region := false] else referenced, n - 1);
    }
  }

  /** Two scans in a row. */
  function TwoScans(e: Entry): int
    requires WF(e) && Evictable(e)
  {
    var s := ScanEntry(e);
    if s.victim >= 0 then s.victim
    else ClockScan(e, s.hand, s.referenced, |s.referenced|).victim
  }

  /** The scan and the next one are smooth. */
  predicate BothSmooth(hand: nat, n: nat)
    requires n > 0
  {
    Smooth(hand, n) && Smooth((hand + n) % HAND_LIMIT, n)
  }

  /** Second chance is complete: two scans find a region to evict exactly when there is one. */
  lemma TwoScansEvict(e: Entry)
    requires WF(e) && Evictable(e) && |e.pins| + |e.pins| <= HAND_LIMIT && BothSmooth(e.hand, |e.pins|)
    ensures TwoScans(e) >= 0 <==> exists r :: 0 <= r < |e.pins| && Victim(e, r)
  {
    hide Visit, Victim;
    var n, s := |e.pins|, ScanEntry(e);
    if s.victim < 0 {
      VisitsAllIffSmooth(e.hand, n);
      EmptyScanHand(e, e.hand, e.referenced, n);
      VisitsAllIffSmooth(s.hand, n);
      forall r | 0 <= r < n ensures !s.referenced[r] {
        SeenIffVisited(e.hand, n, n, r);
        assert Visited(e.hand, n, r);
        EmptyScan(e, e.hand, e.referenced, n, r);
      }
      if ClockScan(e, s.hand, s.referenced, n).victim < 0 {
        forall r | 0 <= r < n ensures !Victim(e, r) {
          SeenIffVisited(s.hand, n, n, r);
          assert Visited(s.hand, n, r);
          EmptyScan(e, s.hand, s.referenced, n, r);
        }
      }
    }
  }

  // ---------------------------------------------------------------- when the hand wraps

  /** `n` one-page regions, all missing but region `r`, which is clean and referenced. */
  function Lonely(hand: nat, n: nat, r: nat): Entry
    requires r < n && hand < HAND_LIMIT
  {
    Entry(n * PAGE, 1, 0, seq(n, _ => Missing)[r := Clean], seq(n, _ => false)[r := true], seq(n, _ => 0), [], [], [],
          1, hand, 0, 0, Unknown, false, false, false, false, false, false)
  }

  lemma {:induction false} QuotOne(p: nat)
    ensures Quot(p, 1) == p
  {
    if p > 0 { QuotOne(p - 1); }
  }

  lemma LonelyShape(hand: nat, n: nat, r: nat)
    requires r < n && hand < HAND_LIMIT
    ensures var e := Lonely(hand, n, r);
            && WF(e) && Evictable(e) && |e.pins| == |e.referenced| == n && e.referenced[r] && e.hand == hand && e.blockPages > 0
            && forall j | 0 <= j < n :: Victim(e, j) <==> j == r
  {
    var e := Lonely(hand, n, r);
    SumOfZeros(n);
    if n > 0 { QuotOne(n - 1); }
    assert (e.size + PAGE - 1) / PAGE == n;
    forall j | 0 <= j < n ensures Victim(e, j) <==> j == r {
      forall p: nat ensures Block(e, p) == p { QuotOne(p); }
      assert e.pages[j] == Clean <==> j == r;
    }
  }

  /** A scan that never looks at the only victim finds nothing and leaves its bit. */
  lemma {:induction false} UnseenScan(e: Entry, hand: nat, referenced: seq<bool>, n: nat, r: nat)
    requires e.blockPages > 0 && |referenced| == |e.pins| && r < |e.pins| && hand < HAND_LIMIT
    requires forall j | 0 <= j < |e.pins| && j != r :: !Victim(e, j)
    requires !SeenIn(hand, |e.pins|, n, r)
    ensures var s := ClockScan(e, hand, referenced, n);
            s.victim == -1 && s.referenced[r] == referenced[r]
    decreases n
  {
    if n > 0 {
      hide Victim, Under, Tick;
      var region, next := Under(hand, |referenced|), Tick(hand);
      UnseenScan(e, next, if referenced[region] then referenced[region := false] else referenced, n - 1, r);
    }
  }

  /** The first `n` steps do not look at region `r` twice. */
  predicate SeenOnce(hand: nat, regions: nat, n: nat, r: nat)
    requires regions > 0
    decreases n
  {
    n == 0 ||
    if Under(hand, regions) == r then !SeenIn(Tick(hand), regions, n - 1, r)
    else SeenOnce(Tick(hand), regions, n - 1, r)
  }

  lemma {:induction false} NoWrapSeenOnce(hand: nat, regions: nat, n: nat, r: nat)
    requires regions > 0 && n <= regions && hand + regions <= HAND_LIMIT && hand + n <= HAND_LIMIT
    ensures SeenOnce(hand, regions, n, r)
  {
    hide SeenOnce;
    NoWrapFrom(hand, regions, 0, n, r);
  }

  lemma VisitShift(hand: nat, regions: nat, k: nat, j: nat)
    requires regions > 0
    ensures Visit((hand + k) % HAND_LIMIT, regions, j) == Visit(hand, regions, k + j)
  {
    assert ((hand + k) % HAND_LIMIT + j) % HAND_LIMIT == (hand + (k + j)) % HAND_LIMIT;
  }

  lemma TickNext(hand: nat, k: nat)
    ensures (hand + (k + 1)) % HAND_LIMIT == Tick((hand + k) % HAND_LIMIT)
  {
  }

  lemma NotSeenAgain(at: nat, regions: nat, n: nat, r: nat)
    requires regions > 0 && n > 0 && Under(at, regions) == r && !SeenIn(Tick(at), regions, n - 1, r)
    ensures SeenOnce(at, regions, n, r)
  {
  }

  /** The steps from `k` to `n`, when none of the `regions` steps wraps. */
  lemma {:induction false} NoWrapFrom(hand: nat, regions: nat, k: nat, n: nat, r: nat)
    requires regions > 0 && k <= n <= regions && hand + regions <= HAND_LIMIT
    ensures SeenOnce((hand + k) % HAND_LIMIT, regions, n - k, r)
    decreases n - k
  {
    if k < n {
      NoWrapFrom(hand, regions, k + 1, n, r);
      var at, next := (hand + k) % HAND_LIMIT, (hand + (k + 1)) % HAND_LIMIT;
      assert next == Tick(at) by { TickNext(hand, k); }
      hide Under, Tick, SeenIn, Visit;
      VisitFirst(at, regions);
      if Under(at, regions) == r {
        hide SeenOnce;
        SeenIffVisited(next, regions, n - k - 1, r);
        forall j | 0 <= j < n - k - 1 ensures Visit(next, regions, j) != r {
          VisitOnce(hand, regions, k, k + 1 + j);
          VisitShift(hand, regions, k + 1, j);
          VisitShift(hand, regions, k, 0);
        }
        NotSeenAgain(at, regions, n - k, r);
      }
    }
  }

  /** A scan that looks at most once at the only victim, whose bit is set, finds nothing. */
  lemma {:induction false} SeenOnceScan(e: Entry, hand: nat, referenced: seq<bool>, n: nat, r: nat)
    requires e.blockPages > 0 && |referenced| == |e.pins| && r < |e.pins| && hand < HAND_LIMIT && referenced[r]
    requires forall j | 0 <= j < |e.pins| && j != r :: !Victim(e, j)
    requires SeenOnce(hand, |e.pins|, n, r)
    ensures ClockScan(e, hand, referenced, n).victim == -1
    decreases n
  {
    if n > 0 {
      hide Victim, Under, Tick;
      var region, next := Under(hand, |referenced|), Tick(hand);
      if region == r {
        UnseenScan(e, next, referenced[region := false], n - 1, r);
      } else {
        SeenOnceScan(e, next, if referenced[region] then referenced[region := false] else referenced, n - 1, r);
      }
    }
  }

  lemma BlindNotSeen(hand: nat, n: nat)
    requires 0 < n <= HAND_LIMIT && hand < HAND_LIMIT && !Smooth(hand, n)
    ensures hand + n > HAND_LIMIT && Blind(hand, n) < n && !SeenIn(hand, n, n, Blind(hand, n))
  {
    hide Visit;
    BlindUnseen(hand, n, 0);
    SeenIffVisited(hand, n, n, Blind(hand, n));
    forall k | 0 <= k < n ensures Visit(hand, n, k) != Blind(hand, n) { BlindUnseen(hand, n, k); }
  }

  /** Whenever two smooth scans are not assured, some entry has a victim that two scans miss. */
  lemma WrapBreaksTwoScans(hand: nat, n: nat) returns (e: Entry)
    requires 0 < n && n + n <= HAND_LIMIT && hand < HAND_LIMIT && !BothSmooth(hand, n)
    ensures WF(e) && Evictable(e) && |e.pins| == n && e.hand == hand
    ensures (exists r :: 0 <= r < n && Victim(e, r)) && TwoScans(e) < 0
  {
    hide Victim, WF, Smooth, Blind, Lonely, SeenIn, SeenOnce, ClockScan;
    var next := (hand + n) % HAND_LIMIT;
    assert hand + n > HAND_LIMIT ==> next + n <= HAND_LIMIT;
    if !Smooth(hand, n) {
      BlindNotSeen(hand, n);
      var r := Blind(hand, n);
      e := Lonely(hand, n, r);
      LonelyShape(hand, n, r);
      assert Victim(e, r);
      UnseenScan(e, hand, e.referenced, n, r);
      EmptyScanHand(e, hand, e.referenced, n);
      NoWrapSeenOnce(next, n, n, r);
      SeenOnceScan(e, next, ScanEntry(e).referenced, n, r);
    } else {
      SmoothNext(hand, n);
      BlindNotSeen(next, n);
      var r := Blind(next, n);
      e := Lonely(hand, n, r);
      LonelyShape(hand, n, r);
      assert Victim(e, r);
      NoWrapSeenOnce(hand, n, n, r);
      SeenOnceScan(e, hand, e.referenced, n, r);
      EmptyScanHand(e, hand, e.referenced, n);
      UnseenScan(e, next, ScanEntry(e).referenced, n, r);
    }
  }

  ghost predicate Complete(e: Entry)
    requires WF(e) && Evictable(e)
  {
    TwoScans(e) >= 0 <==> exists r :: 0 <= r < |e.pins| && Victim(e, r)
  }

  /** Two scans are complete for every entry with this hand and this many regions exactly when
      neither scan has a visible wrap. */
  lemma ClockCompleteIffSmooth(hand: nat, n: nat)
    requires 0 < n && n + n <= HAND_LIMIT && hand < HAND_LIMIT
    ensures (forall e | WF(e) && Evictable(e) && |e.pins| == n && e.hand == hand :: Complete(e)) <==> BothSmooth(hand, n)
  {
    hide WF, Victim, TwoScans, BothSmooth, Evictable;
    if BothSmooth(hand, n) {
      forall e | WF(e) && Evictable(e) && |e.pins| == n && e.hand == hand ensures Complete(e) { TwoScansEvict(e); }
    } else {
      var e := WrapBreaksTwoScans(hand, n);
      assert !Complete(e);
    }
  }

  lemma SmoothNext(hand: nat, n: nat)
    requires n > 0 && Smooth(hand, n) && !Smooth((hand + n) % HAND_LIMIT, n)
    ensures hand + n <= HAND_LIMIT
  {
  }
}
