/** The pin ledger: what every operation does to the region pin counts and to their holders. */
module EntryLedger {
  import opened EntryModel
  import opened EntryWorld

  // ---------------------------------------------------------------- counting

  function Bit(v: bool): nat { if v then 1 else 0 }

  lemma {:induction false} CountUpdate(s: seq<bool>, i: nat, v: bool)
    requires i < |s|
    ensures CountTrue(s[i := v]) + Bit(s[i]) == CountTrue(s) + Bit(v)
  {
    if i == 0 {
      assert s[i := v][1..] == s[1..];
    } else {
      CountUpdate(s[1..], i - 1, v);
      assert s[i := v][1..] == s[1..][i - 1 := v];
    }
  }

  lemma {:induction false} CountAppend(s: seq<bool>, v: bool)
    ensures CountTrue(s + [v]) == CountTrue(s) + Bit(v)
  {
    if s == [] {
      assert [v][1..] == [];
    } else {
      CountAppend(s[1..], v);
      assert (s + [v])[1..] == s[1..] + [v];
    }
  }

  lemma {:induction false} CountWithout(s: seq<bool>, i: nat)
    requires i < |s|
    ensures CountTrue(s) == CountTrue(Without(s, i)) + Bit(s[i])
  {
    if i == 0 {
      assert Without(s, i) == s[1..];
    } else {
      CountWithout(s[1..], i - 1);
      assert Without(s, i)[1..] == Without(s[1..], i - 1);
    }
  }

  lemma {:induction false} CountPositive(s: seq<bool>, i: nat)
    requires i < |s| && s[i]
    ensures CountTrue(s) > 0
  {
    CountWithout(s, i);
  }

  lemma {:induction false} CountNone(s: seq<bool>)
    requires forall i | 0 <= i < |s| :: !s[i]
    ensures CountTrue(s) == 0
  {
    if s != [] { CountNone(s[1..]); }
  }

  // ---------------------------------------------------------------- holders of a region

  /** Number of readers, parts and fetches that hold region `r`. */
  function Holders(e: Entry, readers: seq<Reader>, r: nat): nat
    requires e.blockPages > 0 && |e.parts| == |e.partStates|
  {
    CountTrue(ReaderFlags(readers, e.blockPages, r)) + VerifierPins(e, r)
  }

  /** One holder more on exactly the regions that were incremented. */
  lemma LedgerAdd(e: Entry, readers: seq<Reader>, e': Entry, readers': seq<Reader>, o: nat, l: nat)
    requires WF(e) && Ledger(e, readers) && Inside(e, o, l)
    requires e'.blockPages == e.blockPages && |e'.parts| == |e'.partStates|
    requires e'.pins == AddRegionPins(e, o, l).pins
    requires forall r | 0 <= r < |e.pins| ::
               Holders(e', readers', r) == Holders(e, readers, r) + Bit(Spans(e.blockPages, o, l, r))
    ensures Ledger(e', readers')
  {
    forall r | 0 <= r < |e'.pins| ensures e'.pins[r] == Holders(e', readers', r) {
      assert e.pins[r] == Holders(e, readers, r);
    }
  }

  /** One holder less on exactly the regions that were decremented: the guard never saturates. */
  lemma LedgerDrop(e: Entry, readers: seq<Reader>, e': Entry, readers': seq<Reader>, o: nat, l: nat)
    requires WF(e) && Ledger(e, readers) && Inside(e, o, l)
    requires e'.blockPages == e.blockPages && |e'.parts| == |e'.partStates|
    requires e'.pins == DropRegionPins(e, o, l).pins
    requires forall r | 0 <= r < |e.pins| ::
               Holders(e', readers', r) + Bit(Spans(e.blockPages, o, l, r)) == Holders(e, readers, r)
    ensures Ledger(e', readers')
  {
    forall r | 0 <= r < |e'.pins| ensures e'.pins[r] == Holders(e', readers', r) {
      assert e.pins[r] == Holders(e, readers, r);
    }
  }

  lemma LedgerFrame(e: Entry, readers: seq<Reader>, e': Entry)
    requires e.blockPages > 0 && |e.parts| == |e.partStates| && Ledger(e, readers)
    requires e'.blockPages == e.blockPages && e'.pins == e.pins
    requires e'.parts == e.parts && |e'.partStates| == |e.partStates|
    requires forall k | 0 <= k < |e.parts| :: Checking(e'.partStates[k]) == Checking(e.partStates[k])
    requires |e'.claims| == |e.claims|
    requires forall i | 0 <= i < |e.claims| ::
               && e'.claims[i].verifying == e.claims[i].verifying && e'.claims[i].offset == e.claims[i].offset
               && e'.claims[i].length == e.claims[i].length
    ensures Ledger(e', readers)
  {
    forall r | 0 <= r < |e'.pins| ensures e'.pins[r] == Holders(e', readers, r) {
      assert e.pins[r] == Holders(e, readers, r);
      assert FetchFlags(e'.claims, e.blockPages, r) == FetchFlags(e.claims, e.blockPages, r);
      assert PartFlags(e'.parts, e'.partStates, e.blockPages, r) == PartFlags(e.parts, e.partStates, e.blockPages, r);
    }
  }

  // ---------------------------------------------------------------- operations

  lemma AddReader(e: Entry, readers: seq<Reader>, x: Reader, e': Entry)
    requires WF(e) && Ledger(e, readers) && Inside(e, x.offset, x.length)
    requires e'.blockPages == e.blockPages && e'.parts == e.parts && e'.partStates == e.partStates
    requires e'.claims == e.claims && e'.pins == AddRegionPins(e, x.offset, x.length).pins
    ensures Ledger(e', readers + [x])
  {
    forall r | 0 <= r < |e.pins|
      ensures Holders(e', readers + [x], r) ==
              Holders(e, readers, r) + Bit(Spans(e.blockPages, x.offset, x.length, r))
    {
      var b := e.blockPages;
      assert ReaderFlags(readers + [x], b, r) == ReaderFlags(readers, b, r) + [Spans(b, x.offset, x.length, r)];
      CountAppend(ReaderFlags(readers, b, r), Spans(b, x.offset, x.length, r));
    }
    LedgerAdd(e, readers, e', readers + [x], x.offset, x.length);
  }

  lemma DropReader(e: Entry, readers: seq<Reader>, k: nat)
    requires WF(e) && Ledger(e, readers) && k < |readers| && Inside(e, readers[k].offset, readers[k].length)
    ensures Ledger(Unpin(e, readers[k].offset, readers[k].length), Without(readers, k))
  {
    var e', x := Unpin(e, readers[k].offset, readers[k].length), readers[k];
    forall r | 0 <= r < |e.pins|
      ensures Holders(e', Without(readers, k), r) + Bit(Spans(e.blockPages, x.offset, x.length, r)) ==
              Holders(e, readers, r)
    {
      var flags := ReaderFlags(readers, e.blockPages, r);
      assert ReaderFlags(Without(readers, k), e.blockPages, r) == Without(flags, k);
      CountWithout(flags, k);
    }
    LedgerDrop(e, readers, e', Without(readers, k), x.offset, x.length);
  }

  lemma AddVerifyingFetch(e: Entry, readers: seq<Reader>, i: nat, e': Entry)
    requires WF(e) && Ledger(e, readers) && i < |e.claims| && !e.claims[i].verifying
    requires Inside(e, e.claims[i].offset, e.claims[i].length)
    requires e' == AddRegionPins(e, e.claims[i].offset, e.claims[i].length).(
                     claims := e.claims[i := e.claims[i].(verifying := true)])
    ensures Ledger(e', readers)
  {
    var a := e.claims[i];
    forall r | 0 <= r < |e.pins|
      ensures Holders(e', readers, r) == Holders(e, readers, r) + Bit(Spans(e.blockPages, a.offset, a.length, r))
    {
      var flags, v := FetchFlags(e.claims, e.blockPages, r), Spans(e.blockPages, a.offset, a.length, r);
      assert FetchFlags(e'.claims, e.blockPages, r) == flags[i := v];
      CountUpdate(flags, i, v);
    }
    LedgerAdd(e, readers, e', readers, a.offset, a.length);
  }

  lemma FetchGone(e: Entry, readers: seq<Reader>, i: nat, e': Entry, r: nat)
    requires e.blockPages > 0 && |e.parts| == |e.partStates| && i < |e.claims|
    requires e'.blockPages == e.blockPages && e'.parts == e.parts && e'.partStates == e.partStates
    requires e'.claims == Without(e.claims, i)
    ensures Holders(e', readers, r)
            + Bit(e.claims[i].verifying && Spans(e.blockPages, e.claims[i].offset, e.claims[i].length, r))
            == Holders(e, readers, r)
  {
    var flags := FetchFlags(e.claims, e.blockPages, r);
    assert FetchFlags(e'.claims, e.blockPages, r) == Without(flags, i);
    CountWithout(flags, i);
  }

  lemma DropFetch(e: Entry, readers: seq<Reader>, i: nat)
    requires WF(e) && Ledger(e, readers) && i < |e.claims| && Inside(e, e.claims[i].offset, e.claims[i].length)
    ensures Ledger(EndFetch(e, i), readers)
  {
    var a, e' := e.claims[i], EndFetch(e, i);
    if a.verifying {
      forall r | 0 <= r < |e.pins|
        ensures Holders(e', readers, r) + Bit(Spans(e.blockPages, a.offset, a.length, r)) == Holders(e, readers, r)
      {
        FetchGone(e, readers, i, e', r);
      }
      LedgerDrop(e, readers, e', readers, a.offset, a.length);
    } else {
      forall r | 0 <= r < |e'.pins| ensures e'.pins[r] == Holders(e', readers, r) {
        FetchGone(e, readers, i, e', r);
        assert e.pins[r] == Holders(e, readers, r);
      }
    }
  }

  lemma AddFetch(e: Entry, readers: seq<Reader>, f: ActiveFetch, e': Entry)
    requires WF(e) && Ledger(e, readers) && !f.verifying
    requires e'.blockPages == e.blockPages && e'.parts == e.parts && e'.partStates == e.partStates
    requires e'.claims == e.claims + [f] && e'.pins == e.pins
    ensures Ledger(e', readers)
  {
    forall r | 0 <= r < |e'.pins| ensures e'.pins[r] == Holders(e', readers, r) {
      assert e.pins[r] == Holders(e, readers, r);
      assert FetchFlags(e'.claims, e.blockPages, r) == FetchFlags(e.claims, e.blockPages, r) + [false];
      CountAppend(FetchFlags(e.claims, e.blockPages, r), false);
    }
  }

  /** What a change of one part's state does to the holders. */
  lemma PartStateHolders(e: Entry, readers: seq<Reader>, k: nat, st: PartState, e': Entry, r: nat)
    requires WF(e) && k < |e.parts|
    requires e'.blockPages == e.blockPages && e'.parts == e.parts && e'.claims == e.claims
    requires e'.partStates == e.partStates[k := st]
    ensures Holders(e', readers, r)
            + Bit(Checking(e.partStates[k]) && Spans(e.blockPages, e.parts[k].offset, e.parts[k].size, r))
            == Holders(e, readers, r)
               + Bit(Checking(st) && Spans(e.blockPages, e.parts[k].offset, e.parts[k].size, r))
  {
    var b := e.blockPages;
    var flags := PartFlags(e.parts, e.partStates, b, r);
    var v := Checking(st) && Spans(b, e.parts[k].offset, e.parts[k].size, r);
    assert PartFlags(e'.parts, e'.partStates, b, r) == flags[k := v];
    CountUpdate(flags, k, v);
  }

  lemma PartStateOps(e: Entry, k: nat, st: PartState)
    requires k < |e.partStates|
    ensures CountTrue(CheckFlags(e.partStates[k := st])) + Bit(Checking(e.partStates[k]))
            == CountTrue(CheckFlags(e.partStates)) + Bit(Checking(st))
  {
    assert CheckFlags(e.partStates[k := st]) == CheckFlags(e.partStates)[k := Checking(st)];
    CountUpdate(CheckFlags(e.partStates), k, Checking(st));
  }

  lemma AddCheck(e: Entry, readers: seq<Reader>, k: nat)
    requires WF(e) && Ledger(e, readers) && OpsLedger(e) && k < |e.parts| && !Checking(e.partStates[k])
    ensures Ledger(VerifyPart(e, k), readers) && OpsLedger(VerifyPart(e, k))
  {
    var e' := VerifyPart(e, k);
    forall r | 0 <= r < |e.pins|
      ensures Holders(e', readers, r) == Holders(e, readers, r) +
              Bit(Spans(e.blockPages, e.parts[k].offset, e.parts[k].size, r))
    {
      PartStateHolders(e, readers, k, Verifying, e', r);
    }
    LedgerAdd(e, readers, e', readers, e.parts[k].offset, e.parts[k].size);
    PartStateOps(e, k, Verifying);
  }

  lemma DropCheck(e: Entry, readers: seq<Reader>, c: ChecksumClaim, st: PartState)
    requires WF(e) && Ledger(e, readers) && OpsLedger(e) && CheckLive(e, c) && Fits(e, c) && !Checking(st)
    ensures Ledger(EndCheck(e, c, st), readers) && OpsLedger(EndCheck(e, c, st))
  {
    var e' := EndCheck(e, c, st);
    forall r | 0 <= r < |e.pins|
      ensures Holders(e', readers, r) + Bit(Spans(e.blockPages, c.offset, c.size, r)) == Holders(e, readers, r)
    {
      PartStateHolders(e, readers, c.part, st, e', r);
    }
    LedgerDrop(e, readers, e', readers, c.offset, c.size);
    PartStateOps(e, c.part, st);
    CountPositive(CheckFlags(e.partStates), c.part);
  }

  // ---------------------------------------------------------------- what the ledger gives

  /** A held region has a positive count, so neither a new fetch nor an eviction may enter it. */
  lemma HeldRegion(e: Entry, readers: seq<Reader>, r: nat)
    requires WF(e) && Ledger(e, readers) && r < |e.pins| && e.pins[r] == 0
    ensures forall k | 0 <= k < |readers| :: !Spans(e.blockPages, readers[k].offset, readers[k].length, r)
    ensures forall k | 0 <= k < |e.parts| && Checking(e.partStates[k]) ::
              !Spans(e.blockPages, e.parts[k].offset, e.parts[k].size, r)
    ensures forall i | 0 <= i < |e.claims| && e.claims[i].verifying ::
              !Spans(e.blockPages, e.claims[i].offset, e.claims[i].length, r)
  {
    var b := e.blockPages;
    assert Holders(e, readers, r) == 0;
    forall k | 0 <= k < |readers| ensures !Spans(b, readers[k].offset, readers[k].length, r) {
      if ReaderFlags(readers, b, r)[k] { CountPositive(ReaderFlags(readers, b, r), k); }
    }
    forall k | 0 <= k < |e.parts| && Checking(e.partStates[k]) ensures !Spans(b, e.parts[k].offset, e.parts[k].size, r) {
      var flags := PartFlags(e.parts, e.partStates, b, r);
      if flags[k] { CountPositive(flags, k); }
    }
    forall i | 0 <= i < |e.claims| && e.claims[i].verifying ensures !Spans(b, e.claims[i].offset, e.claims[i].length, r) {
      if FetchFlags(e.claims, b, r)[i] { CountPositive(FetchFlags(e.claims, b, r), i); }
    }
  }

  ghost predicate NoReaderOn(readers: seq<Reader>, b: nat, r: nat)
    requires b > 0
  {
    forall k | 0 <= k < |readers| :: !Spans(b, readers[k].offset, readers[k].length, r)
  }

  lemma RegionReadersGone(e: Entry, readers: seq<Reader>, r: nat)
    requires WF(e) && Ledger(e, readers) && r < |e.pins|
    ensures e.pins[r] <= VerifierPins(e, r) <==> NoReaderOn(readers, e.blockPages, r)
  {
    var b := e.blockPages;
    var flags := ReaderFlags(readers, b, r);
    assert e.pins[r] == CountTrue(flags) + VerifierPins(e, r);
    if k :| 0 <= k < |readers| && Spans(b, readers[k].offset, readers[k].length, r) {
      assert flags[k];
      CountPositive(flags, k);
    } else {
      CountNone(flags);
    }
  }

  /** `retry_pins_ready_locked` says yes exactly when no reader holds any block of the range. */
  lemma RetryReadyMeansNoReader(e: Entry, readers: seq<Reader>, o: nat, l: nat)
    requires WF(e) && Ledger(e, readers) && Inside(e, o, l)
    ensures RetryPinsReady(e, o, l) <==>
            forall r | RegionLo(e, o) <= r < RegionHi(e, o, l) :: NoReaderOn(readers, e.blockPages, r)
  {
    RangeBounds(e, o, l);
    forall r | RegionLo(e, o) <= r < RegionHi(e, o, l)
      ensures e.pins[r] <= VerifierPins(e, r) <==> NoReaderOn(readers, e.blockPages, r)
    {
      RegionReadersGone(e, readers, r);
    }
  }

  /** The total the entry keeps is zero exactly when nobody holds anything. */
  lemma {:induction false} SumZero(s: seq<nat>)
    ensures Sum(s) == 0 <==> forall r | 0 <= r < |s| :: s[r] == 0
  {
    if s != [] {
      SumZero(s[1..]);
      assert forall r | 0 <= r < |s| - 1 :: s[1..][r] == s[r + 1];
      if Sum(s) == 0 {
        forall r | 0 <= r < |s| ensures s[r] == 0 {
          if r > 0 { assert s[1..][r - 1] == 0; }
        }
      }
    }
  }
}
