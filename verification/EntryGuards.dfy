/** Blocks that somebody relies on: readers, part verifiers and whole-fetch verifiers.

    `Guarded` says that no fetch tail and no eviction reaches such a block (a retry that
    still waits for readers excepted). The lemmas show that each kind of step keeps it.
 */
module EntryGuards {
  import opened Geometry
  import opened EntryModel
  import opened EntryOwnership
  import opened EntryWorld

  ghost predicate Guarded(n: nat, claims: seq<ActiveFetch>, ev: seq<Evicting>, b: nat,
                          parts: seq<ChecksumPart>, states: seq<PartState>,
                          readers: seq<Reader>, progress: map<nat, Progress>)
    requires b > 0 && |parts| == |states|
  {
    && PartsGuarded(n, claims, ev, b, parts, states)
    && FetchesGuarded(n, claims, ev, b)
    && ReadersGuarded(n, claims, ev, b, readers, progress)
  }

  /** Nobody holds the region. */
  ghost predicate Unheld(b: nat, parts: seq<ChecksumPart>, states: seq<PartState>,
                         readers: seq<Reader>, claims: seq<ActiveFetch>, r: nat)
    requires b > 0 && |parts| == |states|
  {
    && (forall k | 0 <= k < |readers| :: !Spans(b, readers[k].offset, readers[k].length, r))
    && (forall k | 0 <= k < |parts| && Checking(states[k]) :: !Spans(b, parts[k].offset, parts[k].size, r))
    && (forall i | 0 <= i < |claims| && claims[i].verifying :: !Spans(b, claims[i].offset, claims[i].length, r))
  }

  /** Every block that overlaps a non-empty byte range has a page inside the range. */
  lemma PageInRange(b: nat, o: nat, l: nat, p: nat) returns (q: nat)
    requires b > 0 && Covers(b, o, l, p)
    ensures FirstPage(o) <= q < EndPage(o, l) && Quot(q, b) == Quot(p, b)
  {
    if p < FirstPage(o) {
      q := FirstPage(o);
      QuotMonotone(p, q, b);
    } else if p >= EndPage(o, l) {
      q := EndPage(o, l) - 1;
      QuotMonotone(q, p, b);
    } else {
      q := p;
    }
  }

  lemma RangeCovers(b: nat, o: nat, l: nat, p: nat)
    requires b > 0 && l > 0 && FirstPage(o) <= p < EndPage(o, l)
    ensures Covers(b, o, l, p)
  {
    QuotMonotone(FirstPage(o), p, b);
    QuotMonotone(p, EndPage(o, l) - 1, b);
  }

  // ---------------------------------------------------------------- claims

  lemma GuardShrink(n: nat, claims: seq<ActiveFetch>, ev: seq<Evicting>, b: nat, parts: seq<ChecksumPart>,
                    states: seq<PartState>, readers: seq<Reader>, progress: map<nat, Progress>,
                    i: nat, a: ActiveFetch)
    requires b > 0 && |parts| == |states| && i < |claims|
    requires Guarded(n, claims, ev, b, parts, states, readers, progress)
    requires a.offset == claims[i].offset && a.length == claims[i].length && a.verifying == claims[i].verifying
    requires a.retrying == claims[i].retrying && a.id == claims[i].id
    requires forall p | 0 <= p < n && InTail(a, p) :: InTail(claims[i], p)
    ensures Guarded(n, claims[i := a], ev, b, parts, states, readers, progress)
  {
    var claims' := claims[i := a];
    assert forall p | 0 <= p < n && PageUnowned(claims, ev, b, p) :: PageUnowned(claims', ev, b, p);
    assert forall p | 0 <= p < n && PageStable(claims, ev, b, progress, p) :: PageStable(claims', ev, b, progress, p);
    forall j | 0 <= j < |claims'| && claims'[j].verifying ensures RangeReserved(n, claims', ev, b, j) {
      assert RangeReserved(n, claims, ev, b, j);
      assert forall p | 0 <= p < n && PageReserved(claims, ev, b, j, p) :: PageReserved(claims', ev, b, j, p);
    }
  }

  lemma GuardDrop(n: nat, claims: seq<ActiveFetch>, ev: seq<Evicting>, b: nat, parts: seq<ChecksumPart>,
                  states: seq<PartState>, readers: seq<Reader>, progress: map<nat, Progress>, i: nat)
    requires b > 0 && |parts| == |states| && i < |claims|
    requires Guarded(n, claims, ev, b, parts, states, readers, progress)
    ensures Guarded(n, Without(claims, i), ev, b, parts, states, readers, progress)
  {
    var claims' := Without(claims, i);
    assert forall j | 0 <= j < |claims'| :: claims'[j] == claims[if j < i then j else j + 1];
    assert forall p | 0 <= p < n && PageUnowned(claims, ev, b, p) :: PageUnowned(claims', ev, b, p);
    assert forall p | 0 <= p < n && PageStable(claims, ev, b, progress, p) :: PageStable(claims', ev, b, progress, p);
    forall j | 0 <= j < |claims'| && claims'[j].verifying ensures RangeReserved(n, claims', ev, b, j) {
      var j' := if j < i then j else j + 1;
      assert RangeReserved(n, claims, ev, b, j');
      assert forall p | 0 <= p < n && PageReserved(claims, ev, b, j', p) :: PageReserved(claims', ev, b, j, p);
    }
  }

  lemma GuardAddClaim(n: nat, claims: seq<ActiveFetch>, ev: seq<Evicting>, b: nat, parts: seq<ChecksumPart>,
                      states: seq<PartState>, readers: seq<Reader>, progress: map<nat, Progress>,
                      f: ActiveFetch, progress': map<nat, Progress>)
    requires b > 0 && |parts| == |states| && !f.verifying && !f.retrying
    requires Guarded(n, claims, ev, b, parts, states, readers, progress)
    requires forall p | 0 <= p < n && InTail(f, p) :: Unheld(b, parts, states, readers, claims, Quot(p, b))
    requires forall i | 0 <= i < |claims| && claims[i].length == 0 :: !claims[i].verifying
    requires forall i | 0 <= i < |claims| :: Unready(claims[i], progress) ==> Unready(claims[i], progress')
    ensures Guarded(n, claims + [f], ev, b, parts, states, readers, progress')
  {
    var claims' := claims + [f];
    forall k, p | 0 <= k < |parts| && Checking(states[k]) && 0 <= p < n && Covers(b, parts[k].offset, parts[k].size, p)
      ensures PageUnowned(claims', ev, b, p)
    {
      assert PageUnowned(claims, ev, b, p) && !InTail(f, p);
    }
    forall j | 0 <= j < |claims'| && claims'[j].verifying ensures RangeReserved(n, claims', ev, b, j) {
      assert RangeReserved(n, claims, ev, b, j);
      forall p | 0 <= p < n && InRange(claims[j], p) ensures PageReserved(claims', ev, b, j, p) {
        RangeCovers(b, claims[j].offset, claims[j].length, p);
        assert PageReserved(claims, ev, b, j, p) && !InTail(f, p);
      }
    }
    forall k, p | 0 <= k < |readers| && readers[k].clean && 0 <= p < n &&
                  Covers(b, readers[k].offset, readers[k].length, p)
      ensures PageStable(claims', ev, b, progress', p)
    {
      assert PageStable(claims, ev, b, progress, p) && !InTail(f, p);
    }
  }

  // ---------------------------------------------------------------- evictions

  lemma GuardFewerEvictions(n: nat, claims: seq<ActiveFetch>, ev: seq<Evicting>, b: nat, parts: seq<ChecksumPart>,
                            states: seq<PartState>, readers: seq<Reader>, progress: map<nat, Progress>,
                            ev': seq<Evicting>)
    requires b > 0 && |parts| == |states|
    requires Guarded(n, claims, ev, b, parts, states, readers, progress)
    requires forall k | 0 <= k < |ev'| :: exists j :: 0 <= j < |ev| && ev[j].block == ev'[k].block
    ensures Guarded(n, claims, ev', b, parts, states, readers, progress)
  {
    assert forall p: nat | NoEviction(ev, b, p) :: NoEviction(ev', b, p);
    assert forall p | 0 <= p < n && PageUnowned(claims, ev, b, p) :: PageUnowned(claims, ev', b, p);
    assert forall p | 0 <= p < n && PageStable(claims, ev, b, progress, p) :: PageStable(claims, ev', b, progress, p);
    forall j | 0 <= j < |claims| && claims[j].verifying ensures RangeReserved(n, claims, ev', b, j) {
      assert RangeReserved(n, claims, ev, b, j);
      assert forall p | 0 <= p < n && PageReserved(claims, ev, b, j, p) :: PageReserved(claims, ev', b, j, p);
    }
  }

  lemma GuardAddEviction(n: nat, claims: seq<ActiveFetch>, ev: seq<Evicting>, b: nat, parts: seq<ChecksumPart>,
                         states: seq<PartState>, readers: seq<Reader>, progress: map<nat, Progress>, v: Evicting)
    requires b > 0 && |parts| == |states|
    requires Guarded(n, claims, ev, b, parts, states, readers, progress)
    requires Unheld(b, parts, states, readers, claims, v.block)
    requires forall i | 0 <= i < |claims| && claims[i].length == 0 :: !claims[i].verifying
    ensures Guarded(n, claims, ev + [v], b, parts, states, readers, progress)
  {
    var ev' := ev + [v];
    assert forall p: nat | NoEviction(ev, b, p) && Quot(p, b) != v.block :: NoEviction(ev', b, p);
    forall k, p | 0 <= k < |parts| && Checking(states[k]) && 0 <= p < n && Covers(b, parts[k].offset, parts[k].size, p)
      ensures PageUnowned(claims, ev', b, p)
    {
      assert PageUnowned(claims, ev, b, p) && Quot(p, b) != v.block;
    }
    forall j | 0 <= j < |claims| && claims[j].verifying ensures RangeReserved(n, claims, ev', b, j) {
      assert RangeReserved(n, claims, ev, b, j);
      forall p | 0 <= p < n && InRange(claims[j], p) ensures PageReserved(claims, ev', b, j, p) {
        RangeCovers(b, claims[j].offset, claims[j].length, p);
        assert PageReserved(claims, ev, b, j, p) && Quot(p, b) != v.block;
      }
    }
    forall k, p | 0 <= k < |readers| && readers[k].clean && 0 <= p < n &&
                  Covers(b, readers[k].offset, readers[k].length, p)
      ensures PageStable(claims, ev', b, progress, p)
    {
      assert PageStable(claims, ev, b, progress, p) && Quot(p, b) != v.block;
    }
  }

  // ---------------------------------------------------------------- new guards

  /** A range of clean pages lies in blocks without owner. */
  lemma CleanRangeUnowned(e: Entry, ev: seq<Evicting>, o: nat, l: nat, p: nat)
    requires Own(e, ev) && p < |e.pages| && EndPage(o, l) <= |e.pages|
    requires AllState(e.pages, FirstPage(o), EndPage(o, l), Clean)
    requires Covers(e.blockPages, o, l, p)
    ensures PageUnowned(e.claims, ev, e.blockPages, p)
  {
    var q := PageInRange(e.blockPages, o, l, p);
    CleanUnowned(e.pages, e.claims, ev, e.blockPages, q);
    forall i | 0 <= i < |e.claims| ensures !InTail(e.claims[i], p) {
      TailWholeBlocks(e, e.claims[i], p, q);
    }
  }

  lemma GuardAddReader(n: nat, claims: seq<ActiveFetch>, ev: seq<Evicting>, b: nat,
                       readers: seq<Reader>, progress: map<nat, Progress>, x: Reader)
    requires b > 0 && ReadersGuarded(n, claims, ev, b, readers, progress)
    requires x.clean ==> forall p | 0 <= p < n && Covers(b, x.offset, x.length, p) :: PageUnowned(claims, ev, b, p)
    ensures ReadersGuarded(n, claims, ev, b, readers + [x], progress)
  {
    assert forall p | 0 <= p < n && PageUnowned(claims, ev, b, p) :: PageStable(claims, ev, b, progress, p);
  }

  lemma GuardAddPart(n: nat, claims: seq<ActiveFetch>, ev: seq<Evicting>, b: nat,
                     parts: seq<ChecksumPart>, states: seq<PartState>, k: nat, st: PartState)
    requires b > 0 && |parts| == |states| && k < |parts| && PartsGuarded(n, claims, ev, b, parts, states)
    requires Checking(st) ==>
               forall p | 0 <= p < n && Covers(b, parts[k].offset, parts[k].size, p) :: PageUnowned(claims, ev, b, p)
    ensures PartsGuarded(n, claims, ev, b, parts, states[k := st])
  {
  }

  /** Aligned claims whose bytes are apart share no page. */
  lemma ApartPages(e: Entry, a: ActiveFetch, c: ActiveFetch, p: nat)
    requires WF(e) && Aligned(e, a) && Aligned(e, c) && Apart(a, c)
    ensures !(InRange(a, p) && InRange(c, p))
  {
    MultipleScale(a.offset, e.blockPages);
    MultipleScale(c.offset, e.blockPages);
  }

  /** A fetch becomes verifying: its range is clean and no other claim overlaps it. */
  lemma GuardVerifyFetch(e: Entry, ev: seq<Evicting>, i: nat)
    requires Own(e, ev) && i < |e.claims| && FetchesGuarded(|e.pages|, e.claims, ev, e.blockPages)
    requires AllState(e.pages, FirstPage(e.claims[i].offset), Min(TailHi(e.claims[i]), |e.pages|), Clean)
    requires forall k | 0 <= k < |e.claims| && k != i :: Apart(e.claims[i], e.claims[k])
    ensures FetchesGuarded(|e.pages|, e.claims[i := e.claims[i].(verifying := true)], ev, e.blockPages)
  {
    var claims' := e.claims[i := e.claims[i].(verifying := true)];
    forall j | 0 <= j < |claims'| && claims'[j].verifying
      ensures RangeReserved(|e.pages|, claims', ev, e.blockPages, j)
    {
      if j == i {
        forall p | 0 <= p < |e.pages| && InRange(e.claims[i], p)
          ensures PageReserved(claims', ev, e.blockPages, i, p)
        {
          CleanUnowned(e.pages, e.claims, ev, e.blockPages, p);
        }
      } else {
        assert RangeReserved(|e.pages|, e.claims, ev, e.blockPages, j);
        assert forall p | 0 <= p < |e.pages| && PageReserved(e.claims, ev, e.blockPages, j, p) ::
            PageReserved(claims', ev, e.blockPages, j, p);
      }
    }
  }

  /** A verifying fetch turns into a retry: its whole range becomes its tail. */
  lemma GuardRetry(e: Entry, ev: seq<Evicting>, readers: seq<Reader>, progress: map<nat, Progress>,
                   i: nat, a: ActiveFetch, progress': map<nat, Progress>)
    requires WF(e) && i < |e.claims| && e.claims[i].verifying && e.parts == [] && e.partStates == []
    requires Guarded(|e.pages|, e.claims, ev, e.blockPages, e.parts, e.partStates, readers, progress)
    requires a == e.claims[i].(published := 0, retrying := true)
    requires forall j | 0 <= j < |e.claims| && j != i :: Unready(e.claims[j], progress) ==> Unready(e.claims[j], progress')
    requires Unready(a, progress') ||
             forall k, p | 0 <= k < |readers| && 0 <= p < |e.pages| && InTail(a, p) ::
               !Covers(e.blockPages, readers[k].offset, readers[k].length, p)
    ensures Guarded(|e.pages|, e.claims[i := a], ev, e.blockPages, e.parts, e.partStates, readers, progress')
  {
    var claims' := e.claims[i := a];
    assert Aligned(e, e.claims[i]);
    MultipleScale(a.offset, e.blockPages);
    forall j | 0 <= j < |claims'| && claims'[j].verifying
      ensures RangeReserved(|e.pages|, claims', ev, e.blockPages, j)
    {
      assert RangeReserved(|e.pages|, e.claims, ev, e.blockPages, j);
      forall p | 0 <= p < |e.pages| && InRange(claims'[j], p) ensures PageReserved(claims', ev, e.blockPages, j, p) {
        assert PageReserved(e.claims, ev, e.blockPages, j, p);
        if j != i { ApartPages(e, e.claims[i], e.claims[j], p); }
      }
    }
    forall k, p | 0 <= k < |readers| && readers[k].clean && 0 <= p < |e.pages| &&
                  Covers(e.blockPages, readers[k].offset, readers[k].length, p)
      ensures PageStable(claims', ev, e.blockPages, progress', p)
    {
      assert PageStable(e.claims, ev, e.blockPages, progress, p);
    }
  }
}
