/** The cache entry as the source has it: an object whose methods update a packed bitmap, pin
    counts, claims and flags in place, with the source's loops. Each method is proved equal to
    the operation of module EntryModel of the same name.
 */
module CacheEntryImpl {
  import opened Geometry
  import opened EntryModel
  import opened PageBitmap
  import EntryRuns
  import EntryLaws
  import EntryOwnership
  import EntrySafety
  import opened EntryWellFormed
  import opened EntryLedger

  /** Dividing bytes by the block size is dividing pages by the pages of a block. */
  lemma RegionOfByte(o: nat, b: nat)
    requires b > 0
    ensures o / (b * PAGE) == Quot(o / PAGE, b)
  {
    QuotScale(o, b);
    QuotIsDiv(o, b * PAGE);
  }

  /** Some page of `[lo, hi)` is in state `st`. */
  ghost predicate Occurs(s: seq<PageState>, lo: nat, hi: nat, st: PageState)
    requires hi <= |s|
  {
    exists p :: lo <= p < hi && s[p] == st
  }

  lemma OccursNowhere(s: seq<PageState>, lo: nat, st: PageState)
    requires lo <= |s|
    ensures !Occurs(s, lo, lo, st)
  {
  }

  lemma OccursNext(s: seq<PageState>, lo: nat, hi: nat, st: PageState)
    requires lo <= hi < |s|
    ensures Occurs(s, lo, hi + 1, st) <==> Occurs(s, lo, hi, st) || s[hi] == st
  {
    if Occurs(s, lo, hi, st) { var p :| lo <= p < hi && s[p] == st; }
    if s[hi] == st { assert lo <= hi < hi + 1 && s[hi] == st; }
  }

  ghost predicate IsTurn(s: seq<PageState>, lo: nat, hi: nat, from: PageState, to: PageState, r: seq<PageState>)
  {
    r == Turn(s, lo, hi, from, to)
  }

  lemma TurnBegins(s: seq<PageState>, lo: nat, from: PageState, to: PageState)
    ensures IsTurn(s, lo, lo, from, to, s)
  {
  }

  lemma TurnNext(s: seq<PageState>, lo: nat, hi: nat, from: PageState, to: PageState, r: seq<PageState>)
    requires lo <= hi < |s| && IsTurn(s, lo, hi, from, to, r)
    ensures |r| == |s| && r[hi] == s[hi]
    ensures IsTurn(s, lo, hi + 1, from, to, if s[hi] == from then r[hi := to] else r)
  {
  }

  lemma TurnDone(s: seq<PageState>, lo: nat, hi: nat, from: PageState, to: PageState, r: seq<PageState>)
    requires IsTurn(s, lo, hi, from, to, r)
    ensures r == Turn(s, lo, hi, from, to)
  {
  }

  class CacheEntry {
    const size: nat
    const blockPages: nat
    const epoch: nat
    const unlimited: bool
    const bitmap: Bitmap

    var referenced: seq<bool>
    var pins: seq<nat>
    var claims: seq<ActiveFetch>
    var parts: seq<ChecksumPart>
    var partStates: seq<PartState>
    var nextId: nat
    var hand: nat
    var checksumOps: nat
    var pinnedRegions: nat
    var manifest: Manifest
    var evictionDisabled: bool
    var detached: bool
    var stale: bool
    var dirty: bool
    var exported: bool

    ghost function Value(): Entry
      requires bitmap.Valid()
      reads this, bitmap.words
    {
      Entry(size, blockPages, epoch, bitmap.States(), referenced, pins, claims, parts, partStates, nextId, hand,
            checksumOps, pinnedRegions, manifest, evictionDisabled, detached, stale, dirty, exported, unlimited)
    }

    ghost predicate Valid()
      reads this, bitmap.words
    {
      bitmap.Valid() && WF(Value())
    }

    /** Opens a generation over a stored bitmap: pages that were pending when the process died are missing. */
    constructor (size: nat, blockPages: nat, epoch: nat, unlimited: bool, bitmap: Bitmap, exported: bool, dirty: bool)
      requires blockPages > 0 && bitmap.Valid() && bitmap.pages == (size + PAGE - 1) / PAGE
      modifies bitmap.words
      ensures this.bitmap == bitmap
      ensures Value() == EntryRuns.Opened(size, blockPages, epoch, old(bitmap.States()), unlimited, exported, dirty)
      ensures Valid()
    {
      this.size, this.blockPages, this.epoch, this.unlimited, this.bitmap := size, blockPages, epoch, unlimited, bitmap;
      var regions := Pieces((size + PAGE - 1) / PAGE, blockPages);
      referenced, pins := seq(regions, _ => false), seq(regions, _ => 0);
      claims, parts, partStates := [], [], [];
      nextId, hand, checksumOps, pinnedRegions, manifest := 1, 0, 0, 0, Unknown;
      evictionDisabled, detached, stale, this.dirty, this.exported := exported, false, false, dirty, exported;
      new;
      ghost var stored := bitmap.States();
      var changed := TurnPages(0, bitmap.pages, ReadPending, Missing);
      EntryRuns.OpenedWF(size, blockPages, epoch, stored, unlimited, exported, dirty);
    }

    // -------------------------------------------------------------- pages

    /** Pages of `[lo, hi)` in state `from` go to state `to`. */
    method TurnPages(lo: nat, hi: nat, from: PageState, to: PageState) returns (changed: bool)
      requires bitmap.Valid() && lo <= hi <= bitmap.pages
      modifies bitmap.words
      ensures bitmap.States() == Turn(old(bitmap.States()), lo, hi, from, to)
      ensures changed <==> Occurs(old(bitmap.States()), lo, hi, from)
    {
      hide *;
      changed := false;
      ghost var before := bitmap.States();
      var page := lo;
      TurnBegins(before, lo, from, to);
      OccursNowhere(before, lo, from);
      while page < hi
        invariant lo <= page <= hi
        invariant IsTurn(before, lo, page, from, to, bitmap.States())
        invariant changed <==> Occurs(before, lo, page, from)
      {
        var state := bitmap.Get(page);
        OccursNext(before, lo, page, from);
        TurnNext(before, lo, page, from, to, bitmap.States());
        if state == from {
          bitmap.Set(page, to);
          changed := true;
        }
        page := page + 1;
      }
      TurnDone(before, lo, hi, from, to, bitmap.States());
    }

    method FillPages(lo: nat, hi: nat, to: PageState)
      requires bitmap.Valid() && lo <= hi <= bitmap.pages
      modifies bitmap.words
      ensures bitmap.States() == Fill(old(bitmap.States()), lo, hi, to)
    {
      var page := lo;
      while page < hi
        invariant lo <= page <= hi
        invariant bitmap.States() == Fill(old(bitmap.States()), lo, page, to)
      {
        bitmap.Set(page, to);
        page := page + 1;
      }
    }

    // -------------------------------------------------------------- regions of a byte range

    method RegionAt(offset: nat) returns (region: nat)
      requires blockPages > 0
      ensures region == Quot(offset / PAGE, blockPages)
    {
      RegionOfByte(offset, blockPages);
      region := offset / (blockPages * PAGE);
    }

    /** First region of the range and one past its last. */
    method Regions(offset: nat, length: nat) returns (first: nat, last: nat)
      requires Valid() && Inside(Value(), offset, length)
      ensures first == RegionLo(Value(), offset) && last == RegionHi(Value(), offset, length)
      ensures first < last <= |pins| == |referenced|
    {
      var blockSize := blockPages * PAGE;
      RangeBounds(Value(), offset, length);
      RegionOfByte(offset, blockPages);
      RegionOfByte(offset + length - 1, blockPages);
      first := offset / blockSize;
      last := Min(|pins|, (offset + length - 1) / blockSize + 1);
    }

    method AnyPinFull(first: nat, last: nat) returns (full: bool)
      requires first <= last <= |pins|
      ensures full == PinsFull(pins, first, last)
    {
      var region := first;
      while region < last
        invariant first <= region <= last
        invariant forall k | first <= k < region :: pins[k] != PIN_MAX
      {
        if pins[region] == PIN_MAX {
          return true;
        }
        region := region + 1;
      }
      return false;
    }

    method IncrementPins(first: nat, last: nat)
      requires first <= last <= |pins|
      modifies this`pins, this`pinnedRegions
      ensures pins == AddPins(old(pins), first, last) && pinnedRegions == old(pinnedRegions) + (last - first)
    {
      var region := first;
      while region < last
        invariant first <= region <= last && |pins| == |old(pins)|
        invariant pins == AddPins(old(pins), first, region)
        invariant pinnedRegions == old(pinnedRegions)
      {
        pins := pins[region := pins[region] + 1];
        region := region + 1;
      }
      pinnedRegions := pinnedRegions + (last - first);
    }

    method DecrementPins(first: nat, last: nat) returns (released: bool)
      requires first <= last <= |pins| && pinnedRegions == Sum(pins)
      modifies this`pins, this`pinnedRegions
      ensures pins == DropPins(old(pins), first, last) && pinnedRegions == Sum(pins)
      ensures released <==> exists k :: first <= k < last && old(pins)[k] != 0
    {
      var region := first;
      released := false;
      while region < last
        invariant first <= region <= last && |pins| == |old(pins)|
        invariant pins == DropPins(old(pins), first, region)
        invariant pinnedRegions == Sum(pins)
        invariant released <==> exists k :: first <= k < region && old(pins)[k] != 0
      {
        if pins[region] != 0 {
          SumUpdate(pins, region, pins[region] - 1);
          pins := pins[region := pins[region] - 1];
          pinnedRegions := pinnedRegions - 1;
          released := true;
        }
        region := region + 1;
      }
    }

    // -------------------------------------------------------------- reader pins

    /** The first part that ends beyond `offset`. */
    method FirstPartAfter(offset: nat) returns (part: nat)
      ensures part <= |parts| && (part < |parts| ==> parts[part].offset + parts[part].size > offset)
      ensures forall k | 0 <= k < part :: parts[k].offset + parts[k].size <= offset
    {
      part := 0;
      while part < |parts| && parts[part].offset + parts[part].size <= offset
        invariant 0 <= part <= |parts|
        invariant forall k | 0 <= k < part :: parts[k].offset + parts[k].size <= offset
      {
        part := part + 1;
      }
    }

    /** `checksum_blocked_locked`: skip the parts before the range, then look at those that start inside it. */
    method ChecksumBlocks(offset: nat, length: nat) returns (r: PartBlock)
      requires Valid()
      ensures r == ChecksumBlocked(Value(), offset, length)
    {
      hide WF, SomePart, PartsTile;
      PartsShape(Value());
      if stale || offset >= size || length == 0 {
        return NotBlocked;
      }
      var end := offset + Min(length, size - offset);
      var part := FirstPartAfter(offset);
      PartsAbove(parts, size, part, offset);
      SomePartNone(parts, partStates, part, offset, end);
      r := NotBlocked;
      while part < |parts| && parts[part].offset < end
        invariant 0 <= part <= |parts| && forall k | part <= k < |parts| :: parts[k].offset + parts[k].size > offset
        invariant !SomePart(parts, partStates, part, offset, end, PartBad)
        invariant r == if SomePart(parts, partStates, part, offset, end, Retrying) then RetryBlocks else NotBlocked
      {
        SomePartNext(parts, partStates, part, offset, end);
        if partStates[part] == PartBad {
          SomePartStays(parts, partStates, part + 1, offset, end, PartBad);
          return BadBlocks;
        }
        if partStates[part] == Retrying {
          r := RetryBlocks;
        }
        part := part + 1;
      }
      PartsAfter(parts, size, part, end);
      SomePartRest(parts, partStates, part, offset, end);
    }

    method PinClean(offset: nat, length: nat) returns (r: PinResult)
      requires Valid() && (length > 0 ==> Inside(Value(), offset, length))
      modifies this`pins, this`pinnedRegions, this`referenced
      ensures (Value(), r) == EntryModel.PinClean(old(Value()), offset, length)
      ensures Valid()
    {
      hide WF, ChecksumBlocked, AllState, PinsFull, Quot;
      PinCleanKeepsWF(Value(), offset, length);
      EntrySafety.EntryShape(Value());
      if stale { return Refused; }
      if length == 0 { return Admitted; }
      RangeBounds(Value(), offset, length);
      var clean := bitmap.RangeAll(offset, length, Clean);
      if !clean { return Refused; }
      var blocked := ChecksumBlocks(offset, length);
      if blocked != NotBlocked { return Refused; }
      var first, last := Regions(offset, length);
      var full := AnyPinFull(first, last);
      if full { return PinOverflow; }
      IncrementPins(first, last);
      MarkReferenced(first, last);
      return Admitted;
    }

    method MarkReferenced(first: nat, last: nat)
      requires first <= last <= |referenced|
      modifies this`referenced
      ensures referenced == SetBits(old(referenced), first, last)
    {
      var region := first;
      while region < last
        invariant first <= region <= last
        invariant referenced == SetBits(old(referenced), first, region)
      {
        referenced := referenced[region := true];
        region := region + 1;
      }
    }

    method Touch(offset: nat, length: nat)
      requires Valid() && (length > 0 ==> Inside(Value(), offset, length))
      modifies this`referenced
      ensures Value() == if length == 0 then old(Value()) else SetReferenced(old(Value()), offset, length)
      ensures Valid()
    {
      if length > 0 { TouchKeepsWF(Value(), offset, length); }
      if length == 0 { return; }
      var first, last := Regions(offset, length);
      MarkReferenced(first, last);
    }

    method Pin(offset: nat, length: nat) returns (r: PinResult)
      requires Valid() && (length > 0 ==> Inside(Value(), offset, length))
      modifies this`pins, this`pinnedRegions
      ensures (Value(), r) == EntryModel.Pin(old(Value()), offset, length)
      ensures Valid()
    {
      PinKeepsWF(Value(), offset, length);
      if stale { return PinStale; }
      if length == 0 { return Admitted; }
      var first, last := Regions(offset, length);
      var full := AnyPinFull(first, last);
      if full { return PinOverflow; }
      IncrementPins(first, last);
      return Admitted;
    }

    method Unpin(offset: nat, length: nat)
      requires Valid() && (length > 0 ==> Inside(Value(), offset, length))
      modifies this`pins, this`pinnedRegions
      ensures Value() == EntryModel.Unpin(old(Value()), offset, length)
      ensures Valid()
    {
      PinKeepsWF(Value(), offset, length);
      if length == 0 { return; }
      var first, last := Regions(offset, length);
      var released := DecrementPins(first, last);
    }

    // -------------------------------------------------------------- fetch claims

    /** First and one past the last page of a block. */
    method BlockPages(block: nat) returns (first: nat, last: nat)
      requires Valid() && block < |pins|
      ensures first == Times(block, blockPages) < last == Min(bitmap.pages, Times(block + 1, blockPages))
      ensures forall p | 0 <= p < bitmap.pages :: first <= p < last <==> Block(Value(), p) == block
    {
      BlockSpan(Value(), block, block + 1);
      TimesIsMul(block, blockPages);
      TimesIsMul(block + 1, blockPages);
      forall p | 0 <= p < bitmap.pages ensures Times(block, blockPages) <= p < Times(block + 1, blockPages) <==> Block(Value(), p) == block {
        QuotBelow(p, blockPages, block);
        QuotBelow(p, blockPages, block + 1);
      }
      first := block * blockPages;
      last := Min(bitmap.pages, (block + 1) * blockPages);
    }

    /** One block of the claim scan: may a fetch not enter it, and is it all clean? */
    method LookAtBlock(block: nat) returns (busy: bool, clean: bool)
      requires Valid() && block < |pins|
      ensures busy == BlockBusy(Value(), block)
      ensures !busy ==> clean == BlockClean(Value(), block)
    {
      var first, last := BlockPages(block);
      busy, clean := pins[block] != 0, true;
      var page := first;
      while page < last && !busy
        invariant first <= page <= last
        invariant busy ==> pins[block] != 0 || exists p :: first <= p < page && (bitmap.States()[p] == ReadPending || bitmap.States()[p] == Bad)
        invariant !busy ==> pins[block] == 0 && forall p | first <= p < page :: bitmap.States()[p] != ReadPending && bitmap.States()[p] != Bad
        invariant !busy ==> clean == forall p | first <= p < page :: bitmap.States()[p] == Clean
      {
        var state := bitmap.Get(page);
        busy := state == ReadPending || state == Bad;
        clean := clean && state == Clean;
        page := page + 1;
      }
    }

    /** Index of the active claim, or the number of claims. */
    method FindClaim(claim: FetchClaim) returns (i: nat)
      ensures i == Find(claims, claim)
    {
      i := 0;
      while i < |claims| && !Names(claims[i], claim)
        invariant 0 <= i <= |claims|
        invariant forall k | 0 <= k < i :: !Names(claims[k], claim)
      {
        i := i + 1;
      }
    }

    /** First page of `[first, last)` that is not clean. */
    method FirstNotClean(first: nat, last: nat) returns (page: nat)
      requires bitmap.Valid() && first <= last <= bitmap.pages
      ensures page == FirstNot(bitmap.States(), first, last, Clean)
    {
      page := first;
      while page < last
        invariant first <= page <= last
        invariant FirstNot(bitmap.States(), first, last, Clean) == FirstNot(bitmap.States(), page, last, Clean)
      {
        var state := bitmap.Get(page);
        if state != Clean {
          return;
        }
        page := page + 1;
      }
    }

    /** Where an expanding fetch from block `start` has to stop. */
    method ScanBlocks(start: nat, limit: nat) returns (stop: nat)
      requires Valid() && start < limit <= |pins|
      ensures stop == ScanStop(Value(), start, start, limit)
    {
      hide Aligned, PartsTile, Sum, BlockBusy, BlockClean;
      stop := start;
      while stop < limit
        invariant start <= stop <= limit
        invariant ScanStop(Value(), start, start, limit) == ScanStop(Value(), start, stop, limit)
      {
        var busy, clean := LookAtBlock(stop);
        if busy || (stop != start && clean) {
          return;
        }
        stop := stop + 1;
      }
    }

    /** Remembers the states of the pages and makes them pending. */
    method TakePages(first: nat, last: nat) returns (prior: seq<PageState>)
      requires bitmap.Valid() && first <= last <= bitmap.pages
      modifies bitmap.words
      ensures prior == old(bitmap.States())[first..last]
      ensures bitmap.States() == Fill(old(bitmap.States()), first, last, ReadPending)
    {
      prior := [];
      ghost var before := bitmap.States();
      var page := first;
      while page < last
        invariant first <= page <= last
        invariant prior == before[first..page]
        invariant bitmap.States() == Fill(before, first, page, ReadPending)
      {
        var state := bitmap.Get(page);
        prior := prior + [state];
        bitmap.Set(page, ReadPending);
        page := page + 1;
      }
    }

    method ClaimFetch(offset: nat, length: nat, expansion: nat) returns (r: ClaimResult)
      requires Valid()
      modifies this`claims, this`nextId, bitmap.words
      ensures (Value(), r) == EntryModel.ClaimFetch(old(Value()), offset, length, expansion)
      ensures Valid()
    {
      hide WF, Quot, ScanStop, FirstNot, ClaimBlocks, NewFetch, Times;
      ClaimFetchKeepsWF(Value(), offset, length, expansion);
      EntrySafety.EntryShape(Value());
      if stale { return ClaimStale; }
      if length == 0 || offset >= size || dirty || exported { return NoClaim; }
      var len := Min(length, size - offset);
      RangeBounds(Value(), offset, len);
      var first, last := offset / PAGE, (offset + len - 1) / PAGE + 1;
      assert last == EndPage(offset, len);
      var missing := FirstNotClean(first, last);
      if missing == last { return NoClaim; }
      var state := bitmap.Get(missing);
      if state != Missing { return NoClaim; }
      var blockSize := blockPages * PAGE;
      var start := missing / blockPages;
      QuotIsDiv(missing, blockPages);
      var extent := Max(expansion, blockSize);
      PiecesIsDiv(offset + len, blockSize);
      PiecesIsDiv(extent, blockSize);
      var limit := Min(|pins|, Max((offset + len + blockSize - 1) / blockSize, start + (extent + blockSize - 1) / blockSize));
      assert limit == ScanLimit(Value(), offset + len, start, expansion);
      EntryLaws.LimitAhead(Value(), missing, offset + len, expansion);
      var stop := ScanBlocks(start, limit);
      if stop <= start { return NoClaim; }
      r := ClaimRange(start, stop);
    }

    /** The claim of blocks `[start, stop)`. */
    method ClaimRange(start: nat, stop: nat) returns (r: ClaimResult)
      requires Valid() && start < stop <= |pins|
      modifies this`claims, this`nextId, bitmap.words
      ensures Value() == ClaimBlocks(old(Value()), start, stop)
      ensures var f := NewFetch(old(Value()), start, stop);
              r == Claimed(FetchClaim(f.offset, f.epoch, f.id, f.length))
      ensures Valid()
    {
      EntryOwnership.ClaimBlocksPages(Value(), start, stop);
      hide Aligned, PartsTile, Sum, Quot;
      ghost var e := Value();
      BlockSpan(e, start, stop);
      TimesIsMul(start, blockPages);
      TimesIsMul(stop, blockPages);
      var first, last := start * blockPages, Min(bitmap.pages, stop * blockPages);
      var offset := first * PAGE;
      var end := Min(size, stop * blockPages * PAGE);
      var prior := TakePages(first, last);
      assert bitmap.States() == Fill(e.pages, first, stop * blockPages, ReadPending);
      claims := claims + [ActiveFetch(nextId, epoch, offset, end - offset, 0, false, false, prior)];
      r := Claimed(FetchClaim(offset, epoch, nextId, end - offset));
      nextId := nextId + 1;
    }

    // -------------------------------------------------------------- progress and end of a fetch

    /** `publish_clean`: block by block, as far as the data reaches. */
    method PublishClean(claim: FetchClaim, published: nat, length: nat, final: bool)
      requires Valid()
      modifies this`claims, bitmap.words
      ensures Value() == EntryModel.PublishClean(old(Value()), claim, published, length, final)
      ensures Valid()
    {
      PublishKeepsWF(Value(), claim, published, length, final);
      var i := FindClaim(claim);
      if stale || i == |claims| || length < published || (length == published && !final) {
        return;
      }
      var reached := PublishBlocks(i, length, final);
      claims := claims[i := claims[i].(published := reached)];
    }

    /** One block of the tail of claim `a`: its pending pages go to state `to`. `e` is the entry before the loop. */
    method TurnOneBlock(ghost e: Entry, a: ActiveFetch, reached: nat, end: nat, to: PageState) returns (changed: bool)
      requires bitmap.Valid() && WF(e) && Aligned(e, a) && |e.pages| == bitmap.pages && to != ReadPending
      requires a.published <= reached < a.length && Multiple(reached, BlockSize(e))
      requires end == Min(e.size - a.offset, reached + BlockSize(e))
      requires bitmap.States() == Turn(e.pages, TailLo(a), TailLo(a.(published := reached)), ReadPending, to)
      modifies bitmap.words
      ensures bitmap.States() == Turn(e.pages, TailLo(a), TailLo(a.(published := end)), ReadPending, to)
      ensures changed <==> PendingAt(e, TailLo(a.(published := reached)), TailLo(a.(published := end)))
    {
      PublishBlock(e, a, reached, end);
      TailGrows(a, reached);
      var first, last := (a.offset + reached) / PAGE, (a.offset + end - 1) / PAGE + 1;
      hide WF, Aligned, Multiple, Quot, RoundDown, TailLo;
      TurnBeyond(e.pages, TailLo(a), first, last, ReadPending, to);
      TurnTwice(e.pages, TailLo(a), first, last, ReadPending, to);
      changed := TurnPages(first, last, ReadPending, to);
    }

    /** The loop of `publish_clean`: the new published length of claim `i`. */
    method PublishBlocks(i: nat, length: nat, final: bool) returns (reached: nat)
      requires Valid() && i < |claims|
      modifies bitmap.words
      ensures reached == Max(claims[i].published, PublishTarget(old(Value()), claims[i], length, final))
      ensures bitmap.States() ==
              Turn(old(bitmap.States()), TailLo(claims[i]), TailLo(claims[i].(published := reached)), ReadPending, Clean)
    {
      ghost var e := Value();
      var a := claims[i];
      assert Aligned(e, a);
      var blockSize := blockPages * PAGE;
      var progress := Min(length, a.length);
      reached := a.published;
      assert blockPages > 0 && a.offset + a.length <= size && a.published <= a.length;
      hide WF, Aligned, Quot, RoundDown, Multiple, TailLo, Turn, PublishTarget, PendingAt;
      TurnNothing(e.pages, TailLo(a), ReadPending, Clean);
      while reached < a.length
        invariant a.published <= reached <= a.length
        invariant Multiple(reached, blockSize) || reached == a.length
        invariant reached == a.published || reached <= progress
        invariant reached == a.length && reached != a.published ==> final || Multiple(a.offset + a.length, blockSize)
        invariant bitmap.States() == Turn(e.pages, TailLo(a), TailLo(a.(published := reached)), ReadPending, Clean)
        decreases a.length - reached
      {
        var end := Min(size - a.offset, reached + blockSize);
        PublishBlock(e, a, reached, end);
        if progress < end {
          PublishStops(e, a, reached, end, length, final);
          return;
        }
        RoundDownIsDiv(a.offset + end, blockSize);
        if a.offset + end == size && (a.offset + end) % blockSize != 0 && !final {
          PublishStops(e, a, reached, end, length, final);
          return;
        }
        var changed := TurnOneBlock(e, a, reached, end, Clean);
        reached := end;
      }
      PublishEnds(e, a, length, final);
    }

    /** `end_fetch_locked` on the claim at index `i`. */
    method EndFetch(i: nat)
      requires Valid() && i < |claims|
      modifies this`claims, this`pins, this`pinnedRegions
      ensures old(claims)[i].length > 0 && Value() == EntryModel.EndFetch(old(Value()), i)
      ensures Valid()
    {
      EntryOwnership.EndFetchWF(Value(), i);
      var a := claims[i];
      assert Aligned(Value(), a);
      if a.verifying {
        var first, last := Regions(a.offset, a.length);
        var released := DecrementPins(first, last);
      }
      claims := Without(claims, i);
    }

    /** Makes the tail of claim `i` missing, and reports the blocks in which something was pending. */
    method ClearTail(i: nat) returns (holes: set<nat>)
      requires Valid() && i < |claims|
      modifies bitmap.words
      ensures bitmap.States() == Turn(old(bitmap.States()), TailLo(claims[i]), TailHi(claims[i]), ReadPending, Missing)
      ensures forall b :: b in holes <==> Unfinished(old(Value()), claims[i], b)
      ensures Valid()
    {
      ghost var e := Value();
      var a := claims[i];
      EntrySafety.ClaimShape(e, i);
      assert Aligned(e, a);
      var reached := a.published;
      holes := {};
      hide WF, Aligned, Quot, RoundDown, Multiple, TailLo, TailHi, Turn, Block, PendingIn, PendingAt, Unfinished;
      TurnNothing(e.pages, TailLo(a), ReadPending, Missing);
      PendingNone(e, a);
      PublishedAligned(e, a);
      while reached < a.length
        invariant a.published <= reached <= a.length
        invariant Multiple(reached, blockPages * PAGE) || reached == a.length
        invariant bitmap.States() == Turn(e.pages, TailLo(a), TailLo(a.(published := reached)), ReadPending, Missing)
        invariant forall b :: b in holes <==> PendingIn(e, TailLo(a), TailLo(a.(published := reached)), b)
        decreases a.length - reached
      {
        var block, incomplete, end := ClearBlock(e, a, reached);
        if incomplete {
          holes := holes + {block};
        }
        reached := end;
      }
      TailEnds(a);
      forall b ensures PendingIn(e, TailLo(a), TailHi(a), b) <==> Unfinished(e, a, b) { UnfinishedIsPending(e, a, b); }
      KeepsShape(e, bitmap.States());
    }

    /** One block of `ClearTail`. */
    method ClearBlock(ghost e: Entry, a: ActiveFetch, reached: nat) returns (block: nat, incomplete: bool, end: nat)
      requires bitmap.Valid() && WF(e) && Aligned(e, a) && |e.pages| == bitmap.pages && e.size == size && e.blockPages == blockPages
      requires a.published <= reached < a.length && Multiple(reached, BlockSize(e))
      requires bitmap.States() == Turn(e.pages, TailLo(a), TailLo(a.(published := reached)), ReadPending, Missing)
      modifies bitmap.words
      ensures reached < end <= a.length && (Multiple(end, BlockSize(e)) || end == a.length)
      ensures bitmap.States() == Turn(e.pages, TailLo(a), TailLo(a.(published := end)), ReadPending, Missing)
      ensures forall b :: PendingIn(e, TailLo(a), TailLo(a.(published := end)), b) <==>
                PendingIn(e, TailLo(a), TailLo(a.(published := reached)), b) || (b == block && incomplete)
    {
      var blockSize := blockPages * PAGE;
      assert a.offset + a.length <= size && blockSize == BlockSize(e);
      hide WF, Aligned, Quot, RoundDown, Multiple, TailLo, Turn, Block, PendingIn, PendingAt, BlockSize;
      end := Min(size - a.offset, reached + blockSize);
      TailGrows(a, reached);
      block := RegionAt(a.offset + reached);
      PendingMore(e, a, TailLo(a), reached, end, block);
      incomplete := TurnOneBlock(e, a, reached, end, Missing);
    }

    method FinishFetch(claim: FetchClaim) returns (holes: set<nat>)
      requires Valid()
      modifies this`claims, this`pins, this`pinnedRegions, bitmap.words
      ensures Value() == EntryModel.FinishFetch(old(Value()), claim)
      ensures var i := Find(old(claims), claim);
              forall b :: b in holes <==> i < |old(claims)| && Unfinished(old(Value()), old(claims)[i], b)
      ensures Valid()
    {
      hide WF, EntryModel.EndFetch, Unfinished, Turn;
      FinishKeepsWF(Value(), claim);
      var i := FindClaim(claim);
      if i == |claims| {
        return {};
      }
      ghost var e := Value();
      holes := ClearTail(i);
      EndFetch(i);
    }

    method RollbackFetch(claim: FetchClaim)
      requires Valid()
      modifies this`claims, this`pins, this`pinnedRegions, bitmap.words
      ensures Value() == EntryModel.RollbackFetch(old(Value()), claim)
      ensures Valid()
    {
      hide WF, EntryModel.EndFetch, Restore;
      FinishKeepsWF(Value(), claim);
      var i := FindClaim(claim);
      if i == |claims| {
        return;
      }
      ghost var e := Value();
      RestoreTail(i);
      EndFetch(i);
    }

    method RestoreTail(i: nat)
      requires Valid() && i < |claims|
      modifies bitmap.words
      ensures Aligned(old(Value()), claims[i]) && bitmap.States() == Restore(old(Value()), claims[i])
      ensures Valid()
    {
      ghost var e := Value();
      var a := claims[i];
      assert Aligned(e, a);
      MultipleScale(a.offset, blockPages);
      hide WF, Multiple, Quot;
      var first := a.offset / PAGE;
      var index := (a.published + PAGE - 1) / PAGE;
      assert first + index == TailLo(a);
      while index < |a.priorStates|
        invariant TailLo(a) <= first + index && first + |a.priorStates| == TailHi(a) <= bitmap.pages
        invariant forall p | 0 <= p < bitmap.pages :: bitmap.States()[p] ==
                    if TailLo(a) <= p < first + index && p < TailHi(a) then a.priorStates[p - first] else e.pages[p]
      {
        bitmap.Set(first + index, a.priorStates[index]);
        index := index + 1;
      }
      KeepsShape(e, bitmap.States());
    }

    method MarkBad(claim: FetchClaim)
      requires Valid()
      modifies bitmap.words
      ensures Value() == EntryModel.MarkBad(old(Value()), claim)
      ensures Valid()
    {
      hide WF, Fill;
      FinishKeepsWF(Value(), claim);
      var i := FindClaim(claim);
      if stale || i == |claims| {
        return;
      }
      var a := claims[i];
      TailPages(Value(), i);
      var first := a.offset / PAGE + if a.verifying then 0 else (a.published + PAGE - 1) / PAGE;
      var last := Min(bitmap.pages, (a.offset + a.length - 1) / PAGE + 1);
      hide TailLo, TailHi;
      if first < last {
        FillPages(first, last, Bad);
      } else {
        FillNothing(bitmap.States(), first, last, Bad);
      }
    }

    // -------------------------------------------------------------- verification and retry of a fetch

    /** Does any other claim overlap claim `i`? */
    method OthersOverlap(i: nat) returns (overlap: bool)
      requires i < |claims|
      ensures overlap == OthersMeet(claims, i)
    {
      var a := claims[i];
      var k := 0;
      while k < |claims|
        invariant 0 <= k <= |claims|
        invariant forall j | 0 <= j < k :: !(j != i && claims[j].offset < a.offset + a.length && claims[j].offset + claims[j].length > a.offset)
      {
        if k != i && claims[k].offset < a.offset + a.length && claims[k].offset + claims[k].length > a.offset {
          return true;
        }
        k := k + 1;
      }
      return false;
    }

    method PinFetchVerification(claim: FetchClaim) returns (r: VerifyResult)
      requires Valid()
      modifies this`claims, this`pins, this`pinnedRegions
      ensures (Value(), r) == EntryModel.PinFetchVerification(old(Value()), claim)
      ensures Valid()
    {
      VerificationKeepsWF(Value(), claim);
      var i := FindClaim(claim);
      if stale || i == |claims| { return VerifyRefused; }
      var a := claims[i];
      if a.verifying { return VerifyPinned; }
      EntrySafety.ClaimShape(Value(), i);
      hide Aligned, PartsTile, Sum, AllState, PinsFull, Quot, OthersMeet;
      RangeBounds(Value(), a.offset, a.length);
      if a.published != a.length || checksumOps != 0 || manifest == Available { return VerifyRefused; }
      var clean := bitmap.RangeAll(a.offset, a.length, Clean);
      if !clean { return VerifyRefused; }
      var overlap := OthersOverlap(i);
      if overlap { return VerifyRefused; }
      r := PinVerifier(i);
    }

    /** Pins the regions of claim `i` for its verification. */
    method PinVerifier(i: nat) returns (r: VerifyResult)
      requires Valid() && i < |claims| && Inside(Value(), claims[i].offset, claims[i].length)
      modifies this`claims, this`pins, this`pinnedRegions
      ensures var e, a := old(Value()), old(claims)[i];
              && RegionHi(e, a.offset, a.length) <= |e.pins|
              && (Value(), r) == if PinsFull(e.pins, RegionLo(e, a.offset), RegionHi(e, a.offset, a.length)) then (e, VerifyOverflow)
                                 else (AddRegionPins(e, a.offset, a.length).(claims := e.claims[i := a.(verifying := true)]), VerifyPinned)
      ensures Valid()
    {
      EntrySafety.VerifyWF(Value(), i, AddRegionPins(Value(), claims[i].offset, claims[i].length).(claims := claims[i := claims[i].(verifying := true)]));
      hide Aligned, PartsTile, Sum, PinsFull, Quot;
      var a := claims[i];
      var first, last := Regions(a.offset, a.length);
      var full := AnyPinFull(first, last);
      if full { return VerifyOverflow; }
      IncrementPins(first, last);
      claims := claims[i := a.(verifying := true)];
      return VerifyPinned;
    }

    /** First byte of a region and one past its last. */
    method RegionBytes(region: nat) returns (begin: nat, end: nat)
      requires blockPages > 0
      ensures begin == Times(region, blockPages * PAGE) && end == Min(size, begin + blockPages * PAGE)
    {
      TimesIsMul(region, blockPages * PAGE);
      begin := region * (blockPages * PAGE);
      end := Min(size, begin + blockPages * PAGE);
    }

    /** Verifying parts that overlap a region, counted by their bytes. */
    method CountParts(region: nat) returns (n: nat)
      requires Valid() && region < |pins|
      ensures n == CountTrue(PartFlags(parts, partStates, blockPages, region))
    {
      ghost var e := Value();
      var begin, end := RegionBytes(region);
      n := 0;
      var i := 0;
      ghost var flags := PartFlags(parts, partStates, blockPages, region);
      hide Times, Quot, Spans, CountTrue, Aligned, Sum;
      CountEmpty(flags);
      while i < |parts|
        invariant 0 <= i <= |parts| && n == CountTrue(flags[..i])
      {
        SpansBytes(e, parts[i].offset, parts[i].size, region);
        CountNext(flags, i);
        if (partStates[i] == Verifying || partStates[i] == Retrying) && parts[i].offset < end &&
           parts[i].offset + parts[i].size > begin {
          n := n + 1;
        }
        i := i + 1;
      }
      assert flags[..i] == flags;
    }

    method CountFetches(region: nat) returns (n: nat)
      requires Valid() && region < |pins|
      ensures n == CountTrue(FetchFlags(claims, blockPages, region))
    {
      ghost var e := Value();
      var begin, end := RegionBytes(region);
      n := 0;
      var k := 0;
      ghost var flags := FetchFlags(claims, blockPages, region);
      hide Times, Quot, Spans, CountTrue, Aligned, PartsTile, Sum;
      CountEmpty(flags);
      while k < |claims|
        invariant 0 <= k <= |claims| && n == CountTrue(flags[..k])
      {
        EntrySafety.ClaimShape(e, k);
        SpansBytes(e, claims[k].offset, claims[k].length, region);
        CountNext(flags, k);
        if claims[k].verifying && claims[k].offset < end && claims[k].offset + claims[k].length > begin {
          n := n + 1;
        }
        k := k + 1;
      }
      assert flags[..k] == flags;
    }

    method CountVerifiers(region: nat) returns (n: nat)
      requires Valid() && region < |pins|
      ensures n == VerifierPins(Value(), region)
    {
      hide Aligned, PartsTile, Sum, CountTrue, PartFlags, FetchFlags;
      var checks := CountParts(region);
      var fetches := CountFetches(region);
      n := checks + fetches;
    }

    /** `retry_pins_ready_locked`. */
    method PinsReady(offset: nat, length: nat) returns (ready: bool)
      requires Valid() && Inside(Value(), offset, length)
      ensures ready == RetryPinsReady(Value(), offset, length)
    {
      hide Aligned, PartsTile, Sum, VerifierPins;
      var first, last := Regions(offset, length);
      var region := first;
      while region < last
        invariant first <= region <= last
        invariant forall r | first <= r < region :: pins[r] <= VerifierPins(Value(), r)
      {
        var verifiers := CountVerifiers(region);
        if pins[region] > verifiers {
          return false;
        }
        region := region + 1;
      }
      return true;
    }

    method BeginRetry(claim: FetchClaim) returns (r: RetryResult)
      requires Valid()
      modifies this`claims, bitmap.words
      ensures (Value(), r) == EntryModel.BeginRetry(old(Value()), claim)
      ensures Valid()
    {
      hide WF, RetryPinsReady, Quot, Fill;
      RetryKeepsWF(Value(), claim);
      var i := FindClaim(claim);
      if stale || i == |claims| { return RetryStale; }
      if !claims[i].verifying { return RetryWithoutPin; }
      ghost var e := Value();
      RetryKeepsShape(e, i);
      var a := claims[i];
      if !a.retrying {
        StartRetry(i);
      }
      var ready := PinsReady(a.offset, a.length);
      return if ready then RetryReady else RetryWaits;
    }

    /** The whole range of claim `i` becomes its tail again. */
    method StartRetry(i: nat)
      requires Valid() && i < |claims|
      modifies this`claims, bitmap.words
      ensures var e, a := old(Value()), old(claims)[i];
              Value() == e.(pages := Fill(e.pages, FirstPage(a.offset), TailHi(a), ReadPending),
                            claims := e.claims[i := a.(published := 0, retrying := true)])
      ensures Valid()
    {
      RetryKeepsShape(Value(), i);
      var a := claims[i];
      EntrySafety.ClaimShape(Value(), i);
      RangeBounds(Value(), a.offset, a.length);
      hide WF, Quot;
      var first, last := a.offset / PAGE, Min(bitmap.pages, (a.offset + a.length - 1) / PAGE + 1);
      assert last == TailHi(a);
      FillPages(first, last, ReadPending);
      claims := claims[i := a.(published := 0, retrying := true)];
    }

    // -------------------------------------------------------------- checksum manifest and parts

    method BeginManifest() returns (r: ManifestResult)
      requires Valid()
      modifies this`manifest, this`checksumOps
      ensures (Value(), r) == EntryModel.BeginManifest(old(Value()))
      ensures Valid()
    {
      hide WF;
      BeginManifestKeepsWF(Value());
      if stale { return ManifestStale; }
      if manifest == Loading { return ManifestNotNeeded; }
      if exported {
        if manifest == Unknown { manifest := Unavailable; }
        return ManifestNotNeeded;
      }
      if manifest != Unknown { return ManifestNotNeeded; }
      var k := 0;
      while k < |claims|
        invariant 0 <= k <= |claims|
        invariant forall j | 0 <= j < k :: !claims[j].verifying
      {
        if claims[k].verifying { return ManifestNotNeeded; }
        k := k + 1;
      }
      manifest := Loading;
      checksumOps := checksumOps + 1;
      return ManifestLoads;
    }

    /** The running check of `finish_checksum_manifest`: contiguous from zero, nothing empty, exactly to the end. */
    method ManifestFits(given: seq<ChecksumPart>) returns (valid: bool)
      requires bitmap.Valid()
      ensures valid == ManifestValid(Value(), given)
    {
      if stale || given == [] {
        return false;
      }
      var offset, k := 0, 0;
      while k < |given|
        invariant 0 <= k <= |given| && offset <= size
        invariant offset == if k == 0 then 0 else given[k - 1].offset + given[k - 1].size
        invariant forall j | 0 <= j < k :: given[j].size > 0 && given[j].offset + given[j].size <= size && given[j].value != ""
        invariant forall j | 0 <= j < k - 1 :: given[j].offset + given[j].size == given[j + 1].offset
        invariant k > 0 ==> given[0].offset == 0
      {
        var part := given[k];
        if part.offset != offset || part.size == 0 || part.size > size - offset || part.value == "" {
          return false;
        }
        offset := offset + part.size;
        k := k + 1;
      }
      return offset == size;
    }

    method FinishManifest(given: seq<ChecksumPart>)
      requires Valid()
      modifies this`parts, this`partStates, this`manifest, this`checksumOps
      ensures Value() == EntryModel.FinishManifest(old(Value()), given)
      ensures Valid()
    {
      hide WF;
      FinishManifestKeepsWF(Value(), given);
      var valid := ManifestFits(given);
      hide ManifestValid;
      if valid {
        parts, partStates, manifest := given, seq(|given|, _ => Unverified), Available;
      } else {
        parts, partStates, manifest := [], [], Unavailable;
      }
      if checksumOps != 0 {
        checksumOps := checksumOps - 1;
      }
    }

    method ClaimChecksum(offset: nat, length: nat, skip: bool) returns (r: ChecksumResult)
      requires Valid()
      modifies this`pins, this`pinnedRegions, this`partStates, this`checksumOps
      ensures (Value(), r) == EntryModel.ClaimChecksum(old(Value()), offset, length, skip)
      ensures Valid()
    {
      CheckKeepsWF(Value(), offset, length, skip);
      hide Aligned, PartsTile, Sum, ClaimPartFrom, VerifyPart;
      if stale { return ChecksumStale; }
      if manifest != Available || length == 0 || exported || offset >= size { return ChecksumNone; }
      r := ClaimPart(offset, offset + Min(length, size - offset), skip);
    }

    /** The loop of `claim_checksum` over the parts. */
    method ClaimPart(lo: nat, hi: nat, skip: bool) returns (r: ChecksumResult)
      requires Valid()
      modifies this`pins, this`pinnedRegions, this`partStates, this`checksumOps
      ensures (Value(), r) == ClaimPartFrom(old(Value()), 0, lo, hi, skip)
      ensures Valid()
    {
      ghost var e := Value();
      var k := 0;
      ClaimPartKeepsWF(e, lo, hi, skip);
      hide WF, PinsFull, AllState, Quot, ClaimPartFrom, VerifyPart;
      while k < |parts|
        invariant 0 <= k <= |parts| && Value() == e
        invariant ClaimPartFrom(e, 0, lo, hi, skip) == ClaimPartFrom(e, k, lo, hi, skip)
      {
        var part, state := parts[k], partStates[k];
        ClaimPartUnfold(e, k, lo, hi, skip);
        if !PartOverlaps(part, lo, hi) { k := k + 1; continue; }
        if state == PartBad { return ChecksumIsBad; }
        if state == Verifying || state == Retrying {
          if skip { k := k + 1; continue; }
          return ChecksumWait;
        }
        if state != Unverified { k := k + 1; continue; }
        var clean := bitmap.RangeAll(part.offset, part.size, Clean);
        if !clean { k := k + 1; continue; }
        var first, last := Regions(part.offset, part.size);
        var full := AnyPinFull(first, last);
        if full { return ChecksumOverflow; }
        r := ChecksumVerify(ChecksumClaim(k, epoch, part.offset, part.size));
        TakePart(k, first, last);
        return;
      }
      ClaimPartEnd(e, lo, hi, skip);
      return ChecksumNone;
    }

    method TakePart(k: nat, first: nat, last: nat)
      requires Valid() && k < |parts| && first <= last <= |pins|
      requires first == RegionLo(Value(), parts[k].offset)
      requires parts[k].size > 0 && last == RegionHi(Value(), parts[k].offset, parts[k].size)
      modifies this`pins, this`pinnedRegions, this`partStates, this`checksumOps
      ensures Value() == VerifyPart(old(Value()), k)
      ensures Valid()
    {
      EntrySafety.VerifyPartShape(Value(), k);
      VerifyPartFields(Value(), k);
      hide Aligned, PartsTile, Sum, VerifyPart, Quot;
      IncrementPins(first, last);
      partStates := partStates[k := Verifying];
      checksumOps := checksumOps + 1;
    }

    method ChecksumMismatch(claim: ChecksumClaim)
      requires Valid()
      modifies this`partStates
      ensures Value() == EntryModel.ChecksumMismatch(old(Value()), claim)
      ensures Valid()
    {
      RetryCheckKeepsWF(Value(), claim);
      if !stale && claim.epoch == epoch && claim.part < |partStates| && partStates[claim.part] == Verifying {
        partStates := partStates[claim.part := Retrying];
      }
    }

    method BeginChecksumRetry(claim: ChecksumClaim) returns (r: RetryResult)
      requires Valid() && (CheckLive(Value(), claim) ==> Inside(Value(), claim.offset, claim.size))
      modifies this`partStates
      ensures (Value(), r) == EntryModel.BeginChecksumRetry(old(Value()), claim)
      ensures Valid()
    {
      hide WF, RetryPinsReady;
      RetryCheckKeepsWF(Value(), claim);
      EntrySafety.EntryShape(Value());
      if stale || claim.epoch != epoch || claim.part >= |partStates| ||
         (partStates[claim.part] != Verifying && partStates[claim.part] != Retrying) {
        return RetryStale;
      }
      ghost var e := Value();
      if partStates[claim.part] == Verifying {
        partStates := partStates[claim.part := Retrying];
      }
      assert partStates == old(partStates)[claim.part := Retrying];
      EntrySafety.RetryStateWF(e, claim.part, Value());
      var ready := PinsReady(claim.offset, claim.size);
      return if ready then RetryReady else RetryWaits;
    }

    method EndCheck(claim: ChecksumClaim, state: PartState)
      requires Valid() && claim.part < |partStates| && Inside(Value(), claim.offset, claim.size)
      modifies this`pins, this`pinnedRegions, this`partStates, this`checksumOps
      ensures Value() == EntryModel.EndCheck(old(Value()), claim, state)
      ensures Valid()
    {
      hide WF, Sum, Quot;
      PinTotal(Value());
      EndedCheckWF(Value(), claim, state);
      var first, last := Regions(claim.offset, claim.size);
      partStates := partStates[claim.part := state];
      var released := DecrementPins(first, last);
      if checksumOps != 0 {
        checksumOps := checksumOps - 1;
      }
    }

    method FinishChecksum(claim: ChecksumClaim, valid: bool)
      requires Valid() && (CheckLive(Value(), claim) ==> Inside(Value(), claim.offset, claim.size))
      modifies this`pins, this`pinnedRegions, this`partStates, this`checksumOps
      ensures Value() == EntryModel.FinishChecksum(old(Value()), claim, valid)
      ensures Valid()
    {
      FinishCheckKeepsWF(Value(), claim, valid);
      hide WF, EntryModel.EndCheck;
      if claim.part >= |partStates| || claim.epoch != epoch { return; }
      var state := partStates[claim.part];
      if state != Verifying && state != Retrying { return; }
      EndCheck(claim, if valid then Verified else PartBad);
    }

    method AbandonChecksum(claim: ChecksumClaim)
      requires Valid() && (CheckLive(Value(), claim) ==> Inside(Value(), claim.offset, claim.size))
      modifies this`pins, this`pinnedRegions, this`partStates, this`checksumOps, bitmap.words
      ensures Value() == EntryModel.AbandonChecksum(old(Value()), claim)
      ensures Valid()
    {
      AbandonKeepsWF(Value(), claim);
      if claim.part >= |partStates| || claim.epoch != epoch { return; }
      var state := partStates[claim.part];
      if state != Verifying && state != Retrying { return; }
      ghost var e := Value();
      RangeBounds(e, claim.offset, claim.size);
      hide WF, EntryModel.EndCheck;
      var end := Min(size, claim.offset + claim.size);
      var first, last := claim.offset / PAGE, Min(bitmap.pages, (end - 1) / PAGE + 1);
      assert last == EndPage(claim.offset, claim.size);
      var changed := TurnPages(first, last, Clean, Missing);
      KeepsShape(e, bitmap.States());
      EndCheck(claim, Unverified);
    }

    // -------------------------------------------------------------- eviction and export

    /** Is the region evictable, and which of its pages would an eviction take? */
    method LookAtRegion(region: nat) returns (victim: bool, taken: set<nat>)
      requires Valid() && region < |pins|
      ensures victim == Victim(Value(), region)
      ensures victim ==> taken == CleanPages(Value(), region)
    {
      var first, last := BlockPages(region);
      victim, taken := pins[region] == 0, {};
      var page := first;
      while page < last && victim
        invariant first <= page <= last
        invariant victim ==> pins[region] == 0 && forall p | first <= p < page :: bitmap.States()[p] == Clean || bitmap.States()[p] == Missing
        invariant !victim ==> pins[region] != 0 || exists p :: first <= p < page && bitmap.States()[p] != Clean && bitmap.States()[p] != Missing
        invariant forall p :: p in taken <==> first <= p < page && bitmap.States()[p] == Clean
      {
        var state := bitmap.Get(page);
        if state == Clean {
          taken := taken + {page};
        }
        if state != Clean && state != Missing {
          victim := false;
        }
        page := page + 1;
      }
      if victim {
        assert taken == CleanPages(Value(), region);
        if taken == {} {
          victim := false;
        } else {
          var p :| p in taken;
        }
      }
    }

    /** The clock loop that synchronous and asynchronous eviction share. */
    method ScanClock() returns (victim: int, taken: set<nat>)
      requires Valid() && Evictable(Value())
      modifies this`hand, this`referenced
      ensures Value() == old(Value()).(hand := ScanEntry(old(Value())).hand, referenced := ScanEntry(old(Value())).referenced)
      ensures victim == ScanEntry(old(Value())).victim
      ensures victim >= 0 ==> victim < |pins| && taken == CleanPages(old(Value()), victim)
      ensures Valid()
    {
      ghost var e := Value();
      victim, taken := -1, {};
      var scan := 0;
      ClockShape(e);
      hide WF, Victim, CleanPages, Under, Tick;
      while scan < |referenced|
        invariant 0 <= scan <= |referenced| == |e.referenced| && hand < HAND_LIMIT
        invariant Value() == e.(hand := hand, referenced := referenced)
        invariant ScanEntry(e) == ClockScan(e, hand, referenced, |referenced| - scan)
      {
        var region := Under(hand, |referenced|);
        hand := Tick(hand);
        scan := scan + 1;
        if referenced[region] {
          referenced := referenced[region := false];
        } else {
          EntrySafety.CosmeticWF(e, Value());
          var found, pages := LookAtRegion(region);
          EntrySafety.SameRegion(e, Value(), region);
          if found {
            return region, pages;
          }
        }
      }
      EntrySafety.CosmeticWF(e, Value());
    }

    /** `evict_one_region`; `punched` is the outcome of the system calls. */
    method EvictOne(punched: bool) returns (victim: int)
      requires Valid()
      modifies this`hand, this`referenced, bitmap.words
      ensures (Value(), victim) == EntryModel.EvictOne(old(Value()), punched)
      ensures Valid()
    {
      EvictKeepsWF(Value(), punched);
      if unlimited || stale || evictionDisabled || dirty || exported || |referenced| == 0 {
        return -1;
      }
      hide Aligned, PartsTile, Sum, ScanEntry;
      ghost var e := Value();
      var region, taken := ScanClock();
      if region < 0 || !punched {
        return -1;
      }
      SetTaken(taken, Missing);
      assert bitmap.States() == TurnBlock(e, region, Clean, Missing);
      return region;
    }

    /** Asynchronous eviction takes its victim; the taken pages stay with the caller until the punch ends. */
    method EvictBegin() returns (victim: int, taken: set<nat>)
      requires Valid()
      modifies this`hand, this`referenced, bitmap.words
      ensures (Value(), victim) == EntryModel.EvictBegin(old(Value()))
      ensures victim >= 0 ==> taken == CleanPages(old(Value()), victim)
      ensures Valid()
    {
      EvictKeepsWF(Value(), false);
      if unlimited || stale || evictionDisabled || dirty || exported || |referenced| == 0 {
        return -1, {};
      }
      hide Aligned, PartsTile, Sum, ScanEntry;
      ghost var e := Value();
      victim, taken := ScanClock();
      if victim >= 0 {
        SetTaken(taken, ReadPending);
        assert bitmap.States() == TurnBlock(e, victim, Clean, ReadPending);
      }
    }

    method SetTaken(taken: set<nat>, to: PageState)
      requires bitmap.Valid() && forall p | p in taken :: p < bitmap.pages
      modifies bitmap.words
      ensures forall p | 0 <= p < bitmap.pages :: bitmap.States()[p] == if p in taken then to else old(bitmap.States())[p]
    {
      var rest := taken;
      while rest != {}
        invariant rest <= taken
        invariant forall p | 0 <= p < bitmap.pages ::
                    bitmap.States()[p] == if p in taken && p !in rest then to else old(bitmap.States())[p]
        decreases |rest|
      {
        var page :| page in rest;
        bitmap.Set(page, to);
        rest := rest - {page};
      }
    }

    /** `finish_claim`: the taken pages must still be pending, or the source aborts. */
    method EvictEnd(taken: set<nat>, punched: bool)
      requires Valid() && forall p | p in taken :: p < bitmap.pages && bitmap.States()[p] == ReadPending
      modifies bitmap.words
      ensures Value() == EntryModel.EvictEnd(old(Value()), taken, punched)
      ensures Valid()
    {
      EvictEndKeepsWF(Value(), taken, punched);
      SetTaken(taken, if punched then Missing else Clean);
    }

    method TryExport(verify: bool) returns (ok: bool)
      requires Valid()
      modifies this`exported, this`evictionDisabled
      ensures (Value(), ok) == EntryModel.TryExport(old(Value()), verify)
      ensures Valid()
    {
      ExportKeepsWF(Value(), verify);
      var allClean := true;
      if size > 0 {
        RangeBounds(Value(), 0, size);
        allClean := bitmap.RangeAll(0, size, Clean);
      }
      hide Aligned, PartsTile, Sum;
      if !unlimited || stale || detached || dirty || |claims| != 0 || checksumOps != 0 || pinnedRegions != 0 ||
         PartBad in partStates || !allClean {
        return false;
      }
      if verify {
        if manifest != Available || (size != 0 && |parts| == 0) {
          return false;
        }
        var k := 0;
        while k < |partStates|
          invariant 0 <= k <= |partStates|
          invariant forall j | 0 <= j < k :: partStates[j] == Verified
        {
          if partStates[k] != Verified { return false; }
          k := k + 1;
        }
      }
      exported, evictionDisabled := true, true;
      return true;
    }
  }

  lemma VerifyPartFields(e: Entry, k: nat)
    requires WF(e) && k < |e.parts|
    ensures |e.partStates| == |e.parts| && e.blockPages > 0 && e.parts[k].size > 0
    ensures VerifyPart(e, k) ==
            AddRegionPins(e, e.parts[k].offset, e.parts[k].size).(
              partStates := e.partStates[k := Verifying], checksumOps := e.checksumOps + 1)
  {
    hide Aligned, Sum, AddPins, Quot;
  }

  lemma CountNext(flags: seq<bool>, i: nat)
    requires i < |flags|
    ensures CountTrue(flags[..i + 1]) == CountTrue(flags[..i]) + if flags[i] then 1 else 0
  {
    assert flags[..i + 1] == flags[..i] + [flags[i]];
    CountAppend(flags[..i], flags[i]);
  }

  /** A region overlaps a byte range in pages exactly when their bytes overlap. */
  lemma SpansBytes(e: Entry, o: nat, l: nat, region: nat)
    requires WF(e) && Inside(e, o, l)
    ensures var begin := Times(region, BlockSize(e));
            Spans(e.blockPages, o, l, region) <==> o < Min(e.size, begin + BlockSize(e)) && o + l > begin
  {
    var b := BlockSize(e);
    QuotScale(o, e.blockPages);
    QuotScale(o + l - 1, e.blockPages);
    QuotBelow(o, b, region + 1);
    QuotBelow(o + l - 1, b, region);
    assert Times(region + 1, b) == Times(region, b) + b;
    assert EndPage(o, l) - 1 == (o + l - 1) / PAGE;
    hide Quot, Times, Aligned, PartsTile, Sum;
  }

  lemma CountEmpty(flags: seq<bool>)
    ensures CountTrue(flags[..0]) == 0
  {
  }

  ghost predicate PendingAt(e: Entry, lo: nat, hi: nat)
  {
    exists p :: 0 <= p < |e.pages| && lo <= p < hi && e.pages[p] == ReadPending
  }

  /** Block `b` has a pending page in `[lo, hi)`. */
  ghost predicate PendingIn(e: Entry, lo: nat, hi: nat, b: nat)
    requires e.blockPages > 0
  {
    exists p :: 0 <= p < |e.pages| && lo <= p < hi && Block(e, p) == b && e.pages[p] == ReadPending
  }

  lemma UnfinishedIsPending(e: Entry, a: ActiveFetch, b: nat)
    requires e.blockPages > 0
    ensures PendingIn(e, TailLo(a), TailHi(a), b) <==> Unfinished(e, a, b)
  {
  }

  lemma PendingNone(e: Entry, a: ActiveFetch)
    requires e.blockPages > 0
    ensures forall b :: !PendingIn(e, TailLo(a), TailLo(a.(published := a.published)), b)
  {
  }

  /** The pages between `reached` and `end` are those of one block. */
  lemma OneBlock(e: Entry, a: ActiveFetch, reached: nat, end: nat, p: nat)
    requires WF(e) && Aligned(e, a) && reached < a.length && Multiple(reached, BlockSize(e))
    requires end == Min(e.size - a.offset, reached + BlockSize(e))
    requires (a.offset + reached) / PAGE <= p < (a.offset + end - 1) / PAGE + 1
    ensures Block(e, p) == Block(e, (a.offset + reached) / PAGE)
  {
    var o, b := a.offset + reached, e.blockPages;
    MultipleSum(a.offset, reached, BlockSize(e));
    MultipleScale(o, b);
    var k := Quot(o, BlockSize(e));
    QuotBelow(p, b, k);
    QuotBelow(p, b, k + 1);
    QuotBelow(o / PAGE, b, k);
    QuotBelow(o / PAGE, b, k + 1);
    hide Multiple, Quot, RoundDown, PartsTile, Sum;
    assert Times(k + 1, b) == Times(k, b) + b;
  }

  lemma PendingMore(e: Entry, a: ActiveFetch, lo: nat, reached: nat, end: nat, block: nat)
    requires WF(e) && Aligned(e, a) && reached < a.length && Multiple(reached, BlockSize(e))
    requires end == Min(e.size - a.offset, reached + BlockSize(e)) && block == Quot((a.offset + reached) / PAGE, e.blockPages)
    requires lo <= TailLo(a.(published := reached))
    ensures reached < end <= a.length && (Multiple(end, BlockSize(e)) || end == a.length)
    ensures var first, last := TailLo(a.(published := reached)), TailLo(a.(published := end));
            forall b :: PendingIn(e, lo, last, b) <==> PendingIn(e, lo, first, b) || (b == block && PendingAt(e, first, last))
  {
    PublishBlock(e, a, reached, end);
    var first, last := (a.offset + reached) / PAGE, (a.offset + end - 1) / PAGE + 1;
    forall p | first <= p < last ensures Block(e, p) == block { OneBlock(e, a, reached, end, p); }
    hide WF, Aligned, TailLo, Block, Multiple, Quot;
    if p :| first <= p < last && e.pages[p] == ReadPending {
      assert Block(e, p) == block && lo <= p < last;
    }
    assert forall b :: PendingIn(e, lo, first, b) ==> PendingIn(e, lo, last, b);
  }

  lemma TurnBeyond(s: seq<PageState>, lo: nat, first: nat, last: nat, from: PageState, to: PageState)
    requires lo <= first <= last <= |s|
    ensures forall p | first <= p < last :: Turn(s, lo, first, from, to)[p] == s[p]
  {
  }

  lemma TailEnds(a: ActiveFetch)
    ensures TailLo(a.(published := a.length)) == TailHi(a)
  {
  }

  /** The pages of a claim as the source computes them. */
  lemma TailPages(e: Entry, i: nat)
    requires WF(e) && i < |e.claims|
    ensures e.blockPages > 0
    ensures var a := e.claims[i];
            && a.length > 0 && a.offset / PAGE + (a.published + PAGE - 1) / PAGE == TailLo(a)
            && (a.offset + a.length - 1) / PAGE + 1 == TailHi(a) <= |e.pages|
  {
    assert Aligned(e, e.claims[i]);
    MultipleScale(e.claims[i].offset, e.blockPages);
  }

  lemma FillNothing(s: seq<PageState>, lo: nat, hi: nat, to: PageState)
    requires hi <= lo
    ensures Fill(s, lo, hi, to) == s
  {
  }

  lemma EndedCheckWF(e: Entry, c: ChecksumClaim, st: PartState)
    requires WF(e) && c.part < |e.partStates| && Inside(e, c.offset, c.size)
    ensures WF(EntryModel.EndCheck(e, c, st))
  {
    assert e.(pages := e.pages) == e;
    EndCheckKeepsWF(e, c, st, e.pages);
  }

  lemma PartsShape(e: Entry)
    requires WF(e)
    ensures |e.parts| == |e.partStates| && PartsTile(e.parts, e.size)
  {
  }

  lemma PinTotal(e: Entry)
    requires WF(e)
    ensures e.blockPages > 0 && |e.parts| == |e.partStates| && e.pinnedRegions == Sum(e.pins)
  {
  }

  lemma ClockShape(e: Entry)
    requires WF(e)
    ensures e.blockPages > 0 && |e.pins| == |e.referenced| && e.hand < HAND_LIMIT
  {
  }

  lemma KeepsShape(e: Entry, pages: seq<PageState>)
    requires WF(e) && |pages| == |e.pages|
    ensures WF(e.(pages := pages))
  {
    EntrySafety.PagesWF(e, pages);
  }

  lemma TurnNothing(s: seq<PageState>, lo: nat, from: PageState, to: PageState)
    ensures Turn(s, lo, lo, from, to) == s
  {
  }

  lemma TurnTwice(s: seq<PageState>, lo: nat, mid: nat, hi: nat, from: PageState, to: PageState)
    requires lo <= mid <= hi && from != to
    ensures Turn(Turn(s, lo, mid, from, to), mid, hi, from, to) == Turn(s, lo, hi, from, to)
  {
  }

  lemma PublishedAligned(e: Entry, a: ActiveFetch)
    requires e.blockPages > 0 && Aligned(e, a)
    ensures a.published <= a.length && (Multiple(a.published, BlockSize(e)) || a.published == a.length)
  {
  }

  lemma TailGrows(a: ActiveFetch, reached: nat)
    requires a.published <= reached
    ensures TailLo(a) <= TailLo(a.(published := reached))
  {
  }

  lemma {:induction false} RoundDownBetween(p: nat, x: nat, b: nat)
    requires b > 0 && Multiple(p, b) && p <= x < p + b
    ensures RoundDown(x, b) == p
  {
    if p >= b { RoundDownBetween(p - b, x - b, b); }
  }

  /** The next multiple is a whole block away. */
  lemma NextMultiple(x: nat, y: nat, b: nat)
    requires b > 0 && Multiple(x, b) && Multiple(y, b) && x < y
    ensures x + b <= y
  {
    if y < x + b { RoundDownBetween(x, y, b); }
  }

  lemma MultipleSelf(b: nat)
    requires b > 0
    ensures Multiple(b, b)
  {
  }

  /** The block after `reached` ends on a block boundary or at the end of the object, inside the claim. */
  lemma PublishBlockEnd(e: Entry, a: ActiveFetch, reached: nat, end: nat)
    requires e.blockPages > 0 && Aligned(e, a) && reached < a.length && Multiple(reached, BlockSize(e))
    requires end == Min(e.size - a.offset, reached + BlockSize(e))
    ensures reached < end <= a.length && (Multiple(end, BlockSize(e)) || end == a.length)
    ensures a.offset + end == e.size || Multiple(a.offset + end, BlockSize(e))
    ensures (a.offset + reached) % PAGE == 0
  {
    hide Multiple;
    var b := BlockSize(e);
    MultipleSelf(b);
    MultipleSum(a.offset, reached, b);
    MultipleSum(a.offset + reached, b, b);
    MultipleSum(reached, b, b);
    if a.offset + a.length != e.size { NextMultiple(a.offset + reached, a.offset + a.length, b); }
    MultipleScale(a.offset + reached, e.blockPages);
  }

  /** Where the block after `reached` lies. */
  lemma PublishBlock(e: Entry, a: ActiveFetch, reached: nat, end: nat)
    requires WF(e) && Aligned(e, a) && reached < a.length && Multiple(reached, BlockSize(e))
    requires end == Min(e.size - a.offset, reached + BlockSize(e))
    ensures reached < end <= a.length && (Multiple(end, BlockSize(e)) || end == a.length)
    ensures (a.offset + reached) / PAGE == TailLo(a.(published := reached)) <= (a.offset + end - 1) / PAGE + 1 <= |e.pages|
    ensures (a.offset + end - 1) / PAGE + 1 == TailLo(a.(published := end))
    ensures a.offset + end == e.size || Multiple(a.offset + end, BlockSize(e))
  {
    hide Multiple, PartsTile, Sum;
    PublishBlockEnd(e, a, reached, end);
  }

  /** The loop stops where the target lies. */
  lemma PublishStops(e: Entry, a: ActiveFetch, reached: nat, end: nat, length: nat, final: bool)
    requires WF(e) && Aligned(e, a) && a.published <= reached < a.length && Multiple(reached, BlockSize(e))
    requires end == Min(e.size - a.offset, reached + BlockSize(e))
    requires reached == a.published || reached <= Min(length, a.length)
    requires || Min(length, a.length) < end
             || (a.offset + end == e.size && !Multiple(a.offset + end, BlockSize(e)) && !final)
    ensures reached == Max(a.published, PublishTarget(e, a, length, final))
  {
    hide PartsTile, Sum, Quot;
    var b, progress := BlockSize(e), Min(length, a.length);
    PublishBlock(e, a, reached, end);
    hide WF;
    MultipleSum(a.offset, reached, b);
    MultipleSum(a.offset + reached, b, b);
    if progress >= reached { RoundDownBetween(reached, progress, b); }
  }

  lemma PublishEnds(e: Entry, a: ActiveFetch, length: nat, final: bool)
    requires e.blockPages > 0 && a.published <= a.length
    requires || a.published == a.length
             || (a.length <= length && (final || Multiple(a.offset + a.length, BlockSize(e))))
    ensures a.length == Max(a.published, PublishTarget(e, a, length, final))
  {
  }

  lemma PiecesIsDiv(o: nat, b: nat)
    requires b > 0
    ensures Pieces(o, b) == (o + b - 1) / b
  {
    QuotIsDiv(o + b - 1, b);
  }

  lemma SomePartNone(parts: seq<ChecksumPart>, states: seq<PartState>, n: nat, lo: nat, hi: nat)
    requires n <= |parts| == |states| && forall k | 0 <= k < n :: parts[k].offset + parts[k].size <= lo
    ensures forall st :: !SomePart(parts, states, n, lo, hi, st)
  {
  }

  lemma SomePartNext(parts: seq<ChecksumPart>, states: seq<PartState>, n: nat, lo: nat, hi: nat)
    requires n < |parts| == |states| && PartOverlaps(parts[n], lo, hi)
    ensures forall st :: SomePart(parts, states, n + 1, lo, hi, st) <==> SomePart(parts, states, n, lo, hi, st) || states[n] == st
  {
    forall st
      ensures SomePart(parts, states, n + 1, lo, hi, st) <==> SomePart(parts, states, n, lo, hi, st) || states[n] == st
    {
      if states[n] == st { assert PartOverlaps(parts[n], lo, hi) && states[n] == st; }
    }
  }

  lemma SomePartStays(parts: seq<ChecksumPart>, states: seq<PartState>, n: nat, lo: nat, hi: nat, st: PartState)
    requires n <= |parts| == |states| && SomePart(parts, states, n, lo, hi, st)
    ensures SomePart(parts, states, |parts|, lo, hi, st)
  {
  }

  lemma SomePartRest(parts: seq<ChecksumPart>, states: seq<PartState>, n: nat, lo: nat, hi: nat)
    requires n <= |parts| == |states| && forall k | n <= k < |parts| :: parts[k].offset >= hi
    ensures forall st :: SomePart(parts, states, |parts|, lo, hi, st) <==> SomePart(parts, states, n, lo, hi, st)
  {
  }

  /** Parts are in order: from one that ends beyond `offset` on, all do. */
  lemma PartsAbove(parts: seq<ChecksumPart>, size: nat, part: nat, offset: nat)
    requires PartsTile(parts, size) && part <= |parts| && (part < |parts| ==> parts[part].offset + parts[part].size > offset)
    ensures forall k | part <= k < |parts| :: parts[k].offset + parts[k].size > offset
  {
    var k := part;
    while k < |parts|
      invariant part <= k <= |parts|
      invariant k < |parts| ==> parts[k].offset + parts[k].size > offset
      invariant forall j | part <= j < k :: parts[j].offset + parts[j].size > offset
    {
      if k + 1 < |parts| { assert parts[k].offset + parts[k].size == parts[k + 1].offset; }
      k := k + 1;
    }
  }

  /** Parts are in order: from one that starts at or after `end` on, none overlaps. */
  lemma PartsAfter(parts: seq<ChecksumPart>, size: nat, part: nat, end: nat)
    requires PartsTile(parts, size) && part <= |parts| && (part < |parts| ==> parts[part].offset >= end)
    ensures forall k | part <= k < |parts| :: parts[k].offset >= end
  {
    var k := part;
    while k < |parts|
      invariant part <= k <= |parts|
      invariant k < |parts| ==> parts[k].offset >= end
      invariant forall j | part <= j < k :: parts[j].offset >= end
    {
      if k + 1 < |parts| { assert parts[k].offset + parts[k].size == parts[k + 1].offset; }
      k := k + 1;
    }
  }

  lemma {:induction false} SumUpdate(s: seq<nat>, i: nat, x: nat)
    requires i < |s|
    ensures Sum(s[i := x]) + s[i] == Sum(s) + x
  {
    if i > 0 {
      assert s[i := x][1..] == s[1..][i - 1 := x];
      SumUpdate(s[1..], i - 1, x);
    } else {
      assert s[i := x][1..] == s[1..];
    }
  }
}
