/** One cache generation as a value, and the effect of every locked `CacheEntry` operation on it.

    Each operation of the source holds the entry mutex for its whole body, so it is one
    function from state to state here. What happens outside the lock (writes into the data
    file, hole punches, the readers that hold pins) is added by module EntryWorld.
    The class in module CacheEntryImpl runs the source's loops and is proved equal to
    these functions.
 */
module EntryModel {
  import opened Geometry

  datatype PageState = Missing | ReadPending | Clean | Bad

  /** What `claim_fetch` hands to the fetcher; offsets and lengths are in bytes. */
  datatype FetchClaim = FetchClaim(offset: nat, epoch: nat, id: nat, length: nat)

  datatype ActiveFetch = ActiveFetch(
    id: nat, epoch: nat, offset: nat, length: nat, published: nat,
    verifying: bool, retrying: bool, priorStates: seq<PageState>)

  datatype ChecksumPart = ChecksumPart(offset: nat, size: nat, algorithm: nat, value: string)

  datatype PartState = Unverified | Verifying | Retrying | Verified | PartBad

  datatype Manifest = Unknown | Loading | Available | Unavailable

  datatype ChecksumClaim = ChecksumClaim(part: nat, epoch: nat, offset: nat, size: nat)

  datatype Entry = Entry(
    size: nat, blockPages: nat, epoch: nat, pages: seq<PageState>,
    referenced: seq<bool>, pins: seq<nat>, claims: seq<ActiveFetch>,
    parts: seq<ChecksumPart>, partStates: seq<PartState>,
    nextId: nat, hand: nat, checksumOps: nat, pinnedRegions: nat, manifest: Manifest,
    evictionDisabled: bool, detached: bool, stale: bool, dirty: bool, exported: bool,
    unlimited: bool)

  const PIN_MAX: nat := 0xFFFF_FFFF
  const HAND_LIMIT: nat := 0x1_0000_0000_0000_0000

  // ---------------------------------------------------------------- geometry of an entry

  function BlockSize(e: Entry): nat { e.blockPages * PAGE }

  /** The block (eviction region) that holds page `p`. */
  function Block(e: Entry, p: nat): nat
    requires e.blockPages > 0
  {
    Quot(p, e.blockPages)
  }

  function FirstPage(o: nat): nat { o / PAGE }

  /** One past the last page that the non-empty byte range touches. */
  function EndPage(o: nat, l: nat): nat { (o + l + PAGE - 1) / PAGE }

  function RegionLo(e: Entry, o: nat): nat
    requires e.blockPages > 0
  {
    Block(e, FirstPage(o))
  }

  function RegionHi(e: Entry, o: nat, l: nat): nat
    requires e.blockPages > 0 && l > 0
  {
    Block(e, EndPage(o, l) - 1) + 1
  }

  /** The block of page `p` (of `b`-page blocks) overlaps the byte range. */
  predicate Covers(b: nat, o: nat, l: nat, p: nat)
    requires b > 0
  {
    l > 0 && Quot(FirstPage(o), b) <= Quot(p, b) <= Quot(EndPage(o, l) - 1, b)
  }

  /** First page that the claim has not published yet. */
  function TailLo(c: ActiveFetch): nat { (c.offset + c.published + PAGE - 1) / PAGE }

  function TailHi(c: ActiveFetch): nat { EndPage(c.offset, c.length) }

  /** Page `p` belongs to the unpublished tail of the claim. */
  predicate InTail(c: ActiveFetch, p: nat) { TailLo(c) <= p < TailHi(c) }

  // ---------------------------------------------------------------- well-formed entries

  /** A claim covers whole blocks, and so do its published prefix and its tail. */
  predicate Aligned(e: Entry, c: ActiveFetch)
    requires e.blockPages > 0
  {
    && c.length > 0
    && c.offset + c.length <= e.size
    && c.published <= c.length
    && Multiple(c.offset, BlockSize(e))
    && (Multiple(c.published, BlockSize(e)) || c.published == c.length)
    && (Multiple(c.offset + c.length, BlockSize(e)) || c.offset + c.length == e.size)
    && |c.priorStates| == TailHi(c) - FirstPage(c.offset)
  }

  /** The parts cover the object end to end, in order and without gaps. */
  predicate PartsTile(parts: seq<ChecksumPart>, size: nat)
  {
    && (forall k | 0 <= k < |parts| :: parts[k].size > 0 && parts[k].offset + parts[k].size <= size)
    && (forall k | 0 <= k < |parts| - 1 :: parts[k].offset + parts[k].size == parts[k + 1].offset)
    && (|parts| > 0 ==>
          parts[0].offset == 0 && parts[|parts| - 1].offset + parts[|parts| - 1].size == size)
  }

  function Sum(s: seq<nat>): nat
  {
    if s == [] then 0 else s[0] + Sum(s[1..])
  }

  ghost predicate WF(e: Entry)
  {
    && e.blockPages > 0
    && |e.pages| == (e.size + PAGE - 1) / PAGE
    && |e.pins| == |e.referenced| == Pieces(|e.pages|, e.blockPages)
    && e.pinnedRegions == Sum(e.pins)
    && (forall i | 0 <= i < |e.claims| :: Aligned(e, e.claims[i]))
    && (forall i | 0 <= i < |e.claims| :: e.claims[i].id < e.nextId)
    && (forall i, j | 0 <= i < j < |e.claims| :: e.claims[i].id != e.claims[j].id)
    && |e.parts| == |e.partStates|
    && PartsTile(e.parts, e.size)
    && (e.manifest != Available ==> e.parts == [])
    && e.hand < HAND_LIMIT
  }

  /** The range lies inside the object, so that it touches existing pages and regions only. */
  predicate Inside(e: Entry, o: nat, l: nat)
  {
    l > 0 && o + l <= e.size
  }

  // ---------------------------------------------------------------- sequence helpers

  /** `s` with every `from` in `[lo, hi)` turned into `to`. */
  function Turn(s: seq<PageState>, lo: nat, hi: nat, from: PageState, to: PageState): (r: seq<PageState>)
    ensures |r| == |s|
    ensures forall p | 0 <= p < |s| ::
              r[p] == if lo <= p < hi && s[p] == from then to else s[p]
  {
    seq(|s|, p requires 0 <= p < |s| => if lo <= p < hi && s[p] == from then to else s[p])
  }

  /** `s` with `[lo, hi)` set to `to`. */
  function Fill(s: seq<PageState>, lo: nat, hi: nat, to: PageState): (r: seq<PageState>)
    ensures |r| == |s|
    ensures forall p | 0 <= p < |s| :: r[p] == if lo <= p < hi then to else s[p]
  {
    seq(|s|, p requires 0 <= p < |s| => if lo <= p < hi then to else s[p])
  }

  predicate AllState(s: seq<PageState>, lo: nat, hi: nat, st: PageState)
    requires hi <= |s|
  {
    forall p | lo <= p < hi :: s[p] == st
  }

  function AddPins(s: seq<nat>, lo: nat, hi: nat): (r: seq<nat>)
    ensures |r| == |s|
    ensures forall k | 0 <= k < |s| :: r[k] == if lo <= k < hi then s[k] + 1 else s[k]
  {
    seq(|s|, k requires 0 <= k < |s| => if lo <= k < hi then s[k] + 1 else s[k])
  }

  /** The source's guarded decrement: a zero count stays zero. */
  function DropPins(s: seq<nat>, lo: nat, hi: nat): (r: seq<nat>)
    ensures |r| == |s|
    ensures forall k | 0 <= k < |s| ::
              r[k] == if lo <= k < hi && s[k] != 0 then s[k] - 1 else s[k]
  {
    seq(|s|, k requires 0 <= k < |s| => if lo <= k < hi && s[k] != 0 then s[k] - 1 else s[k])
  }

  function SetBits(s: seq<bool>, lo: nat, hi: nat): (r: seq<bool>)
    ensures |r| == |s|
    ensures forall k | 0 <= k < |s| :: r[k] == if lo <= k < hi then true else s[k]
  {
    seq(|s|, k requires 0 <= k < |s| => if lo <= k < hi then true else s[k])
  }

  predicate PinsFull(s: seq<nat>, lo: nat, hi: nat)
    requires hi <= |s|
  {
    exists k | lo <= k < hi :: s[k] == PIN_MAX
  }

  function Without<T>(s: seq<T>, i: nat): (r: seq<T>)
    requires i < |s|
    ensures |r| == |s| - 1
    ensures forall k | 0 <= k < |r| :: r[k] == if k < i then s[k] else s[k + 1]
  {
    s[..i] + s[i + 1..]
  }

  // ---------------------------------------------------------------- reader pins

  datatype PinResult = Admitted | Refused | PinOverflow | PinStale

  /** How the checksum parts that overlap a range answer an admission request. */
  datatype PartBlock = NotBlocked | RetryBlocks | BadBlocks

  predicate PartOverlaps(part: ChecksumPart, lo: nat, hi: nat)
  {
    part.offset < hi && part.offset + part.size > lo
  }

  /** One of the first `n` parts overlaps the range and is in state `st`. */
  predicate SomePart(parts: seq<ChecksumPart>, states: seq<PartState>, n: nat, lo: nat, hi: nat, st: PartState)
    requires n <= |parts| == |states|
  {
    exists k | 0 <= k < n :: PartOverlaps(parts[k], lo, hi) && states[k] == st
  }

  function ChecksumBlocked(e: Entry, o: nat, l: nat): PartBlock
    requires |e.parts| == |e.partStates|
  {
    if e.stale || o >= e.size || l == 0 then NotBlocked
    else
      var hi := o + Min(l, e.size - o);
      if SomePart(e.parts, e.partStates, |e.parts|, o, hi, PartBad) then BadBlocks
      else if SomePart(e.parts, e.partStates, |e.parts|, o, hi, Retrying) then RetryBlocks
      else NotBlocked
  }

  function AddRegionPins(e: Entry, o: nat, l: nat): Entry
    requires e.blockPages > 0 && l > 0
  {
    QuotMonotone(FirstPage(o), EndPage(o, l) - 1, e.blockPages);
    e.(pins := AddPins(e.pins, RegionLo(e, o), RegionHi(e, o, l)),
       pinnedRegions := e.pinnedRegions + (RegionHi(e, o, l) - RegionLo(e, o)))
  }

  function DropRegionPins(e: Entry, o: nat, l: nat): Entry
    requires e.blockPages > 0 && l > 0
  {
    var pins := DropPins(e.pins, RegionLo(e, o), RegionHi(e, o, l));
    e.(pins := pins, pinnedRegions := Sum(pins))
  }

  function SetReferenced(e: Entry, o: nat, l: nat): Entry
    requires e.blockPages > 0 && l > 0
  {
    e.(referenced := SetBits(e.referenced, RegionLo(e, o), RegionHi(e, o, l)))
  }

  function PinClean(e: Entry, o: nat, l: nat): (Entry, PinResult)
    requires WF(e) && (l > 0 ==> Inside(e, o, l))
  {
    if e.stale then (e, Refused)
    else if l == 0 then (e, Admitted)
    else
      RangeBounds(e, o, l);
      if !AllState(e.pages, FirstPage(o), EndPage(o, l), Clean) || ChecksumBlocked(e, o, l) != NotBlocked
      then (e, Refused)
      else if PinsFull(e.pins, RegionLo(e, o), RegionHi(e, o, l)) then (e, PinOverflow)
      else (SetReferenced(AddRegionPins(e, o, l), o, l), Admitted)
  }

  function Pin(e: Entry, o: nat, l: nat): (Entry, PinResult)
    requires WF(e) && (l > 0 ==> Inside(e, o, l))
  {
    if e.stale then (e, PinStale)
    else if l == 0 then (e, Admitted)
    else
      RangeBounds(e, o, l);
      if PinsFull(e.pins, RegionLo(e, o), RegionHi(e, o, l)) then (e, PinOverflow)
      else (AddRegionPins(e, o, l), Admitted)
  }

  function Unpin(e: Entry, o: nat, l: nat): Entry
    requires WF(e) && (l > 0 ==> Inside(e, o, l))
  {
    if l == 0 then e else DropRegionPins(e, o, l)
  }

  // ---------------------------------------------------------------- fetch claims

  datatype ClaimResult = ClaimStale | NoClaim | Claimed(claim: FetchClaim)

  function FirstNot(s: seq<PageState>, lo: nat, hi: nat, st: PageState): (r: nat)
    requires lo <= hi <= |s|
    ensures lo <= r <= hi
    ensures r < hi ==> s[r] != st
    ensures forall p | lo <= p < r :: s[p] == st
    decreases hi - lo
  {
    if lo == hi || s[lo] != st then lo else FirstNot(s, lo + 1, hi, st)
  }

  /** A new fetch may not enter the block. */
  predicate BlockBusy(e: Entry, b: nat)
    requires e.blockPages > 0
  {
    || (b < |e.pins| && e.pins[b] != 0)
    || exists p | 0 <= p < |e.pages| :: Block(e, p) == b && (e.pages[p] == ReadPending || e.pages[p] == Bad)
  }

  predicate BlockClean(e: Entry, b: nat)
    requires e.blockPages > 0
  {
    forall p | 0 <= p < |e.pages| :: Block(e, p) == b ==> e.pages[p] == Clean
  }

  /** First block at or after `b` where an expanding fetch has to stop. */
  function ScanStop(e: Entry, start: nat, b: nat, limit: nat): (r: nat)
    requires e.blockPages > 0
    ensures b <= limit ==> b <= r <= limit
    ensures forall k | b <= k < r :: !BlockBusy(e, k)
    decreases limit - b
  {
    if b >= limit then b
    else if BlockBusy(e, b) || (b != start && BlockClean(e, b)) then b
    else ScanStop(e, start, b + 1, limit)
  }

  /** One past the last block that the request and its read-ahead expansion ask for. */
  function ScanLimit(e: Entry, requestEnd: nat, start: nat, expansion: nat): nat
    requires e.blockPages > 0
  {
    Min(|e.pins|,
        Max(Pieces(requestEnd, BlockSize(e)),
            start + Pieces(Max(expansion, BlockSize(e)), BlockSize(e))))
  }

  /** The claim of blocks `[start, stop)`. */
  function NewFetch(e: Entry, start: nat, stop: nat): ActiveFetch
    requires WF(e) && start < stop <= |e.pins|
  {
    BlockSpan(e, start, stop);
    ActiveFetch(e.nextId, e.epoch, Times(start, BlockSize(e)),
                Min(e.size, Times(stop, BlockSize(e))) - Times(start, BlockSize(e)), 0, false, false,
                e.pages[Times(start, e.blockPages)..Min(|e.pages|, Times(stop, e.blockPages))])
  }

  function ClaimBlocks(e: Entry, start: nat, stop: nat): Entry
    requires WF(e) && start < stop <= |e.pins|
  {
    e.(pages := Fill(e.pages, Times(start, e.blockPages), Times(stop, e.blockPages), ReadPending),
       claims := e.claims + [NewFetch(e, start, stop)],
       nextId := e.nextId + 1)
  }

  function ClaimFetch(e: Entry, o: nat, l: nat, expansion: nat): (Entry, ClaimResult)
    requires WF(e)
  {
    if e.stale then (e, ClaimStale)
    else if l == 0 || o >= e.size || e.dirty || e.exported then (e, NoClaim)
    else
      var len := Min(l, e.size - o);
      RangeBounds(e, o, len);
      var missing := FirstNot(e.pages, FirstPage(o), EndPage(o, len), Clean);
      if missing == EndPage(o, len) || e.pages[missing] != Missing then (e, NoClaim)
      else
        var start := Block(e, missing);
        var stop := ScanStop(e, start, start, ScanLimit(e, o + len, start, expansion));
        if stop <= start || stop > |e.pins| then (e, NoClaim)
        else
          var f := NewFetch(e, start, stop);
          (ClaimBlocks(e, start, stop), Claimed(FetchClaim(f.offset, f.epoch, f.id, f.length)))
  }

  predicate Names(a: ActiveFetch, c: FetchClaim)
  {
    a.id == c.id && a.epoch == c.epoch && a.offset == c.offset && a.length == c.length
  }

  /** Index of the claim among the active ones; the number of active ones when it has retired. */
  function Find(claims: seq<ActiveFetch>, c: FetchClaim): (i: nat)
    ensures i <= |claims|
    ensures i < |claims| ==> Names(claims[i], c)
    ensures forall k | 0 <= k < i :: !Names(claims[k], c)
  {
    if claims == [] || Names(claims[0], c) then 0 else 1 + Find(claims[1..], c)
  }

  predicate Active(e: Entry, c: FetchClaim) { Find(e.claims, c) < |e.claims| }

  /** How far publication reaches when `length` bytes of the claim are in the file: whole
      blocks only, plus the object's short last block once the response is complete. */
  function PublishTarget(e: Entry, a: ActiveFetch, length: nat, final: bool): nat
    requires e.blockPages > 0
  {
    var progress := Min(length, a.length);
    if progress == a.length && (final || Multiple(a.offset + a.length, BlockSize(e)))
    then a.length
    else RoundDown(progress, BlockSize(e))
  }

  function PublishClean(e: Entry, c: FetchClaim, published: nat, length: nat, final: bool): Entry
    requires WF(e)
  {
    var i := Find(e.claims, c);
    if e.stale || i == |e.claims| || length < published || (length == published && !final) then e
    else
      var a := e.claims[i];
      var a' := a.(published := Max(a.published, PublishTarget(e, a, length, final)));
      e.(pages := Turn(e.pages, TailLo(a), TailLo(a'), ReadPending, Clean),
         claims := e.claims[i := a'])
  }

  function EndFetch(e: Entry, i: nat): Entry
    requires e.blockPages > 0 && i < |e.claims| && e.claims[i].length > 0
  {
    var a := e.claims[i];
    var e' := if a.verifying then DropRegionPins(e, a.offset, a.length) else e;
    e'.(claims := Without(e.claims, i))
  }

  /** Blocks of the tail that still wait for data; the source punches exactly these. */
  ghost predicate Unfinished(e: Entry, a: ActiveFetch, b: nat)
    requires e.blockPages > 0
  {
    exists p | 0 <= p < |e.pages| :: InTail(a, p) && Block(e, p) == b && e.pages[p] == ReadPending
  }

  function FinishFetch(e: Entry, c: FetchClaim): Entry
    requires WF(e)
  {
    var i := Find(e.claims, c);
    if i == |e.claims| then e
    else
      var a := e.claims[i];
      EndFetch(e.(pages := Turn(e.pages, TailLo(a), TailHi(a), ReadPending, Missing)), i)
  }

  function Restore(e: Entry, a: ActiveFetch): (r: seq<PageState>)
    requires e.blockPages > 0 && Aligned(e, a)
    ensures |r| == |e.pages|
  {
    seq(|e.pages|, p requires 0 <= p < |e.pages| =>
      if InTail(a, p) && FirstPage(a.offset) <= p
      then a.priorStates[p - FirstPage(a.offset)] else e.pages[p])
  }

  function RollbackFetch(e: Entry, c: FetchClaim): Entry
    requires WF(e)
  {
    var i := Find(e.claims, c);
    if i == |e.claims| then e
    else EndFetch(e.(pages := Restore(e, e.claims[i])), i)
  }

  function MarkBad(e: Entry, c: FetchClaim): Entry
    requires WF(e)
  {
    var i := Find(e.claims, c);
    if e.stale || i == |e.claims| then e
    else
      var a := e.claims[i];
      e.(pages := Fill(e.pages, if a.verifying then FirstPage(a.offset) else TailLo(a), TailHi(a), Bad))
  }

  /** Another claim overlaps claim `i`. */
  predicate OthersMeet(claims: seq<ActiveFetch>, i: nat)
    requires i < |claims|
  {
    exists k | 0 <= k < |claims| :: k != i && claims[k].offset < claims[i].offset + claims[i].length &&
      claims[k].offset + claims[k].length > claims[i].offset
  }

  datatype VerifyResult = VerifyRefused | VerifyPinned | VerifyOverflow

  function PinFetchVerification(e: Entry, c: FetchClaim): (Entry, VerifyResult)
    requires WF(e)
  {
    var i := Find(e.claims, c);
    if e.stale || i == |e.claims| then (e, VerifyRefused)
    else if e.claims[i].verifying then (e, VerifyPinned)
    else
      var a := e.claims[i];
      RangeBounds(e, a.offset, a.length);
      if || a.published != a.length || e.checksumOps != 0 || e.manifest == Available
         || !AllState(e.pages, FirstPage(a.offset), TailHi(a), Clean)
         || OthersMeet(e.claims, i)
      then (e, VerifyRefused)
      else if PinsFull(e.pins, RegionLo(e, a.offset), RegionHi(e, a.offset, a.length))
      then (e, VerifyOverflow)
      else
        (AddRegionPins(e, a.offset, a.length).(claims := e.claims[i := a.(verifying := true)]), VerifyPinned)
  }

  predicate Checking(st: PartState) { st == Verifying || st == Retrying }

  function CountTrue(s: seq<bool>): nat
  {
    if s == [] then 0 else (if s[0] then 1 else 0) + CountTrue(s[1..])
  }

  /** Region `r` (of `b`-page blocks) overlaps the byte range. */
  predicate Spans(b: nat, o: nat, l: nat, r: nat)
    requires b > 0
  {
    l > 0 && Quot(FirstPage(o), b) <= r <= Quot(EndPage(o, l) - 1, b)
  }

  /** Which parts hold a verification pin on region `r`. */
  function PartFlags(parts: seq<ChecksumPart>, states: seq<PartState>, b: nat, r: nat): seq<bool>
    requires b > 0 && |parts| == |states|
  {
    seq(|parts|, k requires 0 <= k < |parts| => Checking(states[k]) && Spans(b, parts[k].offset, parts[k].size, r))
  }

  /** Which fetches hold a verification pin on region `r`. */
  function FetchFlags(claims: seq<ActiveFetch>, b: nat, r: nat): seq<bool>
    requires b > 0
  {
    seq(|claims|, k requires 0 <= k < |claims| => claims[k].verifying && Spans(b, claims[k].offset, claims[k].length, r))
  }

  /** Pins of verifiers that overlap the region; the rest of its pins belong to readers. */
  function VerifierPins(e: Entry, r: nat): nat
    requires e.blockPages > 0 && |e.parts| == |e.partStates|
  {
    CountTrue(PartFlags(e.parts, e.partStates, e.blockPages, r)) + CountTrue(FetchFlags(e.claims, e.blockPages, r))
  }

  predicate RetryPinsReady(e: Entry, o: nat, l: nat)
    requires WF(e) && Inside(e, o, l)
  {
    RangeBounds(e, o, l);
    forall r | RegionLo(e, o) <= r < RegionHi(e, o, l) :: e.pins[r] <= VerifierPins(e, r)
  }

  datatype RetryResult = RetryStale | RetryWithoutPin | RetryWaits | RetryReady

  function BeginRetry(e: Entry, c: FetchClaim): (Entry, RetryResult)
    requires WF(e)
  {
    var i := Find(e.claims, c);
    if e.stale || i == |e.claims| then (e, RetryStale)
    else if !e.claims[i].verifying then (e, RetryWithoutPin)
    else
      var a := e.claims[i];
      var e' := if a.retrying then e else
        e.(pages := Fill(e.pages, FirstPage(a.offset), TailHi(a), ReadPending),
           claims := e.claims[i := a.(published := 0, retrying := true)]);
      RetryKeepsShape(e, i);
      (e', if RetryPinsReady(e', a.offset, a.length) then RetryReady else RetryWaits)
  }

  // ---------------------------------------------------------------- checksum manifest and parts

  datatype ManifestResult = ManifestStale | ManifestNotNeeded | ManifestLoads

  function BeginManifest(e: Entry): (Entry, ManifestResult)
  {
    if e.stale then (e, ManifestStale)
    else if e.manifest == Loading then (e, ManifestNotNeeded)
    else if e.exported then
      (e.(manifest := if e.manifest == Unknown then Unavailable else e.manifest), ManifestNotNeeded)
    else if e.manifest != Unknown then (e, ManifestNotNeeded)
    else if exists k | 0 <= k < |e.claims| :: e.claims[k].verifying then (e, ManifestNotNeeded)
    else (e.(manifest := Loading, checksumOps := e.checksumOps + 1), ManifestLoads)
  }

  function Less(n: nat): nat { if n == 0 then 0 else n - 1 }

  predicate ManifestValid(e: Entry, parts: seq<ChecksumPart>)
  {
    && !e.stale && parts != [] && PartsTile(parts, e.size)
    && (forall k | 0 <= k < |parts| :: parts[k].value != "")
  }

  function FinishManifest(e: Entry, parts: seq<ChecksumPart>): Entry
  {
    if ManifestValid(e, parts) then
      e.(parts := parts, partStates := seq(|parts|, _ => Unverified), manifest := Available,
         checksumOps := Less(e.checksumOps))
    else ManifestUnavailable(e)
  }

  function ManifestUnavailable(e: Entry): Entry
  {
    e.(parts := [], partStates := [], manifest := Unavailable, checksumOps := Less(e.checksumOps))
  }

  datatype ChecksumResult =
    | ChecksumStale | ChecksumNone | ChecksumWait | ChecksumIsBad | ChecksumOverflow
    | ChecksumVerify(claim: ChecksumClaim)

  function ClaimChecksum(e: Entry, o: nat, l: nat, skip: bool): (Entry, ChecksumResult)
    requires WF(e)
  {
    if e.stale then (e, ChecksumStale)
    else if e.manifest != Available || l == 0 || e.exported || o >= e.size then (e, ChecksumNone)
    else ClaimPartFrom(e, 0, o, o + Min(l, e.size - o), skip)
  }

  function ClaimPartFrom(e: Entry, k: nat, lo: nat, hi: nat, skip: bool): (Entry, ChecksumResult)
    requires WF(e) && k <= |e.parts|
    decreases |e.parts| - k
  {
    if k == |e.parts| then (e, ChecksumNone)
    else if !PartOverlaps(e.parts[k], lo, hi) then ClaimPartFrom(e, k + 1, lo, hi, skip)
    else if e.partStates[k] == PartBad then (e, ChecksumIsBad)
    else if Checking(e.partStates[k]) then
      if skip then ClaimPartFrom(e, k + 1, lo, hi, skip) else (e, ChecksumWait)
    else
      RangeBounds(e, e.parts[k].offset, e.parts[k].size);
      if e.partStates[k] != Unverified || !PartClean(e, k) then ClaimPartFrom(e, k + 1, lo, hi, skip)
      else if PinsFull(e.pins, RegionLo(e, e.parts[k].offset), RegionHi(e, e.parts[k].offset, e.parts[k].size))
      then (e, ChecksumOverflow)
      else (VerifyPart(e, k), ChecksumVerify(ChecksumClaim(k, e.epoch, e.parts[k].offset, e.parts[k].size)))
  }

  predicate PartClean(e: Entry, k: nat)
    requires k < |e.parts|
    requires EndPage(e.parts[k].offset, e.parts[k].size) <= |e.pages|
  {
    AllState(e.pages, FirstPage(e.parts[k].offset), EndPage(e.parts[k].offset, e.parts[k].size), Clean)
  }

  function VerifyPart(e: Entry, k: nat): Entry
    requires WF(e) && k < |e.parts|
  {
    RangeBounds(e, e.parts[k].offset, e.parts[k].size);
    AddRegionPins(e, e.parts[k].offset, e.parts[k].size).(
      partStates := e.partStates[k := Verifying], checksumOps := e.checksumOps + 1)
  }

  function ChecksumMismatch(e: Entry, c: ChecksumClaim): Entry
  {
    if !e.stale && c.epoch == e.epoch && c.part < |e.partStates| && e.partStates[c.part] == Verifying
    then e.(partStates := e.partStates[c.part := Retrying]) else e
  }

  predicate CheckLive(e: Entry, c: ChecksumClaim)
  {
    c.epoch == e.epoch && c.part < |e.partStates| && Checking(e.partStates[c.part])
  }

  function BeginChecksumRetry(e: Entry, c: ChecksumClaim): (Entry, RetryResult)
    requires WF(e) && (CheckLive(e, c) ==> Inside(e, c.offset, c.size))
  {
    if e.stale || !CheckLive(e, c) then (e, RetryStale)
    else
      var e' := e.(partStates := e.partStates[c.part := Retrying]);
      (e', if RetryPinsReady(e', c.offset, c.size) then RetryReady else RetryWaits)
  }

  function EndCheck(e: Entry, c: ChecksumClaim, st: PartState): Entry
    requires e.blockPages > 0 && c.part < |e.partStates| && c.size > 0
  {
    DropRegionPins(e, c.offset, c.size).(
      partStates := e.partStates[c.part := st], checksumOps := Less(e.checksumOps))
  }

  function FinishChecksum(e: Entry, c: ChecksumClaim, valid: bool): Entry
    requires WF(e) && (CheckLive(e, c) ==> Inside(e, c.offset, c.size))
  {
    if !CheckLive(e, c) then e else EndCheck(e, c, if valid then Verified else PartBad)
  }

  function AbandonChecksum(e: Entry, c: ChecksumClaim): Entry
    requires WF(e) && (CheckLive(e, c) ==> Inside(e, c.offset, c.size))
  {
    if !CheckLive(e, c) then e
    else EndCheck(e.(pages := Turn(e.pages, FirstPage(c.offset), EndPage(c.offset, c.size), Clean, Missing)),
                  c, Unverified)
  }

  // ---------------------------------------------------------------- eviction

  /** The entry takes part in capacity eviction at all. */
  predicate Evictable(e: Entry)
  {
    !e.unlimited && !e.stale && !e.evictionDisabled && !e.dirty && !e.exported && |e.referenced| > 0
  }

  /** The region may be evicted now: unpinned, nothing pending or bad, something to free. */
  predicate Victim(e: Entry, r: nat)
    requires e.blockPages > 0 && r < |e.pins|
  {
    && e.pins[r] == 0
    && (forall p | 0 <= p < |e.pages| :: Block(e, p) == r ==> e.pages[p] == Clean || e.pages[p] == Missing)
    && (exists p | 0 <= p < |e.pages| :: Block(e, p) == r && e.pages[p] == Clean)
  }

  datatype Scan = Scan(hand: nat, referenced: seq<bool>, victim: int)

  /** The region under the hand. */
  function Under(hand: nat, regions: nat): (r: nat)
    requires regions > 0
    ensures r < regions
  {
    hand % regions
  }

  /** The hand is a 64-bit counter. */
  function Tick(hand: nat): (r: nat)
    ensures r < HAND_LIMIT
  {
    (hand + 1) % HAND_LIMIT
  }

  /** At most `n` steps of the second-chance hand. */
  function ClockScan(e: Entry, hand: nat, referenced: seq<bool>, n: nat): (r: Scan)
    requires e.blockPages > 0 && |referenced| == |e.pins| > 0 && hand < HAND_LIMIT
    ensures r.hand < HAND_LIMIT && |r.referenced| == |e.pins| && -1 <= r.victim < |e.pins|
    ensures r.victim >= 0 ==> Victim(e, r.victim)
    decreases n
  {
    if n == 0 then Scan(hand, referenced, -1)
    else
      var region := Under(hand, |referenced|);
      var next := Tick(hand);
      if referenced[region] then ClockScan(e, next, referenced[region := false], n - 1)
      else if Victim(e, region) then Scan(next, referenced, region)
      else ClockScan(e, next, referenced, n - 1)
  }

  function ScanEntry(e: Entry): Scan
    requires WF(e) && Evictable(e)
  {
    ClockScan(e, e.hand, e.referenced, |e.referenced|)
  }

  function TurnBlock(e: Entry, b: nat, from: PageState, to: PageState): (r: seq<PageState>)
    requires e.blockPages > 0
    ensures |r| == |e.pages|
    ensures forall p | 0 <= p < |e.pages| ::
              r[p] == if Block(e, p) == b && e.pages[p] == from then to else e.pages[p]
  {
    seq(|e.pages|, p requires 0 <= p < |e.pages| =>
      if Block(e, p) == b && e.pages[p] == from then to else e.pages[p])
  }

  /** Synchronous eviction of one region; `punched` is the outcome of stat and hole punch. */
  function EvictOne(e: Entry, punched: bool): (Entry, int)
    requires WF(e)
  {
    if !Evictable(e) then (e, -1)
    else
      var s := ScanEntry(e);
      var e' := e.(hand := s.hand, referenced := s.referenced);
      if s.victim < 0 then (e', -1)
      else if !punched then (e', -1)
      else (e'.(pages := TurnBlock(e, s.victim, Clean, Missing)), s.victim)
  }

  /** Pages of the block that an asynchronous eviction takes. */
  function CleanPages(e: Entry, b: nat): set<nat>
    requires e.blockPages > 0
  {
    set p: nat | p < |e.pages| && Block(e, p) == b && e.pages[p] == Clean
  }

  /** Asynchronous eviction takes its victim: clean pages become pending until the punch ends. */
  function EvictBegin(e: Entry): (Entry, int)
    requires WF(e)
  {
    if !Evictable(e) then (e, -1)
    else
      var s := ScanEntry(e);
      var e' := e.(hand := s.hand, referenced := s.referenced);
      if s.victim < 0 then (e', -1)
      else (e'.(pages := TurnBlock(e, s.victim, Clean, ReadPending)), s.victim)
  }

  function EvictEnd(e: Entry, taken: set<nat>, punched: bool): Entry
  {
    e.(pages := seq(|e.pages|, p requires 0 <= p < |e.pages| =>
         if p in taken then (if punched then Missing else Clean) else e.pages[p]))
  }

  // ---------------------------------------------------------------- life cycle

  predicate Quiescent(e: Entry)
  {
    e.claims == [] && e.checksumOps == 0 && e.pinnedRegions == 0
  }

  function Retire(e: Entry): Entry { e.(stale := true) }

  predicate Exportable(e: Entry, verify: bool)
    requires |e.parts| == |e.partStates|
  {
    && e.unlimited && !e.stale && !e.detached && !e.dirty && Quiescent(e)
    && (forall k | 0 <= k < |e.partStates| :: e.partStates[k] != PartBad)
    && (forall p | 0 <= p < |e.pages| :: e.pages[p] == Clean)
    && (verify ==> e.manifest == Available && (e.size != 0 ==> e.parts != []) &&
                   forall k | 0 <= k < |e.partStates| :: e.partStates[k] == Verified)
  }

  function TryExport(e: Entry, verify: bool): (Entry, bool)
    requires WF(e)
  {
    if Exportable(e, verify) then (e.(exported := true, evictionDisabled := true), true) else (e, false)
  }

  /** The writer's way in: an exported or stale generation refuses. */
  function PrepareWrite(e: Entry): (Entry, bool)
  {
    if e.exported || e.stale then (e, false) else (e.(dirty := true), true)
  }

  // ---------------------------------------------------------------- bounds used above

  /** A byte range inside the object touches existing pages and existing regions. */
  lemma RangeBounds(e: Entry, o: nat, l: nat)
    requires WF(e) && Inside(e, o, l)
    ensures FirstPage(o) < EndPage(o, l) <= |e.pages|
    ensures RegionLo(e, o) < RegionHi(e, o, l) <= |e.pins|
  {
    QuotMonotone(FirstPage(o), EndPage(o, l) - 1, e.blockPages);
    BlockInRange(e, EndPage(o, l) - 1);
  }

  /** Block numbers of existing pages are regions. */
  lemma BlockInRange(e: Entry, p: nat)
    requires WF(e) && p < |e.pages|
    ensures Block(e, p) < |e.pins|
  {
    PiecesBounds(|e.pages|, e.blockPages);
    QuotBelow(p, e.blockPages, |e.pins|);
  }

  /** Where blocks `[start, stop)` begin and end, in pages and in bytes. */
  lemma BlockSpan(e: Entry, start: nat, stop: nat)
    requires WF(e) && start < stop <= |e.pins|
    ensures Times(start, e.blockPages) < |e.pages|
    ensures Times(start, e.blockPages) < Times(stop, e.blockPages)
    ensures Times(start, BlockSize(e)) < e.size
    ensures Times(start, BlockSize(e)) == Times(start, e.blockPages) * PAGE
    ensures Times(stop, BlockSize(e)) == Times(stop, e.blockPages) * PAGE
  {
    PiecesBounds(|e.pages|, e.blockPages);
    TimesMonotone(start, |e.pins|, e.blockPages);
    TimesMonotone(start, stop, e.blockPages);
    TimesScale(start, e.blockPages);
    TimesScale(stop, e.blockPages);
  }

  lemma RetryKeepsShape(e: Entry, i: nat)
    requires WF(e) && i < |e.claims|
    ensures Inside(e, e.claims[i].offset, e.claims[i].length)
    ensures WF(e.(pages := Fill(e.pages, FirstPage(e.claims[i].offset), TailHi(e.claims[i]), ReadPending),
                  claims := e.claims[i := e.claims[i].(published := 0, retrying := true)]))
  {
    var a := e.claims[i].(published := 0, retrying := true);
    assert Aligned(e, e.claims[i]);
    assert Aligned(e, a);
  }

  /** One part of the loop of `claim_checksum`. */
  lemma ClaimPartUnfold(e: Entry, k: nat, lo: nat, hi: nat, skip: bool)
    requires WF(e) && k < |e.parts|
    ensures |e.partStates| == |e.parts| && Inside(e, e.parts[k].offset, e.parts[k].size)
    ensures EndPage(e.parts[k].offset, e.parts[k].size) <= |e.pages| && e.blockPages > 0
    ensures RegionHi(e, e.parts[k].offset, e.parts[k].size) <= |e.pins|
    ensures var part, state := e.parts[k], e.partStates[k];
            ClaimPartFrom(e, k, lo, hi, skip) ==
            if !PartOverlaps(part, lo, hi) then ClaimPartFrom(e, k + 1, lo, hi, skip)
            else if state == PartBad then (e, ChecksumIsBad)
            else if Checking(state) then if skip then ClaimPartFrom(e, k + 1, lo, hi, skip) else (e, ChecksumWait)
            else if state != Unverified ||
                    !AllState(e.pages, FirstPage(part.offset), EndPage(part.offset, part.size), Clean)
            then ClaimPartFrom(e, k + 1, lo, hi, skip)
            else if PinsFull(e.pins, RegionLo(e, part.offset), RegionHi(e, part.offset, part.size)) then (e, ChecksumOverflow)
            else (VerifyPart(e, k), ChecksumVerify(ChecksumClaim(k, e.epoch, part.offset, part.size)))
  {
    hide Aligned, Sum, AllState, PinsFull, VerifyPart, Quot;
    RangeBounds(e, e.parts[k].offset, e.parts[k].size);
  }

  lemma ClaimPartEnd(e: Entry, lo: nat, hi: nat, skip: bool)
    requires WF(e)
    ensures ClaimPartFrom(e, |e.parts|, lo, hi, skip) == (e, ChecksumNone)
  {
  }
}
