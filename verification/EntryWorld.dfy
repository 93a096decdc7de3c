/** One cache generation together with its surroundings: the bytes of the data file and of
    the remote object, the readers that hold pins, the progress of each fetch, and the
    evictions whose hole punch is in flight.

    An `Event` is one locked operation of the entry or one action outside the lock. The
    oracles of the environment (did a punch succeed, how many bytes arrived, which bytes)
    are parameters of the event, so a sequence of events is one interleaving.
 */
module EntryWorld {
  import opened Geometry
  import opened EntryModel
  import opened EntryOwnership

  type Byte = x: int | 0 <= x < 256

  /** A pin taken by `pin_clean` (`clean`) or by `pin`. */
  datatype Reader = Reader(token: nat, offset: nat, length: nat, clean: bool)

  /** Bytes of the claim that its fetcher has written, and whether a retry was told that old readers are gone. */
  datatype Progress = Progress(written: nat, ready: bool)

  /** `tainted` are the bytes that the environment got wrong: the last write there was not the object's
      byte, or a hole punch erased them and was reported as failed. A faithful write clears them. */
  datatype World = World(
    e: Entry, ev: seq<Evicting>, readers: seq<Reader>, progress: map<nat, Progress>,
    partReady: seq<bool>, file: seq<Byte>, remote: seq<Byte>, tainted: set<nat>)

  datatype Event =
    | Claim(o: nat, l: nat, expansion: nat)
    | Write(fetch: FetchClaim, data: seq<Byte>)
    | Publish(fetch: FetchClaim, published: nat, upTo: nat, final: bool)
    | Finish(fetch: FetchClaim, holes: set<nat>)
    | Rollback(fetch: FetchClaim)
    | Spoil(fetch: FetchClaim)
    | VerifyFetch(fetch: FetchClaim)
    | Retry(fetch: FetchClaim)
    | ReadPin(token: nat, o: nat, l: nat)
    | RawPin(token: nat, o: nat, l: nat)
    | Release(reader: nat)
    | Touch(o: nat, l: nat)
    | LoadManifest
    | ManifestLoaded(parts: seq<ChecksumPart>)
    | ManifestFailed
    | CheckPart(o: nat, l: nat, skip: bool)
    | Mismatch(check: ChecksumClaim)
    | RetryPart(check: ChecksumClaim)
    | WritePart(check: ChecksumClaim, at: nat, data: seq<Byte>)
    | FinishPart(check: ChecksumClaim, valid: bool)
    | AbandonPart(check: ChecksumClaim)
    | EvictNow(punched: bool)
    | EvictStart
    | Punch(eviction: nat)
    | EvictStop(eviction: nat, reported: bool)
    | Retired
    | Export(verify: bool)
    | DisableEviction
    | WriterEnters

  // ---------------------------------------------------------------- what the callers promise

  /** The claim is active and may touch its tail: a retry has first to be told that it may. */
  predicate MayTouch(w: World, i: nat)
    requires i < |w.e.claims|
  {
    var a := w.e.claims[i];
    a.retrying ==> a.id in w.progress && w.progress[a.id].ready
  }

  ghost predicate TailSettled(e: Entry, i: nat)
    requires i < |e.claims|
  {
    forall p | 0 <= p < |e.pages| && InTail(e.claims[i], p) :: e.pages[p] != ReadPending
  }

  /** A live verification claim is one that `claim_checksum` issued for that part. */
  predicate Fits(e: Entry, c: ChecksumClaim)
    requires |e.parts| == |e.partStates|
  {
    CheckLive(e, c) ==> c.offset == e.parts[c.part].offset && c.size == e.parts[c.part].size
  }

  ghost predicate Enabled(w: World, event: Event)
    requires WF(w.e)
  {
    match event
    case Write(c, data) =>
      var i := Find(w.e.claims, c);
      && i < |w.e.claims| && MayTouch(w, i) && c.id in w.progress
      && w.progress[c.id].written + |data| <= c.length
    case Publish(c, _, upTo, _) =>
      Active(w.e, c) ==> c.id in w.progress && upTo <= w.progress[c.id].written
    case Finish(c, holes) =>
      var i := Find(w.e.claims, c);
      i < |w.e.claims| ==>
        && (MayTouch(w, i) || TailSettled(w.e, i))
        && forall b | b in holes :: Unfinished(w.e, w.e.claims[i], b)
    case ReadPin(t, o, l) => Inside(w.e, o, l) && forall k | 0 <= k < |w.readers| :: w.readers[k].token != t
    case RawPin(t, o, l) => Inside(w.e, o, l) && forall k | 0 <= k < |w.readers| :: w.readers[k].token != t
    case Release(k) => k < |w.readers|
    case ManifestLoaded(_) => w.e.manifest == Loading
    case ManifestFailed => w.e.manifest == Loading
    case Mismatch(c) => Fits(w.e, c)
    case RetryPart(c) => Fits(w.e, c)
    case FinishPart(c, _) => Fits(w.e, c)
    case AbandonPart(c) => Fits(w.e, c)
    case WritePart(c, at, data) =>
      && Fits(w.e, c) && CheckLive(w.e, c) && w.e.partStates[c.part] == Retrying
      && c.part < |w.partReady| && w.partReady[c.part]
      && c.offset <= at && at + |data| <= c.offset + c.size
    case Punch(k) => k < |w.ev| && !w.ev[k].punched
    case EvictStop(k, reported) => k < |w.ev| && (reported ==> w.ev[k].punched)
    case _ => true
  }

  // ---------------------------------------------------------------- effect of an event

  function Overwrite(file: seq<Byte>, at: nat, data: seq<Byte>): (r: seq<Byte>)
    requires at + |data| <= |file|
    ensures |r| == |file|
    ensures forall x | 0 <= x < |file| :: r[x] == if at <= x < at + |data| then data[x - at] else file[x]
  {
    file[..at] + data + file[at + |data|..]
  }

  /** Punching whole blocks leaves zeros. */
  function PunchBlocks(file: seq<Byte>, b: nat, holes: set<nat>): (r: seq<Byte>)
    requires b > 0
    ensures |r| == |file|
    ensures forall x | 0 <= x < |file| :: r[x] == if Quot(x / PAGE, b) in holes then 0 else file[x]
  {
    seq(|file|, x requires 0 <= x < |file| => if Quot(x / PAGE, b) in holes then 0 else file[x])
  }

  predicate Faithful(remote: seq<Byte>, at: nat, data: seq<Byte>)
    requires at + |data| <= |remote|
  {
    forall x | 0 <= x < |data| :: data[x] == remote[at + x]
  }

  function Retainted(tainted: set<nat>, remote: seq<Byte>, at: nat, data: seq<Byte>): (r: set<nat>)
    requires at + |data| <= |remote|
    ensures forall x: nat :: x in r <==> if at <= x < at + |data| then data[x - at] != remote[x] else x in tainted
  {
    (set x | x in tainted && !(at <= x < at + |data|)) + set x: nat | at <= x < at + |data| && data[x - at] != remote[x]
  }

  /** Bytes of the pages that differ from the object. */
  function Erased(file: seq<Byte>, remote: seq<Byte>, pages: set<nat>): set<nat>
    requires |file| == |remote|
  {
    set x: nat | x < |file| && x / PAGE in pages && file[x] != remote[x]
  }

  ghost function WriteBytes(w: World, c: FetchClaim, data: seq<Byte>): World
    requires Sound(w) && Enabled(w, Write(c, data))
  {
    ActiveBounds(w, c);
    var at := c.offset + w.progress[c.id].written;
    w.(file := Overwrite(w.file, at, data),
       progress := w.progress[c.id := w.progress[c.id].(written := w.progress[c.id].written + |data|)],
       tainted := Retainted(w.tainted, w.remote, at, data))
  }

  ghost function RetryFetch(w: World, c: FetchClaim): World
    requires Sound(w)
  {
    var (e', r) := BeginRetry(w.e, c);
    if r.RetryStale? || r.RetryWithoutPin? then w
    else
      var a := w.e.claims[Find(w.e.claims, c)];
      var was := if c.id in w.progress then w.progress[c.id] else Progress(0, false);
      var written := if a.retrying then was.written else 0;
      var ready := (a.retrying && was.ready) || r == RetryReady;
      w.(e := e', progress := w.progress[c.id := Progress(written, ready)])
  }

  ghost function RetryCheck(w: World, c: ChecksumClaim): World
    requires Sound(w) && Fits(w.e, c)
  {
    LiveInside(w.e, c);
    var (e', r) := BeginChecksumRetry(w.e, c);
    w.(e := e', partReady :=
         if r.RetryStale? || c.part >= |w.partReady| then w.partReady
         else w.partReady[c.part := r == RetryReady || (w.partReady[c.part] && w.e.partStates[c.part] == Retrying)])
  }

  ghost function ClaimRange(w: World, o: nat, l: nat, x: nat): World
    requires Sound(w)
  {
    var (e', r) := ClaimFetch(w.e, o, l, x);
    w.(e := e', progress := if r.Claimed? then w.progress[r.claim.id := Progress(0, false)] else w.progress)
  }

  ghost function EndClaimed(w: World, c: FetchClaim, holes: set<nat>): World
    requires Sound(w)
  {
    if !Active(w.e, c) then w
    else w.(e := FinishFetch(w.e, c), file := PunchBlocks(w.file, w.e.blockPages, holes))
  }

  ghost function PinRange(w: World, t: nat, o: nat, l: nat, clean: bool): World
    requires Sound(w) && Inside(w.e, o, l)
  {
    var (e', r) := if clean then PinClean(w.e, o, l) else Pin(w.e, o, l);
    w.(e := e', readers := if r == Admitted then w.readers + [Reader(t, o, l, clean)] else w.readers)
  }

  ghost function ClaimPart(w: World, o: nat, l: nat, skip: bool): World
    requires Sound(w)
  {
    var (e', r) := ClaimChecksum(w.e, o, l, skip);
    w.(e := e', partReady := if r.ChecksumVerify? && r.claim.part < |w.partReady|
                             then w.partReady[r.claim.part := false] else w.partReady)
  }

  ghost function FailPart(w: World, c: ChecksumClaim): World
    requires Sound(w)
  {
    var e' := ChecksumMismatch(w.e, c);
    w.(e := e', partReady := if e' != w.e && c.part < |w.partReady| then w.partReady[c.part := false] else w.partReady)
  }

  ghost function RewritePart(w: World, c: ChecksumClaim, at: nat, data: seq<Byte>): World
    requires Sound(w) && Enabled(w, WritePart(c, at, data))
  {
    LiveInside(w.e, c);
    w.(file := Overwrite(w.file, at, data), tainted := Retainted(w.tainted, w.remote, at, data))
  }

  ghost function EvictRegion(w: World, punched: bool): World
    requires Sound(w)
  {
    var (e', victim) := EvictOne(w.e, punched);
    if victim < 0 then w.(e := e')
    else w.(e := e', file := PunchBlocks(w.file, w.e.blockPages, {victim as nat}))
  }

  ghost function TakeRegion(w: World): World
    requires Sound(w)
  {
    var (e', victim) := EvictBegin(w.e);
    if victim < 0 then w.(e := e')
    else w.(e := e', ev := w.ev + [Evicting(victim, CleanPages(w.e, victim), false)])
  }

  ghost function Apply(w: World, event: Event): World
    requires Sound(w) && Enabled(w, event)
  {
    match event
    case Claim(o, l, x) => ClaimRange(w, o, l, x)
    case Write(c, data) => WriteBytes(w, c, data)
    case Publish(c, published, upTo, final) => w.(e := PublishClean(w.e, c, published, upTo, final))
    case Finish(c, holes) => EndClaimed(w, c, holes)
    case Rollback(c) => w.(e := RollbackFetch(w.e, c))
    case Spoil(c) => w.(e := MarkBad(w.e, c))
    case VerifyFetch(c) => w.(e := PinFetchVerification(w.e, c).0)
    case Retry(c) => RetryFetch(w, c)
    case ReadPin(t, o, l) => PinRange(w, t, o, l, true)
    case RawPin(t, o, l) => PinRange(w, t, o, l, false)
    case Release(k) =>
      w.(e := Unpin(w.e, w.readers[k].offset, w.readers[k].length), readers := Without(w.readers, k))
    case Touch(o, l) => if l == 0 then w else w.(e := SetReferenced(w.e, o, l))
    case LoadManifest => w.(e := BeginManifest(w.e).0)
    case ManifestLoaded(parts) =>
      var e' := FinishManifest(w.e, parts);
      w.(e := e', partReady := seq(|e'.parts|, _ => false))
    case ManifestFailed => w.(e := ManifestUnavailable(w.e), partReady := [])
    case CheckPart(o, l, skip) => ClaimPart(w, o, l, skip)
    case Mismatch(c) => FailPart(w, c)
    case RetryPart(c) => RetryCheck(w, c)
    case WritePart(c, at, data) => RewritePart(w, c, at, data)
    case FinishPart(c, valid) => LiveInside(w.e, c); w.(e := FinishChecksum(w.e, c, valid))
    case AbandonPart(c) => LiveInside(w.e, c); w.(e := AbandonChecksum(w.e, c))
    case EvictNow(punched) => EvictRegion(w, punched)
    case EvictStart => TakeRegion(w)
    case Punch(k) =>
      w.(file := PunchBlocks(w.file, w.e.blockPages, {w.ev[k].block}), ev := w.ev[k := w.ev[k].(punched := true)])
    case EvictStop(k, reported) =>
      w.(e := EvictEnd(w.e, w.ev[k].taken, reported), ev := Without(w.ev, k),
         tainted := if w.ev[k].punched && !reported then w.tainted + Erased(w.file, w.remote, w.ev[k].taken) else w.tainted)
    case Retired => w.(e := Retire(w.e))
    case Export(verify) => w.(e := TryExport(w.e, verify).0)
    case DisableEviction => w.(e := w.e.(evictionDisabled := true))
    case WriterEnters => w.(e := PrepareWrite(w.e).0)
  }

  // ---------------------------------------------------------------- invariants

  /** What `Apply` needs to be defined. */
  ghost predicate Sound(w: World)
  {
    && WF(w.e) && |w.file| == |w.remote| == w.e.size
    && |w.partReady| == |w.e.parts|
    && (forall k | 0 <= k < |w.readers| :: Inside(w.e, w.readers[k].offset, w.readers[k].length))
  }

  /** Every fetch has written at least what it has published, and no more than its claim. */
  ghost predicate ProgressOk(claims: seq<ActiveFetch>, progress: map<nat, Progress>)
  {
    forall i | 0 <= i < |claims| ::
      && claims[i].id in progress
      && claims[i].published <= progress[claims[i].id].written <= claims[i].length
  }

  /** Verification and retry go in order, and never beside a checksum manifest. */
  ghost predicate Modes(e: Entry)
  {
    && (forall i | 0 <= i < |e.claims| && e.claims[i].retrying :: e.claims[i].verifying)
    && (forall i | 0 <= i < |e.claims| && e.claims[i].verifying ::
          (e.claims[i].retrying || e.claims[i].published == e.claims[i].length) &&
          e.manifest != Available && e.manifest != Loading)
  }

  function ReaderFlags(readers: seq<Reader>, b: nat, r: nat): seq<bool>
    requires b > 0
  {
    seq(|readers|, k requires 0 <= k < |readers| => Spans(b, readers[k].offset, readers[k].length, r))
  }

  /** The pin ledger: each region's count is the number of its holders. */
  ghost predicate Ledger(e: Entry, readers: seq<Reader>)
    requires e.blockPages > 0 && |e.parts| == |e.partStates|
  {
    forall r | 0 <= r < |e.pins| ::
      e.pins[r] == CountTrue(ReaderFlags(readers, e.blockPages, r)) + VerifierPins(e, r)
  }

  function CheckFlags(states: seq<PartState>): seq<bool>
  {
    seq(|states|, k requires 0 <= k < |states| => Checking(states[k]))
  }

  ghost predicate OpsLedger(e: Entry)
  {
    e.checksumOps == (if e.manifest == Loading then 1 else 0) + CountTrue(CheckFlags(e.partStates))
  }

  ghost predicate PageUnowned(claims: seq<ActiveFetch>, ev: seq<Evicting>, b: nat, p: nat)
    requires b > 0
  {
    NoTail(claims, p) && NoEviction(ev, b, p)
  }

  /** Blocks under verification belong to no fetch tail and to no eviction. */
  ghost predicate PartsGuarded(n: nat, claims: seq<ActiveFetch>, ev: seq<Evicting>, b: nat,
                               parts: seq<ChecksumPart>, states: seq<PartState>)
    requires b > 0 && |parts| == |states|
  {
    forall k, p | 0 <= k < |parts| && Checking(states[k]) && 0 <= p < n &&
                  Covers(b, parts[k].offset, parts[k].size, p) ::
      PageUnowned(claims, ev, b, p)
  }

  ghost predicate FetchesGuarded(n: nat, claims: seq<ActiveFetch>, ev: seq<Evicting>, b: nat)
    requires b > 0
  {
    && (forall i | 0 <= i < |claims| && claims[i].verifying :: RangeReserved(n, claims, ev, b, i))
    && (forall i, j | 0 <= i < |claims| && 0 <= j < |claims| && i != j && claims[i].verifying && claims[j].verifying ::
          Apart(claims[i], claims[j]))
  }

  predicate Apart(a: ActiveFetch, c: ActiveFetch)
  {
    a.offset + a.length <= c.offset || c.offset + c.length <= a.offset
  }

  /** A retry that has not been told yet that its old readers are gone. */
  predicate Unready(a: ActiveFetch, progress: map<nat, Progress>)
  {
    a.retrying && !(a.id in progress && progress[a.id].ready)
  }

  /** No eviction holds the page's block, and no tail but that of a retry still waiting reaches it. */
  ghost predicate PageStable(claims: seq<ActiveFetch>, ev: seq<Evicting>, b: nat, progress: map<nat, Progress>, p: nat)
    requires b > 0
  {
    && NoEviction(ev, b, p)
    && forall i | 0 <= i < |claims| && InTail(claims[i], p) :: Unready(claims[i], progress)
  }

  ghost predicate ReadersGuarded(n: nat, claims: seq<ActiveFetch>, ev: seq<Evicting>, b: nat,
                                 readers: seq<Reader>, progress: map<nat, Progress>)
    requires b > 0
  {
    forall k, p | 0 <= k < |readers| && readers[k].clean && 0 <= p < n &&
                  Covers(b, readers[k].offset, readers[k].length, p) ::
      PageStable(claims, ev, b, progress, p)
  }

  /** A part whose retry may write has no admitted reader on its bytes. */
  ghost predicate PartRetriesGuarded(parts: seq<ChecksumPart>, states: seq<PartState>, partReady: seq<bool>,
                                     readers: seq<Reader>)
    requires |parts| == |states| == |partReady|
  {
    forall k, r | 0 <= k < |parts| && states[k] == Retrying && partReady[k] &&
                  0 <= r < |readers| && readers[r].clean ::
      !PartOverlaps(parts[k], readers[r].offset, readers[r].offset + readers[r].length)
  }

  ghost predicate Safe(w: World)
  {
    && Sound(w)
    && Own(w.e, w.ev)
    && ProgressOk(w.e.claims, w.progress)
    && Modes(w.e)
    && Ledger(w.e, w.readers)
    && OpsLedger(w.e)
    && PartsGuarded(|w.e.pages|, w.e.claims, w.ev, w.e.blockPages, w.e.parts, w.e.partStates)
    && FetchesGuarded(|w.e.pages|, w.e.claims, w.ev, w.e.blockPages)
    && ReadersGuarded(|w.e.pages|, w.e.claims, w.ev, w.e.blockPages, w.readers, w.progress)
    && PartRetriesGuarded(w.e.parts, w.e.partStates, w.partReady, w.readers)
  }

  // ---------------------------------------------------------------- coherence

  /** Byte `x` of the claim's range can still become clean without being written again. */
  ghost predicate ClaimPledges(a: ActiveFetch, progress: map<nat, Progress>, x: nat)
  {
    || (a.id in progress && a.offset + a.published <= x < a.offset + progress[a.id].written)
    || PriorClean(a, x / PAGE)
    || (a.verifying && a.offset <= x < a.offset + a.length)
  }

  /** Rolling the claim back would make page `p` clean. */
  predicate PriorClean(a: ActiveFetch, p: nat)
  {
    InTail(a, p) && 0 <= p - FirstPage(a.offset) < |a.priorStates| && a.priorStates[p - FirstPage(a.offset)] == Clean
  }

  predicate EvictionPledges(v: Evicting, p: nat) { !v.punched && p in v.taken }

  /** Some reader can see byte `x`, now or after steps that do not write it. */
  ghost predicate Pledged(w: World, x: nat)
  {
    || (x / PAGE < |w.e.pages| && w.e.pages[x / PAGE] == Clean)
    || (exists k :: 0 <= k < |w.ev| && EvictionPledges(w.ev[k], x / PAGE))
    || (exists i :: 0 <= i < |w.e.claims| && ClaimPledges(w.e.claims[i], w.progress, x))
  }

  function ByteOf(bytes: seq<Byte>, x: nat): Byte { if x < |bytes| then bytes[x] else 0 }

  ghost predicate ByteRight(w: World, x: nat)
  {
    Pledged(w, x) ==> ByteOf(w.file, x) == ByteOf(w.remote, x)
  }

  ghost predicate ByteCoherent(w: World, x: nat) { x in w.tainted || ByteRight(w, x) }

  ghost predicate Coherent(w: World)
  {
    forall x: nat | x < |w.file| :: ByteCoherent(w, x)
  }

  ghost predicate Inv(w: World)
  {
    Safe(w) && Coherent(w)
  }

  // ---------------------------------------------------------------- bounds

  lemma ActiveBounds(w: World, c: FetchClaim)
    requires Sound(w) && Active(w.e, c)
    ensures c.length > 0 && c.offset + c.length <= |w.file| == |w.remote|
  {
    assert Aligned(w.e, w.e.claims[Find(w.e.claims, c)]);
  }

  lemma LiveInside(e: Entry, c: ChecksumClaim)
    requires WF(e) && Fits(e, c)
    ensures CheckLive(e, c) ==> Inside(e, c.offset, c.size)
  {
  }
}
