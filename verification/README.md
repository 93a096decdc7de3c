# ngs3fs: a model of the cache, the reactor and uploads

ngs3fs is a FUSE file system over an object store. It keeps a page-granular local cache of
remote objects, runs all file and socket I/O through an io_uring reactor, and uploads written
files over HTTP/1.1 or HTTP/2. This project models the parts where many operations interleave
and proves what holds in every interleaving.

**One cache generation** (the `Entry` modules, `PageBitmap`, `CacheEntryImpl`). A
`CacheEntry` holds a two-bit state per page (missing, pending, clean, bad), the active fetches
with their moving published prefix, pin counts per region, checksum parts, a CLOCK hand and a
few flags. `EntryModel` gives every operation as a function on an `Entry`; each runs under the
entry's mutex and is therefore one step. `EntryWorld` puts the entry among its environment: the
bytes of the data file, the remote object, readers between pin and unpin, fetches writing with
arbitrary bytes and progress, and asynchronous hole punches whose outcome is reported
separately from their effect. An `Event` is one step of the entry or of the environment, and a
run is any sequence of enabled events. `Safe` collects what every run keeps: block-aligned
claims, one owner per pending page, the pin ledger, and the guards that keep claims and
evictions away from readers and verifiers. `Inv` adds coherence, byte by byte: a byte is excepted
only while the last write there was wrong or a punch of it was misreported. `PageBitmap` holds the
states packed into 64-bit words with the masks of the source, and `CacheEntryImpl` is the entry as
a class over such a bitmap, with the loops of the source. Each of its methods is proved to do
exactly what its function in `EntryModel` does and, by `EntryWellFormed`, to leave the entry valid
for the next call. What these functions mean is stated apart from them: `EntryLaws` says, in pages,
parts and pins, exactly when each operation acts and what it changes, and `EntryVerdicts` ties the
state of every checksum part to the last verdict in the history of the run.

**Names and keys** (`CacheNames`, `CacheTree`, `KeyGate`). Keys become paths by encoding each
component (plain, base64url of section 5 of RFC 4648, or a digest). The on-disk tree turns a
file into a directory when a longer key arrives, by a few calls and a rollback. The key gate admits
asynchronous operations whose keys share no path.

**Cached writes** (`DirtyWrite`). Every store into the mapped header and every file operation of
a writer is a step, and a crash can fall between any two.

**The reactor** (`ReactorIo`, `ReactorResults`, `ReactorImpl`, `Admission`). An I/O request lives in a pool, has one
operation in the kernel and perhaps a cancellation; completions come in any order. `ReactorResults`
tells the story of each operation from the events and proves that its callback hears the result
the story calls for. `ReactorImpl`
is the reactor as a class that takes these steps in place. `Admission` is the protocol between the
ingress reactor and its workers, one step per atomic access.

**Uploads** (`Upload`, `UploadImpl`). Source segments, short transfers and HTTP/2 frames
(sections 4.1 and 6.1 of RFC 9113).

**Capacity** (`Capacity`). The ledger of reservations and the eviction that makes room.

Six promises do not hold without a condition. Each is stated with the exact condition and with a
run or state in which it fails:

- A clean page can show zeros after an eviction whose punch took effect but was reported as
  failed (`EntryRuns.MisreportedPunchBreaksCoherence`, `EntryCoherence.CoherentByEvictStop`). The
  reactor reports a successful operation as failed exactly when it was timed out or cancelled or
  the reactor is shutting down (`ReactorIo.SuccessReportedIffUndisturbed`).
- Two CLOCK scans find a victim whenever there is one exactly when neither scan crosses a visible
  wrap of the 64-bit hand (`EntryClock.ClockCompleteIffSmooth`, `EntryClock.WrapBreaksTwoScans`).
- A crash while a dirty marker is being created leaves a marker without a key, and recovery of the
  cache then fails. It fails exactly when the creation of a marker was the last that happened to
  it (`DirtyWrite.CrashIsSafe`, `DirtyWrite.BlankMarkerIff`, `DirtyWrite.BlankMarkerIsReachable`).
- A write that was isolated is resumed by recovery after all if an upload id is stored later, which
  nothing prevents; between operations that is the exact condition
  (`DirtyWrite.QuietWriteResumesIff`, `DirtyWrite.IsolationIsUndone`).
- Promoting a file to a directory is invisible to lookups if and only if it does not stop between
  moving the file away and moving it in or back (`CacheTree.StopIsInvisibleIff`,
  `CacheTree.StrandedFile`).
- Without limits the counter of pending reservations saturates, and is exact exactly when the sum
  still fits (`Capacity.ReserveExactIff`); afterwards a cancellation can leave it at zero beside an
  outstanding reservation (`Capacity.SaturationForgets`).

## Model

| member | source | states |
|---|---|---|
| EntryRuns.CleanPagesHoldTheObject | src/cache.cpp:5872-6224 | cache coherence: after any interleaving of claims, writes, publications, rollbacks, retries, checks and evictions, every byte of a clean page is the object's byte, unless the last write of that byte was wrong or a punch that erased it was reported as failed |
| EntryRuns.RunKeepsInv | src/cache.cpp:5872-6651 | safety and coherence are kept by every run of one generation |
| EntryRuns.RunKeepsObject | src/cache.cpp:5872-6651 | no run changes the object or the length of the file |
| EntryRuns.HonestRunTaintsNothing | src/cache.cpp:5872-6651 | if every fetch writes the object's bytes and no finished punch is reported as failed, no byte is excepted from coherence |
| EntryRuns.FreshSafe | src/cache.cpp:5000-5042 | a generation as the constructor leaves it satisfies the whole safety invariant |
| EntryRuns.FreshInvIff | src/cache.cpp:5000-5042 | a fresh generation satisfies safety and coherence exactly when its clean pages hold the object |
| EntryRuns.CrashKeepsInv | src/cache.cpp:5000-5042 | reopening after a crash at any point, with any punches of blocks without clean or bad pages, keeps coherence and exactly the clean pages |
| EntryRuns.MisreportedPunchBreaksCoherence | src/cache.cpp:1207-1220 | a run from a coherent start that ends with a clean page of zeros where the object has a byte |
| EntryRuns.PendingPagesAreOwned | src/cache.cpp:5916-5955 | in every reachable state a pending page has one owner, tails and evictions are disjoint, and pages under eviction are still pending |
| EntryRuns.PinnedBytesNeverMove | src/cache.cpp:5689-5718 | bytes admitted by pin_clean do not change before their unpin, whatever else runs and whatever is written |
| EntryOwnership.OneOwner | src/cache.cpp:5916-5955 | a pending page belongs to exactly one fetch tail or one eviction, and its block has no clean page |
| EntryOwnership.EvictionNeverAborts | src/cache.cpp:1207-1218 | when an eviction ends all its pages are pending, so the abort there cannot fire |
| EntryLedger.RegionReadersGone | src/cache.cpp:6434-6460 | a region's pins are covered by its verifiers exactly when no reader is on it |
| EntryLedger.RetryReadyMeansNoReader | src/cache.cpp:6434-6460 | the retry readiness test says yes exactly when no reader is on any block of the range |
| EntrySafety.StepKeepsSafe | src/cache.cpp:5689-6651 | every operation and every environment step keeps ownership, pin ledger, operation counter and guards |
| EntryCoherence.OnlyMutableBytesChange | src/cache.cpp:5872-6651 | a step changes a byte only under an unpublished tail, a ready part retry, an eviction in flight, or a region that eviction may take |
| EntryCoherence.PinnedImmutable | src/cache.cpp:5689-5718 | no byte under an admitted reader is in such a place |
| EntryCoherence.PinnedBytesStable | src/cache.cpp:5689-5718 | no single step changes a byte that an admitted reader holds |
| EntryCoherence.CoherentByEvictStop | src/cache.cpp:1207-1220 | ending an eviction keeps a byte coherent if and only if the punch was reported, did not happen there, or left the object's byte |
| EntryCoherence.StepKeepsByte | src/cache.cpp:5872-6651 | every step keeps each byte coherent, whatever it did to others |
| EntryCoherence.TaintCleared | src/cache.cpp:6175-6224 | a byte that was wrong is excepted until the object's byte is written there |
| EntryCoherence.HonestyTaintsNothing | src/cache.cpp:1207-1220 | an honest write or report excepts no further byte |
| EntryCoherence.StepKeepsInv | src/cache.cpp:5872-6651 | one step keeps safety and coherence |
| EntryRetirement.QuiescentIffDrained | src/cache.cpp:6557-6582 | the quiescence test holds exactly when every claim, pin and check has been returned and no manifest is loading |
| EntryRetirement.RetiredOnlyDrains | src/cache.cpp:5875-5879 | once stale, no step admits a fetch, a pin or a check |
| EntryRetirement.RetirementIsAbsorbing | src/cache.cpp:6557-6582 | a stale generation stays stale, and once quiescent it stays quiescent |
| EntryRetirement.ExportFreezes | src/cache.cpp:5151-5180 | a successful export finds all pages clean and nothing under way, and disables eviction |
| EntryRetirement.FrozenStays | src/cache.cpp:5151-5180 | no event changes a page or a byte of an exported generation |
| EntryRetirement.ExportedNeverChanges | src/cache.cpp:5151-5180 | after an export no run changes a page or a byte, starts a fetch or check, or evicts |
| EntryClock.VisitsAllIffSmooth | src/cache.cpp:6594-6600 | one scan looks at every region exactly when its hand does not visibly wrap |
| EntryClock.TwoScansEvict | src/cache.cpp:6584-6651 | two smooth scans find a region exactly when an unpinned one with a clean page and only clean or missing pages exists |
| EntryClock.WrapBreaksTwoScans | src/cache.cpp:6594-6600 | for every hand and region count without two smooth scans there is an entry whose victim both scans miss |
| EntryClock.ClockCompleteIffSmooth | src/cache.cpp:6584-6651 | two scans are complete for all entries with this hand if and only if both are smooth |
| PageBitmap.SetFieldExact | src/cache.cpp:5192-5208 | storing a page state changes that page's two bits and no others |
| PageBitmap.MaskedTest | src/cache.cpp:5225-5251 | a masked word comparison holds exactly when every field under the mask has the state |
| PageBitmap.Bitmap.constructor | src/cache.cpp:406-412 | a new bitmap has every page missing |
| PageBitmap.Bitmap.Get | src/cache.cpp:5182-5190 | reads the state of the page |
| PageBitmap.Bitmap.Set | src/cache.cpp:5192-5208 | the states become the old ones with this page replaced |
| PageBitmap.Bitmap.RangeAll | src/cache.cpp:5225-5251 | the word loop answers yes exactly when every page of the range has the state, for all alignments |
| EntryWellFormed.PinCleanKeepsWF | src/cache.cpp:5689-5718 | pin_clean keeps the entry well formed |
| EntryWellFormed.PinKeepsWF | src/cache.cpp:5720-5764 | pin and unpin keep the pin total equal to the sum of the regions |
| EntryWellFormed.TouchKeepsWF | src/cache.cpp:5766-5778 | touch keeps the entry well formed |
| EntryWellFormed.ClaimFetchKeepsWF | src/cache.cpp:5872-5956 | a new claim covers whole blocks and has a new identifier |
| EntryWellFormed.PublishKeepsWF | src/cache.cpp:6021-6053 | the published prefix stays at block boundaries or the claim's end |
| EntryWellFormed.FinishKeepsWF | src/cache.cpp:6078-6143 | finish, rollback and mark_bad keep the entry well formed |
| EntryWellFormed.VerificationKeepsWF | src/cache.cpp:6145-6173 | pinning a fetch verification keeps the entry well formed |
| EntryWellFormed.RetryKeepsWF | src/cache.cpp:6175-6198 | a retry keeps the entry well formed |
| EntryWellFormed.BeginManifestKeepsWF | src/cache.cpp:6226-6260 | there are parts only with an available manifest |
| EntryWellFormed.FinishManifestKeepsWF | src/cache.cpp:6275-6304 | the parts tile the object |
| EntryWellFormed.CheckKeepsWF | src/cache.cpp:6322-6394 | claiming a check keeps the entry well formed |
| EntryWellFormed.RetryCheckKeepsWF | src/cache.cpp:6423-6474 | a mismatch and a part retry keep the entry well formed |
| EntryWellFormed.FinishCheckKeepsWF | src/cache.cpp:6492-6519 | ending a check keeps the pin total exact |
| EntryWellFormed.AbandonKeepsWF | src/cache.cpp:6521-6552 | and so does abandoning it |
| EntryWellFormed.EvictKeepsWF | src/cache.cpp:6584-6651 | eviction keeps the entry well formed and the hand in 64 bits |
| EntryWellFormed.EvictEndKeepsWF | src/cache.cpp:1207-1218 | ending an eviction keeps the entry well formed |
| EntryWellFormed.ExportKeepsWF | src/cache.cpp:5151-5180 | export keeps the entry well formed |
| EntryLaws.PublishIsExact | src/cache.cpp:6021-6053 | page by page: publication makes clean exactly the pending pages of blocks whose bytes are all there, the short last block of the object only with a complete response |
| EntryLaws.FinalPublicationIsWhole | src/cache.cpp:6021-6053 | a final publication of the whole claim leaves none of its pages pending |
| EntryLaws.PublishRefuses | src/cache.cpp:6021-6053 | a stale generation, a retired claim and a publication without progress change nothing |
| EntryLaws.PinCleanIff | src/cache.cpp:5689-5718 | a reader is admitted if and only if the generation is live, every page of the range is clean, no part there is bad or fetched again, and no pin count is full; then each region of the range has one pin more |
| EntryLaws.PinIff | src/cache.cpp:5720-5742 | a plain pin is granted if and only if the generation is live and no pin count is full |
| EntryLaws.BlockedIff | src/cache.cpp:5989-6001 | a range is blocked as bad if and only if a bad part overlaps it, and for retry if and only if one is fetched again and none is bad |
| EntryLaws.UnpinUndoesPin | src/cache.cpp:5720-5764 | unpinning undoes either kind of pin; only reference bits stay |
| EntryLaws.ClaimIff | src/cache.cpp:5872-5956 | a fetch is claimed if and only if the first page of the request that is not clean is missing and its block is idle |
| EntryLaws.ClaimIsMaximal | src/cache.cpp:5872-5956 | a claim takes whole blocks from there and stops only at the end of what was asked for, at a busy block or at a clean one |
| EntryLaws.ClaimIsNew | src/cache.cpp:5872-5956 | a claim is of this generation, was not active before, and is found under its own name |
| EntryLaws.RollbackUndoesClaim | src/cache.cpp:6105-6120 | rolling a fresh claim back leaves the entry as it was, but for the next identifier |
| EntryLaws.FinishIsExact | src/cache.cpp:6078-6103 | finishing makes exactly the pending pages of the tail missing and ends the claim |
| EntryLaws.MarkBadIsExact | src/cache.cpp:6126-6143 | marks exactly the unpublished tail bad, or the whole range of a verifying fetch |
| EntryLaws.VerificationIff | src/cache.cpp:6145-6173 | verification starts if and only if the fetch is fully published and clean, shares no byte with another, no part check is about and no pin count is full |
| EntryLaws.RetryIff | src/cache.cpp:6175-6198 | a retry makes the whole range pending once, and is ready if and only if all pins on it are those of verifiers |
| EntryLaws.ManifestLoadsIff | src/cache.cpp:6226-6260 | a manifest is loaded at most once, never for a stale or exported generation nor beside a verifying fetch |
| EntryLaws.ManifestIff | src/cache.cpp:6275-6304 | what arrives is kept if and only if it tiles the object with non-empty values; every part is then unverified |
| EntryLaws.FirstPartDecides | src/cache.cpp:6322-6394 | the first overlapping part that is bad, under a check that is not skipped, or unverified and clean decides the answer |
| EntryLaws.MismatchCloses | src/cache.cpp:6423-6432 | a mismatch closes the part under verification to readers, and any other one changes nothing |
| EntryLaws.ChecksumRetryIff | src/cache.cpp:6462-6474 | a live check may fetch its part again if and only if all pins on it are those of verifiers |
| EntryLaws.FinishSettles | src/cache.cpp:6492-6519 | a live check ends verified or bad as its verdict says and gives back its pins; one that is over changes nothing |
| EntryLaws.AbandonForgets | src/cache.cpp:6521-6552 | an abandoned check leaves its part unverified, its clean pages missing and its pins given back |
| EntryLaws.EvictionIsExact | src/cache.cpp:6584-6651 | an eviction takes the clean pages of one evictable region and nothing else, and none in an unlimited, stale, protected, dirty or exported generation |
| EntryLaws.HandTakes | src/cache.cpp:6584-6651 | a victim under the hand that was not used since is taken, whatever else holds of the generation |
| EntryLaws.EvictionUndoneOrDone | src/cache.cpp:1159-1218 | an asynchronous eviction reported as failed leaves the pages as they were, and one reported as done has taken the clean pages of an evictable region |
| EntryLaws.ExportIff | src/cache.cpp:5151-5180 | export succeeds if and only if the generation is live, unwritten, wholly clean and idle, has no bad part, and has every part verified when that is asked for |
| EntryLaws.WriteIff | src/cache.cpp:1905-1912 | a writer enters if and only if the generation is neither stale nor exported; from then on nothing is fetched, evicted or exported |
| EntryLaws.RetiredRefuses | src/cache.cpp:3418-3432 | a retired generation admits no reader, fetch, check, eviction, export or writer |
| EntryVerdicts.PartsShowVerdicts | src/cache.cpp:6492-6519 | in every run a part is verified or bad if and only if the last live verdict about it said so |
| EntryVerdicts.InvalidPartsAreNotRead | src/cache.cpp:5689-5718 | after an invalid verdict no clean pin of an overlapping range is granted |
| CacheEntryImpl.CacheEntry.constructor | src/cache.cpp:5000-5042 | pending pages become missing and the entry is valid |
| CacheEntryImpl.CacheEntry.PinClean | src/cache.cpp:5689-5718 | admits a reader only on a fully clean range without a blocking part, and pins each region of it once |
| CacheEntryImpl.CacheEntry.Pin | src/cache.cpp:5720-5742 | pins each region of the range once, or nothing on overflow |
| CacheEntryImpl.CacheEntry.Unpin | src/cache.cpp:5744-5764 | takes back one pin of each region of the range that has one |
| CacheEntryImpl.CacheEntry.Touch | src/cache.cpp:5766-5778 | sets the reference bits of the range and no others |
| CacheEntryImpl.CacheEntry.ChecksumBlocks | src/cache.cpp:5989-6001 | finds a bad overlapping part, else a retrying one, else none |
| CacheEntryImpl.CacheEntry.ClaimFetch | src/cache.cpp:5872-5956 | claims the longest run of idle, not wholly clean blocks from the first missing one, remembers their states and makes them pending |
| CacheEntryImpl.CacheEntry.ScanBlocks | src/cache.cpp:5916-5932 | finds where a claim must stop |
| CacheEntryImpl.CacheEntry.PublishClean | src/cache.cpp:6021-6053 | turns the pending pages of whole written blocks clean and moves the published end there; `EntryLaws.PublishIsExact` says which pages that makes clean |
| CacheEntryImpl.CacheEntry.EndFetch | src/cache.cpp:6055-6076 | removes the claim and, for a verifying fetch, its pins |
| CacheEntryImpl.CacheEntry.FinishFetch | src/cache.cpp:6078-6103 | clears the unpublished tail and reports exactly the blocks that had pending pages |
| CacheEntryImpl.CacheEntry.RollbackFetch | src/cache.cpp:6105-6120 | gives pending pages of the tail the states they had before the claim |
| CacheEntryImpl.CacheEntry.MarkBad | src/cache.cpp:6126-6143 | turns the unpublished tail bad, or the whole range of a verifying fetch |
| CacheEntryImpl.CacheEntry.PinFetchVerification | src/cache.cpp:6145-6173 | starts verification only when no other claim overlaps, and pins the range once |
| CacheEntryImpl.CacheEntry.PinsReady | src/cache.cpp:6434-6460 | compares each region's pins with the verifiers counted on it |
| CacheEntryImpl.CacheEntry.BeginRetry | src/cache.cpp:6175-6198 | makes the whole range pending again and reports readiness |
| CacheEntryImpl.CacheEntry.BeginManifest | src/cache.cpp:6226-6260 | starts loading at most once and never on an exported or stale generation |
| CacheEntryImpl.CacheEntry.FinishManifest | src/cache.cpp:6275-6304 | accepts only parts that tile the object, all unverified |
| CacheEntryImpl.CacheEntry.ClaimChecksum | src/cache.cpp:6322-6394 | claims the first overlapping unverified part whose pages are clean, and pins it |
| CacheEntryImpl.CacheEntry.ChecksumMismatch | src/cache.cpp:6423-6432 | a verifying part becomes retrying |
| CacheEntryImpl.CacheEntry.BeginChecksumRetry | src/cache.cpp:6462-6474 | reports whether readers have left the part |
| CacheEntryImpl.CacheEntry.FinishChecksum | src/cache.cpp:6492-6519 | a live check ends as verified or bad and returns its pins; `EntryLaws.FinishSettles` and `EntryVerdicts.PartsShowVerdicts` say what the verdict does |
| CacheEntryImpl.CacheEntry.AbandonChecksum | src/cache.cpp:6521-6552 | a live check goes back to unverified, its clean pages become missing and its pins are returned |
| CacheEntryImpl.CacheEntry.ScanClock | src/cache.cpp:6594-6618 | one round of the CLOCK hand with its reference bits, and the clean pages of the victim |
| CacheEntryImpl.CacheEntry.EvictOne | src/cache.cpp:6584-6651 | evicts the first victim of one scan; a failed punch leaves the pages |
| CacheEntryImpl.CacheEntry.EvictBegin | src/cache.cpp:1159-1205 | the asynchronous form makes the victim's clean pages pending |
| CacheEntryImpl.CacheEntry.EvictEnd | src/cache.cpp:1207-1218 | and ends with them missing or clean again |
| CacheEntryImpl.CacheEntry.TryExport | src/cache.cpp:5151-5180 | exports exactly an eligible, fully clean and verified generation |
| Admission.StepKeepsInv | src/fuse_reactor.cpp:1422-1600 | every atomic step keeps the count, its bound and the obligation to wake |
| Admission.RunKeepsInv | src/fuse_reactor.cpp:1422-1600 | so does every interleaving |
| Admission.AdmissionNeverStalls | src/fuse_reactor.cpp:2033-2105 | in every interleaving the count and every batch are within the maximum, and ingress is armed, mid-step, owed a return, or about to be woken |
| Admission.RoomDecides | src/fuse_reactor.cpp:1476-1600 | ingress goes on taking exactly while the batch and the dispatches out leave room, and a worker returns through the pipe exactly when it saw none |
| Admission.InternalStepsRunOut | src/fuse_reactor.cpp:2033-2105 | every step but the kernel's lowers a rank |
| Admission.NeverStuck | src/fuse_reactor.cpp:1422-1474 | some internal step is possible unless ingress is taking requests or is armed with everything returned |
| Admission.InternalRunsAreShort | src/fuse_reactor.cpp:2033-2105 | internal runs are bounded by the rank |
| Admission.QuietSystemEndsArmed | src/fuse_reactor.cpp:2712-2751 | without new requests every schedule ends with all dispatches returned and a receive armed |
| ReactorIo.StepKeepsInv | src/fuse_reactor.cpp:480-662 | every submission, cancellation, completion and sweep keeps pool, active list, kernel debts, history and deadline gate |
| ReactorIo.RunKeepsInv | src/fuse_reactor.cpp:2167-2344 | so does every order of them |
| ReactorIo.Idle | src/fuse_reactor.cpp:480-482 | a reactor with all requests free satisfies the invariant |
| ReactorIo.ExactlyOnce | src/fuse_reactor.cpp:2167-2300 | in every run an accepted operation is called back once or is still owed a completion; free requests plus pending ones are the pool |
| ReactorIo.DescriptorsAccountedFor | src/fuse_reactor.cpp:2183-2262 | every opened descriptor is delivered or closed once, and a successful close is delivered as zero |
| ReactorIo.GateNeverHides | src/fuse_reactor.cpp:2302-2344 | a request with a passed deadline always opens the gate of the next sweep |
| ReactorIo.SweepCancelsExpired | src/fuse_reactor.cpp:2302-2334 | a sweep cancels only requests whose deadline has passed, and all of them if and only if there is a submission entry for each |
| ReactorIo.NeverInline | src/fuse_reactor.cpp:480-662 | submitting, cancelling, sweeping and faults elsewhere never call back |
| ReactorIo.CallbackIsLast | src/fuse_reactor.cpp:2264-2300 | a completion calls back at most its own request, when the kernel owes it nothing more |
| ReactorIo.SuccessReportedIffUndisturbed | src/fuse_reactor.cpp:2203-2231 | a successful operation without a transfer is reported as success if and only if it was not timed out or cancelled and there is no shutdown |
| ReactorResults.ResultsAreJustified | src/fuse_reactor.cpp:2183-2262 | in every run a callback hears what its history calls for: a transfer all bytes its completions moved, an exact one fewer than its length only after an empty completion; a negative result is the kernel's or the processor's code, or time-out, cancellation, shutdown, lack of an entry, an unsatisfied processor or overflow, each only when that happened |
| ReactorResults.GoesOnIff | src/fuse_reactor.cpp:2183-2262 | a completion submits its operation again if and only if it was not disturbed, there is an entry, and it was interrupted, is exact and short, or its processor wants more |
| ReactorResults.StepTells | src/fuse_reactor.cpp:480-662 | every event keeps the reactor in agreement with the stories of its operations |
| ReactorResults.StateOf | src/fuse_reactor.cpp:2272-2281 | the reactor is shutting down if and only if somebody asked for it, and its error is the first failure of a cancellation or what was set since |
| ReactorResults.SubmitIff | src/fuse_reactor.cpp:480-629 | a submission is accepted if and only if nobody asked for shutdown, no error stands, and a request and an entry are free; it is then in flight as asked for |
| ReactorResults.CancelIff | src/fuse_reactor.cpp:631-662 | a cancellation is submitted if and only if the request is in flight without one and there is an entry |
| ReactorResults.StrayCompletion | src/fuse_reactor.cpp:2167-2173 | a completion of a request that is not in flight sets the error and changes nothing else |
| ReactorImpl.FuseReactor.constructor | src/fuse_reactor.cpp:480-482 | starts idle and valid |
| ReactorImpl.FuseReactor.Submit | src/fuse_reactor.cpp:480-629 | accepts exactly when there is no error, no shutdown, a free request and a submission entry; a refusal changes nothing |
| ReactorImpl.FuseReactor.Cancel | src/fuse_reactor.cpp:631-662 | says yes exactly when the request is live with a cancellation submitted |
| ReactorImpl.FuseReactor.SubmitIo | src/fuse_reactor.cpp:1695-1828 | appends the request to the active list at the index it remembers and lowers the gate |
| ReactorImpl.FuseReactor.CompleteIo | src/fuse_reactor.cpp:2167-2181 | swap-removal keeps every index right; a completion without its request is an error |
| ReactorImpl.FuseReactor.CompleteAsync | src/fuse_reactor.cpp:2183-2262 | decides between finishing, resubmitting and discarding as the lifecycle model does; `ReactorResults.ResultsAreJustified` says which result the caller hears |
| ReactorImpl.FuseReactor.Finish | src/fuse_reactor.cpp:2264-2270 | retires the request unless a cancel completion is outstanding |
| ReactorImpl.FuseReactor.CompleteCancel | src/fuse_reactor.cpp:2272-2281 | retires a request whose operation had completed before |
| ReactorImpl.FuseReactor.Retire | src/fuse_reactor.cpp:2283-2300 | returns the request to the pool and calls back once |
| ReactorImpl.FuseReactor.CancelExpired | src/fuse_reactor.cpp:2302-2334 | the sweep cancels only expired requests, all of them if and only if there are entries enough, and leaves the gate at the first it had no entry for |
| ReactorImpl.FuseReactor.Refresh | src/fuse_reactor.cpp:2336-2344 | the gate becomes the earliest deadline still waiting |
| KeyGate.ConflictIffPathPrefix | src/cache.cpp:1809-1816 | keys conflict exactly when one's component list is a prefix of the other's |
| KeyGate.WakeKeepsInv | src/cache.cpp:1833-1845 | after a wake every remaining waiter conflicts with a key in use |
| KeyGate.AcquireKeepsInv | src/cache.cpp:1691-1732 | entering keeps exclusion and the queue |
| KeyGate.AbandonKeepsInv | src/cache.cpp:1735-1749 | leaving and a failed wait keep them too |
| KeyGate.StepKeepsInv | src/cache.cpp:1691-1780 | every operation on the gate keeps them |
| KeyGate.Closed | src/cache.cpp:1684-1690 | a gate that nobody uses satisfies the invariant |
| KeyGate.GateIsSafeAndLive | src/cache.cpp:1691-1845 | in every run holders' keys never share a path, the keys in use are the holders', every waiter is held up by a holder, and without holders nobody waits |
| KeyGate.GateKeepsToTheNames | src/cache.cpp:1691-1845 | by the names asked for: exactly the holders' names are in use, those of two holders share no path, and a waiter asked for a name on the path of a holder's |
| KeyGate.AskIsAnswered | src/cache.cpp:1691-1732 | a request is admitted if and only if none of its names shares a path with a holder's; otherwise it is last in the queue if it may wait, and fails if not |
| KeyGate.FirstFreeGoes | src/cache.cpp:1833-1845 | of the waiters, the first one whose keys are free is woken |
| KeyGate.LeaveClears | src/cache.cpp:1735-1780 | leaving or failing takes everything from the operation and changes nobody's keys |
| KeyGate.WaiterHasHolder | src/cache.cpp:1833-1845 | each waiter conflicts with the keys of some holder |
| KeyGate.KeyTable.constructor | src/cache.cpp:1684-1690 | starts closed |
| KeyGate.KeyTable.IsAvailable | src/cache.cpp:1800-1807 | yes exactly when no key in use conflicts with the given ones |
| KeyGate.KeyTable.ClaimGate | src/cache.cpp:1818-1824 | the keys become used and the operation a holder |
| KeyGate.KeyTable.ReleaseGate | src/cache.cpp:1826-1831 | and the reverse |
| KeyGate.KeyTable.WakeReady | src/cache.cpp:1833-1845 | admits in queue order every waiter that no longer conflicts, and restores the invariant |
| KeyGate.KeyTable.Enter | src/cache.cpp:1691-1732 | holds, queues or refuses, keeping the invariant; `KeyGate.AskIsAnswered` says by the names asked for when it is admitted |
| KeyGate.KeyTable.EraseWaiter | src/cache.cpp:1735-1749 | removes the operation from the queue |
| KeyGate.KeyTable.Leave | src/cache.cpp:1735-1749 | gives up hold or place and wakes others |
| KeyGate.KeyTable.WaitFails | src/cache.cpp:1762-1780 | a wait that failed gives up what it had been given |
| CacheNames.Base64RoundTrip | src/cache.cpp:181-208 | a decoder inverts the unpadded base64url encoding of any byte string |
| CacheNames.Base64Url | src/cache.cpp:181-208 | the source's loop computes that encoding, with its length |
| CacheNames.ComponentRoundTrip | src/cache.cpp:210-244 | a plain or escaped name decodes to its component |
| CacheNames.ReservedNames | src/cache.cpp:210-244 | no component gets the name of a value file, an empty name, or a dot name |
| CacheNames.NamesAreSafe | src/cache.cpp:210-244 | the name fits the file system and has no control character or separator; a component that is such a name already keeps it |
| CacheNames.SameNameIff | src/cache.cpp:224-244 | two components share a name exactly when they are equal or both are hashed with the same digest |
| CacheTree.PrepareIsInvisible | src/cache.cpp:301-364 | making directories and promoting files, up to any component, changes no lookup |
| CacheTree.StoppedIsExact | src/cache.cpp:301-323 | a resolution stopped after any calls changes at most the lookup of the file under promotion |
| CacheTree.StopIsInvisibleIff | src/cache.cpp:301-323 | every lookup is unchanged if and only if it did not stop with a file moved away and neither moved in nor back |
| CacheTree.StrandedFile | src/cache.cpp:301-323 | a stop after the first rename: the key is gone and its file has the temporary name |
| CacheTree.PromotionRollsBack | src/cache.cpp:301-323 | a promotion that ran to its end leaves the file under its temporary name if and only if moving it back was tried and failed, and tries first to remove a directory it made |
| CacheTree.PlaceIsExact | src/cache.cpp:330-364 | after creation the key finds its file and every other key what it found before |
| CacheTree.EraseIsExact | src/cache.cpp:366-404 | unlinking removes one key only |
| CacheTree.JoinComponents | src/cache.cpp:330-364 | the component list determines the key |
| CacheTree.PathsDiffer | src/cache.cpp:224-244 | different keys have different paths unless digests collide |
| CacheTree.ChangeRefines | src/cache.cpp:301-404 | one change of the tree is one change of a map from keys to files; a stop loses exactly the key whose file it strands |
| CacheTree.TreeFollowsMap | src/cache.cpp:301-404 | any sequence of changes and stops answers lookups as a map that loses exactly the keys whose files are stranded |
| CacheTree.TreeRefinesFlatMap | src/cache.cpp:301-404 | from an empty tree any sequence of creations, unlinks and resolutions stopped anywhere but with a file moved away answers lookups as a plain map |
| DirtyWrite.StepKeepsInv | src/cache.cpp:5358-5677 | every store, file operation and crash keeps the disk invariant |
| DirtyWrite.RunKeepsInv | src/cache.cpp:5358-5677 | so does every run with any number of crashes |
| DirtyWrite.CrashIsSafe | src/cache.cpp:7480-7567 | at every point a dirty header has a marker with its epoch, and recovery resumes exactly the published bytes with clean pages, never while an isolation stands or with another part size, or isolates; it aborts exactly when the run leaves a marker without a key |
| DirtyWrite.RunKeepsPart | src/cache.cpp:457-484 | in every run a dirty header has the part size of the process that wrote it |
| DirtyWrite.ResumesOnlyTheMarked | src/cache.cpp:457-484 | whatever is on disk, only the write that the marker names is resumed, with the size the header gives and all of its data there |
| DirtyWrite.BlankMarkerIff | src/cache.cpp:7295-7387 | a run leaves a marker without a key exactly when one was created and nothing completed or removed it since |
| DirtyWrite.IsolationIsUndone | src/cache.cpp:5540-5580 | an isolated write that recovery does not resume, and three stores of an upload id after which it does |
| DirtyWrite.StepKeepsHeader | src/cache.cpp:457-484 | every step keeps the header of a live writer one that recovery accepts, but for its phase and the stores under way |
| DirtyWrite.QuietWriteResumesIff | src/cache.cpp:457-484 | between operations a begun write is resumed with all published bytes if and only if the part size is unchanged and no isolation stands: none was asked for, or an upload id was stored after it; otherwise it is isolated |
| DirtyWrite.BlankMarkerIsReachable | src/cache.cpp:7295-7361 | a run that ends in a marker on which recovery aborts |
| Upload.SkipKeeps | src/http.cpp:3492-3513 | skipping used-up and empty segments keeps the position, and reaches the end exactly when the body is used up |
| Upload.SliceOfBody | src/http.cpp:3492-3513 | a slice at the cursor is the body at its position |
| Upload.SourceCursor.constructor | src/http.cpp:3492-3513 | starts at the first byte |
| Upload.SourceCursor.Source | src/http.cpp:3492-3513 | fails exactly when the body is used up; otherwise yields the next bytes of the body |
| Upload.SourceCursor.Consume | src/http.cpp:3514-3514 | moves the position by the bytes consumed |
| Upload.Begin1 | src/http.cpp:3464-3490 | an upload that has sent nothing satisfies the invariant |
| Upload.PostIsMaximal | src/http.cpp:3690-3715 | posts as much as the segment, the request and the staging pipe allow; only a spliced pipe may go out in part |
| Upload.Step1KeepsInv | src/http.cpp:3936-3955 | every completion, however short, keeps the bytes sent a prefix of the body |
| Upload.Step1Progress | src/http.cpp:3936-3955 | and brings the end nearer |
| Upload.Http1SendsTheBody | src/http.cpp:3690-3715 | the response is awaited only when exactly the concatenated sources were sent; the exhausted error is unreachable; the number of transfers is bounded |
| Upload.Begin2 | src/http.cpp:3464-3490 | likewise for HTTP/2 |
| Upload.Step2KeepsInv | src/http.cpp:4398-4425 | every frame, transfer and wait keeps the framing and the prefix |
| Upload.Step2Work | src/http.cpp:4398-4425 | every completed transfer uses up work and only an announcement makes some |
| Upload.Http2SendsTheBody | src/http.cpp:874-914 | exactly the announced bytes follow each DATA header before anything else, after the last frame the body bytes are the concatenated sources, and there are at most two transfers for each byte and one for each announcement |
| Upload.Http2FlagsTheLastFrame | src/http.cpp:874-914 | in every run a header is flagged as the last if and only if the announced lengths are the whole body; at most one is, and none follows it |
| Upload.Step2KeepsFlags | src/http.cpp:874-914 | every event keeps the announced lengths, the flag and the rest of the body in agreement |
| Upload.FrameIsMaximal | src/http.cpp:874-914 | a frame is as long as the window and the rest of the body allow |
| Upload.Http2CanFinish | src/http.cpp:4398-4425 | no reachable state is a dead end: some events lead to the last frame flagged and every byte on the wire |
| Upload.NothingWaits | src/http.cpp:4398-4425 | when the library has nothing to send, nothing is sent until something arrives |
| UploadImpl.TotalLength | src/http.cpp:3464-3490 | the announced length is that of the concatenated sources |
| UploadImpl.Http1Operation.constructor | src/http.cpp:3464-3490 | starts before the head is sent |
| UploadImpl.Http1Operation.UploadNext | src/http.cpp:3690-3715 | posts the next piece by kind of source, or goes on to the response |
| UploadImpl.Http1Operation.Advance | src/http.cpp:3936-3955 | takes one step of the model and keeps its invariant |
| UploadImpl.Http2Operation.constructor | src/http.cpp:3464-3490 | starts ready and unannounced |
| UploadImpl.Http2Operation.Announce | src/http.cpp:874-914 | announces at most the window and at most what is left, and says whether it is the last frame; `Upload.Http2FlagsTheLastFrame` says when the frame is flagged as the last |
| UploadImpl.Http2Operation.UploadBody | src/http.cpp:4398-4425 | posts the next piece of the open frame, or lets the library ask again |
| UploadImpl.Http2Operation.Advance | src/http.cpp:4521-4536 | takes one step of the model and keeps its invariant |
| Capacity.ReserveExactIff | src/cache.cpp:6702-6735 | a reservation keeps the pending counter exact if and only if there are limits or the sum fits 64 bits |
| Capacity.SaturationForgets | src/cache.cpp:6702-6760 | two reservations that do not fit the counter: cancelling one leaves the other outstanding and the counter at zero |
| Capacity.StepKeepsLedger | src/cache.cpp:6663-6760 | every step keeps the counter equal to the outstanding sum and the total within the maximum, and a release subtracts exactly its reservation |
| Capacity.LedgerBalances | src/cache.cpp:6702-6760 | so does every interleaving of reservations, cancellations, finishes and evictions |
| Capacity.UsedIsConserved | src/cache.cpp:6663-6760 | the allocated bytes are what was there and what finished allocations grew by, less what was freed, when every delta fits |
| Capacity.GrantIff | src/cache.cpp:6702-6735 | after every run a reservation is granted if and only if checks are off, or it keeps allocated and outstanding bytes within the maximum and leaves the floor of the file system |
| Capacity.EvictionLowersClean | src/cache.cpp:6584-6651 | a successful eviction lowers the number of clean pages, a failed one changes no page |
| Capacity.TwiceEmptyMeansNothing | src/cache.cpp:7003-7037 | two empty scans of an entry mean that it has no region to give, if its hand does not wrap |
| Capacity.ScanPass | src/cache.cpp:7003-7037 | one attempt on each entry; success lowers the total of clean pages |
| Capacity.ReclaimPass | src/cache.cpp:6833-6939 | a reclaimed entry is gone; the entry dropped has no data, no unsent write, no reader and nothing under way |
| Capacity.EvictRound | src/cache.cpp:7003-7037 | a successful round lowers clean pages or entries; an unsuccessful one with reliable I/O means that two scans of every entry were empty |
| Capacity.ReserveCapacity | src/cache.cpp:6737-6746 | terminates; on success the ledger holds the reservation within the maximum, on failure none; and when punches succeed a failure means that no live entry with a hand that did not wrap has a region to evict |

## Left out

- System calls, mappings, io_uring, libfuse, nghttp2, llhttp and TLS: they appear as arguments and environment steps. A transfer moves at most what was asked for.
- Sizes, offsets and identifiers are unbounded natural numbers, except where a property is about width: the CLOCK hand, the pending counters, the transferred count and the words of the bitmap. The 64-bit clamps of `claim_fetch` and the wrap of claim identifiers are not modelled.
- The compare-and-swap loop of `set_page_state` is one store, since every caller holds the entry's mutex.
- Blocking waits on the shared eventfd and their wake-ups: only the safety of claims is stated, not that a blocked waiter proceeds.
- Reuse of a data file by a later generation while an asynchronous eviction of an earlier one is in flight: all eviction results are about one generation.
- Aborting a whole-fetch retry before its readers have left, an unpin without a pin, and pins beyond the end of the object are excluded by the events' guards.
- A reader admitted before a whole-fetch retry is begun over its range: writes of a retry are enabled only after the readiness test, as the callers do.
- Write stores and publication of a dirty entry are in `DirtyWrite`; in the world of one generation a writer only marks it dirty.
- begin_write on a committed or exported reader entry: the model has the life cycle create, begin, publish, commit or discard.
- An upload id is stored only in a write that has begun, as the callers do; the race of `begin_write` with a generation change is not modelled.
- A short write of the marker file is not distinguished from an empty one.
- The constructor's punch of blocks without clean pages is an environment step of `CrashKeepsInv`.
- CacheTree.TreeRefinesFlatMap: concurrent promotion of one component by two sibling keys is not modelled, and the walks over descriptors are recursion over components.
- Digest collisions: two hashed components with equal digests share a name, and the tree theorem assumes that the keys in use have none.
- Capacity.ReserveCapacity: entries are the live ones; eviction of cold on-disk files and allocation totals across renames are not modelled.
- Capacity.ReclaimPass: which entry is reclaimed and whether that succeeds are arbitrary.
- Admission.AdmissionNeverStalls: one receive descriptor, as the source configures; fatal errors of a receive, start-up and shutdown are not modelled.
- ReactorImpl.FuseReactor.Submit: the validation of arguments by kind of operation is not modelled, and the deadline is an argument instead of a clock reading.
- ReactorIo.StepKeepsInv: the processor callback of a receive is one value; submissions that it makes itself are separate events.
- Upload.Begin1: the rejection of conflicting or invalid sources is not modelled.
- Credentials, metadata, XML and JSON parsing, statistics, reply formatting and scripts: no hard property.
