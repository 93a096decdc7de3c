/** Durability of a cached write: what a process crash leaves, and what recovery makes of it.

    The disk of one key is its dirty marker, its metadata header and bitmap, and its data
    file. Every store into the mapped header and every file operation is one step, so a
    crash can fall between any two. A writer is created, begins, writes and publishes in
    order, may start a multipart upload, and ends by committing or discarding.
 */
module DirtyWrite {
  import opened Geometry
  import opened EntryModel
  import opened EntryWorld

  /** The marker file: created but without a readable key yet, or complete. */
  datatype Marker = NoMarker | Blank | Marked(epoch: nat)

  /** `valid`: magic, version, sizes, key and write id are as the creator wrote them. */
  datatype Header = Header(
    valid: bool, epoch: nat, dirty: bool, phase: nat, uploadLength: nat, partSize: nat,
    objectSize: nat, writtenEnd: nat)

  /** `pages` has an element for each page that the bitmap has room for. */
  datatype Disk = Disk(marker: Marker, header: Header, pages: seq<PageState>, data: seq<Byte>)

  /** Where the writer stands between two stores. */
  datatype Pc =
    | NoWriter
    | DataCut | BitmapCut | Zeroed
    | Ready
    | MarkerOpen | MarkerDone | FlagSet
    | Publishing(next: nat, end: nat) | Sized(end: nat)
    | UploadLong(length: nat) | UploadSized(length: nat)
    | CommitClean | CommitPhased | CommitDone
    | DiscardClean | DiscardDone

  /** `published` are the bytes of all publications that have completed. */
  datatype Sys = Sys(disk: Disk, pc: Pc, begun: bool, published: seq<Byte>, partSize: nat, nextEpoch: nat)

  datatype Step =
    | CutData | CutBitmap | ZeroHeader | InitHeader
    | Grow(extra: nat)
    | OpenMarker | FillMarker | FailMarker(unlinked: bool) | SetFlag | SetPhase
    | WriteData(at: nat, bytes: seq<Byte>)
    | StartPublish(end: nat) | PublishPage | StoreSize | StoreEnd
    | StoreUploadLength(length: nat) | StorePartSize | StoreUploadPhase
    | MarkPending
    | CommitFlag | CommitPhase | CommitUpload | RemoveMarker(ok: bool)
    | DiscardFlag | DiscardPhase
    | Crash

  function PagesOf(size: nat): nat { (size + PAGE - 1) / PAGE }

  // ---------------------------------------------------------------- recovery

  datatype Recovery = Nothing | Aborted | Isolated | Resumed(size: nat)

  /** `cache_recovery_header_matches`, with the size check of the data file. */
  predicate Matches(d: Disk, epoch: nat, partSize: nat)
  {
    && d.header.valid && d.header.dirty && d.header.epoch == epoch && d.header.partSize == partSize
    && ((d.header.phase == 1 && d.header.uploadLength == 0) || (d.header.phase == 2 && d.header.uploadLength != 0))
    && d.header.writtenEnd == d.header.objectSize
    && PagesOf(d.header.writtenEnd) <= |d.pages|
    && d.header.writtenEnd <= |d.data|
  }

  /** What `recover_dirty` does with this key. A marker without a readable key aborts the whole scan. */
  function Recover(d: Disk, partSize: nat): Recovery
  {
    match d.marker
    case NoMarker => Nothing
    case Blank => Aborted
    case Marked(epoch) => if Matches(d, epoch, partSize) then Resumed(d.header.writtenEnd) else Isolated
  }

  // ---------------------------------------------------------------- steps

  predicate Enabled(s: Sys, step: Step)
  {
    match step
    case CutData => s.pc == NoWriter
    case CutBitmap => s.pc == DataCut
    case ZeroHeader => s.pc == BitmapCut
    case InitHeader => s.pc == Zeroed
    case Grow(_) => s.pc == Ready
    case OpenMarker => s.pc == Ready && !s.begun
    case FillMarker => s.pc == MarkerOpen
    case FailMarker(_) => s.pc == MarkerOpen
    case SetFlag => s.pc == MarkerDone
    case SetPhase => s.pc == FlagSet
    case WriteData(at, _) => s.pc == Ready && s.begun && s.disk.header.writtenEnd <= at
    case StartPublish(end) =>
      && s.pc == Ready && s.begun && s.disk.header.dirty
      && s.disk.header.writtenEnd < end <= |s.disk.data| && PagesOf(end) <= |s.disk.pages|
    case PublishPage => s.pc.Publishing? && s.pc.next < PagesOf(s.pc.end) && s.pc.next < |s.disk.pages|
    case StoreSize => s.pc.Publishing? && s.pc.next == PagesOf(s.pc.end)
    case StoreEnd => s.pc.Sized? && s.pc.end <= |s.disk.data|
    case StoreUploadLength(_) => s.pc == Ready && s.begun
    case StorePartSize => s.pc.UploadLong?
    case StoreUploadPhase => s.pc.UploadSized?
    case MarkPending => s.pc == Ready && s.disk.header.dirty
    case CommitFlag => s.pc == Ready && s.begun
    case CommitPhase => s.pc == CommitClean
    case CommitUpload => s.pc == CommitPhased
    case DiscardFlag => s.pc == Ready
    case DiscardPhase => s.pc == DiscardClean
    case RemoveMarker(_) => s.pc == CommitDone || s.pc == DiscardDone
    case Crash => true
  }

  /** A write at `at`; a gap reads as zeros. */
  function Patch(data: seq<Byte>, at: nat, bytes: seq<Byte>): (r: seq<Byte>)
    ensures |r| == Max(|data|, at + |bytes|)
    ensures forall x | 0 <= x < |data| && x < at :: r[x] == data[x]
  {
    var padded := if |data| < at then data + seq(at - |data|, _ => 0) else data;
    padded[..at] + bytes + (if at + |bytes| < |padded| then padded[at + |bytes|..] else [])
  }

  const BLANK: Header := Header(false, 0, false, 0, 0, 0, 0, 0)

  function Apply(s: Sys, step: Step): Sys
    requires Enabled(s, step)
  {
    var d, h := s.disk, s.disk.header;
    match step
    case CutData => s.(disk := d.(data := []), pc := DataCut, begun := false)
    case CutBitmap => s.(disk := d.(pages := []), pc := BitmapCut)
    case ZeroHeader => s.(disk := d.(header := BLANK), pc := Zeroed, published := [])
    case InitHeader =>
      s.(disk := d.(header := Header(true, s.nextEpoch, false, 0, 0, s.partSize, 0, 0)), pc := Ready,
         nextEpoch := s.nextEpoch + 1)
    case Grow(extra) => s.(disk := d.(pages := d.pages + seq(extra, _ => Missing)))
    case OpenMarker => s.(disk := d.(marker := Blank), pc := MarkerOpen)
    case FillMarker => s.(disk := d.(marker := Marked(h.epoch)), pc := MarkerDone)
    case FailMarker(unlinked) => s.(disk := d.(marker := if unlinked then NoMarker else d.marker), pc := Ready)
    case SetFlag => s.(disk := d.(header := h.(dirty := true)), pc := FlagSet)
    case SetPhase => s.(disk := d.(header := h.(phase := 1)), pc := Ready, begun := true)
    case WriteData(at, bytes) => s.(disk := d.(data := Patch(d.data, at, bytes)))
    case StartPublish(end) => s.(pc := Publishing(h.writtenEnd / PAGE, end))
    case PublishPage => s.(disk := d.(pages := d.pages[s.pc.next := Clean]), pc := Publishing(s.pc.next + 1, s.pc.end))
    case StoreSize => s.(disk := d.(header := h.(objectSize := s.pc.end)), pc := Sized(s.pc.end))
    case StoreEnd =>
      s.(disk := d.(header := h.(writtenEnd := s.pc.end)), pc := Ready, published := d.data[..s.pc.end])
    case StoreUploadLength(length) => s.(disk := d.(header := h.(uploadLength := length)), pc := UploadLong(length))
    case StorePartSize => s.(disk := d.(header := h.(partSize := s.partSize)), pc := UploadSized(s.pc.length))
    case StoreUploadPhase => s.(disk := d.(header := h.(phase := if s.pc.length == 0 then 1 else 2)), pc := Ready)
    case MarkPending => s.(disk := d.(header := h.(phase := 3)))
    case CommitFlag => s.(disk := d.(header := h.(dirty := false)), pc := CommitClean)
    case CommitPhase => s.(disk := d.(header := h.(phase := 0)), pc := CommitPhased)
    case CommitUpload => s.(disk := d.(header := h.(uploadLength := 0)), pc := CommitDone)
    case DiscardFlag => s.(disk := d.(header := h.(dirty := false)), pc := DiscardClean)
    case DiscardPhase => s.(disk := d.(header := h.(phase := 0)), pc := DiscardDone)
    case RemoveMarker(ok) => s.(disk := d.(marker := if ok then NoMarker else d.marker), pc := NoWriter, begun := false)
    case Crash =>
      if Recover(d, s.partSize).Resumed? then s.(pc := Ready, begun := true) else s.(pc := NoWriter, begun := false)
  }

  // ---------------------------------------------------------------- invariants

  /** The published prefix is on disk and marked clean. */
  predicate Holds(d: Disk, published: seq<Byte>)
  {
    && d.header.writtenEnd == |published| <= |d.data| && d.data[..|published|] == published
    && PagesOf(|published|) <= |d.pages| && forall p | 0 <= p < PagesOf(|published|) :: d.pages[p] == Clean
  }

  predicate HasWriter(pc: Pc) { pc != NoWriter && pc != DataCut && pc != BitmapCut && pc != Zeroed }

  /** A dirty header always has its marker, with the same epoch. */
  predicate MarkerOk(d: Disk) { d.header.dirty ==> d.marker == Marked(d.header.epoch) }

  predicate PcOk(s: Sys)
  {
    var h := s.disk.header;
    && (HasWriter(s.pc) ==> h.valid && Holds(s.disk, s.published))
    && (s.pc == Zeroed ==> h == BLANK && s.published == [])
    && (s.pc == MarkerOpen ==> !h.dirty) && (s.pc == MarkerDone ==> !h.dirty && s.disk.marker == Marked(h.epoch))
    && (s.pc == Ready && !s.begun ==> !h.dirty)
    && (s.pc == FlagSet ==> h.dirty)
    && (s.pc.UploadLong? || s.pc.UploadSized? || s.pc.Publishing? || s.pc.Sized? ==> s.begun)
    && (s.begun && HasWriter(s.pc) && s.disk.header.dirty ==> s.disk.marker == Marked(h.epoch))
    && (s.pc.Publishing? ==>
          h.writtenEnd < s.pc.end <= |s.disk.data| && PagesOf(s.pc.end) <= |s.disk.pages| && h.dirty
          && h.writtenEnd / PAGE <= s.pc.next <= PagesOf(s.pc.end) && CleanTo(s.disk.pages, s.pc.next))
    && (s.pc.Sized? ==>
          h.writtenEnd < s.pc.end <= |s.disk.data| && PagesOf(s.pc.end) <= |s.disk.pages| && h.dirty
          && CleanTo(s.disk.pages, PagesOf(s.pc.end)))
    && (s.pc == CommitClean || s.pc == CommitPhased || s.pc == CommitDone || s.pc == DiscardClean || s.pc == DiscardDone ==>
          !h.dirty)
  }

  predicate CleanTo(pages: seq<PageState>, n: nat) { n <= |pages| && forall p | 0 <= p < n :: pages[p] == Clean }

  /** Nothing that recovery would resume differs from the published prefix. */
  predicate ResumeOk(s: Sys)
  {
    Candidate(s.disk) ==> Holds(s.disk, s.published)
  }

  predicate Candidate(d: Disk)
  {
    d.header.valid && d.header.dirty && d.header.writtenEnd <= |d.data| && PagesOf(d.header.writtenEnd) <= |d.pages|
  }

  predicate Inv(s: Sys) { MarkerOk(s.disk) && PcOk(s) && ResumeOk(s) }

  lemma PagesMonotone(n: nat, m: nat)
    requires n <= m
    ensures PagesOf(n) <= PagesOf(m) && n / PAGE <= PagesOf(n)
  {
  }

  lemma CreateKeepsInv(s: Sys, step: Step)
    requires Inv(s) && Enabled(s, step) && (step.CutData? || step.CutBitmap? || step.ZeroHeader? || step.InitHeader?)
    ensures Inv(Apply(s, step))
  {
    PagesMonotone(0, s.disk.header.writtenEnd);
  }

  lemma BeginKeepsInv(s: Sys, step: Step)
    requires Inv(s) && Enabled(s, step) && (step.OpenMarker? || step.FillMarker? || step.FailMarker? || step.SetFlag? || step.SetPhase?)
    ensures Inv(Apply(s, step))
  {
  }

  lemma DataKeepsInv(s: Sys, step: Step)
    requires Inv(s) && Enabled(s, step) && (step.Grow? || step.WriteData?)
    ensures Inv(Apply(s, step))
  {
  }

  lemma PublishKeepsInv(s: Sys, step: Step)
    requires Inv(s) && Enabled(s, step) && (step.StartPublish? || step.PublishPage?)
    ensures Inv(Apply(s, step))
  {
    PagesMonotone(s.disk.header.writtenEnd, if step.StartPublish? then step.end else s.pc.end);
  }

  lemma StoreSizeKeepsInv(s: Sys)
    requires Inv(s) && Enabled(s, StoreSize)
    ensures Inv(Apply(s, StoreSize))
  {
    hide PagesOf;
  }

  /** The last store of a publication makes the longer prefix the published one. */
  lemma StoreEndKeepsInv(s: Sys)
    requires Inv(s) && Enabled(s, StoreEnd)
    ensures Inv(Apply(s, StoreEnd))
  {
    hide PagesOf;
    var t := Apply(s, StoreEnd);
    assert |t.published| == s.pc.end && t.disk.data == s.disk.data && t.disk.pages == s.disk.pages;
    assert CleanTo(s.disk.pages, PagesOf(s.pc.end));
    assert Holds(t.disk, t.published);
  }

  lemma UploadKeepsInv(s: Sys, step: Step)
    requires Inv(s) && Enabled(s, step) && (step.StoreUploadLength? || step.StorePartSize? || step.StoreUploadPhase? || step.MarkPending?)
    ensures Inv(Apply(s, step))
  {
  }

  lemma EndKeepsInv(s: Sys, step: Step)
    requires Inv(s) && Enabled(s, step) && (step.CommitFlag? || step.CommitPhase? || step.CommitUpload? || step.DiscardFlag? || step.DiscardPhase? || step.RemoveMarker?)
    ensures Inv(Apply(s, step))
  {
  }

  lemma CrashKeepsInv(s: Sys, step: Step)
    requires Inv(s) && Enabled(s, step) && (step.Crash?)
    ensures Inv(Apply(s, step))
  {
  }

  /** Every store, every file operation and every crash keeps the invariant. */
  lemma StepKeepsInv(s: Sys, step: Step)
    requires Inv(s) && Enabled(s, step)
    ensures Inv(Apply(s, step))
  {
    hide Inv, Enabled, Apply;
    if step.CutData? || step.CutBitmap? || step.ZeroHeader? || step.InitHeader? {
      CreateKeepsInv(s, step);
    } else if step.OpenMarker? || step.FillMarker? || step.FailMarker? || step.SetFlag? || step.SetPhase? {
      BeginKeepsInv(s, step);
    } else if step.Grow? || step.WriteData? {
      DataKeepsInv(s, step);
    } else if step.StartPublish? || step.PublishPage? {
      PublishKeepsInv(s, step);
    } else if step.StoreSize? {
      StoreSizeKeepsInv(s);
    } else if step.StoreEnd? {
      StoreEndKeepsInv(s);
    } else if step.StoreUploadLength? || step.StorePartSize? || step.StoreUploadPhase? || step.MarkPending? {
      UploadKeepsInv(s, step);
    } else if step.CommitFlag? || step.CommitPhase? || step.CommitUpload? || step.DiscardFlag? || step.DiscardPhase? || step.RemoveMarker? {
      EndKeepsInv(s, step);
    } else if step.Crash? {
      CrashKeepsInv(s, step);
    }
  }

  // ---------------------------------------------------------------- whole runs

  /** A key without a writer: no marker, or a complete one left by an earlier write. */
  predicate Start(s: Sys) { s.pc == NoWriter && !s.begun && !s.disk.header.dirty && s.disk.marker != Blank }

  predicate Allowed(s: Sys, steps: seq<Step>)
    decreases |steps|
  {
    steps == [] || (Enabled(s, steps[0]) && Allowed(Apply(s, steps[0]), steps[1..]))
  }

  function Run(s: Sys, steps: seq<Step>): Sys
    requires Allowed(s, steps)
    decreases |steps|
  {
    if steps == [] then s else Run(Apply(s, steps[0]), steps[1..])
  }

  lemma {:induction false} RunKeepsInv(s: Sys, steps: seq<Step>)
    requires Inv(s) && Allowed(s, steps)
    ensures Inv(Run(s, steps))
    decreases |steps|
  {
    if steps != [] {
      StepKeepsInv(s, steps[0]);
      hide Inv, Enabled, Apply;
      RunKeepsInv(Apply(s, steps[0]), steps[1..]);
    }
  }

  /** The last step of a run, taken off. */
  lemma {:induction false} RunLast(s: Sys, steps: seq<Step>)
    requires Allowed(s, steps) && steps != []
    ensures var n := |steps| - 1;
            && Allowed(s, steps[..n]) && Enabled(Run(s, steps[..n]), steps[n])
            && Run(s, steps) == Apply(Run(s, steps[..n]), steps[n])
    decreases |steps|
  {
    hide Enabled, Apply;
    if |steps| > 1 {
      RunLast(Apply(s, steps[0]), steps[1..]);
      assert steps[1..][..|steps| - 2] == steps[..|steps| - 1][1..];
    }
  }

  // ---------------------------------------------------------------- blank markers

  /** After this step the marker is complete or gone. */
  predicate Settles(step: Step)
  {
    step.FillMarker? || step == FailMarker(true) || step == RemoveMarker(true)
  }

  /** Some marker file was created, and nothing after that completed or removed it. */
  predicate LeavesBlank(steps: seq<Step>)
  {
    exists k :: 0 <= k < |steps| && OpensAt(steps, k)
  }

  predicate OpensAt(steps: seq<Step>, k: nat)
    requires k < |steps|
  {
    steps[k] == OpenMarker && forall j | k < j < |steps| :: !Settles(steps[j])
  }

  lemma LeavesBlankLast(steps: seq<Step>)
    requires steps != []
    ensures var n := |steps| - 1;
            LeavesBlank(steps) <==> steps[n] == OpenMarker || (LeavesBlank(steps[..n]) && !Settles(steps[n]))
  {
    var n := |steps| - 1;
    if k :| 0 <= k < |steps| && OpensAt(steps, k) {
      if k < n { assert OpensAt(steps[..n], k); }
    }
    if steps[n] == OpenMarker { assert OpensAt(steps, n); }
    if k :| 0 <= k < n && OpensAt(steps[..n], k) {
      if !Settles(steps[n]) {
        forall j | k < j < |steps| ensures !Settles(steps[j]) { if j < n { assert steps[..n][j] == steps[j]; } }
        assert OpensAt(steps, k);
      }
    }
  }

  lemma StepBlank(s: Sys, step: Step)
    requires Enabled(s, step)
    ensures Apply(s, step).disk.marker == Blank <==> step == OpenMarker || (s.disk.marker == Blank && !Settles(step))
  {
  }

  /** A run leaves a marker without a key exactly when the creation of one was the last that happened to it. */
  lemma {:induction false} BlankMarkerIff(s: Sys, steps: seq<Step>)
    requires s.disk.marker != Blank && Allowed(s, steps)
    ensures Run(s, steps).disk.marker == Blank <==> LeavesBlank(steps)
    decreases |steps|
  {
    if steps != [] {
      var n := |steps| - 1;
      RunLast(s, steps);
      LeavesBlankLast(steps);
      BlankMarkerIff(s, steps[..n]);
      StepBlank(Run(s, steps[..n]), steps[n]);
    }
  }

  // ---------------------------------------------------------------- isolated writes

  /** What became of the request never to resume this write: none was made, it stands, or an upload id stored later
      undid it. */
  datatype Isolation = NotAsked | Stands | Undone

  function After(m: Isolation, step: Step): Isolation
  {
    match step
    case MarkPending => Stands
    case StoreUploadPhase => if m == NotAsked then NotAsked else Undone
    case ZeroHeader => NotAsked
    case CommitFlag => NotAsked
    case DiscardFlag => NotAsked
    case _ => m
  }

  function IsolationOf(steps: seq<Step>): Isolation
  {
    if steps == [] then NotAsked else After(IsolationOf(steps[..|steps| - 1]), steps[|steps| - 1])
  }

  predicate Ending(pc: Pc)
  {
    pc == CommitClean || pc == CommitPhased || pc == CommitDone || pc == DiscardClean || pc == DiscardDone
  }

  /** The header of a live writer is one that recovery accepts, but for the stores of the operation under way. */
  predicate HeaderOk(s: Sys)
  {
    && (!HasWriter(s.pc) ==> !s.begun)
    && (HasWriter(s.pc) && !Ending(s.pc) ==> LiveHeader(s.pc, s.begun, s.disk.header, s.partSize))
  }

  predicate LiveHeader(pc: Pc, begun: bool, h: Header, partSize: nat)
  {
    && h.partSize == partSize
    && h.objectSize == (if pc.Sized? then pc.end else h.writtenEnd)
    && (begun ==> h.dirty && pc != MarkerOpen && pc != MarkerDone && pc != FlagSet)
    && (!begun ==> h.uploadLength == 0)
    && (pc.UploadLong? || pc.UploadSized? ==> h.uploadLength == pc.length)
    && (begun && !pc.UploadLong? && !pc.UploadSized? ==> h.phase == 3 || PhaseFits(h))
  }

  predicate PhaseFits(h: Header) { (h.phase == 1 && h.uploadLength == 0) || (h.phase == 2 && h.uploadLength != 0) }

  lemma StepKeepsHeader(s: Sys, step: Step)
    requires Inv(s) && HeaderOk(s) && Enabled(s, step)
    ensures HeaderOk(Apply(s, step))
  {
    hide Holds, CleanTo, Candidate, PagesOf;
  }

  lemma {:induction false} RunKeepsHeader(s: Sys, steps: seq<Step>)
    requires Inv(s) && HeaderOk(s) && Allowed(s, steps)
    ensures HeaderOk(Run(s, steps))
    decreases |steps|
  {
    if steps != [] {
      StepKeepsInv(s, steps[0]);
      StepKeepsHeader(s, steps[0]);
      hide Inv, HeaderOk, Enabled, Apply;
      RunKeepsHeader(Apply(s, steps[0]), steps[1..]);
    }
  }

  /** The request that stands is the phase in the header, and only that is. */
  predicate PhaseShows(s: Sys, m: Isolation)
  {
    && (m == Stands ==> s.disk.header.phase == 3)
    && (s.pc == Zeroed || (HasWriter(s.pc) && (!s.begun || Ending(s.pc))) ==> m == NotAsked)
    && (HasWriter(s.pc) && s.begun && !Ending(s.pc) && s.disk.header.phase == 3 ==> m == Stands)
  }

  lemma StepShows(s: Sys, step: Step, m: Isolation)
    requires Inv(s) && HeaderOk(s) && Enabled(s, step) && PhaseShows(s, m)
    ensures PhaseShows(Apply(s, step), After(m, step))
  {
    assert PcOk(s);
    hide Inv, HeaderOk, PhaseShows, Enabled, Apply, Holds, CleanTo, PagesOf;
    if step.Crash? {
      CrashShows(s, m);
    } else if Early(step) {
      EarlyShows(s, step, m);
    } else {
      LaterShows(s, step, m);
    }
  }

  lemma CrashShows(s: Sys, m: Isolation)
    requires HeaderOk(s) && PhaseShows(s, m)
    ensures PhaseShows(Apply(s, Crash), m)
  {
    hide Holds, CleanTo, Candidate, PagesOf;
  }

  /** The steps that make a writer and begin its write. */
  predicate Early(step: Step)
  {
    step.CutData? || step.CutBitmap? || step.ZeroHeader? || step.InitHeader? || step.Grow? || step.OpenMarker? ||
    step.FillMarker? || step.FailMarker? || step.SetFlag? || step.SetPhase?
  }

  lemma EarlyShows(s: Sys, step: Step, m: Isolation)
    requires HeaderOk(s) && Enabled(s, step) && PhaseShows(s, m) && Early(step)
    ensures PhaseShows(Apply(s, step), After(m, step))
  {
    hide PagesOf, Patch;
  }

  lemma LaterShows(s: Sys, step: Step, m: Isolation)
    requires HeaderOk(s) && Enabled(s, step) && PhaseShows(s, m) && !Early(step) && !step.Crash?
    requires (s.pc == Ready && !s.begun ==> !s.disk.header.dirty) && (s.pc.UploadSized? ==> s.begun)
    ensures PhaseShows(Apply(s, step), After(m, step))
  {
    hide PagesOf, Patch;
  }

  lemma {:induction false} RunShows(s: Sys, steps: seq<Step>)
    requires Start(s) && Allowed(s, steps)
    ensures PhaseShows(Run(s, steps), IsolationOf(steps))
    decreases |steps|
  {
    if steps != [] {
      var n := |steps| - 1;
      RunLast(s, steps);
      RunShows(s, steps[..n]);
      StartInv(s);
      RunKeepsInv(s, steps[..n]);
      RunKeepsHeader(s, steps[..n]);
      hide Inv, HeaderOk, PhaseShows, Enabled, Apply, Start;
      StepShows(Run(s, steps[..n]), steps[n], IsolationOf(steps[..n]));
    }
  }

  /** A dirty header has the part size of the process that wrote it. */
  predicate PartOk(s: Sys) { s.disk.header.dirty ==> s.disk.header.partSize == s.partSize }

  lemma StepKeepsPart(s: Sys, step: Step)
    requires HeaderOk(s) && PartOk(s) && Enabled(s, step)
    ensures PartOk(Apply(s, step)) && Apply(s, step).partSize == s.partSize
  {
    hide Recover;
  }

  lemma {:induction false} RunKeepsPart(s: Sys, steps: seq<Step>)
    requires Inv(s) && HeaderOk(s) && PartOk(s) && Allowed(s, steps)
    ensures PartOk(Run(s, steps)) && Run(s, steps).partSize == s.partSize
    decreases |steps|
  {
    if steps != [] {
      StepKeepsInv(s, steps[0]);
      StepKeepsHeader(s, steps[0]);
      StepKeepsPart(s, steps[0]);
      hide Inv, HeaderOk, PartOk, Enabled, Apply;
      RunKeepsPart(Apply(s, steps[0]), steps[1..]);
    }
  }

  lemma StartInv(s: Sys)
    requires Start(s)
    ensures Inv(s) && HeaderOk(s)
  {
  }

  /** At every point of every run, also after earlier crashes: a dirty header has a marker with its epoch, and a crash
      here leads to an entry that holds exactly the published bytes, all of them clean, or to no entry at all. A write
      whose isolation stands is not resumed, nor is any when the next process has another part size, and recovery fails
      exactly when the run leaves a marker without a key. */
  lemma CrashIsSafe(s: Sys, steps: seq<Step>, partSize: nat)
    requires Start(s) && Allowed(s, steps)
    ensures var t := Run(s, steps);
            var r := Recover(t.disk, partSize);
            && (t.disk.header.dirty ==> t.disk.marker == Marked(t.disk.header.epoch))
            && (r.Resumed? ==>
                  && r.size == |t.published| <= |t.disk.data| && t.disk.data[..r.size] == t.published
                  && CleanTo(t.disk.pages, PagesOf(r.size))
                  && IsolationOf(steps) != Stands && partSize == s.partSize)
            && (r == Aborted <==> LeavesBlank(steps))
            && (r == Nothing ==> !t.disk.header.dirty)
  {
    StartInv(s);
    RunKeepsInv(s, steps);
    RunKeepsPart(s, steps);
    RunShows(s, steps);
    BlankMarkerIff(s, steps);
    hide Run, LeavesBlank, IsolationOf;
  }

  /** Whatever is on disk, only the write that the marker names is resumed, and only with all of its data there. */
  lemma ResumesOnlyTheMarked(d: Disk, partSize: nat)
    ensures Recover(d, partSize).Resumed? ==>
              && d.marker == Marked(d.header.epoch) && d.header.dirty && d.header.partSize == partSize
              && d.header.objectSize == Recover(d, partSize).size <= |d.data|
    ensures Recover(d, partSize) == Nothing <==> d.marker == NoMarker
  {
  }

  /** Between its operations a write that has begun is resumed, with all its published bytes, exactly when the part size
      is unchanged and no request to isolate it stands: none was made, or an upload id was stored after it. Otherwise
      it is isolated. */
  lemma QuietWriteResumesIff(s: Sys, steps: seq<Step>, partSize: nat)
    requires Start(s) && Allowed(s, steps) && Run(s, steps).pc == Ready && Run(s, steps).begun
    ensures var t := Run(s, steps);
            Recover(t.disk, partSize) ==
              if IsolationOf(steps) == Stands || partSize != s.partSize then Isolated else Resumed(|t.published|)
  {
    StartInv(s);
    RunKeepsInv(s, steps);
    RunKeepsHeader(s, steps);
    RunKeepsPart(s, steps);
    RunShows(s, steps);
    hide Run, IsolationOf;
  }

  /** A write isolated after a failure is resumable again once an upload id that was on its way is stored. */
  lemma IsolationIsUndone() returns (s: Sys, steps: seq<Step>)
    ensures Start(s) && Allowed(s, steps) && steps != [] && steps[|steps| - 1] == MarkPending
    ensures !Recover(Run(s, steps).disk, s.partSize).Resumed?
    ensures var more := steps + [StoreUploadLength(5), StorePartSize, StoreUploadPhase];
            Allowed(s, more) && Recover(Run(s, more).disk, s.partSize) == Resumed(0)
  {
    var b;
    s, b := BegunWriter();
    steps := b + [MarkPending];
    var t := Run(s, b);
    var rest := [StoreUploadLength(5), StorePartSize, StoreUploadPhase];
    UndoRun();
    hide Apply, Enabled, Recover, Allowed, Run;
    RunAppend(s, b, [MarkPending]);
    RunAppend(s, b, [MarkPending] + rest);
    assert b + ([MarkPending] + rest) == steps + rest;
  }

  /** A crash while the marker file is being created leaves a marker that names no key; recovery of the whole cache
      then fails. */
  lemma BlankMarkerIsReachable() returns (s: Sys, steps: seq<Step>)
    ensures Start(s) && Allowed(s, steps) && Recover(Run(s, steps).disk, s.partSize) == Aborted
  {
    var b;
    s, b := CreatedWriter();
    var t := Run(s, b);
    assert Enabled(t, OpenMarker) && Recover(Apply(t, OpenMarker).disk, s.partSize) == Aborted;
    RunOne(t, OpenMarker, []);
    RunAppend(s, b, [OpenMarker] + []);
    steps := b + ([OpenMarker] + []);
  }

  lemma CreatedWriter() returns (s: Sys, steps: seq<Step>)
    ensures Start(s) && Allowed(s, steps) && s.partSize == 1
    ensures Run(s, steps) == Sys(Disk(NoMarker, Header(true, 1, false, 0, 0, 1, 0, 0), [], []), Ready, false, [], 1, 2)
  {
    s := Sys(Disk(NoMarker, BLANK, [], []), NoWriter, false, [], 1, 1);
    var s1 := Apply(s, CutData);
    var s2 := Apply(s1, CutBitmap);
    var s3 := Apply(s2, ZeroHeader);
    var s4 := Apply(s3, InitHeader);
    assert Allowed(s4, []) && Run(s4, []) == s4;
    RunOne(s3, InitHeader, []);
    RunOne(s2, ZeroHeader, [InitHeader] + []);
    RunOne(s1, CutBitmap, [ZeroHeader] + ([InitHeader] + []));
    steps := [CutData] + ([CutBitmap] + ([ZeroHeader] + ([InitHeader] + [])));
    RunOne(s, CutData, [CutBitmap] + ([ZeroHeader] + ([InitHeader] + [])));
  }

  lemma BegunWriter() returns (s: Sys, steps: seq<Step>)
    ensures Start(s) && Allowed(s, steps) && s.partSize == 1
    ensures Run(s, steps) == BegunWith(1)
  {
    var b;
    s, b := CreatedWriter();
    var t := Run(s, b);
    var t1 := Apply(t, OpenMarker);
    var t2 := Apply(t1, FillMarker);
    var t3 := Apply(t2, SetFlag);
    var t4 := Apply(t3, SetPhase);
    assert Allowed(t4, []) && Run(t4, []) == t4;
    RunOne(t3, SetPhase, []);
    RunOne(t2, SetFlag, [SetPhase] + []);
    RunOne(t1, FillMarker, [SetFlag] + ([SetPhase] + []));
    RunOne(t, OpenMarker, [FillMarker] + ([SetFlag] + ([SetPhase] + [])));
    steps := b + ([OpenMarker] + ([FillMarker] + ([SetFlag] + ([SetPhase] + []))));
    RunAppend(s, b, [OpenMarker] + ([FillMarker] + ([SetFlag] + ([SetPhase] + []))));
  }

  function BegunWith(phase: nat): Sys
  {
    Sys(Disk(Marked(1), Header(true, 1, true, phase, 0, 1, 0, 0), [], []), Ready, true, [], 1, 2)
  }

  lemma UndoRun()
    ensures Allowed(BegunWith(1), [MarkPending]) && !Recover(Run(BegunWith(1), [MarkPending]).disk, 1).Resumed?
    ensures var steps := [MarkPending] + [StoreUploadLength(5), StorePartSize, StoreUploadPhase];
            Allowed(BegunWith(1), steps) && Recover(Run(BegunWith(1), steps).disk, 1) == Resumed(0)
  {
    var t, t1 := BegunWith(1), BegunWith(3);
    assert Enabled(t, MarkPending) && Apply(t, MarkPending) == t1 && !Recover(t1.disk, 1).Resumed?;
    assert Allowed(t1, []) && Run(t1, []) == t1;
    UndoRest();
    hide Apply, Enabled, Recover, Allowed, Run;
    RunOne(t, MarkPending, [StoreUploadLength(5), StorePartSize, StoreUploadPhase]);
    RunOne(t, MarkPending, []);
    assert [MarkPending] + [] == [MarkPending];
  }

  lemma UndoRest()
    ensures var steps := [StoreUploadLength(5), StorePartSize, StoreUploadPhase];
            Allowed(BegunWith(3), steps) && Recover(Run(BegunWith(3), steps).disk, 1) == Resumed(0)
  {
    var t1 := BegunWith(3);
    var t2 := Apply(t1, StoreUploadLength(5));
    var t3 := Apply(t2, StorePartSize);
    var t4 := Apply(t3, StoreUploadPhase);
    assert Recover(t4.disk, 1) == Resumed(0);
    assert Enabled(t1, StoreUploadLength(5)) && Enabled(t2, StorePartSize) && Enabled(t3, StoreUploadPhase);
    assert Allowed(t4, []) && Run(t4, []) == t4;
    hide Apply, Enabled, Recover, Allowed, Run;
    RunOne(t3, StoreUploadPhase, []);
    RunOne(t2, StorePartSize, [StoreUploadPhase] + []);
    RunOne(t1, StoreUploadLength(5), [StorePartSize] + ([StoreUploadPhase] + []));
    assert [StoreUploadLength(5)] + ([StorePartSize] + ([StoreUploadPhase] + [])) == [StoreUploadLength(5), StorePartSize, StoreUploadPhase];
  }

  lemma {:induction false} RunAppend(s: Sys, a: seq<Step>, b: seq<Step>)
    requires Allowed(s, a) && Allowed(Run(s, a), b)
    ensures Allowed(s, a + b) && Run(s, a + b) == Run(Run(s, a), b)
    decreases |a|
  {
    hide Enabled, Apply;
    if a == [] {
      assert a + b == b;
    } else {
      assert (a + b)[1..] == a[1..] + b;
      RunAppend(Apply(s, a[0]), a[1..], b);
    }
  }

  lemma RunOne(s: Sys, step: Step, rest: seq<Step>)
    requires Enabled(s, step) && Allowed(Apply(s, step), rest)
    ensures Allowed(s, [step] + rest) && Run(s, [step] + rest) == Run(Apply(s, step), rest)
  {
    hide Enabled, Apply;
    assert ([step] + rest)[1..] == rest;
  }
}
