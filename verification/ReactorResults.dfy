/** What a callback is told, over whole runs.

    Each accepted operation has a story, put together event by event: what was asked for,
    how many bytes its completions moved, what the last completion said, and whether its
    caller or the deadline sweep had a cancellation submitted. The result in the log is the
    one its story calls for.
 */
module ReactorResults {
  import opened Geometry
  import opened ReactorIo

  /** A completion of the operation, and the state of the reactor it found. */
  datatype Last = Waiting | Came(res: int, sqe: bool, processed: int, shutting: bool, error: int)

  datatype Story = Story(op: Operation, moved: nat, last: Last, timedOut: bool, cancelled: bool)

  type Tale = map<nat, Story>

  function Positive(res: int): nat { if res > 0 then res else 0 }

  // ---------------------------------------------------------------- what a story calls for

  predicate Undisturbed(y: Story) { y.last.Came? && !y.timedOut && !y.cancelled && !y.last.shutting }

  /** Neither the length nor the processor is satisfied yet, or the call was interrupted. */
  predicate WantsMore(y: Story)
    requires y.last.Came?
  {
    || y.last.res == EINTR
    || (y.op.kind == Bytes && y.last.res > 0 && y.op.exact && y.moved < y.op.length)
    || (y.op.kind == Bytes && y.last.res > 0 && !y.op.exact && y.op.processor && y.last.processed == 0)
  }

  predicate Overflows(y: Story)
    requires y.last.Came?
  {
    y.op.kind == Bytes && y.last.res > 0 && y.moved > SSIZE_MAX
  }

  /** The operation is submitted again. */
  predicate GoesOn(y: Story)
    requires y.last.Came?
  {
    Undisturbed(y) && y.last.sqe && !Overflows(y) && WantsMore(y)
  }

  /** What is said to someone whose operation was cut short: the deadline comes before a caller's cancellation, and
      either before the shutdown. */
  predicate Excuse(y: Story, result: int)
    requires y.last.Came?
  {
    || (y.timedOut && result == ETIMEDOUT)
    || (y.cancelled && !y.timedOut && result == ECANCELED)
    || (y.last.shutting && !y.timedOut && !y.cancelled && result == if y.last.error != 0 then y.last.error else ENOTCONN)
  }

  /** A transfer reports all bytes that its completions moved, and not before an exact one is complete or at its end;
      otherwise the kernel's or the processor's own code, or why it was given up. */
  predicate TransferResult(y: Story, result: int)
    requires y.last.Came?
  {
    if result >= 0 then
      && result == y.moved && Undisturbed(y) && y.last.res >= 0 && !Overflows(y)
      && (y.op.exact && y.moved < y.op.length ==> y.last.res == 0)
      && (y.op.processor && y.last.res > 0 ==> y.last.processed > 0)
    else
      || (result == EOVERFLOW && Overflows(y))
      || Excuse(y, result)
      || (Undisturbed(y) && result == EAGAIN && WantsMore(y) && !y.last.sqe)
      || (Undisturbed(y) && result == y.last.res && result != EINTR)
      || (Undisturbed(y) && y.op.processor && y.last.res > 0 && (y.op.exact ==> y.moved >= y.op.length) &&
          (result == y.last.processed || (result == EIO && y.op.exact && y.last.processed == 0)))
  }

  /** Any other operation reports the kernel's result, except that a close which succeeded is always reported. */
  predicate PlainResult(y: Story, result: int)
    requires y.last.Came?
  {
    if y.op.kind == CloseFd && y.last.res == 0 then result == 0
    else if !Undisturbed(y) then Excuse(y, result)
    else if y.last.res == EINTR then result == EAGAIN && !y.last.sqe
    else result == if y.last.res > 0 && y.op.kind != OpenAt then EIO else y.last.res
  }

  predicate Justified(y: Story, result: int)
  {
    y.last.Came? && !GoesOn(y) && if y.op.kind == Bytes then TransferResult(y, result) else PlainResult(y, result)
  }

  // ---------------------------------------------------------------- stories

  /** Operations whose cancellation was submitted between the two states. */
  ghost predicate NewlyCancelled(s: Reactor, t: Reactor, n: nat)
  {
    exists id :: id in s.live && id in t.live && s.live[id].serial == n && !s.live[id].cancelSubmitted && t.live[id].cancelSubmitted
  }

  /** The cancellations submitted between the two states, by the deadline sweep or by a caller, enter the stories. */
  ghost function MarkTale(tale: Tale, s: Reactor, t: Reactor, timedOut: bool): Tale
  {
    map n | n in tale ::
      if !NewlyCancelled(s, t, n) then tale[n]
      else if timedOut then tale[n].(timedOut := true)
      else tale[n].(cancelled := true)
  }

  /** The story with one more completion. */
  function Completion(y: Story, s: Reactor, res: int, sqe: bool, processed: int): Story
  {
    y.(moved := y.moved + (if y.op.kind == Bytes then Positive(res) else 0),
       last := Came(res, sqe, processed, s.shutting, s.error))
  }

  /** The stories after one more event, which leads from `s` to `t`. */
  ghost function Tell(tale: Tale, s: Reactor, event: Event, t: Reactor): Tale
  {
    match event
    case Submit(op, _) => if t.serial > s.serial then tale[s.serial := Story(op, 0, Waiting, false, false)] else tale
    case Cancel(_, _) => MarkTale(tale, s, t, false)
    case Sweep(_, _) => MarkTale(tale, s, t, true)
    case Original(id, res, sqe, processed) =>
      if id in s.live && s.live[id].serial in tale then
        tale[s.live[id].serial := Completion(tale[s.live[id].serial], s, res, sqe, processed)]
      else tale
    case _ => tale
  }

  ghost function TaleOf(s: Reactor, events: seq<Event>): Tale
    requires Inv(s) && Allowed(s, events)
    decreases |events|
  {
    if events == [] then map[]
    else
      RunLast(s, events);
      var n := |events| - 1;
      Tell(TaleOf(s, events[..n]), Run(s, events[..n]), events[n], Run(s, events))
  }

  lemma {:induction false} RunLast(s: Reactor, events: seq<Event>)
    requires Inv(s) && Allowed(s, events) && events != []
    ensures var n := |events| - 1;
            && Allowed(s, events[..n]) && Inv(Run(s, events[..n])) && Enabled(Run(s, events[..n]), events[n])
            && Run(s, events) == Apply(Run(s, events[..n]), events[n])
    decreases |events|
  {
    hide Inv, Enabled, Apply;
    var n := |events| - 1;
    StepKeepsInv(s, events[0]);
    if n > 0 {
      RunLast(Apply(s, events[0]), events[1..]);
      assert events[1..][..n - 1] == events[..n][1..] && events[..n][0] == events[0];
    }
  }

  // ---------------------------------------------------------------- the reactor agrees with the stories

  /** The request asks for what the story says, and was disturbed as it says. */
  predicate Matches(r: Request, y: Story)
  {
    && r.kind == y.op.kind && r.length == y.op.length && r.exact == y.op.exact && r.processor == y.op.processor
    && r.deadline == y.op.deadline && r.timedOut == y.timedOut && r.cancelled == y.cancelled
  }

  /** The request is that of the story so far. */
  predicate Follows(r: Request, y: Story)
  {
    && Matches(r, y)
    && (!r.completed && r.kind == Bytes ==> r.transferred == y.moved)
    && (r.completed ==> Justified(y, r.result))
  }

  ghost predicate LiveTold(live: map<nat, Request>, tale: Tale)
  {
    forall id | id in live :: live[id].serial in tale && Follows(live[id], tale[live[id].serial])
  }

  ghost predicate LogTold(log: seq<Done>, tale: Tale)
  {
    forall k | 0 <= k < |log| ::
      log[k].serial in tale && log[k].kind == tale[log[k].serial].op.kind && Justified(tale[log[k].serial], log[k].result)
  }

  ghost predicate Told(s: Reactor, tale: Tale)
  {
    LiveTold(s.live, tale) && LogTold(s.log, tale) && forall n: nat :: n in tale <==> n < s.serial
  }

  // ---------------------------------------------------------------- one completion

  /** Request `id` is submitted again; the others are as they were. */
  ghost predicate Going(s: Reactor, t: Reactor, id: nat, transferred: nat)
  {
    && id in s.live && t.live.Keys == s.live.Keys && t.log == s.log && t.serial == s.serial
    && (forall j | j in s.live && j != id :: t.live[j] == s.live[j].(slot := t.live[j].slot))
    && t.live[id] == s.live[id].(transferred := transferred, slot := t.live[id].slot)
  }

  /** Request `id` has its result: it waits for the cancel completion, or is called back. */
  ghost predicate Ended(s: Reactor, t: Reactor, id: nat, result: int)
  {
    && id in s.live && t.serial == s.serial
    && (forall j | j in s.live && j != id :: j in t.live && t.live[j] == s.live[j].(slot := t.live[j].slot))
    && (forall j | j in t.live :: j in s.live)
    && if s.live[id].cancelPending
       then
         && t.log == s.log && id in t.live && t.live[id].completed && t.live[id].result == result
         && t.live[id] == s.live[id].(completed := true, result := result, transferred := t.live[id].transferred, slot := t.live[id].slot)
       else id !in t.live && t.log == s.log + [Done(s.live[id].serial, s.live[id].kind, result)]
  }

  lemma FinishEnds(s: Reactor, id: nat, result: int)
    requires id in s.live && s.pending > 0
    ensures Ended(s, Finish(s, id, result), id, result)
  {
  }

  lemma PushGoes(s: Reactor, id: nat)
    requires id in s.live
    ensures Going(s, Push(s, id), id, s.live[id].transferred)
  {
    assert Push(s, id).live.Keys == s.live.Keys;
  }

  /** `x` is `s` with the bytes counted, and perhaps a descriptor closed. */
  ghost predicate Counted(s: Reactor, x: Reactor, id: nat, transferred: nat)
  {
    && id in s.live && x.live == s.live[id := s.live[id].(transferred := transferred)]
    && x.log == s.log && x.serial == s.serial && x.shutting == s.shutting && x.error == s.error && x.pending == s.pending
  }

  lemma CountedEnds(s: Reactor, x: Reactor, t: Reactor, id: nat, transferred: nat, result: int)
    requires Counted(s, x, id, transferred) && Ended(x, t, id, result)
    ensures Ended(s, t, id, result)
  {
    assert x.live.Keys == s.live.Keys;
    forall j | j in s.live && j != id ensures j in t.live && t.live[j] == s.live[j].(slot := t.live[j].slot) {
      assert j in x.live && x.live[j] == s.live[j];
    }
  }

  lemma CountedGoes(s: Reactor, x: Reactor, t: Reactor, id: nat, transferred: nat)
    requires Counted(s, x, id, transferred) && Going(x, t, id, transferred)
    ensures Going(s, t, id, transferred)
  {
    assert x.live.Keys == s.live.Keys;
    forall j | j in s.live && j != id ensures t.live[j] == s.live[j].(slot := t.live[j].slot) {
      assert j in x.live && x.live[j] == s.live[j];
    }
  }

  /** `Outcome` ends the request with a result its story calls for, or submits it again when the story says so. */
  lemma OutcomeTells(s: Reactor, id: nat, res: int, sqe: bool, processed: int, y: Story) returns (goes: bool, result: int)
    requires id in s.live && s.pending > 0 && Matches(s.live[id], y) && y.last == Came(res, sqe, processed, s.shutting, s.error)
    requires s.live[id].kind == Bytes ==> s.live[id].transferred == y.moved
    requires Undisturbed(y) && !Overflows(y) && !(y.op.kind == CloseFd && res == 0)
    ensures goes == GoesOn(y)
    ensures if goes then Going(s, Outcome(s, id, res, sqe, processed), id, s.live[id].transferred)
            else Ended(s, Outcome(s, id, res, sqe, processed), id, result) && Justified(y, result)
  {
    var r := s.live[id];
    goes := GoesOn(y);
    hide Finish, Push, Going, Ended;
    PushGoes(s, id);
    if r.kind != Bytes {
      result := if res == EINTR then EAGAIN else if res > 0 && r.kind != OpenAt then EIO else res;
    } else if WantsMore(y) {
      result := EAGAIN;
    } else if res < 0 {
      result := res;
    } else if r.processor && res > 0 && processed <= 0 {
      result := if processed < 0 then processed else EIO;
    } else {
      result := r.transferred;
    }
    FinishEnds(s, id, result);
  }

  lemma CompleteTells(s: Reactor, id: nat, res: int, sqe: bool, processed: int, y: Story) returns (goes: bool, result: int)
    requires id in s.live && s.pending > 0 && Matches(s.live[id], y) && y.last == Came(res, sqe, processed, s.shutting, s.error)
    requires s.live[id].kind == Bytes ==> y.moved == s.live[id].transferred + Positive(res)
    ensures goes == GoesOn(y)
    ensures var t := CompleteAsync(s, id, res, sqe, processed);
            if goes then Going(s, t, id, MovedBy(s.live[id], y))
            else Ended(s, t, id, result) && Justified(y, result)
  {
    hide Finish, Outcome, Going, Ended, Excuse, DiscardOpen, TransferResult, PlainResult, Counted;
    var r, t := s.live[id], CompleteAsync(s, id, res, sqe, processed);
    if Overflows(y) {
      goes, result := false, EOVERFLOW;
      FinishEnds(s, id, EOVERFLOW);
      OverflowJustified(y);
    } else {
      var moved := MovedBy(r, y);
      var x := s.(live := s.live[id := r.(transferred := moved)]);
      CountedIs(s, x, id, moved, res);
      if y.op.kind == CloseFd && res == 0 {
        goes, result := false, 0;
        FinishEnds(x, id, 0);
        CountedEnds(s, x, t, id, moved, 0);
        CloseJustified(y);
      } else if !Undisturbed(y) {
        goes, result := false, Apology(y);
        FinishEnds(DiscardOpen(x, id, res), id, result);
        CountedEnds(s, DiscardOpen(x, id, res), t, id, moved, result);
        ApologyJustified(y);
      } else {
        goes, result := OutcomeTells(x, id, res, sqe, processed, y);
        if goes { CountedGoes(s, x, t, id, moved); } else { CountedEnds(s, x, t, id, moved, result); }
      }
    }
  }

  /** The bytes counted once the completion is in the story. */
  function MovedBy(r: Request, y: Story): nat { if y.op.kind == Bytes then y.moved else r.transferred }

  lemma CountedIs(s: Reactor, x: Reactor, id: nat, moved: nat, res: int)
    requires id in s.live && x == s.(live := s.live[id := s.live[id].(transferred := moved)])
    ensures Counted(s, x, id, moved) && id in x.live && Counted(s, DiscardOpen(x, id, res), id, moved)
  {
  }

  lemma OverflowJustified(y: Story)
    requires y.last.Came? && Overflows(y)
    ensures Justified(y, EOVERFLOW)
  {
  }

  lemma CloseJustified(y: Story)
    requires y.last.Came? && y.op.kind == CloseFd && y.last.res == 0
    ensures Justified(y, 0)
  {
  }

  function Apology(y: Story): int
    requires y.last.Came?
  {
    if y.timedOut then ETIMEDOUT else if y.cancelled then ECANCELED
    else if y.last.error != 0 then y.last.error else ENOTCONN
  }

  lemma ApologyJustified(y: Story)
    requires y.last.Came? && !Undisturbed(y) && !(y.op.kind == CloseFd && y.last.res == 0) && y.last.error <= 0
    ensures Justified(y, Apology(y))
  {
  }

  lemma MovedEnds(s: Reactor, u: Reactor, t: Reactor, id: nat, result: int)
    requires Moved(s, u, id) && Ended(u, t, id, result)
    ensures Ended(s, t, id, result)
  {
    forall j | j in s.live && j != id ensures j in t.live && t.live[j] == s.live[j].(slot := t.live[j].slot) {
      assert j in u.live && u.live[j] == s.live[j].(slot := u.live[j].slot);
    }
  }

  lemma MovedGoes(s: Reactor, u: Reactor, t: Reactor, id: nat, transferred: nat)
    requires Moved(s, u, id) && Going(u, t, id, transferred)
    ensures Going(s, t, id, transferred)
  {
    forall j | j in s.live && j != id ensures t.live[j] == s.live[j].(slot := t.live[j].slot) {
      assert j in u.live && u.live[j] == s.live[j].(slot := u.live[j].slot);
    }
  }

  lemma InvParts(s: Reactor)
    requires Inv(s)
    ensures PoolOk(s) && ActiveOk(s) && LogOk(s) && GateOk(s) && ActiveIn(s)
  {
  }

  lemma CompletedKnows(s: Reactor, id: nat, fds: seq<int>, closing: bool)
    requires ActiveOk(s) && id in s.live && s.live[id].slot.At?
    ensures var u := Completed(s, id, fds, closing);
            u.shutting == s.shutting && u.error == s.error
  {
  }

  lemma DetachedMatches(r: Request, y: Story)
    requires Matches(r, y)
    ensures Matches(r.(slot := Nowhere), y) && MovedBy(r.(slot := Nowhere), y) == MovedBy(r, y)
    ensures r.kind == y.op.kind
  {
  }

  function Opened(s: Reactor, id: nat, res: int): seq<int>
    requires id in s.live
  {
    if s.live[id].kind == OpenAt && res >= 0 then s.openedFds + [res] else s.openedFds
  }

  lemma CompleteIoIs(s: Reactor, id: nat, res: int, sqe: bool, processed: int)
    requires Inv(s) && ActiveOk(s) && id in s.live && s.live[id].slot.At?
    ensures var u := Completed(s, id, Opened(s, id, res), Closing(s.live[id].kind, res));
            id in u.live && u.pending > 0 && CompleteIo(s, id, res, sqe, processed) == CompleteAsync(u, id, res, sqe, processed)
  {
    DetachKeeps(s, id);
    hide PoolOk, KernelOk, LogOk, DescriptorsOk, ClosesOk, GateOk, CompleteAsync;
  }

  /** The same of a whole completion. */
  lemma OriginalTells(s: Reactor, id: nat, res: int, sqe: bool, processed: int, y: Story) returns (goes: bool, result: int)
    requires Inv(s) && id in s.inflight && id in s.live
    requires Matches(s.live[id], y) && y.last == Came(res, sqe, processed, s.shutting, s.error)
    requires s.live[id].kind == Bytes ==> y.moved == s.live[id].transferred + Positive(res)
    ensures goes == GoesOn(y)
    ensures var t := CompleteIo(s, id, res, sqe, processed);
            if goes then Going(s, t, id, MovedBy(s.live[id], y))
            else Ended(s, t, id, result) && Justified(y, result)
  {
    hide *;
    InvParts(s);
    InflightAt(s, id);
    var fds, closing := Opened(s, id, res), Closing(s.live[id].kind, res);
    var u := Completed(s, id, fds, closing);
    CompletedMoves(s, id, fds, closing);
    CompletedKnows(s, id, fds, closing);
    MovedFields(s, u, id);
    CompleteIoIs(s, id, res, sqe, processed);
    DetachedMatches(s.live[id], y);
    goes, result := CompleteTells(u, id, res, sqe, processed, y);
    var t := CompleteAsync(u, id, res, sqe, processed);
    if goes { MovedGoes(s, u, t, id, MovedBy(s.live[id], y)); }
    else { MovedEnds(s, u, t, id, result); }
  }

  // ---------------------------------------------------------------- every event

  lemma SubmitTells(s: Reactor, op: Operation, sqe: bool, tale: Tale)
    requires Inv(s) && Told(s, tale)
    ensures Told(SubmitRequest(s, op, sqe), Tell(tale, s, Submit(op, sqe), SubmitRequest(s, op, sqe)))
  {
    hide PoolOk, ActiveOk, KernelOk, LogOk, DescriptorsOk, ClosesOk, GateOk, Justified;
    if Accepts(s, sqe) {
      var t := SubmitRequest(s, op, sqe);
      var tale' := Tell(tale, s, Submit(op, sqe), t);
      forall id | id in t.live ensures t.live[id].serial in tale' && Follows(t.live[id], tale'[t.live[id].serial]) {
        if id != s.free[0] { assert t.live[id] == s.live[id]; }
      }
    }
  }

  /** The story of one request is told further, the others stay. */
  lemma EndTells(s: Reactor, t: Reactor, id: nat, result: int, tale: Tale, y: Story)
    requires LogOk(s) && Told(s, tale) && Ended(s, t, id, result) && Matches(s.live[id], y) && Justified(y, result)
    ensures Told(t, tale[s.live[id].serial := y])
  {
    SerialOwned(s, id);
    hide LogOk, Justified;
    var tale' := tale[s.live[id].serial := y];
    forall j | j in t.live ensures t.live[j].serial in tale' && Follows(t.live[j], tale'[t.live[j].serial]) {
      LiveFollows(s, tale, j);
    }
  }

  /** Serials are given once, so that nobody else's story is touched. */
  lemma SerialOwned(s: Reactor, id: nat)
    requires LogOk(s) && id in s.live
    ensures forall j | j in s.live && j != id :: s.live[j].serial != s.live[id].serial
    ensures forall k | 0 <= k < |s.log| :: s.log[k].serial != s.live[id].serial
  {
    assert Running(s, s.live[id].serial);
    forall k | 0 <= k < |s.log| ensures s.log[k].serial != s.live[id].serial { assert Logged(s, s.log[k].serial); }
  }

  lemma GoTells(s: Reactor, t: Reactor, id: nat, transferred: nat, tale: Tale, y: Story)
    requires LogOk(s) && Told(s, tale) && Going(s, t, id, transferred) && !s.live[id].completed && Matches(s.live[id], y)
    requires y.op.kind == Bytes ==> transferred == y.moved
    ensures Told(t, tale[s.live[id].serial := y])
  {
    SerialOwned(s, id);
    hide LogOk, Justified;
    var tale' := tale[s.live[id].serial := y];
    forall j | j in t.live ensures t.live[j].serial in tale' && Follows(t.live[j], tale'[t.live[j].serial]) {
      LiveFollows(s, tale, j);
    }
  }

  lemma LiveFollows(s: Reactor, tale: Tale, id: nat)
    requires Told(s, tale) && id in s.live
    ensures s.live[id].serial in tale && Follows(s.live[id], tale[s.live[id].serial])
  {
  }

  lemma CompletionMatches(r: Request, y: Story, s: Reactor, res: int, sqe: bool, processed: int)
    requires Follows(r, y) && !r.completed
    ensures var z := Completion(y, s, res, sqe, processed);
            && Matches(r, z) && z.last == Came(res, sqe, processed, s.shutting, s.error)
            && (z.op.kind == Bytes ==> MovedBy(r, z) == z.moved)
            && (r.kind == Bytes ==> z.moved == r.transferred + Positive(res))
  {
  }

  lemma CompletionTells(s: Reactor, id: nat, res: int, sqe: bool, processed: int, tale: Tale)
    requires Inv(s) && id in s.inflight && Told(s, tale)
    ensures id in s.live && s.live[id].serial in tale
    ensures Told(CompleteIo(s, id, res, sqe, processed),
                 tale[s.live[id].serial := Completion(tale[s.live[id].serial], s, res, sqe, processed)])
    ensures id in CompleteIo(s, id, res, sqe, processed).inflight <==> GoesOn(Completion(tale[s.live[id].serial], s, res, sqe, processed))
  {
    hide *;
    InvParts(s);
    InflightRuns(s, id);
    LiveFollows(s, tale, id);
    var y := Completion(tale[s.live[id].serial], s, res, sqe, processed);
    CompletionMatches(s.live[id], tale[s.live[id].serial], s, res, sqe, processed);
    var goes, result := OriginalTells(s, id, res, sqe, processed, y);
    var t := CompleteIo(s, id, res, sqe, processed);
    OriginalKeepsInv(s, id, res, sqe, processed);
    if goes {
      GoTells(s, t, id, MovedBy(s.live[id], y), tale, y);
      StillInflight(s, t, id, MovedBy(s.live[id], y));
    } else {
      EndTells(s, t, id, result, tale, y);
      NotInflight(s, t, id, result);
    }
  }

  lemma StillInflight(s: Reactor, t: Reactor, id: nat, transferred: nat)
    requires Inv(t) && Going(s, t, id, transferred) && !s.live[id].completed
    ensures id in t.inflight
  {
    assert RequestOk(t.live[id]);
  }

  lemma NotInflight(s: Reactor, t: Reactor, id: nat, result: int)
    requires Inv(t) && Ended(s, t, id, result)
    ensures id !in t.inflight
  {
    if id in t.live { assert RequestOk(t.live[id]); }
  }

  lemma InflightRuns(s: Reactor, id: nat)
    requires Inv(s) && id in s.inflight
    ensures id in s.live && !s.live[id].completed
  {
    assert RequestOk(s.live[id]);
  }

  /** Request `id` has heard of its cancellation, and ends if it only waited for that. */
  ghost predicate Released(s: Reactor, t: Reactor, id: nat)
  {
    && id in s.live && t.serial == s.serial
    && (forall j | j in s.live && j != id :: j in t.live && t.live[j] == s.live[j])
    && (forall j | j in t.live :: j in s.live)
    && if s.live[id].completed
       then id !in t.live && t.log == s.log + [Done(s.live[id].serial, s.live[id].kind, s.live[id].result)]
       else id in t.live && t.live[id] == s.live[id].(cancelPending := false) && t.log == s.log
  }

  lemma CancelReleases(s: Reactor, id: nat, res: int)
    requires id in s.live && s.pending > 0
    ensures Released(s, CompleteCancel(s, id, res), id)
  {
  }

  lemma ReleaseTells(s: Reactor, t: Reactor, id: nat, tale: Tale)
    requires Released(s, t, id) && Told(s, tale)
    ensures Told(t, tale)
  {
    LiveFollows(s, tale, id);
    hide Justified;
    forall j | j in t.live ensures t.live[j].serial in tale && Follows(t.live[j], tale[t.live[j].serial]) {
      LiveFollows(s, tale, j);
    }
  }

  lemma CancelDoneTells(s: Reactor, id: nat, res: int, tale: Tale)
    requires Inv(s) && id in s.cancels && Told(s, tale)
    ensures id in s.live && s.pending > 0 && Told(CompleteCancel(s, id, res), tale)
  {
    hide *;
    CancelOwed(s, id);
    CancelReleases(s, id, res);
    ReleaseTells(s, CompleteCancel(s, id, res), id, tale);
  }

  /** Cancellations were submitted for some requests; nothing else changed. */
  ghost predicate Marked(s: Reactor, t: Reactor, timedOut: bool)
  {
    && t.live.Keys == s.live.Keys && t.log == s.log && t.serial == s.serial
    && forall id | id in s.live ::
         || t.live[id] == s.live[id]
         || (!s.live[id].cancelSubmitted && !s.live[id].completed && t.live[id] ==
               if timedOut then TimedOut(s.live[id]) else s.live[id].(cancelled := true, cancelSubmitted := true, cancelPending := true))
  }

  lemma NewlyIff(s: Reactor, t: Reactor, timedOut: bool, id: nat)
    requires LogOk(s) && Marked(s, t, timedOut) && id in s.live
    ensures NewlyCancelled(s, t, s.live[id].serial) <==> t.live[id] != s.live[id]
  {
    if NewlyCancelled(s, t, s.live[id].serial) {
      var j :| j in s.live && j in t.live && s.live[j].serial == s.live[id].serial && !s.live[j].cancelSubmitted && t.live[j].cancelSubmitted;
      assert j == id;
    }
  }

  lemma NotNewly(s: Reactor, t: Reactor, n: nat)
    requires LogOk(s) && Logged(s, n)
    ensures !NewlyCancelled(s, t, n)
  {
    assert !Running(s, n);
  }

  lemma MarkFollows(s: Reactor, t: Reactor, timedOut: bool, tale: Tale, id: nat)
    requires LogOk(s) && Told(s, tale) && Marked(s, t, timedOut) && id in t.live
    ensures t.live[id].serial in tale && Follows(t.live[id], MarkTale(tale, s, t, timedOut)[t.live[id].serial])
  {
    NewlyIff(s, t, timedOut, id);
    LiveFollows(s, tale, id);
    hide Justified, NewlyCancelled, LogOk, Told;
  }

  lemma MarkTells(s: Reactor, t: Reactor, timedOut: bool, tale: Tale)
    requires LogOk(s) && Told(s, tale) && Marked(s, t, timedOut)
    ensures Told(t, MarkTale(tale, s, t, timedOut))
  {
    hide Justified, NewlyCancelled, Follows, LogOk;
    var tale' := MarkTale(tale, s, t, timedOut);
    assert tale'.Keys == tale.Keys;
    forall id | id in t.live ensures t.live[id].serial in tale' && Follows(t.live[id], tale'[t.live[id].serial]) {
      MarkFollows(s, t, timedOut, tale, id);
    }
    forall k | 0 <= k < |t.log|
      ensures t.log[k].serial in tale' && t.log[k].kind == tale'[t.log[k].serial].op.kind && Justified(tale'[t.log[k].serial], t.log[k].result)
    {
      assert Logged(s, s.log[k].serial);
      NotNewly(s, t, s.log[k].serial);
    }
  }

  lemma LiveRequestOk(s: Reactor, id: nat)
    requires Inv(s) && id in s.live
    ensures RequestOk(s.live[id])
  {
  }

  lemma CancelOnly(s: Reactor, id: nat, sqe: bool)
    requires ActiveIn(s) && (id in s.live ==> RequestOk(s.live[id]))
    ensures Marked(s, CancelRequest(s, id, sqe), false)
  {
    hide Earliest;
    assert CancelRequest(s, id, sqe).live.Keys == s.live.Keys;
  }

  lemma CancelMarks(s: Reactor, id: nat, sqe: bool)
    requires Inv(s)
    ensures ActiveIn(s) && Marked(s, CancelRequest(s, id, sqe), false)
  {
    hide *;
    if id in s.live { LiveRequestOk(s, id); }
    InvParts(s);
    ActiveLive(s);
    CancelOnly(s, id, sqe);
  }

  lemma SweepMarks(s: Reactor, now: nat, sqes: nat)
    requires Inv(s) && s.seen <= now
    ensures ActiveIn(s) && Marked(s, SweepAll(s, now, sqes), true)
  {
    SweepCancelsExpired(s, now, sqes);
    ActiveLive(s);
    NeverInline(s, Sweep(now, sqes));
    forall id | id in s.live && Expired(s.live[id], now) ensures !s.live[id].completed { assert RequestOk(s.live[id]); }
    SweepSerial(s, now, sqes);
    hide Inv, SweepAll;
  }

  predicate SameState(s: Reactor, t: Reactor) { t.shutting == s.shutting && t.error == s.error && t.depth == s.depth }

  lemma SweepSerial(s: Reactor, now: nat, sqes: nat)
    requires ActiveIn(s)
    ensures SameState(s, SweepAll(s, now, sqes)) && SweepAll(s, now, sqes).serial == s.serial
  {
    if s.next <= now { SweepFromSerial(s.(seen := now), 0, now, sqes, FOREVER); }
  }

  lemma {:induction false} SweepFromSerial(s: Reactor, k: nat, now: nat, sqes: nat, best: nat)
    requires ActiveIn(s) && k <= |s.active|
    ensures SameState(s, SweepFrom(s, k, now, sqes, best)) && SweepFrom(s, k, now, sqes, best).serial == s.serial
    decreases |s.active| - k
  {
    if k < |s.active| {
      SweepUnfold(s, k, now, sqes, best);
      var r := s.live[s.active[k]];
      hide SweepFrom;
      SweepFromSerial(s, k + 1, now, sqes, best);
      SweepFromSerial(s, k + 1, now, sqes, Min(best, r.deadline));
      if sqes > 0 { SweepFromSerial(Expire(s, s.active[k]), k + 1, now, sqes - 1, best); }
    }
  }

  lemma StepTells(s: Reactor, event: Event, tale: Tale)
    requires Inv(s) && Enabled(s, event) && Told(s, tale)
    ensures Told(Apply(s, event), Tell(tale, s, event, Apply(s, event)))
  {
    assert LogOk(s);
    hide Inv, Told, LogOk, CompleteIo, CompleteCancel, SubmitRequest, CancelRequest, SweepAll, Marked;
    match event
    case Submit(op, sqe) => SubmitTells(s, op, sqe, tale);
    case Cancel(id, sqe) =>
      CancelMarks(s, id, sqe);
      MarkTells(s, CancelRequest(s, id, sqe), false, tale);
    case Original(id, res, sqe, processed) => CompletionTells(s, id, res, sqe, processed, tale);
    case CancelDone(id, res) => CancelDoneTells(s, id, res, tale);
    case Sweep(now, sqes) =>
      SweepMarks(s, now, sqes);
      MarkTells(s, SweepAll(s, now, sqes), true, tale);
    case Shutdown => SameTells(s, s.(shutting := true), tale);
    case Fault(error) => SameTells(s, s.(error := error), tale);
  }

  lemma SameTells(s: Reactor, t: Reactor, tale: Tale)
    requires Told(s, tale) && t.live == s.live && t.log == s.log && t.serial == s.serial
    ensures Told(t, tale)
  {
  }

  lemma {:induction false} RunTells(depth: nat, events: seq<Event>)
    requires Allowed(Idle(depth), events)
    ensures Told(Run(Idle(depth), events), TaleOf(Idle(depth), events))
    decreases |events|
  {
    hide Inv, Enabled, Apply, Allowed, Tell, Follows, Justified;
    if events != [] {
      var n := |events| - 1;
      RunLast(Idle(depth), events);
      RunTells(depth, events[..n]);
      StepTells(Run(Idle(depth), events[..n]), events[n], TaleOf(Idle(depth), events[..n]));
    }
  }

  // ---------------------------------------------------------------- the results

  /** In every run each callback was told what the story of its operation calls for; a transfer, in particular, the
      number of bytes that all its completions moved. */
  lemma ResultsAreJustified(depth: nat, events: seq<Event>, k: nat)
    requires Allowed(Idle(depth), events) && k < |Run(Idle(depth), events).log|
    ensures var d, tale := Run(Idle(depth), events).log[k], TaleOf(Idle(depth), events);
            && d.serial in tale && d.kind == tale[d.serial].op.kind && Justified(tale[d.serial], d.result)
            && (d.kind == Bytes && d.result >= 0 ==> d.result == tale[d.serial].moved)
            && (d.kind == Bytes && tale[d.serial].op.exact && 0 <= d.result < tale[d.serial].op.length ==> tale[d.serial].last.res == 0)
  {
    RunTells(depth, events);
    hide Run, TaleOf, Allowed;
  }

  /** A completion submits its operation again if and only if its story says that it goes on: nothing disturbed it, there
      is a submission entry, and it was interrupted, is exact and short, or its processor wants more. */
  lemma GoesOnIff(depth: nat, events: seq<Event>, id: nat, res: int, sqe: bool, processed: int)
    requires Allowed(Idle(depth), events) && id in Run(Idle(depth), events).inflight
    ensures var s, tale := Run(Idle(depth), events), TaleOf(Idle(depth), events);
            && Inv(s) && id in s.live && s.live[id].serial in tale
            && (id in CompleteIo(s, id, res, sqe, processed).inflight <==>
                  GoesOn(Completion(tale[s.live[id].serial], s, res, sqe, processed)))
  {
    hide *;
    RunTells(depth, events);
    RunKeepsInv(Idle(depth), events);
    CompletionTells(Run(Idle(depth), events), id, res, sqe, processed, TaleOf(Idle(depth), events));
  }

  // ---------------------------------------------------------------- what a submission and a cancellation do

  /** The first failure of a cancel completion is remembered, and whatever else sets the error. */
  function ErrorAfter(error: ErrorCode, event: Event): ErrorCode
  {
    match event
    case CancelDone(_, res) => if error == 0 && res < 0 && res !in {ENOENT, EALREADY, ECANCELED} then res else error
    case Fault(e) => e
    case _ => error
  }

  const ENOENT: int := -2
  const EALREADY: int := -114

  function ErrorOf(events: seq<Event>): ErrorCode
  {
    if events == [] then 0 else ErrorAfter(ErrorOf(events[..|events| - 1]), events[|events| - 1])
  }

  lemma CompleteKeepsState(s: Reactor, id: nat, res: int, sqe: bool, processed: int)
    requires id in s.live && s.pending > 0
    ensures SameState(s, CompleteAsync(s, id, res, sqe, processed))
  {
  }

  lemma OriginalKeepsState(s: Reactor, id: nat, res: int, sqe: bool, processed: int)
    requires Inv(s) && id in s.inflight
    ensures SameState(s, CompleteIo(s, id, res, sqe, processed))
  {
    hide Inv, CompleteIo, CompleteAsync, Completed, ActiveOk, PoolOk, GateOk, LogOk;
    InvParts(s);
    InflightAt(s, id);
    var fds, closing := Opened(s, id, res), Closing(s.live[id].kind, res);
    CompletedKnows(s, id, fds, closing);
    CompletedMoves(s, id, fds, closing);
    MovedFields(s, Completed(s, id, fds, closing), id);
    CompleteIoIs(s, id, res, sqe, processed);
    CompleteKeepsState(Completed(s, id, fds, closing), id, res, sqe, processed);
  }

  lemma StepState(s: Reactor, event: Event)
    requires Inv(s) && Enabled(s, event)
    ensures var t := Apply(s, event);
            && (t.shutting <==> s.shutting || event == Shutdown) && t.error == ErrorAfter(s.error, event) && t.depth == s.depth
  {
    InvParts(s);
    match event
    case Original(id, res, sqe, processed) =>
      hide Inv, CompleteIo;
      OriginalKeepsState(s, id, res, sqe, processed);
    case Sweep(now, sqes) =>
      hide Inv, SweepAll;
      SweepSerial(s, now, sqes);
    case CancelDone(id, res) => CancelOwed(s, id);
    case _ => hide Inv, CompleteIo, SweepAll;
  }

  lemma {:induction false} StateOf(depth: nat, events: seq<Event>)
    requires Allowed(Idle(depth), events)
    ensures var s := Run(Idle(depth), events);
            (s.shutting <==> Shutdown in events) && s.error == ErrorOf(events) && s.depth == depth
    decreases |events|
  {
    hide Inv, Enabled, Apply, Allowed, ErrorAfter;
    if events != [] {
      var n := |events| - 1;
      RunLast(Idle(depth), events);
      StateOf(depth, events[..n]);
      StepState(Run(Idle(depth), events[..n]), events[n]);
      assert events == events[..n] + [events[n]];
    }
  }

  /** A submission is accepted if and only if nobody has asked for shutdown, no error stands, a request and a submission
      entry are free. It is then in flight as asked for, under a serial of its own; otherwise nothing changes. */
  lemma SubmitIff(depth: nat, events: seq<Event>, op: Operation, sqe: bool)
    requires Allowed(Idle(depth), events)
    ensures var s := Run(Idle(depth), events);
            var t := SubmitRequest(s, op, sqe);
            && (t.serial == s.serial + 1 <==> Shutdown !in events && ErrorOf(events) == 0 && |s.live| < depth && sqe)
            && (t.serial != s.serial + 1 ==> t == s)
            && (t.serial == s.serial + 1 ==>
                  exists id :: id !in s.live && id in t.live && t.inflight == s.inflight + {id} && Started(t.live[id], op, s.serial))
  {
    var s := Run(Idle(depth), events);
    StateOf(depth, events);
    RunKeepsInv(Idle(depth), events);
    InvParts(s);
    hide Run, Allowed, ErrorOf;
    SubmitStarts(s, op, sqe);
  }

  predicate Started(r: Request, op: Operation, serial: nat)
  {
    && Matches(r, Story(op, 0, Waiting, false, false)) && r.serial == serial && r.transferred == 0
    && !r.completed && !r.cancelSubmitted && !r.cancelPending
  }

  lemma SubmitStarts(s: Reactor, op: Operation, sqe: bool)
    requires PoolOk(s)
    ensures var t := SubmitRequest(s, op, sqe);
            if s.error == 0 && !s.shutting && |s.live| < s.depth && sqe then
              && t.serial == s.serial + 1
              && exists id :: id !in s.live && id in t.live && t.inflight == s.inflight + {id} && Started(t.live[id], op, s.serial)
            else t == s
  {
    if Accepts(s, sqe) {
      var t, id := SubmitRequest(s, op, sqe), s.free[0];
      assert id !in s.live && id in t.live && t.inflight == s.inflight + {id} && Started(t.live[id], op, s.serial);
    }
  }

  /** A cancellation is submitted if and only if the request is in flight, has none yet and there is a submission entry;
      its callback will then say so. */
  lemma CancelIff(s: Reactor, id: nat, sqe: bool)
    requires Inv(s)
    ensures ActiveIn(s)
    ensures var t := CancelRequest(s, id, sqe);
            if id in s.inflight && id in s.live && !s.live[id].cancelSubmitted && sqe then
              && t.cancels == s.cancels + {id} && id !in s.cancels && t.inflight == s.inflight && t.live.Keys == s.live.Keys
              && t.live[id] == s.live[id].(cancelled := true, cancelSubmitted := true, cancelPending := true)
              && (forall j | j in s.live && j != id :: t.live[j] == s.live[j])
            else t == s
  {
    hide PoolOk, LogOk, DescriptorsOk, ClosesOk, GateOk, Earliest, ActiveOk;
    InvParts(s);
    if id in s.live { assert RequestOk(s.live[id]); }
  }

  /** A completion of a request that is not in flight is an error of the reactor and of nobody else. */
  lemma StrayCompletion(s: Reactor, id: nat, res: int, sqe: bool, processed: int)
    requires Inv(s) && id !in s.inflight
    ensures CompleteIo(s, id, res, sqe, processed) == s.(error := EIO)
  {
    hide PoolOk, LogOk, DescriptorsOk, ClosesOk, GateOk, ActiveOk;
  }
}
