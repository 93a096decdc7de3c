/** The life of an I/O request in the reactor.

    A request comes from a fixed pool, has one operation in the kernel at a time, and may
    have a cancellation there as well. The original completion and the cancel completion
    arrive in either order. `Reactor` is the reactor's own bookkeeping together with what
    the kernel still owes (`inflight`, `cancels`) and a history: the callbacks made (`log`),
    the descriptors opened and closed by the kernel on its behalf.
 */
module ReactorIo {
  import opened Geometry

  const FOREVER: nat := 0xFFFF_FFFF_FFFF_FFFF
  const SSIZE_MAX: nat := 0x7FFF_FFFF_FFFF_FFFF
  const EINTR: int := -4
  const EIO: int := -5
  const EAGAIN: int := -11
  const EOVERFLOW: int := -75
  const ENOTCONN: int := -107
  const ETIMEDOUT: int := -110
  const ECANCELED: int := -125

  /** Zero, or a negated errno. */
  type ErrorCode = x: int | x <= 0

  datatype Kind = Bytes | OpenAt | CloseFd | Plain

  datatype Slot = Nowhere | At(index: nat)

  /** `serial` tells apart the operations that use the same pool element one after another. */
  datatype Request = Request(
    serial: nat, kind: Kind, length: nat, exact: bool, processor: bool, deadline: nat,
    transferred: nat, timedOut: bool, cancelled: bool, cancelSubmitted: bool, cancelPending: bool,
    completed: bool, result: int, slot: Slot)

  datatype Done = Done(serial: nat, kind: Kind, result: int)

  datatype Reactor = Reactor(
    depth: nat, live: map<nat, Request>, free: seq<nat>, active: seq<nat>, pending: nat,
    next: nat, seen: nat, shutting: bool, error: ErrorCode, serial: nat,
    inflight: set<nat>, cancels: set<nat>, log: seq<Done>,
    openedFds: seq<int>, closedFds: seq<int>, closes: set<nat>)

  /** What the caller asks for. */
  datatype Operation = Operation(kind: Kind, length: nat, exact: bool, processor: bool, deadline: nat)

  datatype Event =
    | Submit(op: Operation, sqe: bool)
    | Cancel(request: nat, sqe: bool)
    | Original(request: nat, res: int, sqe: bool, processed: int)
    | CancelDone(request: nat, res: int)
    | Sweep(now: nat, sqes: nat)
    | Shutdown
    | Fault(error: ErrorCode)   // some other part of the reactor sets its error

  // ---------------------------------------------------------------- small steps

  /** Minimum of the deadlines of the listed requests that still wait uncancelled. */
  function Earliest(live: map<nat, Request>, active: seq<nat>): nat
    requires forall k | 0 <= k < |active| :: active[k] in live
    decreases |active|
  {
    if active == [] then FOREVER
    else
      var r := live[active[|active| - 1]];
      var rest := Earliest(live, active[..|active| - 1]);
      if !r.cancelSubmitted && r.deadline != 0 then Min(rest, r.deadline) else rest
  }

  /** The request joins the active list; its operation is in the kernel from here on. */
  function Push(s: Reactor, id: nat): Reactor
    requires id in s.live
  {
    var r := s.live[id];
    s.(live := s.live[id := r.(slot := At(|s.active|))], active := s.active + [id], inflight := s.inflight + {id},
       next := if !r.cancelSubmitted && r.deadline != 0 then Min(s.next, r.deadline) else s.next)
  }

  /** Swap-removal from the active list. */
  function Detach(s: Reactor, id: nat): Reactor
    requires id in s.live && s.live[id].slot.At? && s.live[id].slot.index < |s.active|
    requires s.active[|s.active| - 1] in s.live
  {
    var index, last := s.live[id].slot.index, |s.active| - 1;
    var moved := s.active[last];
    var live := s.live[moved := s.live[moved].(slot := At(index))];
    s.(live := live[id := live[id].(slot := Nowhere)], active := s.active[index := moved][..last],
       inflight := s.inflight - {id})
  }

  /** Callback and return to the pool, in the source's order: the pool first. */
  function Retire(s: Reactor, id: nat): Reactor
    requires id in s.live && s.pending > 0
  {
    var r := s.live[id];
    s.(live := s.live - {id}, free := [id] + s.free, pending := s.pending - 1,
       log := s.log + [Done(r.serial, r.kind, r.result)])
  }

  function Finish(s: Reactor, id: nat, result: int): Reactor
    requires id in s.live && s.pending > 0
  {
    var t := s.(live := s.live[id := s.live[id].(completed := true, result := result)]);
    if s.live[id].cancelPending then t else Retire(t, id)
  }

  /** An open that nobody will hear of is closed. */
  function DiscardOpen(s: Reactor, id: nat, res: int): Reactor
    requires id in s.live
  {
    if s.live[id].kind == OpenAt && res >= 0 then s.(closedFds := s.closedFds + [res]) else s
  }

  /** Submit the rest of the request again, or give up for lack of a submission entry. */
  function Again(s: Reactor, id: nat, sqe: bool): Reactor
    requires id in s.live && s.pending > 0
  {
    if sqe then Push(s, id) else Finish(s, id, EAGAIN)
  }

  /** `complete_async_io` after the request has left the active list. */
  function CompleteAsync(s: Reactor, id: nat, res: int, sqe: bool, processed: int): Reactor
    requires id in s.live && s.pending > 0
  {
    var r0 := s.live[id];
    if res > 0 && r0.kind == Bytes && r0.transferred + res > SSIZE_MAX then Finish(s, id, EOVERFLOW)
    else
      var r := if res > 0 && r0.kind == Bytes then r0.(transferred := r0.transferred + res) else r0;
      var t := s.(live := s.live[id := r]);
      if r.kind == CloseFd && res == 0 then Finish(t, id, 0)
      else if r.timedOut then Finish(DiscardOpen(t, id, res), id, ETIMEDOUT)
      else if r.cancelled then Finish(DiscardOpen(t, id, res), id, ECANCELED)
      else if t.shutting then Finish(DiscardOpen(t, id, res), id, if t.error != 0 then t.error else ENOTCONN)
      else Outcome(t, id, res, sqe, processed)
  }

  /** Completion of a request that nothing interfered with. */
  function Outcome(s: Reactor, id: nat, res: int, sqe: bool, processed: int): Reactor
    requires id in s.live && s.pending > 0
  {
    var r := s.live[id];
    if r.kind != Bytes then
      if res == EINTR then Again(s, id, sqe)
      else Finish(s, id, if res > 0 && r.kind != OpenAt then EIO else res)
    else if res == EINTR || (res > 0 && r.exact && r.transferred < r.length) then Again(s, id, sqe)
    else if res < 0 then Finish(s, id, res)
    else if r.processor && res > 0 && (processed < 0 || (processed == 0 && r.exact)) then
      Finish(s, id, if processed < 0 then processed else EIO)
    else if r.processor && res > 0 && processed == 0 then Again(s, id, sqe)
    else Finish(s, id, r.transferred)
  }

  // ---------------------------------------------------------------- events

  /** What the kernel may deliver. A failed or interrupted open yields no descriptor. */
  predicate Enabled(s: Reactor, event: Event)
  {
    match event
    case Submit(_, _) => true
    case Cancel(_, _) => true
    case Original(id, _, _, _) => id in s.inflight
    case CancelDone(id, _) => id in s.cancels
    case Sweep(now, _) => s.seen <= now
    case Shutdown => true
    case Fault(_) => true
  }

  function NewRequest(s: Reactor, op: Operation): Request
  {
    Request(s.serial, op.kind, op.length, op.exact, op.processor, op.deadline, 0, false, false, false, false,
            false, ECANCELED, Nowhere)
  }

  /** `submit`: refused when shutting down, in error, or out of requests or submission entries. */
  function Accepts(s: Reactor, sqe: bool): bool
  {
    s.error == 0 && !s.shutting && s.free != [] && sqe
  }

  function SubmitRequest(s: Reactor, op: Operation, sqe: bool): Reactor
  {
    if !Accepts(s, sqe) then s
    else
      var id := s.free[0];
      Push(s.(free := s.free[1..], live := s.live[id := NewRequest(s, op)], pending := s.pending + 1,
              serial := s.serial + 1), id)
  }

  function Refresh(s: Reactor): Reactor
    requires forall k | 0 <= k < |s.active| :: s.active[k] in s.live
  {
    s.(next := Earliest(s.live, s.active))
  }

  function CancelRequest(s: Reactor, id: nat, sqe: bool): Reactor
    requires forall k | 0 <= k < |s.active| :: s.active[k] in s.live
  {
    if id !in s.live || s.live[id].cancelSubmitted || s.live[id].slot.Nowhere? || !sqe then s
    else
      var r := s.live[id];
      var t := s.(live := s.live[id := r.(cancelled := true, cancelSubmitted := true, cancelPending := true)],
                  cancels := s.cancels + {id});
      if r.deadline == s.next then Refresh(t) else t
  }

  function CompleteIo(s: Reactor, id: nat, res: int, sqe: bool, processed: int): Reactor
    requires Inv(s)
  {
    if id !in s.live || s.live[id].slot.Nowhere? then s.(error := EIO)
    else
      DetachKeeps(s, id);
      var fds := if s.live[id].kind == OpenAt && res >= 0 then s.openedFds + [res] else s.openedFds;
      var u := Completed(s, id, fds, Closing(s.live[id].kind, res));
      CompleteAsync(u, id, res, sqe, processed)
  }

  function CompleteCancel(s: Reactor, id: nat, res: int): Reactor
    requires id in s.live && s.pending > 0
  {
    var t := Unpend(s, id, res);
    if s.live[id].completed then Retire(t, id) else t
  }

  /** The cancel completion has arrived; codes for "nothing to cancel" are not errors of the reactor. */
  function Unpend(s: Reactor, id: nat, res: int): (t: Reactor)
    requires id in s.live
    ensures id in t.live && t.pending == s.pending
  {
    var error := if res < 0 && res != -2 && res != -114 && res != ECANCELED && s.error == 0 then res else s.error;
    s.(live := s.live[id := s.live[id].(cancelPending := false)], cancels := s.cancels - {id}, error := error)
  }

  predicate ActiveIn(s: Reactor) { forall k | 0 <= k < |s.active| :: s.active[k] in s.live }

  /** `cancel_expired_io` from position `k` of the active list on; `best` is the earliest later deadline so far. */
  function SweepFrom(s: Reactor, k: nat, now: nat, sqes: nat, best: nat): Reactor
    requires k <= |s.active| && ActiveIn(s)
    decreases |s.active| - k
  {
    if k == |s.active| then s.(next := best)
    else
      var id := s.active[k];
      var r := s.live[id];
      if r.deadline == 0 || r.cancelSubmitted then SweepFrom(s, k + 1, now, sqes, best)
      else if r.deadline > now then SweepFrom(s, k + 1, now, sqes, Min(best, r.deadline))
      else if sqes == 0 then s.(next := r.deadline)
      else
        SweepFrom(s.(live := s.live[id := r.(timedOut := true, cancelSubmitted := true, cancelPending := true)],
                     cancels := s.cancels + {id}),
                  k + 1, now, sqes - 1, best)
  }

  function SweepAll(s: Reactor, now: nat, sqes: nat): Reactor
    requires ActiveIn(s)
  {
    var t := s.(seen := now);
    if s.next > now then t else SweepFrom(t, 0, now, sqes, FOREVER)
  }

  function Apply(s: Reactor, event: Event): Reactor
    requires Inv(s) && Enabled(s, event)
  {
    match event
    case Submit(op, sqe) => SubmitRequest(s, op, sqe)
    case Cancel(id, sqe) => CancelRequest(s, id, sqe)
    case Original(id, res, sqe, processed) => CompleteIo(s, id, res, sqe, processed)
    case CancelDone(id, res) => CompleteCancel(s, id, res)
    case Sweep(now, sqes) => SweepAll(s, now, sqes)
    case Shutdown => s.(shutting := true)
    case Fault(error) => s.(error := error)
  }

  // ---------------------------------------------------------------- invariants

  /** Every pool element is free or live, and the counter knows. */
  ghost predicate PoolOk(s: Reactor)
  {
    && (forall j, k | 0 <= j < k < |s.free| :: s.free[j] != s.free[k])
    && (forall id: nat :: (id in s.free || id in s.live) <==> id < s.depth)
    && (forall k | 0 <= k < |s.free| :: s.free[k] !in s.live)
    && |s.free| + s.pending == s.depth && s.pending == |s.live|
  }

  /** The index a request remembers is its place in the active list. */
  ghost predicate ActiveOk(s: Reactor)
  {
    && (forall k | 0 <= k < |s.active| :: s.active[k] in s.live && s.live[s.active[k]].slot == At(k))
    && (forall id | id in s.live && s.live[id].slot.At? ::
          s.live[id].slot.index < |s.active| && s.active[s.live[id].slot.index] == id)
  }

  predicate RequestOk(r: Request)
  {
    && (r.slot.Nowhere? ==> r.completed && r.cancelPending)
    && (r.slot.At? ==> !r.completed)
    && (r.cancelPending ==> r.cancelSubmitted)
    && (r.cancelSubmitted ==> r.timedOut || r.cancelled)
  }

  /** What the kernel owes is what the requests wait for. */
  ghost predicate KernelOk(s: Reactor)
  {
    && (forall id | id in s.live :: RequestOk(s.live[id]))
    && (forall id :: id in s.inflight <==> id in s.live && s.live[id].slot.At?)
    && (forall id :: id in s.cancels <==> id in s.live && s.live[id].cancelPending)
  }

  ghost predicate Logged(s: Reactor, serial: nat) { exists k :: 0 <= k < |s.log| && s.log[k].serial == serial }

  ghost predicate Running(s: Reactor, serial: nat) { exists id :: id in s.live && s.live[id].serial == serial }

  /** Every accepted operation is either still running or has been called back, once. */
  ghost predicate LogOk(s: Reactor)
  {
    && (forall j, k | 0 <= j < k < |s.log| :: s.log[j].serial != s.log[k].serial)
    && (forall i, j | i in s.live && j in s.live && i != j :: s.live[i].serial != s.live[j].serial)
    && (forall n: nat :: n < s.serial <==> Logged(s, n) || Running(s, n))
    && (forall n: nat :: !(Logged(s, n) && Running(s, n)))
  }

  function Delivered(log: seq<Done>): seq<int>
  {
    if log == [] then []
    else
      var d := log[|log| - 1];
      Delivered(log[..|log| - 1]) + if d.kind == OpenAt && d.result >= 0 then [d.result] else []
  }

  /** Every opened descriptor was delivered or closed, once. */
  ghost predicate DescriptorsOk(s: Reactor)
  {
    && multiset(s.openedFds) == multiset(s.closedFds) + multiset(Delivered(s.log))
    && (forall id | id in s.live && s.live[id].completed && s.live[id].kind == OpenAt :: s.live[id].result < 0)
  }

  /** A close that succeeded is reported as success. */
  ghost predicate ClosesOk(s: Reactor)
  {
    && (forall k | 0 <= k < |s.log| && s.log[k].serial in s.closes :: s.log[k].result == 0)
    && (forall id | id in s.live && s.live[id].serial in s.closes :: s.live[id].completed && s.live[id].result == 0)
    && (forall n | n in s.closes :: n < s.serial)
  }

  predicate Due(r: Request) { r.slot.At? && !r.cancelSubmitted && r.deadline != 0 }

  /** The gate is at or before every deadline that has not passed yet, and at or before the last sweep
      when some deadline has. */
  ghost predicate GateOk(s: Reactor)
  {
    forall id | id in s.live && Due(s.live[id]) :: s.next <= Max(s.live[id].deadline, s.seen)
  }

  ghost predicate Inv(s: Reactor)
  {
    PoolOk(s) && ActiveOk(s) && KernelOk(s) && LogOk(s) && DescriptorsOk(s) && ClosesOk(s) && GateOk(s)
  }

  lemma DetachKeeps(s: Reactor, id: nat)
    requires ActiveOk(s) && PoolOk(s) && id in s.live && s.live[id].slot.At?
    ensures s.live[id].slot.index < |s.active| && s.active[|s.active| - 1] in s.live && s.pending > 0
    ensures var t := Detach(s, id);
            && id in t.live && t.live.Keys == s.live.Keys
            && (forall k | 0 <= k < |t.active| :: t.active[k] in t.live)
  {
  }

  // ---------------------------------------------------------------- a request between completion and its fate

  /** Like `Inv`, but request `id` has just left the active list and is not finished: `extra` is the descriptor
      its operation opened, `closing` says that its operation closed one. */
  ghost predicate Open(s: Reactor, id: nat, extra: multiset<int>, closing: bool)
  {
    && PoolOk(s) && ActiveOk(s) && LogOk(s) && GateOk(s)
    && id in s.live && s.live[id].slot.Nowhere? && !s.live[id].completed
    && OpenKernel(s, id)
    && OpenSets(s, id, extra, closing)
  }

  ghost predicate OpenSets(s: Reactor, id: nat, extra: multiset<int>, closing: bool)
    requires id in s.live
  {
    && multiset(s.openedFds) == multiset(s.closedFds) + multiset(Delivered(s.log)) + extra
    && (forall j | j in s.live && s.live[j].completed && s.live[j].kind == OpenAt :: s.live[j].result < 0)
    && (forall k | 0 <= k < |s.log| && s.log[k].serial in s.closes :: s.log[k].result == 0)
    && (forall j | j in s.live && j != id && s.live[j].serial in s.closes :: s.live[j].completed && s.live[j].result == 0)
    && (s.live[id].serial in s.closes <==> closing)
    && (forall n | n in s.closes :: n < s.serial)
  }

  ghost predicate OpenKernel(s: Reactor, id: nat)
    requires id in s.live
  {
    && (forall j | j in s.live && j != id :: RequestOk(s.live[j]))
    && (s.live[id].cancelPending ==> s.live[id].cancelSubmitted)
    && (s.live[id].cancelSubmitted ==> s.live[id].timedOut || s.live[id].cancelled)
    && (forall j :: j in s.inflight <==> j in s.live && s.live[j].slot.At?)
    && (forall j :: j in s.cancels <==> j in s.live && s.live[j].cancelPending)
  }

  lemma SameSerials(s: Reactor, t: Reactor)
    requires LogOk(s) && t.log == s.log && t.serial == s.serial && t.live.Keys == s.live.Keys
    requires forall j | j in s.live :: t.live[j].serial == s.live[j].serial
    ensures LogOk(t)
  {
    forall n: nat ensures Running(t, n) == Running(s, n) && Logged(t, n) == Logged(s, n) {
      if j :| j in s.live && s.live[j].serial == n { assert t.live[j].serial == n; }
      if j :| j in t.live && t.live[j].serial == n { assert s.live[j].serial == n; }
    }
  }

  lemma SamePool(s: Reactor, t: Reactor)
    requires PoolOk(s) && t.free == s.free && t.pending == s.pending && t.depth == s.depth && t.live.Keys == s.live.Keys
    ensures PoolOk(t)
  {
    assert |t.live| == |t.live.Keys| && |s.live| == |s.live.Keys|;
    assert forall j :: j in t.live <==> j in s.live;
  }

  lemma {:induction false} EarliestBelow(live: map<nat, Request>, active: seq<nat>, k: nat)
    requires k < |active| && forall j | 0 <= j < |active| :: active[j] in live
    ensures !live[active[k]].cancelSubmitted && live[active[k]].deadline != 0 ==>
              Earliest(live, active) <= live[active[k]].deadline
    decreases |active|
  {
    var shorter := active[..|active| - 1];
    if k < |shorter| {
      assert shorter[k] == active[k];
      EarliestBelow(live, shorter, k);
    }
  }

  lemma RefreshGate(s: Reactor)
    requires ActiveOk(s)
    ensures GateOk(Refresh(s))
  {
    forall id | id in s.live && Due(s.live[id]) ensures Earliest(s.live, s.active) <= s.live[id].deadline {
      EarliestBelow(s.live, s.active, s.live[id].slot.index);
    }
  }

  lemma DetachActive(s: Reactor, id: nat)
    requires ActiveOk(s) && id in s.live && s.live[id].slot.At?
    ensures s.live[id].slot.index < |s.active| && s.active[|s.active| - 1] in s.live
    ensures ActiveOk(Detach(s, id))
  {
    var index, last := s.live[id].slot.index, |s.active| - 1;
    var t := Detach(s, id);
    var moved := s.active[last];
    assert s.live[moved].slot == At(last);
    forall k | 0 <= k < |t.active| ensures t.active[k] in t.live && t.live[t.active[k]].slot == At(k) {
      assert s.live[s.active[k]].slot == At(k);
      if k == index { assert t.active[k] == moved; } else { assert t.active[k] == s.active[k]; }
    }
  }

  /** Request `id` left the active list; slots of others moved; nothing else but the gate and the histories changed. */
  ghost predicate Moved(s: Reactor, u: Reactor, id: nat)
  {
    && id in s.live && u.live.Keys == s.live.Keys && u.live[id] == s.live[id].(slot := Nowhere)
    && (forall j | j in s.live && j != id ::
          u.live[j] == s.live[j].(slot := u.live[j].slot) && (u.live[j].slot.At? <==> s.live[j].slot.At?))
    && u.inflight == s.inflight - {id} && u.cancels == s.cancels
    && u.depth == s.depth && u.free == s.free && u.pending == s.pending
    && u.log == s.log && u.serial == s.serial && u.seen == s.seen && u.closedFds == s.closedFds
  }

  lemma DetachMoves(s: Reactor, id: nat)
    requires ActiveOk(s) && id in s.live && s.live[id].slot.At?
    ensures s.live[id].slot.index < |s.active| && s.active[|s.active| - 1] in s.live
    ensures Moved(s, Detach(s, id), id) && Detach(s, id).next == s.next
  {
  }

  lemma MovedGate(s: Reactor, u: Reactor, id: nat)
    requires GateOk(s) && Moved(s, u, id) && u.next == s.next
    ensures GateOk(u)
  {
  }

  lemma MovedKernel(s: Reactor, u: Reactor, id: nat)
    requires KernelOk(s) && Moved(s, u, id)
    ensures OpenKernel(u, id) && (s.live[id].slot.At? ==> !s.live[id].completed)
  {
    assert RequestOk(s.live[id]);
  }

  lemma MovedSets(s: Reactor, u: Reactor, id: nat, extra: multiset<int>, closing: bool)
    requires LogOk(s) && ClosesOk(s) && DescriptorsOk(s) && Moved(s, u, id) && !s.live[id].completed
    requires u.closes == if closing then s.closes + {s.live[id].serial} else s.closes
    requires multiset(u.openedFds) == multiset(s.openedFds) + extra
    ensures OpenSets(u, id, extra, closing)
  {
    hide Delivered;
    assert forall k | 0 <= k < |s.log| :: Logged(s, s.log[k].serial);
    assert Running(s, s.live[id].serial);
  }

  /** The request after its original completion, before its fate is decided. */
  function Completed(s: Reactor, id: nat, fds: seq<int>, closing: bool): Reactor
    requires ActiveOk(s) && id in s.live && s.live[id].slot.At?
  {
    DetachActive(s, id);
    var t := Detach(s, id);
    (if s.live[id].deadline == s.next then Refresh(t) else t).(
      openedFds := fds, closes := if closing then s.closes + {s.live[id].serial} else s.closes)
  }

  lemma CompletedMoves(s: Reactor, id: nat, fds: seq<int>, closing: bool)
    requires ActiveOk(s) && GateOk(s) && id in s.live && s.live[id].slot.At?
    ensures var u := Completed(s, id, fds, closing);
            && Moved(s, u, id) && ActiveOk(u) && GateOk(u) && u.openedFds == fds
            && u.closes == (if closing then s.closes + {s.live[id].serial} else s.closes)
  {
    DetachActive(s, id);
    DetachMoves(s, id);
    hide Detach, Earliest, ActiveOk, GateOk, Moved;
    var t, u := Detach(s, id), Completed(s, id, fds, closing);
    ActiveLive(t);
    RefreshGate(t);
    MovedGate(s, t, id);
    MovedFrame(s, t, u, id);
  }

  lemma MovedFrame(s: Reactor, t: Reactor, u: Reactor, id: nat)
    requires Moved(s, t, id) && ActiveOk(t)
    requires u == t.(next := u.next, openedFds := u.openedFds, closes := u.closes)
    requires GateOk(t.(next := u.next))
    ensures Moved(s, u, id) && ActiveOk(u) && GateOk(u)
  {
  }

  lemma CompletedOpens(s: Reactor, id: nat, fds: seq<int>, extra: multiset<int>, closing: bool)
    requires Inv(s) && id in s.live && s.live[id].slot.At?
    requires multiset(fds) == multiset(s.openedFds) + extra
    ensures var u := Completed(s, id, fds, closing);
            Open(u, id, extra, closing) && u.live[id] == s.live[id].(slot := Nowhere) && u.pending == s.pending
  {
    CompletedMoves(s, id, fds, closing);
    var u := Completed(s, id, fds, closing);
    hide Completed, PoolOk, LogOk, ActiveOk, KernelOk, GateOk, OpenKernel, ClosesOk, DescriptorsOk, OpenSets, Moved;
    MovedKernel(s, u, id);
    MovedFields(s, u, id);
    SamePool(s, u);
    SameSerials(s, u);
    MovedSets(s, u, id, extra, closing);
  }

  lemma MovedFields(s: Reactor, u: Reactor, id: nat)
    requires Moved(s, u, id)
    ensures id in s.live && u.live.Keys == s.live.Keys && u.live[id] == s.live[id].(slot := Nowhere)
    ensures u.free == s.free && u.pending == s.pending && u.depth == s.depth && u.log == s.log && u.serial == s.serial
    ensures forall j | j in s.live :: u.live[j].serial == s.live[j].serial
  {
  }

  // ---------------------------------------------------------------- its fate

  lemma {:induction false} DeliveredAppend(log: seq<Done>, d: Done)
    ensures Delivered(log + [d]) == Delivered(log) + if d.kind == OpenAt && d.result >= 0 then [d.result] else []
  {
    assert (log + [d])[..|log|] == log;
  }

  /** Retiring a request makes it free and logs its callback. */
  lemma RetireLog(s: Reactor, id: nat)
    requires LogOk(s) && id in s.live && s.pending > 0
    ensures LogOk(Retire(s, id))
  {
    var t := Retire(s, id);
    var n0 := s.live[id].serial;
    assert Running(s, n0);
    assert t.log[|s.log|].serial == n0;
    forall n: nat
      ensures Logged(t, n) <==> Logged(s, n) || n == n0
      ensures Running(t, n) <==> Running(s, n) && n != n0
    {
      if k :| 0 <= k < |s.log| && s.log[k].serial == n { assert t.log[k].serial == n; }
      if j :| j in s.live && s.live[j].serial == n && j != id { assert j in t.live && t.live[j].serial == n; }
    }
    assert forall k | 0 <= k < |s.log| :: Logged(s, s.log[k].serial) && t.log[k] == s.log[k];
  }

  lemma RetirePool(s: Reactor, id: nat)
    requires PoolOk(s) && id in s.live
    ensures s.pending > 0 && PoolOk(Retire(s, id))
  {
    var t := Retire(s, id);
    assert t.live.Keys == s.live.Keys - {id};
    assert |t.live| == |t.live.Keys| && |s.live| == |s.live.Keys|;
    forall j: nat ensures (j in t.free || j in t.live) <==> j < t.depth {
      assert j in t.free <==> j == id || j in s.free;
    }
    forall j, k | 0 <= j < k < |t.free| ensures t.free[j] != t.free[k] {
      assert s.free[k - 1] !in s.live;
    }
  }

  /** Retiring keeps whatever is said of the other requests. */
  lemma RetireOthers(s: Reactor, id: nat)
    requires id in s.live && s.pending > 0 && s.live[id].slot.Nowhere? && !s.live[id].cancelPending
    requires ActiveOk(s) && GateOk(s) && OpenKernel(s, id)
    ensures var t := Retire(s, id); ActiveOk(t) && GateOk(t) && KernelOk(t)
  {
  }

  lemma RetireDescriptors(s: Reactor, id: nat)
    requires id in s.live && s.pending > 0
    requires multiset(s.openedFds) == multiset(s.closedFds) + multiset(Delivered(s.log)) +
               if s.live[id].kind == OpenAt && s.live[id].result >= 0 then multiset{s.live[id].result} else multiset{}
    requires forall j | j in s.live && j != id && s.live[j].completed && s.live[j].kind == OpenAt :: s.live[j].result < 0
    ensures DescriptorsOk(Retire(s, id))
  {
    DeliveredAppend(s.log, Done(s.live[id].serial, s.live[id].kind, s.live[id].result));
    hide Delivered;
  }

  lemma RetireCloses(s: Reactor, id: nat)
    requires id in s.live && s.pending > 0 && ClosesOk(s)
    ensures ClosesOk(Retire(s, id))
  {
  }

  /** A request whose last completion has arrived: it retires. */
  lemma RetireKeepsInv(s: Reactor, id: nat)
    requires PoolOk(s) && ActiveOk(s) && LogOk(s) && GateOk(s) && ClosesOk(s)
    requires id in s.live && OpenKernel(s, id) && s.live[id].slot.Nowhere? && !s.live[id].cancelPending
    requires multiset(s.openedFds) == multiset(s.closedFds) + multiset(Delivered(s.log)) +
               if s.live[id].kind == OpenAt && s.live[id].result >= 0 then multiset{s.live[id].result} else multiset{}
    requires forall j | j in s.live && j != id && s.live[j].completed && s.live[j].kind == OpenAt :: s.live[j].result < 0
    ensures s.pending > 0 && Inv(Retire(s, id))
  {
    RetirePool(s, id);
    RetireLog(s, id);
    RetireOthers(s, id);
    RetireDescriptors(s, id);
    RetireCloses(s, id);
    hide PoolOk, LogOk, ActiveOk, KernelOk, GateOk, OpenKernel, ClosesOk, DescriptorsOk, Delivered, Retire;
  }

  /** Request `id` changed in its progress and completion fields only. */
  ghost predicate Touched(s: Reactor, t: Reactor, id: nat)
  {
    && id in s.live && t.live.Keys == s.live.Keys
    && t == s.(live := t.live)
    && (forall j | j in s.live && j != id :: t.live[j] == s.live[j])
    && t.live[id] == s.live[id].(transferred := t.live[id].transferred, completed := t.live[id].completed,
                                 result := t.live[id].result)
  }

  lemma TouchedKeeps(s: Reactor, t: Reactor, id: nat)
    requires Touched(s, t, id) && ActiveOk(s) && GateOk(s) && OpenKernel(s, id)
    ensures ActiveOk(t) && GateOk(t) && OpenKernel(t, id)
  {
  }

  lemma MarkedSets(s: Reactor, t: Reactor, id: nat, extra: multiset<int>, closing: bool)
    requires Touched(s, t, id) && OpenSets(s, id, extra, closing)
    requires closing ==> t.live[id].result == 0 && t.live[id].completed
    ensures ClosesOk(t) && multiset(t.openedFds) == multiset(t.closedFds) + multiset(Delivered(t.log)) + extra
    ensures forall j | j in t.live && j != id && t.live[j].completed && t.live[j].kind == OpenAt :: t.live[j].result < 0
  {
    hide Delivered;
  }

  lemma MarkedKeeps(s: Reactor, t: Reactor, id: nat, extra: multiset<int>, closing: bool)
    requires Open(s, id, extra, closing) && Touched(s, t, id)
    requires closing ==> t.live[id].result == 0 && t.live[id].completed
    ensures PoolOk(t) && ActiveOk(t) && LogOk(t) && GateOk(t) && OpenKernel(t, id) && ClosesOk(t)
    ensures multiset(t.openedFds) == multiset(t.closedFds) + multiset(Delivered(t.log)) + extra
    ensures forall j | j in t.live && j != id && t.live[j].completed && t.live[j].kind == OpenAt :: t.live[j].result < 0
  {
    hide Delivered, PoolOk, LogOk, ActiveOk, GateOk, OpenKernel, OpenSets, ClosesOk;
    SamePool(s, t);
    SameSerials(s, t);
    TouchedKeeps(s, t, id);
    MarkedSets(s, t, id, extra, closing);
  }

  /** Finishing a request that is open keeps the invariant, when the result accounts for what its operation did. */
  lemma FinishKeepsInv(s: Reactor, id: nat, result: int, extra: multiset<int>, closing: bool)
    requires Open(s, id, extra, closing) && (closing ==> result == 0)
    requires extra == if s.live[id].kind == OpenAt && result >= 0 then multiset{result} else multiset{}
    requires s.live[id].cancelPending ==> extra == multiset{}
    ensures s.pending > 0 && Inv(Finish(s, id, result))
  {
    OpenPending(s, id, extra, closing);
    hide Delivered, PoolOk, LogOk, ActiveOk, KernelOk, GateOk, ClosesOk, OpenKernel, OpenSets, Retire;
    var t := s.(live := s.live[id := s.live[id].(completed := true, result := result)]);
    MarkTouches(s, t, id, result);
    hide Touched;
    MarkedKeeps(s, t, id, extra, closing);
    if s.live[id].cancelPending {
      FinishWaits(t, id);
    } else {
      hide DescriptorsOk, Inv;
      RetireKeepsInv(t, id);
    }
  }

  lemma MarkTouches(s: Reactor, t: Reactor, id: nat, result: int)
    requires id in s.live && t == s.(live := s.live[id := s.live[id].(completed := true, result := result)])
    ensures Touched(s, t, id) && t.live[id] == s.live[id].(completed := true, result := result)
  {
    assert t.live.Keys == s.live.Keys;
  }

  lemma FinishWaits(t: Reactor, id: nat)
    requires id in t.live && OpenKernel(t, id) && t.live[id].slot.Nowhere? && t.live[id].completed && t.live[id].cancelPending
    ensures KernelOk(t)
  {
  }

  lemma DiscardKeepsOpen(s: Reactor, id: nat, res: int, extra: multiset<int>, closing: bool)
    requires Open(s, id, extra, closing)
    requires extra == if s.live[id].kind == OpenAt && res >= 0 then multiset{res} else multiset{}
    ensures Open(DiscardOpen(s, id, res), id, multiset{}, closing)
  {
    hide PoolOk, LogOk, ActiveOk, GateOk, OpenKernel, OpenSets;
    var t := DiscardOpen(s, id, res);
    SamePool(s, t);
    SameSerials(s, t);
    DiscardFrame(s, t, id);
    DiscardSets(s, id, res, extra, closing);
  }

  lemma DiscardFrame(s: Reactor, t: Reactor, id: nat)
    requires ActiveOk(s) && GateOk(s) && id in s.live && OpenKernel(s, id) && t == s.(closedFds := t.closedFds)
    ensures ActiveOk(t) && GateOk(t) && OpenKernel(t, id)
  {
  }

  lemma DiscardSets(s: Reactor, id: nat, res: int, extra: multiset<int>, closing: bool)
    requires id in s.live && OpenSets(s, id, extra, closing)
    requires extra == if s.live[id].kind == OpenAt && res >= 0 then multiset{res} else multiset{}
    ensures OpenSets(DiscardOpen(s, id, res), id, multiset{}, closing)
  {
    hide Delivered;
  }

  lemma PushActive(s: Reactor, id: nat)
    requires ActiveOk(s) && id in s.live && s.live[id].slot.Nowhere?
    ensures ActiveOk(Push(s, id))
  {
    var t := Push(s, id);
    forall k | 0 <= k < |t.active| ensures t.active[k] in t.live && t.live[t.active[k]].slot == At(k) {
      if k < |s.active| { assert t.active[k] == s.active[k] && s.live[s.active[k]].slot == At(k); }
    }
  }

  lemma PushGate(s: Reactor, id: nat)
    requires GateOk(s) && id in s.live
    ensures GateOk(Push(s, id))
  {
  }

  lemma PushKernel(s: Reactor, id: nat)
    requires id in s.live && OpenKernel(s, id) && !s.live[id].completed
    ensures KernelOk(Push(s, id))
  {
  }

  lemma PushSets(s: Reactor, id: nat)
    requires id in s.live && OpenSets(s, id, multiset{}, false)
    ensures DescriptorsOk(Push(s, id)) && ClosesOk(Push(s, id))
  {
    hide Delivered;
  }

  lemma PushFrame(s: Reactor, id: nat)
    requires id in s.live
    ensures var t := Push(s, id);
            && t.live.Keys == s.live.Keys && t.free == s.free && t.pending == s.pending && t.depth == s.depth
            && t.log == s.log && t.serial == s.serial && forall j | j in s.live :: t.live[j].serial == s.live[j].serial
  {
  }

  /** Submitting an open request again closes the gap. */
  lemma PushKeepsInv(s: Reactor, id: nat)
    requires Open(s, id, multiset{}, false)
    ensures Inv(Push(s, id))
  {
    hide PoolOk, LogOk, ActiveOk, KernelOk, GateOk, DescriptorsOk, ClosesOk, OpenKernel, OpenSets, Push;
    PushFrame(s, id);
    SamePool(s, Push(s, id));
    SameSerials(s, Push(s, id));
    PushActive(s, id);
    PushGate(s, id);
    PushKernel(s, id);
    PushSets(s, id);
  }

  lemma AgainKeepsInv(s: Reactor, id: nat, sqe: bool)
    requires Open(s, id, multiset{}, false)
    ensures s.pending > 0 && Inv(Again(s, id, sqe))
  {
    OpenPending(s, id, multiset{}, false);
    hide Open, Inv;
    if sqe { PushKeepsInv(s, id); } else { FinishKeepsInv(s, id, EAGAIN, multiset{}, false); }
  }

  lemma OpenPending(s: Reactor, id: nat, extra: multiset<int>, closing: bool)
    requires Open(s, id, extra, closing)
    ensures s.pending > 0 && id in s.live
    ensures s.live[id].cancelPending ==> s.live[id].timedOut || s.live[id].cancelled
  {
  }

  lemma TransferKeepsOpen(s: Reactor, id: nat, extra: multiset<int>, closing: bool, transferred: nat)
    requires Open(s, id, extra, closing)
    ensures Open(s.(live := s.live[id := s.live[id].(transferred := transferred)]), id, extra, closing)
  {
    hide PoolOk, LogOk, ActiveOk, GateOk, OpenKernel, OpenSets;
    var t := s.(live := s.live[id := s.live[id].(transferred := transferred)]);
    assert t.live.Keys == s.live.Keys;
    SamePool(s, t);
    SameSerials(s, t);
    TouchedKeeps(s, t, id);
    TransferSets(s, t, id, extra, closing);
  }

  lemma TransferSets(s: Reactor, t: Reactor, id: nat, extra: multiset<int>, closing: bool)
    requires Touched(s, t, id) && OpenSets(s, id, extra, closing) && t.live[id].completed == s.live[id].completed
    requires t.live[id].result == s.live[id].result
    ensures OpenSets(t, id, extra, closing)
  {
    hide Delivered;
  }

  /** The descriptor that an open with this result created. */
  function Extra(kind: Kind, res: int): multiset<int>
  {
    if kind == OpenAt && res >= 0 then multiset{res} else multiset{}
  }

  predicate Closing(kind: Kind, res: int) { kind == CloseFd && res == 0 }

  /** Open, with what the completion `res` has done so far accounted for. */
  ghost predicate Undecided(s: Reactor, id: nat, res: int)
  {
    id in s.live && s.pending > 0 && Open(s, id, Extra(s.live[id].kind, res), Closing(s.live[id].kind, res))
  }

  lemma UndecidedFacts(s: Reactor, id: nat, res: int)
    requires Undecided(s, id, res)
    ensures id in s.live && s.pending > 0
    ensures s.live[id].cancelPending ==> s.live[id].timedOut || s.live[id].cancelled
  {
  }

  /** Results that need no descriptor: errors, and anything of a request that opens nothing. */
  lemma EndPlain(s: Reactor, id: nat, res: int, result: int)
    requires Undecided(s, id, res) && (Closing(s.live[id].kind, res) ==> result == 0)
    requires Extra(s.live[id].kind, result) == Extra(s.live[id].kind, res)
    requires s.live[id].cancelPending ==> Extra(s.live[id].kind, res) == multiset{}
    ensures id in s.live && s.pending > 0 && Inv(Finish(s, id, result))
  {
    hide Open, Inv, Finish;
    FinishKeepsInv(s, id, result, Extra(s.live[id].kind, res), Closing(s.live[id].kind, res));
  }

  lemma EndDiscarded(s: Reactor, id: nat, res: int, result: int)
    requires Undecided(s, id, res) && !Closing(s.live[id].kind, res) && result < 0
    ensures id in s.live && s.pending > 0 && Inv(Finish(DiscardOpen(s, id, res), id, result))
  {
    hide Open, Inv, Finish;
    DiscardKeepsOpen(s, id, res, Extra(s.live[id].kind, res), false);
    FinishKeepsInv(DiscardOpen(s, id, res), id, result, multiset{}, false);
  }

  lemma EndAgain(s: Reactor, id: nat, res: int, sqe: bool)
    requires Undecided(s, id, res) && !Closing(s.live[id].kind, res) && Extra(s.live[id].kind, res) == multiset{}
    ensures id in s.live && s.pending > 0 && Inv(Again(s, id, sqe))
  {
    hide Open, Inv, Again;
    AgainKeepsInv(s, id, sqe);
  }

  lemma OutcomeKeepsInv(s: Reactor, id: nat, res: int, sqe: bool, processed: int)
    requires Undecided(s, id, res)
    requires !Closing(s.live[id].kind, res) && !s.live[id].timedOut && !s.live[id].cancelled
    ensures id in s.live && s.pending > 0 && Inv(Outcome(s, id, res, sqe, processed))
  {
    hide Inv, Undecided, Finish, Again;
    UndecidedFacts(s, id, res);
    var r := s.live[id];
    if r.kind != Bytes {
      if res == EINTR { EndAgain(s, id, res, sqe); }
      else { EndPlain(s, id, res, if res > 0 && r.kind != OpenAt then EIO else res); }
    } else if res == EINTR || (res > 0 && r.exact && r.transferred < r.length) {
      EndAgain(s, id, res, sqe);
    } else if res < 0 {
      EndPlain(s, id, res, res);
    } else if r.processor && res > 0 && (processed < 0 || (processed == 0 && r.exact)) {
      EndPlain(s, id, res, if processed < 0 then processed else EIO);
    } else if r.processor && res > 0 && processed == 0 {
      EndAgain(s, id, res, sqe);
    } else {
      EndPlain(s, id, res, r.transferred);
    }
  }

  lemma TransferUndecided(s: Reactor, id: nat, res: int, transferred: nat)
    requires Undecided(s, id, res)
    ensures id in s.live && Undecided(s.(live := s.live[id := s.live[id].(transferred := transferred)]), id, res)
  {
    TransferKeepsOpen(s, id, Extra(s.live[id].kind, res), Closing(s.live[id].kind, res), transferred);
    hide Open;
  }

  /** Whatever the completion says, the request ends finished, waiting for its cancel completion, or in the kernel again. */
  lemma CompleteAsyncKeepsInv(s: Reactor, id: nat, res: int, sqe: bool, processed: int)
    requires Undecided(s, id, res)
    ensures id in s.live && s.pending > 0 && Inv(CompleteAsync(s, id, res, sqe, processed))
  {
    hide Inv, Undecided, Finish, Outcome, DiscardOpen;
    UndecidedFacts(s, id, res);
    var r0 := s.live[id];
    if res > 0 && r0.kind == Bytes && r0.transferred + res > SSIZE_MAX {
      EndPlain(s, id, res, EOVERFLOW);
    } else {
      var r := if res > 0 && r0.kind == Bytes then r0.(transferred := r0.transferred + res) else r0;
      var t := s.(live := s.live[id := r]);
      TransferUndecided(s, id, res, r.transferred);
      if Closing(r.kind, res) {
        EndPlain(t, id, res, 0);
      } else if r.timedOut {
        EndDiscarded(t, id, res, ETIMEDOUT);
      } else if r.cancelled {
        EndDiscarded(t, id, res, ECANCELED);
      } else if t.shutting {
        EndDiscarded(t, id, res, if t.error != 0 then t.error else ENOTCONN);
      } else {
        OutcomeKeepsInv(t, id, res, sqe, processed);
      }
    }
  }

  lemma InflightAt(s: Reactor, id: nat)
    requires Inv(s) && id in s.inflight
    ensures id in s.live && s.live[id].slot.At?
  {
  }

  lemma CompletedUndecided(s: Reactor, id: nat, res: int, fds: seq<int>)
    requires Inv(s) && id in s.live && s.live[id].slot.At?
    requires fds == if s.live[id].kind == OpenAt && res >= 0 then s.openedFds + [res] else s.openedFds
    ensures Undecided(Completed(s, id, fds, Closing(s.live[id].kind, res)), id, res)
  {
    hide PoolOk, ActiveOk, LogOk, KernelOk, DescriptorsOk, ClosesOk, GateOk, Open, Completed;
    var k := s.live[id].kind;
    assert multiset(fds) == multiset(s.openedFds) + Extra(k, res);
    CompletedOpens(s, id, fds, Extra(k, res), Closing(k, res));
    OpenPending(Completed(s, id, fds, Closing(k, res)), id, Extra(k, res), Closing(k, res));
  }

  lemma OriginalKeepsInv(s: Reactor, id: nat, res: int, sqe: bool, processed: int)
    requires Inv(s) && id in s.inflight
    ensures Inv(CompleteIo(s, id, res, sqe, processed))
  {
    InflightAt(s, id);
    hide Inv, Undecided, Completed, CompleteAsync;
    var fds := if s.live[id].kind == OpenAt && res >= 0 then s.openedFds + [res] else s.openedFds;
    CompletedUndecided(s, id, res, fds);
    CompleteAsyncKeepsInv(Completed(s, id, fds, Closing(s.live[id].kind, res)), id, res, sqe, processed);
  }

  // ---------------------------------------------------------------- the other events

  /** A pool element is taken for a new operation. */
  function Admit(s: Reactor, op: Operation): Reactor
    requires s.free != []
  {
    s.(free := s.free[1..], live := s.live[s.free[0] := NewRequest(s, op)], pending := s.pending + 1,
       serial := s.serial + 1)
  }

  lemma AdmitPool(s: Reactor, op: Operation)
    requires PoolOk(s) && s.free != []
    ensures s.free[0] !in s.live && PoolOk(Admit(s, op))
  {
    var id, t := s.free[0], Admit(s, op);
    assert t.live.Keys == s.live.Keys + {id};
    assert |t.live| == |t.live.Keys| && |s.live| == |s.live.Keys|;
    forall j: nat ensures (j in t.free || j in t.live) <==> j < t.depth {
      assert j in s.free <==> j == id || j in t.free;
      assert j in t.live <==> j == id || j in s.live;
    }
    forall k | 0 <= k < |t.free| ensures t.free[k] !in t.live {
      assert t.free[k] == s.free[k + 1] && s.free[0] != s.free[k + 1];
    }
  }

  lemma AdmitActive(s: Reactor, op: Operation)
    requires s.free != [] && s.free[0] !in s.live && ActiveOk(s) && GateOk(s) && KernelOk(s)
    ensures var t := Admit(s, op);
            ActiveOk(t) && GateOk(t) && OpenKernel(t, s.free[0])
  {
    var t := Admit(s, op);
    assert forall j | j in s.live :: t.live[j] == s.live[j];
    assert forall j | j in t.live :: j == s.free[0] || j in s.live;
    assert forall k | 0 <= k < |s.active| :: s.active[k] != s.free[0];
  }

  lemma SubmitLog(s: Reactor, op: Operation, id: nat, t: Reactor)
    requires LogOk(s) && id !in s.live && t.log == s.log && t.serial == s.serial + 1
    requires t.live == s.live[id := NewRequest(s, op)]
    ensures LogOk(t)
  {
    assert t.live[id].serial == s.serial;
    forall n: nat
      ensures Running(t, n) <==> Running(s, n) || n == s.serial
      ensures Logged(t, n) <==> Logged(s, n)
    {
      if j :| j in s.live && s.live[j].serial == n { assert t.live[j].serial == n; }
      if j :| j in t.live && t.live[j].serial == n && j != id { assert s.live[j].serial == n; }
    }
    forall j | j in s.live ensures s.live[j].serial < s.serial { assert Running(s, s.live[j].serial); }
  }

  lemma AdmitSets(s: Reactor, op: Operation)
    requires DescriptorsOk(s) && ClosesOk(s) && s.free != [] && s.free[0] !in s.live
    ensures OpenSets(Admit(s, op), s.free[0], multiset{}, false)
  {
    hide Delivered;
    var t := Admit(s, op);
    assert forall j | j in t.live && j != s.free[0] :: j in s.live && t.live[j] == s.live[j];
  }

  lemma AdmitOpens(s: Reactor, op: Operation)
    requires Inv(s) && s.free != []
    ensures Open(Admit(s, op), s.free[0], multiset{}, false)
  {
    hide PoolOk, ActiveOk, LogOk, KernelOk, ClosesOk, GateOk, OpenKernel, OpenSets, DescriptorsOk;
    AdmitPool(s, op);
    AdmitActive(s, op);
    SubmitLog(s, op, s.free[0], Admit(s, op));
    AdmitSets(s, op);
  }

  lemma SubmitKeepsInv(s: Reactor, op: Operation, sqe: bool)
    requires Inv(s)
    ensures Inv(SubmitRequest(s, op, sqe))
  {
    hide Inv, Open, Push;
    if Accepts(s, sqe) {
      AdmitOpens(s, op);
      PushKeepsInv(Admit(s, op), s.free[0]);
    }
  }

  /** Cancellation fields of request `id` were set; its slot did not move. */
  ghost predicate CancelMarked(s: Reactor, t: Reactor, id: nat)
  {
    && id in s.live && t.live.Keys == s.live.Keys && t.cancels == s.cancels + {id}
    && (forall j | j in s.live && j != id :: t.live[j] == s.live[j])
    && t.live[id] == s.live[id].(timedOut := t.live[id].timedOut, cancelled := t.live[id].cancelled,
                                 cancelSubmitted := true, cancelPending := true)
    && (t.live[id].timedOut || t.live[id].cancelled)
    && t == s.(live := t.live, cancels := t.cancels)
  }

  lemma CancelMarkedActive(s: Reactor, t: Reactor, id: nat)
    requires CancelMarked(s, t, id) && ActiveOk(s)
    ensures ActiveOk(t)
  {
    assert forall j | j in s.live :: t.live[j].slot == s.live[j].slot;
  }

  lemma CancelMarkedGate(s: Reactor, t: Reactor, id: nat)
    requires CancelMarked(s, t, id) && GateOk(s)
    ensures GateOk(t)
  {
    assert forall j | j in t.live && Due(t.live[j]) :: Due(s.live[j]) && t.live[j].deadline == s.live[j].deadline;
  }

  lemma CancelMarkedKernel(s: Reactor, t: Reactor, id: nat)
    requires CancelMarked(s, t, id) && KernelOk(s) && s.live[id].slot.At?
    ensures KernelOk(t)
  {
    assert RequestOk(s.live[id]);
  }

  lemma CancelMarkedSets(s: Reactor, t: Reactor, id: nat)
    requires CancelMarked(s, t, id) && DescriptorsOk(s) && ClosesOk(s)
    ensures DescriptorsOk(t) && ClosesOk(t)
  {
    hide Delivered;
  }

  /** A submitted cancellation keeps everything but, perhaps, the gate. */
  lemma CancelMarkedInv(s: Reactor, t: Reactor, id: nat)
    requires CancelMarked(s, t, id) && Inv(s) && s.live[id].slot.At?
    ensures Inv(t)
  {
    hide PoolOk, ActiveOk, LogOk, KernelOk, DescriptorsOk, ClosesOk, GateOk;
    CancelMarkedGate(s, t, id);
    CancelMarkedCore(s, t, id);
  }

  lemma SameActive(s: Reactor, t: Reactor)
    requires ActiveOk(s) && t.live == s.live && t.active == s.active
    ensures ActiveOk(t)
  {
  }

  lemma SameKernel(s: Reactor, t: Reactor)
    requires KernelOk(s) && DescriptorsOk(s) && ClosesOk(s)
    requires t == s.(next := t.next, seen := t.seen, shutting := t.shutting, error := t.error)
    ensures KernelOk(t) && DescriptorsOk(t) && ClosesOk(t)
  {
    hide Delivered;
  }

  lemma GateOnly(s: Reactor, next: nat)
    requires Inv(s) && GateOk(s.(next := next))
    ensures Inv(s.(next := next))
  {
    hide PoolOk, LogOk, ActiveOk, KernelOk, DescriptorsOk, ClosesOk, GateOk;
    CoreFrame(s, s.(next := next));
  }

  lemma CancelKeepsInv(s: Reactor, id: nat, sqe: bool)
    requires Inv(s)
    ensures Inv(CancelRequest(s, id, sqe))
  {
    hide PoolOk, LogOk, KernelOk, DescriptorsOk, ClosesOk, GateOk, Earliest;
    if !(id !in s.live || s.live[id].cancelSubmitted || s.live[id].slot.Nowhere? || !sqe) {
      var r := s.live[id];
      var t := s.(live := s.live[id := r.(cancelled := true, cancelSubmitted := true, cancelPending := true)],
                  cancels := s.cancels + {id});
      assert t.live.Keys == s.live.Keys;
      CancelMarkedInv(s, t, id);
      RefreshGate(t);
      GateOnly(t, Earliest(t.live, t.active));
    }
  }

  /** The cancel completion of `id` arrived. */
  ghost predicate Unpended(s: Reactor, t: Reactor, id: nat)
  {
    && id in s.live && t.live.Keys == s.live.Keys && t.cancels == s.cancels - {id}
    && (forall j | j in s.live && j != id :: t.live[j] == s.live[j])
    && t.live[id] == s.live[id].(cancelPending := false)
    && t == s.(live := t.live, cancels := t.cancels, error := t.error)
  }

  lemma UnpendFrame(s: Reactor, t: Reactor, id: nat)
    requires Unpended(s, t, id)
    ensures t.live.Keys == s.live.Keys && t.free == s.free && t.pending == s.pending && t.depth == s.depth
    ensures id in s.live && t.live[id] == s.live[id].(cancelPending := false)
    ensures t.log == s.log && t.serial == s.serial && forall j | j in s.live :: t.live[j].serial == s.live[j].serial
  {
  }

  lemma UnpendActive(s: Reactor, t: Reactor, id: nat)
    requires Unpended(s, t, id) && ActiveOk(s)
    ensures ActiveOk(t)
  {
    assert forall j | j in s.live :: t.live[j].slot == s.live[j].slot;
  }

  lemma UnpendGate(s: Reactor, t: Reactor, id: nat)
    requires Unpended(s, t, id) && GateOk(s)
    ensures GateOk(t)
  {
    assert forall j | j in s.live :: Due(t.live[j]) == Due(s.live[j]) && t.live[j].deadline == s.live[j].deadline;
  }

  lemma UnpendKernel(s: Reactor, t: Reactor, id: nat)
    requires Unpended(s, t, id) && KernelOk(s)
    ensures OpenKernel(t, id)
  {
    assert RequestOk(s.live[id]);
  }

  lemma UnpendSets(s: Reactor, t: Reactor, id: nat)
    requires Unpended(s, t, id) && DescriptorsOk(s) && ClosesOk(s)
    ensures DescriptorsOk(t) && ClosesOk(t)
  {
    hide Delivered;
  }

  lemma UnpendRunning(s: Reactor, t: Reactor, id: nat)
    requires Unpended(s, t, id) && KernelOk(s) && OpenKernel(t, id) && !s.live[id].completed
    ensures KernelOk(t)
  {
    assert RequestOk(s.live[id]);
  }

  lemma CancelOwed(s: Reactor, id: nat)
    requires Inv(s) && id in s.cancels
    ensures id in s.live && s.pending > 0 && RequestOk(s.live[id]) && s.live[id].cancelPending
    ensures s.live[id].completed ==> s.live[id].slot.Nowhere?
  {
  }

  lemma UnpendCompleted(s: Reactor, t: Reactor, id: nat)
    requires Unpended(s, t, id) && DescriptorsOk(t) && s.live[id].completed
    ensures multiset(t.openedFds) == multiset(t.closedFds) + multiset(Delivered(t.log)) +
              if t.live[id].kind == OpenAt && t.live[id].result >= 0 then multiset{t.live[id].result} else multiset{}
    ensures forall j | j in t.live && j != id && t.live[j].completed && t.live[j].kind == OpenAt :: t.live[j].result < 0
  {
    hide Delivered;
  }

  lemma CancelDoneKeepsInv(s: Reactor, id: nat, res: int)
    requires Inv(s) && id in s.cancels
    ensures id in s.live && s.pending > 0 && Inv(CompleteCancel(s, id, res))
  {
    CancelOwed(s, id);
    hide PoolOk, LogOk, ActiveOk, GateOk, ClosesOk, KernelOk, OpenKernel, DescriptorsOk, Delivered, Retire;
    var t := Unpend(s, id, res);
    assert t.live.Keys == s.live.Keys;
    assert Unpended(s, t, id);
    hide Unpend, Unpended;
    UnpendFrame(s, t, id);
    SamePool(s, t);
    SameSerials(s, t);
    UnpendActive(s, t, id);
    UnpendGate(s, t, id);
    UnpendKernel(s, t, id);
    UnpendSets(s, t, id);
    if s.live[id].completed {
      UnpendCompleted(s, t, id);
      RetireKeepsInv(t, id);
    } else {
      UnpendRunning(s, t, id);
    }
  }

  // ---------------------------------------------------------------- the deadline sweep

  /** The invariant but for the gate. */
  ghost predicate Core(s: Reactor)
  {
    PoolOk(s) && ActiveOk(s) && KernelOk(s) && LogOk(s) && DescriptorsOk(s) && ClosesOk(s)
  }

  lemma CancelMarkedCore(s: Reactor, t: Reactor, id: nat)
    requires CancelMarked(s, t, id) && Core(s) && s.live[id].slot.At?
    ensures Core(t)
  {
    hide PoolOk, ActiveOk, LogOk, KernelOk, DescriptorsOk, ClosesOk;
    CancelMarkedActive(s, t, id);
    CancelMarkedKernel(s, t, id);
    CancelMarkedSets(s, t, id);
    SamePool(s, t);
    SameSerials(s, t);
  }

  lemma CoreFrame(s: Reactor, t: Reactor)
    requires Core(s) && t == s.(next := t.next, seen := t.seen, shutting := t.shutting, error := t.error)
    ensures Core(t)
  {
    hide PoolOk, LogOk, ActiveOk, KernelOk, DescriptorsOk, ClosesOk;
    SamePool(s, t);
    SameSerials(s, t);
    SameActive(s, t);
    SameKernel(s, t);
  }

  /** Requests before position `k` that are still due lie after `now`, and `best` is at or before them. */
  ghost predicate SweptTo(s: Reactor, k: nat, now: nat, best: nat)
    requires ActiveIn(s)
  {
    forall j | 0 <= j < k && j < |s.active| && Due(s.live[s.active[j]]) ::
      now < s.live[s.active[j]].deadline && best <= s.live[s.active[j]].deadline
  }

  lemma SweepDone(s: Reactor, k: nat, now: nat, best: nat)
    requires ActiveIn(s) && ActiveOk(s) && SweptTo(s, k, now, best) && k == |s.active|
    ensures GateOk(s.(next := best))
  {
    forall id | id in s.live && Due(s.live[id]) ensures best <= s.live[id].deadline {
      assert s.active[s.live[id].slot.index] == id;
    }
  }

  lemma SweptSkip(s: Reactor, k: nat, now: nat, best: nat)
    requires ActiveIn(s) && ActiveOk(s) && k < |s.active| && SweptTo(s, k, now, best)
    ensures s.active[k] in s.live && s.live[s.active[k]].slot == At(k)
    ensures s.live[s.active[k]].slot.At?
    ensures !Due(s.live[s.active[k]]) ==> SweptTo(s, k + 1, now, best)
    ensures s.live[s.active[k]].deadline > now ==> SweptTo(s, k + 1, now, Min(best, s.live[s.active[k]].deadline))
  {
  }

  lemma SweepStopsInv(s: Reactor, next: nat)
    requires Core(s) && next <= s.seen
    ensures Inv(s.(next := next))
  {
    CoreFrame(s, s.(next := next));
    hide PoolOk, LogOk, KernelOk, DescriptorsOk, ClosesOk, ActiveOk;
  }

  /** `SweepFrom` one request further. */
  lemma SweepUnfold(s: Reactor, k: nat, now: nat, sqes: nat, best: nat)
    requires k < |s.active| && ActiveIn(s)
    ensures var r := s.live[s.active[k]];
            SweepFrom(s, k, now, sqes, best) ==
            if r.deadline == 0 || r.cancelSubmitted then SweepFrom(s, k + 1, now, sqes, best)
            else if r.deadline > now then SweepFrom(s, k + 1, now, sqes, Min(best, r.deadline))
            else if sqes == 0 then s.(next := r.deadline)
            else SweepFrom(Expire(s, s.active[k]), k + 1, now, sqes - 1, best)
  {
  }

  function Expire(s: Reactor, id: nat): Reactor
    requires id in s.live
  {
    s.(live := s.live[id := s.live[id].(timedOut := true, cancelSubmitted := true, cancelPending := true)],
       cancels := s.cancels + {id})
  }

  lemma ExpireKeeps(s: Reactor, k: nat, now: nat, best: nat)
    requires ActiveIn(s) && Core(s) && k < |s.active| && SweptTo(s, k, now, best)
    ensures s.active[k] in s.live
    ensures var t := Expire(s, s.active[k]);
            ActiveIn(t) && Core(t) && t.active == s.active && t.seen == s.seen && SweptTo(t, k + 1, now, best)
  {
    SweptSkip(s, k, now, best);
    var id := s.active[k];
    var t := Expire(s, id);
    assert t.live.Keys == s.live.Keys;
    hide PoolOk, LogOk, KernelOk, DescriptorsOk, ClosesOk, ActiveOk, SweptTo;
    CancelMarkedCore(s, t, id);
    SweptCancel(s, t, id, k, now, best);
  }

  lemma CoreActive(s: Reactor)
    requires Core(s)
    ensures ActiveOk(s) && ActiveIn(s)
  {
  }

  /** The sweep stands at position `k` and everything so far is in order. */
  ghost predicate Sweeping(s: Reactor, k: nat, now: nat, best: nat)
  {
    ActiveIn(s) && Core(s) && k <= |s.active| && s.seen == now && SweptTo(s, k, now, best)
  }

  lemma SweepSkips(s: Reactor, k: nat, now: nat, best: nat)
    requires Sweeping(s, k, now, best) && k < |s.active|
    ensures s.active[k] in s.live
    ensures !Due(s.live[s.active[k]]) ==> Sweeping(s, k + 1, now, best)
    ensures s.live[s.active[k]].deadline > now ==> Sweeping(s, k + 1, now, Min(best, s.live[s.active[k]].deadline))
  {
    SweptSkip(s, k, now, best);
    hide PoolOk, LogOk, KernelOk, DescriptorsOk, ClosesOk, ActiveOk, SweptTo;
  }

  lemma SweepExpires(s: Reactor, k: nat, now: nat, best: nat)
    requires Sweeping(s, k, now, best) && k < |s.active|
    ensures s.active[k] in s.live
    ensures Sweeping(Expire(s, s.active[k]), k + 1, now, best) && |Expire(s, s.active[k]).active| == |s.active|
  {
    ExpireKeeps(s, k, now, best);
  }

  lemma SweepEnds(s: Reactor, now: nat, best: nat)
    requires Sweeping(s, |s.active|, now, best)
    ensures Inv(s.(next := best))
  {
    SweepDone(s, |s.active|, now, best);
    CoreFrame(s, s.(next := best));
    hide PoolOk, LogOk, KernelOk, DescriptorsOk, ClosesOk, ActiveOk, SweptTo, GateOk;
  }

  lemma SweepingShape(s: Reactor, k: nat, now: nat, best: nat)
    requires Sweeping(s, k, now, best)
    ensures ActiveIn(s) && k <= |s.active| && s.seen == now && Core(s)
  {
  }

  lemma {:induction false} SweepKeeps(s: Reactor, k: nat, now: nat, sqes: nat, best: nat)
    requires ActiveIn(s) && k <= |s.active| && Sweeping(s, k, now, best)
    ensures Inv(SweepFrom(s, k, now, sqes, best))
    decreases |s.active| - k
  {
    hide Sweeping, Inv, Expire, Core;
    SweepingShape(s, k, now, best);
    if k == |s.active| {
      SweepEnds(s, now, best);
    } else {
      SweepUnfold(s, k, now, sqes, best);
      SweepSkips(s, k, now, best);
      SweepExpires(s, k, now, best);
      hide SweepFrom;
      var r := s.live[s.active[k]];
      if r.deadline == 0 || r.cancelSubmitted {
        SweepKeeps(s, k + 1, now, sqes, best);
      } else if r.deadline > now {
        SweepKeeps(s, k + 1, now, sqes, Min(best, r.deadline));
      } else if sqes == 0 {
        SweepStopsInv(s, r.deadline);
      } else {
        var t := Expire(s, s.active[k]);
        SweepingShape(t, k + 1, now, best);
        SweepKeeps(t, k + 1, now, sqes - 1, best);
      }
    }
  }

  lemma ActiveLive(s: Reactor)
    requires ActiveOk(s)
    ensures forall j | 0 <= j < |s.active| :: s.active[j] in s.live
  {
  }

  lemma SweptCancel(s: Reactor, t: Reactor, id: nat, k: nat, now: nat, best: nat)
    requires ActiveIn(s) && ActiveIn(t) && CancelMarked(s, t, id) && k < |s.active| && s.active[k] == id
    requires SweptTo(s, k, now, best)
    ensures SweptTo(t, k + 1, now, best)
  {
  }

  lemma SweepAllKeepsInv(s: Reactor, now: nat, sqes: nat)
    requires Inv(s) && s.seen <= now
    ensures Inv(SweepAll(s, now, sqes))
  {
    var t := s.(seen := now);
    CoreFrame(s, t);
    if s.next > now {
      assert GateOk(t);
    } else {
      CoreActive(t);
      SweepKeeps(t, 0, now, sqes, FOREVER);
    }
  }

  // ---------------------------------------------------------------- what a sweep does

  /** In the kernel, with a deadline that has passed and no cancellation yet. */
  predicate Expired(r: Request, now: nat) { Due(r) && r.deadline <= now }

  function TimedOut(r: Request): Request { r.(timedOut := true, cancelSubmitted := true, cancelPending := true) }

  /** Positions from `k` on in the active list whose requests have expired. */
  function OverdueFrom(s: Reactor, k: nat, now: nat): set<nat>
    requires ActiveIn(s)
  {
    set j: nat | k <= j < |s.active| && Expired(s.live[s.active[j]], now)
  }

  lemma OverdueNext(s: Reactor, k: nat, now: nat)
    requires ActiveIn(s) && k < |s.active|
    ensures |OverdueFrom(s, k, now)| == |OverdueFrom(s, k + 1, now)| + if Expired(s.live[s.active[k]], now) then 1 else 0
  {
    var rest := OverdueFrom(s, k + 1, now);
    if Expired(s.live[s.active[k]], now) {
      assert OverdueFrom(s, k, now) == rest + {k};
    } else {
      assert OverdueFrom(s, k, now) == rest;
    }
  }

  lemma OverdueFrame(s: Reactor, t: Reactor, k: nat, now: nat)
    requires ActiveIn(s) && ActiveIn(t) && t.active == s.active
    requires forall j | k <= j < |s.active| :: t.live[s.active[j]] == s.live[s.active[j]]
    ensures OverdueFrom(t, k, now) == OverdueFrom(s, k, now)
  {
  }

  /** What the sweep from position `k` on did to the requests. */
  ghost predicate SweptExactly(s: Reactor, t: Reactor, k: nat, now: nat, sqes: nat)
    requires ActiveIn(s)
  {
    && t.live.Keys == s.live.Keys && t.active == s.active && ActiveIn(t)
    && (forall id | id in s.live ::
          t.live[id] == s.live[id] || (Expired(s.live[id], now) && t.live[id] == TimedOut(s.live[id])))
    && (forall j | 0 <= j < k && j < |s.active| :: t.live[s.active[j]] == s.live[s.active[j]])
    && (OverdueFrom(t, k, now) == {} <==> |OverdueFrom(s, k, now)| <= sqes)
  }

  lemma ExpireFrame(s: Reactor, k: nat)
    requires ActiveOk(s) && k < |s.active|
    ensures s.active[k] in s.live && s.live[s.active[k]].slot == At(k)
    ensures var t := Expire(s, s.active[k]);
            && ActiveOk(t) && ActiveIn(s) && ActiveIn(t) && t.active == s.active && t.live.Keys == s.live.Keys
            && t.live[s.active[k]] == TimedOut(s.live[s.active[k]])
            && (forall id | id in s.live && id != s.active[k] :: t.live[id] == s.live[id])
            && (forall j | 0 <= j < |s.active| && j != k :: s.active[j] != s.active[k])
  {
    var t := Expire(s, s.active[k]);
    assert t.live.Keys == s.live.Keys;
    assert s.live[s.active[k]].slot == At(k);
  }

  lemma SweepSkipExact(s: Reactor, t: Reactor, k: nat, now: nat, sqes: nat)
    requires ActiveIn(s) && k < |s.active| && !Expired(s.live[s.active[k]], now) && SweptExactly(s, t, k + 1, now, sqes)
    ensures SweptExactly(s, t, k, now, sqes)
  {
    OverdueNext(s, k, now);
    OverdueNext(t, k, now);
  }

  lemma SweepExpireExact(s: Reactor, u: Reactor, k: nat, now: nat, sqes: nat)
    requires ActiveOk(s) && ActiveIn(s) && k < |s.active| && Expired(s.live[s.active[k]], now) && sqes > 0
    requires ActiveIn(Expire(s, s.active[k])) && SweptExactly(Expire(s, s.active[k]), u, k + 1, now, sqes - 1)
    ensures SweptExactly(s, u, k, now, sqes)
  {
    var t := Expire(s, s.active[k]);
    ExpireFrame(s, k);
    OverdueFrame(s, t, k + 1, now);
    hide Expire;
    assert u.live[s.active[k]] == TimedOut(s.live[s.active[k]]);
    OverdueNext(s, k, now);
    OverdueNext(u, k, now);
    hide OverdueFrom;
    forall id | id in s.live
      ensures u.live[id] == s.live[id] || (Expired(s.live[id], now) && u.live[id] == TimedOut(s.live[id]))
    {
      if id != s.active[k] { assert t.live[id] == s.live[id]; }
    }
  }

  lemma {:induction false} SweepFromExact(s: Reactor, k: nat, now: nat, sqes: nat, best: nat)
    requires ActiveOk(s) && ActiveIn(s) && k <= |s.active|
    ensures SweptExactly(s, SweepFrom(s, k, now, sqes, best), k, now, sqes)
    decreases |s.active| - k
  {
    hide SweepFrom, SweptExactly, Expire, ActiveOk, OverdueFrom;
    if k == |s.active| {
      SweepEndExact(s, now, sqes, best);
    } else {
      SweepUnfold(s, k, now, sqes, best);
      ExpireFrame(s, k);
      var r := s.live[s.active[k]];
      if r.deadline == 0 || r.cancelSubmitted {
        SweepFromExact(s, k + 1, now, sqes, best);
        SweepSkipExact(s, SweepFrom(s, k, now, sqes, best), k, now, sqes);
      } else if r.deadline > now {
        SweepFromExact(s, k + 1, now, sqes, Min(best, r.deadline));
        SweepSkipExact(s, SweepFrom(s, k, now, sqes, best), k, now, sqes);
      } else if sqes == 0 {
        SweepStopExact(s, k, now, r.deadline);
      } else {
        SweepFromExact(Expire(s, s.active[k]), k + 1, now, sqes - 1, best);
        SweepExpireExact(s, SweepFrom(s, k, now, sqes, best), k, now, sqes);
      }
    }
  }

  lemma SweepEndExact(s: Reactor, now: nat, sqes: nat, best: nat)
    requires ActiveIn(s)
    ensures SweptExactly(s, SweepFrom(s, |s.active|, now, sqes, best), |s.active|, now, sqes)
  {
    assert OverdueFrom(s, |s.active|, now) == {} && OverdueFrom(s.(next := best), |s.active|, now) == {};
  }

  lemma SweepStopExact(s: Reactor, k: nat, now: nat, next: nat)
    requires ActiveIn(s) && k < |s.active| && Expired(s.live[s.active[k]], now)
    ensures SweptExactly(s, s.(next := next), k, now, 0)
  {
    OverdueNext(s, k, now);
    OverdueFrame(s, s.(next := next), k, now);
  }

  /** Only requests whose deadline had passed have been cancelled, and all of them if and only if there was a submission
      entry for each. */
  ghost predicate SweptAll(s: Reactor, t: Reactor, now: nat, sqes: nat)
  {
    && ActiveIn(s) && t.live.Keys == s.live.Keys
    && (forall id | id in s.live ::
          t.live[id] == s.live[id] || (Expired(s.live[id], now) && t.live[id] == TimedOut(s.live[id])))
    && ((forall id | id in t.live :: !Expired(t.live[id], now)) <==> |OverdueFrom(s, 0, now)| <= sqes)
  }

  lemma SweepCancelsExpired(s: Reactor, now: nat, sqes: nat)
    requires Inv(s) && s.seen <= now
    ensures SweptAll(s, SweepAll(s, now, sqes), now, sqes)
  {
    CoreActive(s);
    assert GateOk(s);
    hide Inv, SweepFrom, SweptAll, SweptExactly, OverdueFrom, GateOk;
    var u := s.(seen := now);
    SeenActive(s, u);
    SweepFromExact(u, 0, now, sqes, FOREVER);
    if s.next > now { GateSweeps(s, u, now, sqes); } else { OpenSweeps(s, u, SweepFrom(u, 0, now, sqes, FOREVER), now, sqes); }
  }

  lemma SeenActive(s: Reactor, u: Reactor)
    requires ActiveOk(s) && u == s.(seen := u.seen)
    ensures ActiveOk(u) && ActiveIn(u)
  {
  }

  lemma GateSweeps(s: Reactor, t: Reactor, now: nat, sqes: nat)
    requires ActiveIn(s) && GateOk(s) && s.seen <= now < s.next && t == s.(seen := now)
    ensures SweptAll(s, t, now, sqes)
  {
    ClosedGate(s, now);
  }

  lemma OpenSweeps(s: Reactor, u: Reactor, t: Reactor, now: nat, sqes: nat)
    requires ActiveOk(s) && u == s.(seen := now) && ActiveIn(u) && SweptExactly(u, t, 0, now, sqes)
    ensures SweptAll(s, t, now, sqes)
  {
    ActiveLive(s);
    OverdueFrame(s, u, 0, now);
    AllOverdue(s, t, now);
  }

  lemma ClosedGate(s: Reactor, now: nat)
    requires ActiveIn(s) && GateOk(s) && s.seen <= now < s.next
    ensures OverdueFrom(s, 0, now) == {} && forall id | id in s.live :: !Expired(s.live[id], now)
  {
  }

  lemma AllOverdue(s: Reactor, t: Reactor, now: nat)
    requires ActiveOk(s) && ActiveIn(t) && t.active == s.active && t.live.Keys == s.live.Keys
    requires forall id | id in s.live :: t.live[id] == s.live[id] || t.live[id] == TimedOut(s.live[id])
    ensures OverdueFrom(t, 0, now) == {} <==> forall id | id in t.live :: !Expired(t.live[id], now)
  {
    forall id | id in t.live && Expired(t.live[id], now) ensures OverdueFrom(t, 0, now) != {} {
      assert s.active[s.live[id].slot.index] == id && s.live[id].slot.index in OverdueFrom(t, 0, now);
    }
    if OverdueFrom(t, 0, now) != {} {
      var j :| j in OverdueFrom(t, 0, now);
      assert t.active[j] in t.live && Expired(t.live[t.active[j]], now);
    }
  }

  /** Every event keeps the invariant. */
  lemma StepKeepsInv(s: Reactor, event: Event)
    requires Inv(s) && Enabled(s, event)
    ensures Inv(Apply(s, event))
  {
    match event
    case Submit(op, sqe) => SubmitKeepsInv(s, op, sqe);
    case Cancel(id, sqe) => CancelKeepsInv(s, id, sqe);
    case Original(id, res, sqe, processed) => OriginalKeepsInv(s, id, res, sqe, processed);
    case CancelDone(id, res) => CancelDoneKeepsInv(s, id, res);
    case Sweep(now, sqes) => SweepAllKeepsInv(s, now, sqes);
    case Shutdown => CoreFrame(s, s.(shutting := true));
    case Fault(error) => CoreFrame(s, s.(error := error));
  }

  // ---------------------------------------------------------------- whole runs

  function Idle(depth: nat): (s: Reactor)
    ensures Inv(s)
  {
    var s := Reactor(depth, map[], seq(depth, k requires 0 <= k < depth => k), [], 0, FOREVER, 0, false, 0, 0, {}, {}, [],
                     [], [], {});
    IdleInv(s);
    s
  }

  lemma IdleInv(s: Reactor)
    requires s.free == seq(s.depth, k requires 0 <= k < s.depth => k)
    requires s == Reactor(s.depth, map[], s.free, [], 0, FOREVER, 0, false, 0, 0, {}, {}, [], [], [], {})
    ensures Inv(s)
  {
    forall j: nat ensures (j in s.free || j in s.live) <==> j < s.depth {
      if j < s.depth { assert s.free[j] == j; }
    }
  }

  predicate Allowed(s: Reactor, events: seq<Event>)
    requires Inv(s)
    decreases |events|
  {
    events == [] || (Enabled(s, events[0]) && (StepKeepsInv(s, events[0]); Allowed(Apply(s, events[0]), events[1..])))
  }

  function Run(s: Reactor, events: seq<Event>): Reactor
    requires Inv(s) && Allowed(s, events)
    decreases |events|
  {
    if events == [] then s else StepKeepsInv(s, events[0]); Run(Apply(s, events[0]), events[1..])
  }

  lemma {:induction false} RunKeepsInv(s: Reactor, events: seq<Event>)
    requires Inv(s) && Allowed(s, events)
    ensures Inv(Run(s, events))
    decreases |events|
  {
    if events != [] {
      StepKeepsInv(s, events[0]);
      hide Inv, Enabled, Apply;
      RunKeepsInv(Apply(s, events[0]), events[1..]);
    }
  }

  /** At any moment of any run an accepted operation has been called back exactly once and is gone, or never
      and is live; a live one waits for a completion that the kernel still owes; the pool is accounted for. */
  lemma ExactlyOnce(depth: nat, events: seq<Event>, n: nat)
    requires Allowed(Idle(depth), events) && n < Run(Idle(depth), events).serial
    ensures var s := Run(Idle(depth), events);
            && (Logged(s, n) <==> !Running(s, n))
            && (forall j, k | 0 <= j < |s.log| && 0 <= k < |s.log| && s.log[j].serial == n && s.log[k].serial == n :: j == k)
            && (forall id | id in s.live && s.live[id].serial == n :: id in s.inflight || id in s.cancels)
            && |s.free| + s.pending == s.depth
  {
    RunKeepsInv(Idle(depth), events);
    hide Run, Allowed, PoolOk, ActiveOk, DescriptorsOk, ClosesOk, GateOk;
    var s := Run(Idle(depth), events);
    forall id | id in s.live ensures id in s.inflight || id in s.cancels { assert RequestOk(s.live[id]); }
    PoolCount(s);
  }

  lemma PoolCount(s: Reactor)
    requires PoolOk(s)
    ensures |s.free| + s.pending == s.depth
  {
  }

  /** Every descriptor the kernel opened has been delivered to a callback or closed, and not both; every close
      that succeeded was reported as success. */
  lemma DescriptorsAccountedFor(depth: nat, events: seq<Event>)
    requires Allowed(Idle(depth), events)
    ensures var s := Run(Idle(depth), events);
            && multiset(s.openedFds) == multiset(s.closedFds) + multiset(Delivered(s.log))
            && forall k | 0 <= k < |s.log| && s.log[k].serial in s.closes :: s.log[k].result == 0
  {
    RunKeepsInv(Idle(depth), events);
    hide Run, Allowed, PoolOk, ActiveOk, LogOk, KernelOk, GateOk, Delivered;
  }

  /** A request with a passed deadline opens the gate of the next sweep, also after a sweep that ran out of
      submission entries. */
  lemma GateNeverHides(depth: nat, events: seq<Event>, id: nat, now: nat)
    requires Allowed(Idle(depth), events)
    requires var s := Run(Idle(depth), events);
             id in s.live && Due(s.live[id]) && s.live[id].deadline <= now && s.seen <= now
    ensures Run(Idle(depth), events).next <= now
  {
    RunKeepsInv(Idle(depth), events);
    hide Run, Allowed, PoolOk, ActiveOk, LogOk, KernelOk, DescriptorsOk, ClosesOk;
  }

  // ---------------------------------------------------------------- when callbacks happen

  /** Submitting, cancelling and sweeping never call back: completions are never delivered inline. */
  lemma NeverInline(s: Reactor, event: Event)
    requires Inv(s) && Enabled(s, event) && (event.Submit? || event.Cancel? || event.Sweep? || event.Shutdown? || event.Fault?)
    ensures Apply(s, event).log == s.log
  {
    ActiveLive(s);
    hide PoolOk, LogOk, KernelOk, DescriptorsOk, ClosesOk, GateOk, ActiveOk, Earliest;
    match event
    case Sweep(now, sqes) => if s.next <= now { SweepLog(s.(seen := now), 0, now, sqes, FOREVER); }
    case _ =>
  }

  lemma {:induction false} SweepLog(s: Reactor, k: nat, now: nat, sqes: nat, best: nat)
    requires k <= |s.active| && ActiveIn(s)
    ensures SweepFrom(s, k, now, sqes, best).log == s.log
    decreases |s.active| - k
  {
    if k < |s.active| {
      var id := s.active[k];
      var r := s.live[id];
      SweepLog(s, k + 1, now, sqes, best);
      SweepLog(s, k + 1, now, sqes, Min(best, r.deadline));
      if sqes > 0 {
        SweepLog(s.(live := s.live[id := r.(timedOut := true, cancelSubmitted := true, cancelPending := true)],
                    cancels := s.cancels + {id}), k + 1, now, sqes - 1, best);
      }
    }
  }

  /** A completion calls back at most its own request, and only when afterwards the kernel owes it nothing. */
  lemma CallbackIsLast(s: Reactor, event: Event)
    requires Inv(s) && Enabled(s, event) && (event.Original? || event.CancelDone?) && Apply(s, event).log != s.log
    ensures var t := Apply(s, event);
            && event.request in s.live && event.request !in t.live
            && event.request !in t.inflight && event.request !in t.cancels
            && |t.log| == |s.log| + 1 && t.log[..|s.log|] == s.log && t.log[|s.log|].serial == s.live[event.request].serial
  {
    StepKeepsInv(s, event);
    if event.Original? { InflightAt(s, event.request); }
    LogGrows(s, event);
    hide PoolOk, ActiveOk, LogOk, DescriptorsOk, ClosesOk, GateOk, CompleteIo, CompleteCancel;
  }

  /** The log did not change, or it gained the callback of request `id`, which is gone. */
  ghost predicate CalledBack(s: Reactor, t: Reactor, id: nat)
  {
    || t.log == s.log
    || (id in s.live && id !in t.live && |t.log| == |s.log| + 1 && t.log[..|s.log|] == s.log &&
        t.log[|s.log|].serial == s.live[id].serial)
  }

  lemma FinishLog(s: Reactor, id: nat, result: int)
    requires id in s.live && s.pending > 0
    ensures CalledBack(s, Finish(s, id, result), id)
  {
  }

  lemma AsyncLog(s: Reactor, id: nat, res: int, sqe: bool, processed: int)
    requires id in s.live && s.pending > 0
    ensures CalledBack(s, CompleteAsync(s, id, res, sqe, processed), id)
  {
    hide Finish, Outcome, DiscardOpen, CalledBack;
    var r0 := s.live[id];
    if res > 0 && r0.kind == Bytes && r0.transferred + res > SSIZE_MAX {
      FinishLog(s, id, EOVERFLOW);
    } else {
      var r := if res > 0 && r0.kind == Bytes then r0.(transferred := r0.transferred + res) else r0;
      var t := s.(live := s.live[id := r]);
      FateLog(t, id, res, sqe, processed);
      SameLog(s, t, id, CompleteAsync(s, id, res, sqe, processed));
    }
  }

  lemma SameLog(s: Reactor, t: Reactor, id: nat, u: Reactor)
    requires CalledBack(t, u, id) && t.log == s.log && id in s.live && id in t.live && t.live[id].serial == s.live[id].serial
    ensures CalledBack(s, u, id)
  {
  }

  lemma FateLog(s: Reactor, id: nat, res: int, sqe: bool, processed: int)
    requires id in s.live && s.pending > 0
    ensures forall result :: CalledBack(s, Finish(s, id, result), id)
    ensures forall result :: CalledBack(s, Finish(DiscardOpen(s, id, res), id, result), id)
    ensures CalledBack(s, Outcome(s, id, res, sqe, processed), id)
  {
    forall result ensures CalledBack(s, Finish(s, id, result), id) { FinishLog(s, id, result); }
    var d := DiscardOpen(s, id, res);
    forall result ensures CalledBack(s, Finish(d, id, result), id) { FinishLog(d, id, result); }
    hide Finish, CalledBack;
    assert CalledBack(s, Push(s, id), id) by { PushLog(s, id); }
  }

  lemma PushLog(s: Reactor, id: nat)
    requires id in s.live
    ensures CalledBack(s, Push(s, id), id)
  {
  }

  lemma CancelLog(s: Reactor, id: nat, res: int)
    requires id in s.live && s.pending > 0
    ensures CalledBack(s, CompleteCancel(s, id, res), id)
  {
  }

  lemma OriginalLog(s: Reactor, id: nat, res: int, sqe: bool, processed: int)
    requires Inv(s) && id in s.inflight
    ensures CalledBack(s, CompleteIo(s, id, res, sqe, processed), id)
  {
    InflightAt(s, id);
    var fds := if s.live[id].kind == OpenAt && res >= 0 then s.openedFds + [res] else s.openedFds;
    var u := Completed(s, id, fds, Closing(s.live[id].kind, res));
    CompletedMoves(s, id, fds, Closing(s.live[id].kind, res));
    DetachKeeps(s, id);
    assert u.log == s.log && id in u.live && u.live[id].serial == s.live[id].serial && u.pending > 0;
    hide Inv, Completed, CompleteAsync, Moved, ActiveOk, GateOk, CalledBack;
    AsyncLog(u, id, res, sqe, processed);
    SameLog(s, u, id, CompleteAsync(u, id, res, sqe, processed));
  }

  lemma LogGrows(s: Reactor, event: Event)
    requires Inv(s) && Enabled(s, event) && (event.Original? || event.CancelDone?)
    ensures CalledBack(s, Apply(s, event), event.request)
  {
    hide CalledBack, CompleteIo, CompleteCancel;
    match event
    case Original(id, res, sqe, processed) => OriginalLog(s, id, res, sqe, processed);
    case CancelDone(id, res) => CancelOwed(s, id); CancelLog(s, id, res);
  }

  /** An operation without a transfer that succeeded in the kernel, a hole punch for one, is reported as a
      success exactly when it was not timed out or cancelled and the reactor is not shutting down. */
  lemma SuccessReportedIffUndisturbed(s: Reactor, id: nat, sqe: bool, processed: int)
    requires Inv(s) && id in s.inflight && id in s.live && s.live[id].kind == Plain
    ensures var t := CompleteIo(s, id, 0, sqe, processed);
            var r := s.live[id];
            var undisturbed := !r.timedOut && !r.cancelled && !s.shutting;
            if r.cancelPending then id in t.live && t.live[id].completed && (t.live[id].result == 0 <==> undisturbed)
            else |t.log| == |s.log| + 1 && t.log[|s.log|].serial == r.serial && (t.log[|s.log|].result == 0 <==> undisturbed)
  {
    InflightAt(s, id);
    CompletedMoves(s, id, s.openedFds, false);
    CompletedShutting(s, id);
    DetachKeeps(s, id);
    var u := Completed(s, id, s.openedFds, false);
    assert u.live[id] == s.live[id].(slot := Nowhere) && u.log == s.log;
    hide Inv, Completed, Moved, CompleteAsync, ActiveOk, GateOk;
    PlainOutcome(u, id, sqe, processed);
  }

  lemma PlainOutcome(s: Reactor, id: nat, sqe: bool, processed: int)
    requires id in s.live && s.pending > 0 && s.live[id].kind == Plain
    ensures var t := CompleteAsync(s, id, 0, sqe, processed);
            var r := s.live[id];
            var undisturbed := !r.timedOut && !r.cancelled && !s.shutting;
            if r.cancelPending then id in t.live && t.live[id].completed && (t.live[id].result == 0 <==> undisturbed)
            else |t.log| == |s.log| + 1 && t.log[|s.log|].serial == r.serial && (t.log[|s.log|].result == 0 <==> undisturbed)
  {
  }

  lemma CompletedShutting(s: Reactor, id: nat)
    requires ActiveOk(s) && id in s.live && s.live[id].slot.At?
    ensures var u := Completed(s, id, s.openedFds, false);
            u.shutting == s.shutting && u.error == s.error
  {
  }
}
