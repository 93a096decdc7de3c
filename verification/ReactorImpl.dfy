/** The reactor as an object: pool, active list and deadline gate updated in place.

    Each method does what the source's method does, in its order and with its loops, and is
    proved to take the one step of `ReactorIo` it stands for. Whether a submission entry was
    available is an argument.
 */
module ReactorImpl {
  import opened Geometry
  import opened ReactorIo

  class FuseReactor {
    const depth: nat
    var live: map<nat, Request>
    var free: seq<nat>
    var active: seq<nat>
    var pending: nat
    var next: nat
    var shutting: bool
    var error: ErrorCode
    var serial: nat
    ghost var seen: nat
    ghost var inflight: set<nat>
    ghost var cancels: set<nat>
    ghost var log: seq<Done>
    ghost var openedFds: seq<int>
    ghost var closedFds: seq<int>
    ghost var closes: set<nat>

    ghost function Value(): Reactor
      reads this
    {
      Reactor(depth, live, free, active, pending, next, seen, shutting, error, serial, inflight, cancels, log,
              openedFds, closedFds, closes)
    }

    ghost predicate Valid()
      reads this
    {
      Inv(Value())
    }

    constructor (n: nat)
      ensures Value() == Idle(n) && Valid()
    {
      depth, live, free, active, pending := n, map[], seq(n, k requires 0 <= k < n => k), [], 0;
      next, shutting, error, serial, seen := FOREVER, false, 0, 0, 0;
      inflight, cancels, log, openedFds, closedFds, closes := {}, {}, [], [], [], {};
    }

    /** `refresh_io_deadline`: the earliest deadline still waiting. */
    method Refresh()
      requires ActiveIn(Value())
      modifies this`next
      ensures Value() == ReactorIo.Refresh(old(Value()))
    {
      next := FOREVER;
      var k := 0;
      while k < |active|
        invariant k <= |active| && next == Earliest(live, active[..k])
      {
        var r := live[active[k]];
        assert active[..k + 1][..k] == active[..k];
        if !r.cancelSubmitted && r.deadline != 0 {
          next := Min(next, r.deadline);
        }
        k := k + 1;
      }
      assert active[..k] == active;
    }

    /** `submit_io_request`: hand the request to the kernel, if an entry is left. */
    method SubmitIo(id: nat, sqe: bool) returns (ok: bool)
      requires id in live
      modifies this`live, this`active, this`next, this`inflight
      ensures ok == sqe && Value() == if sqe then Push(old(Value()), id) else old(Value())
    {
      if !sqe {
        return false;
      }
      var r := live[id].(slot := At(|active|));
      live := live[id := r];
      active := active + [id];
      inflight := inflight + {id};
      if !r.cancelSubmitted && r.deadline != 0 {
        next := Min(next, r.deadline);
      }
      return true;
    }

    method Submit(op: Operation, sqe: bool) returns (ok: bool)
      requires Valid()
      modifies this
      ensures ok <==> Accepts(old(Value()), sqe)
      ensures Valid() && Value() == SubmitRequest(old(Value()), op, sqe)
    {
      hide Inv;
      ghost var s := Value();
      SubmitKeepsInv(s, op, sqe);
      if error != 0 || shutting || free == [] {
        return false;
      }
      var id := free[0];
      free := free[1..];
      var queued := live;
      live := live[id := Request(serial, op.kind, op.length, op.exact, op.processor, op.deadline, 0, false, false, false,
                                 false, false, ECANCELED, Nowhere)];
      ok := SubmitIo(id, sqe);
      if !ok {
        live := queued;
        free := [id] + free;
        assert free == s.free;
        return;
      }
      pending := pending + 1;
      serial := serial + 1;
    }

    method Cancel(id: nat, sqe: bool) returns (ok: bool)
      requires Valid()
      modifies this
      ensures ActiveIn(old(Value())) && Valid() && Value() == CancelRequest(old(Value()), id, sqe)
      ensures ok <==> id in live && live[id].cancelSubmitted
    {
      hide Inv, Earliest;
      AllActive(Value());
      CancelKeepsInv(Value(), id, sqe);
      if id !in live {
        return false;
      }
      var r := live[id];
      if r.cancelSubmitted {
        return true;
      }
      if r.slot.Nowhere? || !sqe {
        return false;
      }
      live := live[id := r.(cancelled := true, cancelSubmitted := true, cancelPending := true)];
      cancels := cancels + {id};
      if r.deadline == next {
        Refresh();
      }
      return true;
    }

    /** `retire_async_io`: back to the pool, then the callback. */
    method Retire(id: nat)
      requires id in live && pending > 0
      modifies this`live, this`free, this`pending, this`log
      ensures Value() == ReactorIo.Retire(old(Value()), id)
    {
      var r := live[id];
      live := live - {id};
      free := [id] + free;
      pending := pending - 1;
      log := log + [Done(r.serial, r.kind, r.result)];
    }

    method Finish(id: nat, result: int)
      requires id in live && pending > 0
      modifies this`live, this`free, this`pending, this`log
      ensures Value() == ReactorIo.Finish(old(Value()), id, result)
    {
      live := live[id := live[id].(completed := true, result := result)];
      if !live[id].cancelPending {
        Retire(id);
      }
    }

    method DiscardOpen(id: nat, res: int)
      requires id in live
      modifies this`closedFds
      ensures Value() == ReactorIo.DiscardOpen(old(Value()), id, res)
    {
      if live[id].kind == OpenAt && res >= 0 {
        closedFds := closedFds + [res];
      }
    }

    method Again(id: nat, sqe: bool)
      requires id in live && pending > 0
      modifies this
      ensures Value() == ReactorIo.Again(old(Value()), id, sqe)
    {
      var ok := SubmitIo(id, sqe);
      if !ok {
        Finish(id, EAGAIN);
      }
    }

    /** `complete_async_io`. */
    method CompleteAsync(id: nat, res: int, sqe: bool, processed: int)
      requires id in live && pending > 0
      modifies this
      ensures Value() == ReactorIo.CompleteAsync(old(Value()), id, res, sqe, processed)
    {
      hide ReactorIo.Finish, ReactorIo.DiscardOpen, ReactorIo.Outcome;
      var r := live[id];
      if res > 0 && r.kind == Bytes {
        if res > SSIZE_MAX - r.transferred {
          Finish(id, EOVERFLOW);
          return;
        }
        r := r.(transferred := r.transferred + res);
      }
      live := live[id := r];
      if r.kind == CloseFd && res == 0 {
        Finish(id, 0);
      } else if r.timedOut {
        DiscardOpen(id, res);
        Finish(id, ETIMEDOUT);
      } else if r.cancelled {
        DiscardOpen(id, res);
        Finish(id, ECANCELED);
      } else if shutting {
        DiscardOpen(id, res);
        Finish(id, if error != 0 then error else ENOTCONN);
      } else {
        Outcome(id, res, sqe, processed);
      }
    }

    method Outcome(id: nat, res: int, sqe: bool, processed: int)
      requires id in live && pending > 0
      modifies this
      ensures Value() == ReactorIo.Outcome(old(Value()), id, res, sqe, processed)
    {
      hide ReactorIo.Finish, ReactorIo.Again;
      var r := live[id];
      if r.kind != Bytes {
        if res == EINTR {
          Again(id, sqe);
        } else {
          Finish(id, if res > 0 && r.kind != OpenAt then EIO else res);
        }
        return;
      }
      if res == EINTR || (res > 0 && r.exact && r.transferred < r.length) {
        Again(id, sqe);
        return;
      }
      if res < 0 {
        Finish(id, res);
        return;
      }
      if r.processor && res > 0 {
        if processed < 0 || (processed == 0 && r.exact) {
          Finish(id, if processed < 0 then processed else EIO);
          return;
        }
        if processed == 0 {
          Again(id, sqe);
          return;
        }
      }
      Finish(id, r.transferred);
    }

    /** Swap-removal: the last element takes the place of the one that leaves. */
    method Detach(id: nat)
      requires id in live && live[id].slot.At? && live[id].slot.index < |active| && active[|active| - 1] in live
      modifies this`live, this`active, this`inflight
      ensures Value() == ReactorIo.Detach(old(Value()), id)
    {
      var index, moved := live[id].slot.index, active[|active| - 1];
      active := active[index := moved];
      live := live[moved := live[moved].(slot := At(index))];
      active := active[..|active| - 1];
      live := live[id := live[id].(slot := Nowhere)];
      inflight := inflight - {id};
    }

    /** `complete_io`: a completion that does not find its request in the active list is an error. */
    method CompleteIo(id: nat, res: int, sqe: bool, processed: int)
      requires Valid() && id in live
      modifies this
      ensures Valid() && Value() == ReactorIo.CompleteIo(old(Value()), id, res, sqe, processed)
    {
      hide Inv, ActiveOk, PoolOk, Earliest, ReactorIo.CompleteAsync;
      ghost var s := Value();
      CompletionKeepsInv(s, id, res, sqe, processed);
      ActiveFacts(s, id);
      var r := live[id];
      var refresh := r.deadline == next;
      if r.slot.Nowhere? || r.slot.index >= |active| || active[r.slot.index] != id {
        error := EIO;
        return;
      }
      DetachKeeps(s, id);
      Detach(id);
      if refresh {
        Refresh();
      }
      if r.kind == OpenAt && res >= 0 {
        openedFds := openedFds + [res];
      }
      if Closing(r.kind, res) {
        closes := closes + {r.serial};
      }
      assert Value() == Completed(s, id, openedFds, Closing(r.kind, res));
      CompleteAsync(id, res, sqe, processed);
    }

    method CompleteCancel(id: nat, res: int)
      requires Valid() && id in cancels
      modifies this
      ensures id in old(live) && old(pending) > 0
      ensures Valid() && Value() == ReactorIo.CompleteCancel(old(Value()), id, res)
    {
      hide Inv;
      CancelOwed(Value(), id);
      CancelDoneKeepsInv(Value(), id, res);
      live := live[id := live[id].(cancelPending := false)];
      cancels := cancels - {id};
      if res < 0 && res != -2 && res != -114 && res != ECANCELED && error == 0 {
        error := res;
      }
      if live[id].completed {
        Retire(id);
      }
    }

    /** `cancel_expired_io`: `sqes` submission entries are left. */
    method CancelExpired(now: nat, sqes: nat)
      requires Valid() && seen <= now
      modifies this
      ensures ActiveIn(old(Value())) && Valid() && Value() == SweepAll(old(Value()), now, sqes)
      ensures SweptAll(old(Value()), Value(), now, sqes)
    {
      hide Inv, SweepFrom, SweptAll;
      AllActive(Value());
      SweepAllKeepsInv(Value(), now, sqes);
      SweepCancelsExpired(Value(), now, sqes);
      seen := now;
      if next > now {
        return;
      }
      ghost var t := Value();
      var best, left, k := FOREVER, sqes, 0;
      while k < |active|
        invariant k <= |active| && ActiveIn(Value())
        invariant SweepFrom(Value(), k, now, left, best) == SweepFrom(t, 0, now, sqes, FOREVER)
      {
        SweepUnfold(Value(), k, now, left, best);
        var id := active[k];
        var r := live[id];
        if r.deadline == 0 || r.cancelSubmitted {
        } else if r.deadline > now {
          best := Min(best, r.deadline);
        } else if left == 0 {
          next := r.deadline;
          return;
        } else {
          left := left - 1;
          live := live[id := r.(timedOut := true, cancelSubmitted := true, cancelPending := true)];
          cancels := cancels + {id};
        }
        k := k + 1;
      }
      SweepEnd(Value(), now, left, best);
      next := best;
    }
  }

  lemma SweepEnd(s: Reactor, now: nat, sqes: nat, best: nat)
    requires ActiveIn(s)
    ensures SweepFrom(s, |s.active|, now, sqes, best) == s.(next := best)
  {
  }

  lemma AllActive(s: Reactor)
    requires Inv(s)
    ensures ActiveIn(s)
  {
  }

  /** A request that has a place in the active list is there, and its operation is in the kernel. */
  lemma ActiveFacts(s: Reactor, id: nat)
    requires Inv(s) && id in s.live
    ensures ActiveOk(s) && PoolOk(s) && ActiveIn(s) && s.pending > 0
    ensures s.live[id].slot.At? ==>
            id in s.inflight && s.live[id].slot.index < |s.active| && s.active[s.live[id].slot.index] == id
  {
  }

  lemma CompletionKeepsInv(s: Reactor, id: nat, res: int, sqe: bool, processed: int)
    requires Inv(s) && id in s.live
    ensures Inv(ReactorIo.CompleteIo(s, id, res, sqe, processed))
  {
    ActiveFacts(s, id);
    if s.live[id].slot.At? {
      hide Inv;
      OriginalKeepsInv(s, id, res, sqe, processed);
    } else {
      CoreFrame(s, s.(error := EIO));
    }
  }
}
