/** Admission of FUSE requests: one ingress reactor, any number of workers.

    `dispatch_count_` is shared. Ingress raises it, workers lower it, and ingress sleeps
    without a pending receive when it is at its maximum. A worker that makes room must
    therefore wake ingress, through the return pipe or through the wake event. Each atomic
    access to shared state is one step, so a sequence of steps is one interleaving.
    Workers are counted by what they are about to do.
 */
module Admission {
  import opened Geometry

  /** Where ingress is: in its event loop, in `complete_receive`, in `drain_return_pipe`
      with returned dispatches it has read but not yet subtracted, or in `submit_receive`. */
  datatype Ingress =
    | Idle
    | FirstTake
    | BatchCheck(batch: nat)
    | NextTake(batch: nat)
    | Drain(unread: nat)
    | Submit

  datatype State = State(
    max: nat,
    count: nat,
    ingress: Ingress,
    armed: bool,        // a receive poll is pending
    running: nat,       // dispatches that nobody has begun to return
    sawFull: nat,       // workers in dispatch_complete that loaded count == max
    sawRoom: nat,       // workers in dispatch_complete that loaded anything else, or whose pipe write failed
    owesWake: nat,      // workers between their decrement from max and the eventfd write
    pipe: nat,          // dispatches unread in the return pipe
    wake: nat)          // unread tokens of the wake event

  datatype Step =
    | PollFires | Took | TookNothing | Check
    | ReturnFires(n: nat) | Subtract | ReadMore(n: nat) | DrainEnds
    | WakeFires | LocalReturn | SubmitReceive
    | WorkerLoads | PipeWritten | PipeFailed | WorkerSubtracts | WorkerWakes

  const PIPE_BATCH: nat := 32

  predicate Enabled(s: State, step: Step)
  {
    match step
    case PollFires => s.ingress == Idle && s.armed
    case Took => s.ingress == FirstTake || s.ingress.NextTake?
    case TookNothing => s.ingress == FirstTake || s.ingress.NextTake?
    case Check => s.ingress.BatchCheck?
    case ReturnFires(n) => s.ingress == Idle && 0 < n <= Min(s.pipe, PIPE_BATCH)
    case Subtract => s.ingress.Drain? && s.ingress.unread > 0 && s.count > 0
    case ReadMore(n) => s.ingress == Drain(0) && 0 < n <= Min(s.pipe, PIPE_BATCH)
    case DrainEnds => s.ingress == Drain(0) && s.pipe == 0
    case WakeFires => s.ingress == Idle && s.wake > 0
    case LocalReturn => s.ingress == Idle && s.running > 0 && s.count > 0
    case SubmitReceive => s.ingress == Submit
    case WorkerLoads => s.running > 0
    case PipeWritten => s.sawFull > 0
    case PipeFailed => s.sawFull > 0
    case WorkerSubtracts => s.sawRoom > 0 && s.count > 0
    case WorkerWakes => s.owesWake > 0
  }

  function Apply(s: State, step: Step): State
    requires Enabled(s, step)
  {
    match step
    case PollFires => s.(armed := false, ingress := FirstTake)
    case Took =>
      s.(count := s.count + 1, running := s.running + 1,
         ingress := BatchCheck(if s.ingress.NextTake? then s.ingress.batch + 1 else 1))
    case TookNothing => s.(ingress := Submit)
    case Check =>
      if s.ingress.batch < s.max && s.count < s.max then s.(ingress := NextTake(s.ingress.batch))
      else s.(ingress := Submit)
    case ReturnFires(n) => s.(pipe := s.pipe - n, ingress := Drain(n))
    case Subtract => s.(count := s.count - 1, ingress := Drain(s.ingress.unread - 1))
    case ReadMore(n) => s.(pipe := s.pipe - n, ingress := Drain(n))
    case DrainEnds => s.(ingress := Submit)
    case WakeFires => s.(wake := 0, ingress := Submit)
    case LocalReturn => s.(running := s.running - 1, count := s.count - 1, ingress := Submit)
    case SubmitReceive =>
      s.(ingress := Idle, armed := s.armed || s.count + (if s.armed then 1 else 0) < s.max)
    case WorkerLoads =>
      if s.count == s.max then s.(running := s.running - 1, sawFull := s.sawFull + 1)
      else s.(running := s.running - 1, sawRoom := s.sawRoom + 1)
    case PipeWritten => s.(sawFull := s.sawFull - 1, pipe := s.pipe + 1)
    case PipeFailed => s.(sawFull := s.sawFull - 1, sawRoom := s.sawRoom + 1)
    case WorkerSubtracts =>
      s.(sawRoom := s.sawRoom - 1, count := s.count - 1,
         owesWake := s.owesWake + if s.count == s.max then 1 else 0)
    case WorkerWakes => s.(owesWake := s.owesWake - 1, wake := s.wake + 1)
  }

  // ---------------------------------------------------------------- the invariant

  function Unread(s: State): nat { if s.ingress.Drain? then s.ingress.unread else 0 }

  /** Every unit of the count is held by a dispatch that has not been returned. */
  predicate Ledger(s: State)
  {
    s.count == s.running + s.sawFull + s.sawRoom + s.pipe + Unread(s)
  }

  /** The count is within its bound, with room where ingress is about to take. */
  predicate Bounded(s: State)
  {
    && s.count <= s.max && s.max > 0
    && (s.armed || s.ingress == FirstTake || s.ingress.NextTake? ==> s.count < s.max)
    && (s.armed ==> s.ingress != FirstTake && !s.ingress.NextTake? && !s.ingress.BatchCheck?)
    && (s.ingress.BatchCheck? ==> 0 < s.ingress.batch <= s.max)
    && (s.ingress.NextTake? ==> 0 < s.ingress.batch < s.max)
  }

  /** Nothing will bring ingress out of its event loop. */
  predicate Asleep(s: State)
  {
    s.ingress == Idle && !s.armed && s.wake == 0 && s.pipe == 0 && s.owesWake == 0
  }

  predicate NoLostWakeup(s: State) { Asleep(s) ==> s.count == s.max }

  predicate Inv(s: State) { Ledger(s) && Bounded(s) && NoLostWakeup(s) }

  /** Steady state begins with a submission on an empty ledger. */
  function Start(max: nat): State { State(max, 0, Submit, false, 0, 0, 0, 0, 0, 0) }

  lemma StepKeepsInv(s: State, step: Step)
    requires Inv(s) && Enabled(s, step)
    ensures Inv(Apply(s, step)) && Apply(s, step).max == s.max
  {
  }

  // ---------------------------------------------------------------- runs

  predicate Allowed(s: State, steps: seq<Step>)
    decreases |steps|
  {
    steps == [] || (Enabled(s, steps[0]) && Allowed(Apply(s, steps[0]), steps[1..]))
  }

  function Run(s: State, steps: seq<Step>): State
    requires Allowed(s, steps)
    decreases |steps|
  {
    if steps == [] then s else Run(Apply(s, steps[0]), steps[1..])
  }

  lemma {:induction false} RunKeepsInv(s: State, steps: seq<Step>)
    requires Inv(s) && Allowed(s, steps)
    ensures Inv(Run(s, steps)) && Run(s, steps).max == s.max
    decreases |steps|
  {
    if steps != [] {
      StepKeepsInv(s, steps[0]);
      RunKeepsInv(Apply(s, steps[0]), steps[1..]);
    }
  }

  /** In every interleaving: neither the count nor one batch exceeds the maximum, and a receive poll is armed, or
      ingress is mid-step, or the count is at its maximum with a dispatch still to be returned,
      or a token or a returned dispatch is unread, or a worker is about to write the wake event. */
  lemma AdmissionNeverStalls(max: nat, steps: seq<Step>)
    requires max > 0 && Allowed(Start(max), steps)
    ensures var s := Run(Start(max), steps);
            && s.count <= max && (s.ingress.BatchCheck? ==> s.ingress.batch <= max)
            && (|| s.armed || s.ingress != Idle
                || (s.count == max && s.running + s.sawFull + s.sawRoom > 0)
                || s.wake > 0 || s.pipe > 0 || s.owesWake > 0)
  {
    assert Inv(Start(max));
    RunKeepsInv(Start(max), steps);
  }

  /** Ingress goes on taking exactly while the batch and the count leave room. A worker sends its dispatch through the
      pipe only when it saw no room, and one read of the wake event takes all its tokens. */
  lemma RoomDecides(s: State)
    requires Inv(s)
    ensures s.ingress.BatchCheck? ==>
              (Apply(s, Check).ingress.NextTake? <==> s.ingress.batch < s.max && s.running + s.sawFull + s.sawRoom + s.pipe < s.max)
    ensures Enabled(s, WorkerLoads) ==>
              (Apply(s, WorkerLoads).sawFull > s.sawFull <==> s.running + s.sawFull + s.sawRoom + s.pipe + Unread(s) == s.max)
    ensures Enabled(s, WakeFires) ==> Apply(s, WakeFires).wake == 0
  {
  }

  // ---------------------------------------------------------------- progress

  /** Steps that need no new request from the kernel. */
  predicate Internal(step: Step) { step != PollFires && step != Took && step != TookNothing }

  /** What internal steps use up. */
  function Rank(s: State): nat
  {
    8 * s.running + 7 * s.sawFull + 5 * s.sawRoom + 4 * s.owesWake + 3 * s.wake + 5 * s.pipe +
    match s.ingress
    case Idle => 0
    case FirstTake => 0
    case NextTake(_) => 0
    case BatchCheck(_) => 2
    case Drain(unread) => 2 * unread + 2
    case Submit => 1
  }

  lemma InternalStepsRunOut(s: State, step: Step)
    requires Inv(s) && Enabled(s, step) && Internal(step)
    ensures Rank(Apply(s, step)) < Rank(s)
  {
  }

  /** Between two takes ingress waits for nothing: some internal step is possible, or it takes, or
      it has a receive armed and everything has been returned. */
  lemma NeverStuck(s: State)
    requires Inv(s)
    ensures || (exists step :: Enabled(s, step) && Internal(step))
            || s.ingress == FirstTake || s.ingress.NextTake?
            || (s.ingress == Idle && s.armed && s.count == 0)
  {
    if s.ingress.BatchCheck? {
      assert Enabled(s, Check) && Internal(Check);
    } else if s.ingress == Submit {
      assert Enabled(s, SubmitReceive) && Internal(SubmitReceive);
    } else if s.ingress.Drain? {
      if s.ingress.unread > 0 {
        assert Enabled(s, Subtract) && Internal(Subtract);
      } else if s.pipe > 0 {
        assert Enabled(s, ReadMore(1)) && Internal(ReadMore(1));
      } else {
        assert Enabled(s, DrainEnds) && Internal(DrainEnds);
      }
    } else if s.ingress == Idle {
      if s.running > 0 { assert Enabled(s, WorkerLoads) && Internal(WorkerLoads); }
      if s.sawFull > 0 { assert Enabled(s, PipeFailed) && Internal(PipeFailed); }
      if s.sawRoom > 0 { assert Enabled(s, WorkerSubtracts) && Internal(WorkerSubtracts); }
      if s.owesWake > 0 { assert Enabled(s, WorkerWakes) && Internal(WorkerWakes); }
      if s.wake > 0 { assert Enabled(s, WakeFires) && Internal(WakeFires); }
      if s.pipe > 0 { assert Enabled(s, ReturnFires(1)) && Internal(ReturnFires(1)); }
    }
  }

  predicate AllInternal(steps: seq<Step>) { forall k | 0 <= k < |steps| :: Internal(steps[k]) }

  lemma {:induction false} InternalRunsAreShort(s: State, steps: seq<Step>)
    requires Inv(s) && Allowed(s, steps) && AllInternal(steps)
    ensures |steps| + Rank(Run(s, steps)) <= Rank(s)
    decreases |steps|
  {
    if steps != [] {
      StepKeepsInv(s, steps[0]);
      InternalStepsRunOut(s, steps[0]);
      InternalRunsAreShort(Apply(s, steps[0]), steps[1..]);
    }
  }

  /** If the kernel sends nothing, every way of scheduling the workers ends, after at most `Rank`
      steps, with all dispatches returned and a receive armed. */
  lemma QuietSystemEndsArmed(s: State, steps: seq<Step>)
    requires Inv(s) && Allowed(s, steps) && AllInternal(steps)
    requires s.ingress == Idle || s.ingress == Submit || s.ingress.Drain?
    ensures |steps| <= Rank(s)
    ensures var t := Run(s, steps);
            (forall step :: Enabled(t, step) ==> !Internal(step)) ==> t.ingress == Idle && t.armed && t.count == 0
  {
    InternalRunsAreShort(s, steps);
    RunKeepsInv(s, steps);
    InternalIngress(s, steps);
    NeverStuck(Run(s, steps));
  }

  lemma {:induction false} InternalIngress(s: State, steps: seq<Step>)
    requires Allowed(s, steps) && AllInternal(steps) && (s.ingress == Idle || s.ingress == Submit || s.ingress.Drain?)
    ensures var t := Run(s, steps); t.ingress == Idle || t.ingress == Submit || t.ingress.Drain?
    decreases |steps|
  {
    if steps != [] { InternalIngress(Apply(s, steps[0]), steps[1..]); }
  }
}
