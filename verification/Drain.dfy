/**
 The service as a whole: deliveries, tasks that run interleaved, the shutdown
 signal, and the order in which the consumer is cancelled, drained and closed.
 */
module Drain {
  import opened Basics

  datatype Config = Config(maxRetries: nat, retryDelay: int, ackRetries: nat)

  /** How one processing attempt ends. */
  datatype End = Fine | Fatal | Retryable

  /**
   A message's task: created by the consumer callback, processing attempt number
   `attempt`, confirming, and finished; its done callback runs after it finished.
   */
  datatype Task =
    | Created
    | Processing(attempt: nat, delay: int, ends: seq<End>)
    | Confirming(ack: bool, tryNo: nat, ends: seq<End>)
    | Finished(ack: bool, confirmed: bool, tries: nat, ends: seq<End>, untracked: bool)

  /** Where `main` is: consuming, cancelling the consumer, waiting for these tasks, or done. */
  datatype Phase = Consuming | Cancelling | Draining(waiting: set<nat>) | Closed

  datatype State = State(
    phase: Phase, signalled: bool, tasks: map<nat, Task>, active: set<nat>, received: nat, failures: nat)

  datatype Step =
    | Deliver(id: nat)
    | Begin(id: nat)
    | Attempt(id: nat, end: End)
    | TryConfirm(id: nat, through: bool)
    | DoneCallback(id: nat)
    | Signal
    | StartCancel
    | CancelDone
    | Gathered

  const DELAY_STEP := 5

  function Start(): State { State(Consuming, false, map[], {}, 0, 0) }

  /** A task that failed for good is counted and nacked. */
  function AfterAttempt(c: Config, t: Task, end: End): Task
    requires t.Processing?
  {
    var ends := t.ends + [end];
    match end
    case Fine => Confirming(true, 1, ends)
    case Fatal => Confirming(false, 1, ends)
    case Retryable =>
      if t.attempt < c.maxRetries then Processing(t.attempt + 1, t.delay + DELAY_STEP, ends) else Confirming(false, 1, ends)
  }

  function AfterTry(c: Config, t: Task, through: bool): Task
    requires t.Confirming?
  {
    if through then Finished(t.ack, true, t.tryNo, t.ends, false)
    else if t.tryNo < c.ackRetries then Confirming(t.ack, t.tryNo + 1, t.ends)
    else Finished(t.ack, false, t.tryNo, t.ends, false)
  }

  predicate Enabled(c: Config, s: State, step: Step) {
    match step
    // the broker delivers until the cancel completes
    case Deliver(id) => (s.phase.Consuming? || s.phase.Cancelling?) && id !in s.tasks
    case Begin(id) => !s.phase.Closed? && id in s.tasks && s.tasks[id].Created?
    case Attempt(id, _) => !s.phase.Closed? && id in s.tasks && s.tasks[id].Processing?
    case TryConfirm(id, _) => !s.phase.Closed? && id in s.tasks && s.tasks[id].Confirming?
    case DoneCallback(id) => id in s.tasks && s.tasks[id].Finished? && !s.tasks[id].untracked
    case Signal => true
    case StartCancel => s.phase.Consuming? && s.signalled
    case CancelDone => s.phase.Cancelling?
    // a task's callbacks run in the order they were added, so its done callback ran before the gather noticed it
    case Gathered => s.phase.Draining? && forall id :: id in s.phase.waiting ==> id in s.tasks && s.tasks[id].Finished? && s.tasks[id].untracked
  }

  function Take(c: Config, s: State, step: Step): State
    requires Enabled(c, s, step)
  {
    match step
    case Deliver(id) => s.(tasks := s.tasks[id := Created], active := s.active + {id})
    case Begin(id) => s.(tasks := s.tasks[id := Processing(1, c.retryDelay, [])], received := s.received + 1)
    case Attempt(id, end) =>
      var t := AfterAttempt(c, s.tasks[id], end);
      s.(tasks := s.tasks[id := t], failures := if t.Confirming? && !t.ack then s.failures + 1 else s.failures)
    case TryConfirm(id, through) => s.(tasks := s.tasks[id := AfterTry(c, s.tasks[id], through)])
    case DoneCallback(id) => s.(tasks := s.tasks[id := s.tasks[id].(untracked := true)], active := s.active - {id})
    case Signal => s.(signalled := true)
    case StartCancel => s.(phase := Cancelling)
    case CancelDone => s.(phase := if s.active == {} then Closed else Draining(s.active))
    case Gathered => s.(phase := Closed)
  }

  /** Any interleaving: a step that is not possible where it is asked for does nothing. */
  function Exec(c: Config, steps: seq<Step>): State {
    if steps == [] then Start()
    else
      var s := Exec(c, steps[..|steps| - 1]);
      var step := steps[|steps| - 1];
      if Enabled(c, s, step) then Take(c, s, step) else s
  }

  // -- one task ------------------------------------------------------------------------------------------

  ghost predicate AllRetryable(ends: seq<End>) { forall i :: 0 <= i < |ends| ==> ends[i].Retryable? }

  /** The ends of a resolved task: all but the last retried, and the last one decides. */
  ghost predicate Decides(c: Config, ack: bool, ends: seq<End>) {
    && 1 <= |ends| <= c.maxRetries
    && AllRetryable(ends[..|ends| - 1])
    && (ack <==> ends[|ends| - 1].Fine?)
    && (ends[|ends| - 1].Retryable? ==> |ends| == c.maxRetries)
  }

  ghost predicate TaskOk(c: Config, t: Task) {
    match t
    case Created => true
    case Processing(attempt, delay, ends) =>
      && 1 <= attempt <= c.maxRetries && |ends| == attempt - 1 && AllRetryable(ends)
      && delay == c.retryDelay + 5 * (attempt - 1)
    case Confirming(ack, tryNo, ends) => 1 <= tryNo <= c.ackRetries && Decides(c, ack, ends)
    case Finished(ack, confirmed, tries, ends, _) =>
      1 <= tries <= c.ackRetries && (!confirmed ==> tries == c.ackRetries) && Decides(c, ack, ends)
  }

  lemma AttemptOk(c: Config, t: Task, end: End)
    requires TaskOk(c, t) && t.Processing? && c.ackRetries >= 1
    ensures TaskOk(c, AfterAttempt(c, t, end))
  {
    var ends := t.ends + [end];
    assert ends[..|ends| - 1] == t.ends;
  }

  /** An acked task is one whose processing returned normally once; a nacked one failed for good or used every attempt. */
  lemma OutcomeExactly(c: Config, ack: bool, ends: seq<End>)
    requires Decides(c, ack, ends)
    ensures ack <==> Fine in ends
    ensures !ack <==> Fatal in ends || (|ends| == c.maxRetries && AllRetryable(ends))
  {
    var last := |ends| - 1;
    assert ends == ends[..last] + [ends[last]];
    assert forall e :: e in ends ==> e in ends[..last] || e == ends[last];
    assert forall e :: e in ends[..last] ==> e.Retryable?;
    assert ends[last] in ends;
  }

  // -- counting -------------------------------------------------------------------------------------------

  predicate InFlight(t: Task) { t.Processing? }
  predicate Succeeded(t: Task) { (t.Confirming? || t.Finished?) && t.ack }
  predicate FailedTask(t: Task) { (t.Confirming? || t.Finished?) && !t.ack }

  function Where(s: State, p: Task -> bool): set<nat> { set id | id in s.tasks && p(s.tasks[id]) }
  function Begun(): Task -> bool { (t: Task) => !t.Created? }
  function Flying(): Task -> bool { (t: Task) => InFlight(t) }
  function Won(): Task -> bool { (t: Task) => Succeeded(t) }
  function Lost(): Task -> bool { (t: Task) => FailedTask(t) }
  function Running(): Task -> bool { (t: Task) => !(t.Finished? && t.untracked) }

  /** Changing one task moves at most that task in or out of a class. */
  lemma MoveOne(s: State, s': State, id: nat, p: Task -> bool)
    requires id in s'.tasks && s'.tasks == s.tasks[id := s'.tasks[id]]
    ensures Where(s', p) == if p(s'.tasks[id]) then Where(s, p) + {id} else Where(s, p) - {id}
  {
  }

  // -- the invariant -----------------------------------------------------------------------------------------

  ghost predicate Inv(c: Config, s: State) {
    && (forall id :: id in s.tasks ==> TaskOk(c, s.tasks[id]))
    && s.active == Where(s, Running())
    && s.received == |Where(s, Begun())|
    && s.failures == |Where(s, Lost())|
    && (s.phase.Draining? ==> s.active <= s.phase.waiting)
    && (s.phase.Closed? ==> s.active == {})
    && (!s.phase.Consuming? ==> s.signalled)
  }

  ghost predicate Reasonable(c: Config) { c.maxRetries >= 1 && c.ackRetries >= 1 }

  lemma CountMoves(s: State, s': State, id: nat, p: Task -> bool)
    requires id in s'.tasks && s'.tasks == s.tasks[id := s'.tasks[id]]
    requires id in s.tasks ==> (p(s.tasks[id]) ==> p(s'.tasks[id]))
    ensures |Where(s', p)| == |Where(s, p)| + if p(s'.tasks[id]) && !(id in s.tasks && p(s.tasks[id])) then 1 else 0
  {
    MoveOne(s, s', id, p);
    if p(s'.tasks[id]) && id in s.tasks && p(s.tasks[id]) {
      assert Where(s, p) + {id} == Where(s, p);
    } else if !p(s'.tasks[id]) {
      assert Where(s, p) - {id} == Where(s, p);
    }
  }

  /** One task moved on, and the counts with it. */
  ghost predicate OneMoved(c: Config, s: State, s': State, id: nat) {
    && id in s'.tasks && s'.tasks == s.tasks[id := s'.tasks[id]] && TaskOk(c, s'.tasks[id])
    && s'.phase == s.phase && s'.signalled == s.signalled
    && s'.active == (if Running()(s'.tasks[id]) then s.active + {id} else s.active - {id})
    && Counted(s, s', id, Begun(), s.received, s'.received) && Counted(s, s', id, Lost(), s.failures, s'.failures)
    && (s.phase.Draining? ==> s'.active <= s.phase.waiting) && (s.phase.Closed? ==> s'.active == {})
  }

  /** The task is counted when it enters the class, and never leaves it. */
  ghost predicate Counted(s: State, s': State, id: nat, p: Task -> bool, before: nat, after: nat)
    requires id in s'.tasks
  {
    && (id in s.tasks && p(s.tasks[id]) ==> p(s'.tasks[id]))
    && after == before + if p(s'.tasks[id]) && !(id in s.tasks && p(s.tasks[id])) then 1 else 0
  }

  lemma MovedKeeps(c: Config, s: State, s': State, id: nat)
    requires Inv(c, s) && OneMoved(c, s, s', id)
    ensures Inv(c, s')
  {
    hide Where, TaskOk, Running, Begun, Lost;
    MoveOne(s, s', id, Running());
    CountMoves(s, s', id, Begun());
    CountMoves(s, s', id, Lost());
  }

  lemma DeliverKeeps(c: Config, s: State, id: nat)
    requires Inv(c, s) && Enabled(c, s, Deliver(id))
    ensures Inv(c, Take(c, s, Deliver(id)))
  {
    hide Inv, Where;
    MovedKeeps(c, s, Take(c, s, Deliver(id)), id);
  }

  lemma BeginKeeps(c: Config, s: State, id: nat)
    requires Inv(c, s) && Reasonable(c) && Enabled(c, s, Begin(id))
    ensures Inv(c, Take(c, s, Begin(id)))
  {
    IsTracked(c, s, id);
    hide Inv, Where;
    MovedKeeps(c, s, Take(c, s, Begin(id)), id);
  }

  lemma TaskIsOk(c: Config, s: State, id: nat)
    requires Inv(c, s) && id in s.tasks
    ensures TaskOk(c, s.tasks[id])
  {
    hide TaskOk, Where;
  }

  lemma AttemptKeeps(c: Config, s: State, id: nat, end: End)
    requires Inv(c, s) && Reasonable(c) && Enabled(c, s, Attempt(id, end))
    ensures Inv(c, Take(c, s, Attempt(id, end)))
  {
    hide Inv, Where, TaskOk, AfterAttempt, Decides;
    IsTracked(c, s, id);
    TaskIsOk(c, s, id);
    AttemptOk(c, s.tasks[id], end);
    GoesOn(c, s.tasks[id], end);
    MovedKeeps(c, s, Take(c, s, Attempt(id, end)), id);
  }

  lemma GoesOn(c: Config, t: Task, end: End)
    requires t.Processing?
    ensures AfterAttempt(c, t, end).Processing? || AfterAttempt(c, t, end).Confirming?
  {
  }

  lemma TryKeeps(c: Config, s: State, id: nat, through: bool)
    requires Inv(c, s) && Reasonable(c) && Enabled(c, s, TryConfirm(id, through))
    ensures Inv(c, Take(c, s, TryConfirm(id, through)))
  {
    IsTracked(c, s, id);
    hide Inv, Where, Decides;
    MovedKeeps(c, s, Take(c, s, TryConfirm(id, through)), id);
  }

  lemma CallbackKeeps(c: Config, s: State, id: nat)
    requires Inv(c, s) && Enabled(c, s, DoneCallback(id))
    ensures Inv(c, Take(c, s, DoneCallback(id)))
  {
    IsTracked(c, s, id);
    hide Inv, Where, Decides;
    MovedKeeps(c, s, Take(c, s, DoneCallback(id)), id);
  }

  /** A task that is not finished with its callback run is tracked, and in order. */
  lemma IsTracked(c: Config, s: State, id: nat)
    requires Inv(c, s) && id in s.tasks
    ensures TaskOk(c, s.tasks[id]) && (Running()(s.tasks[id]) ==> id in s.active)
    ensures (s.phase.Draining? ==> s.active <= s.phase.waiting) && (s.phase.Closed? ==> s.active == {})
  {
    hide TaskOk;
  }

  lemma SameTasks(s: State, s': State, p: Task -> bool)
    requires s'.tasks == s.tasks
    ensures Where(s', p) == Where(s, p)
  {
  }

  lemma PhaseKeeps(c: Config, s: State, step: Step)
    requires Inv(c, s) && Enabled(c, s, step) && (step.Signal? || step.StartCancel? || step.CancelDone? || step.Gathered?)
    ensures Inv(c, Take(c, s, step))
  {
    var s' := Take(c, s, step);
    SameTasks(s, s', Running());
    SameTasks(s, s', Begun());
    SameTasks(s, s', Lost());
    if step.Gathered? { NoneTracked(c, s); }
    hide Where, TaskOk;
  }

  /** When all tasks waited for are finished and untracked, nothing is tracked. */
  lemma NoneTracked(c: Config, s: State)
    requires Inv(c, s) && Enabled(c, s, Gathered)
    ensures s.active == {}
  {
    hide TaskOk;
  }

  lemma StepKeeps(c: Config, s: State, step: Step)
    requires Inv(c, s) && Reasonable(c) && Enabled(c, s, step)
    ensures Inv(c, Take(c, s, step))
  {
    hide Inv, Enabled, Take;
    match step
    case Deliver(id) => DeliverKeeps(c, s, id);
    case Begin(id) => BeginKeeps(c, s, id);
    case Attempt(id, end) => AttemptKeeps(c, s, id, end);
    case TryConfirm(id, through) => TryKeeps(c, s, id, through);
    case DoneCallback(id) => CallbackKeeps(c, s, id);
    case _ => PhaseKeeps(c, s, step);
  }

  lemma {:induction false} AlwaysInv(c: Config, steps: seq<Step>)
    requires Reasonable(c)
    ensures Inv(c, Exec(c, steps))
  {
    if steps != [] {
      AlwaysInv(c, steps[..|steps| - 1]);
      var s := Exec(c, steps[..|steps| - 1]);
      var step := steps[|steps| - 1];
      if Enabled(c, s, step) { StepKeeps(c, s, step); }
    } else {
      assert forall p :: Where(Start(), p) == {};
    }
  }

  // -- every interleaving --------------------------------------------------------------------------------------

  /** The tracked tasks are exactly those started and not yet finished with their callback run. */
  lemma TrackedExactly(c: Config, steps: seq<Step>, id: nat)
    requires Reasonable(c)
    ensures
      var s := Exec(c, steps);
      id in s.active <==> id in s.tasks && !(s.tasks[id].Finished? && s.tasks[id].untracked)
  {
    AlwaysInv(c, steps);
  }

  lemma ActiveExactly(c: Config, s: State)
    requires Inv(c, s)
    ensures s.active == Where(s, Running())
  {
  }

  lemma SplitCount(a: set<nat>, b: set<nat>, c: set<nat>, all: set<nat>)
    requires a !! b && a !! c && b !! c && all == a + b + c
    ensures |all| == |a| + |b| + |c|
  {
    assert |a + b| == |a| + |b|;
    assert |a + b + c| == |a + b| + |c|;
  }

  /** No message is lost from the counts: received = in flight + succeeded + failed, at every moment. */
  lemma Conservation(c: Config, steps: seq<Step>)
    requires Reasonable(c)
    ensures
      var s := Exec(c, steps);
      s.received == |Where(s, Flying())| + |Where(s, Won())| + s.failures
  {
    AlwaysInv(c, steps);
    hide Exec;
    BegunSplit(Exec(c, steps));
  }

  /** A begun task is processing, succeeded or failed, and only one of these. */
  lemma BegunParts(s: State)
    ensures Where(s, Flying()) !! Where(s, Won()) && Where(s, Flying()) !! Where(s, Lost()) && Where(s, Won()) !! Where(s, Lost())
    ensures forall id :: id in Where(s, Begun()) <==> id in Where(s, Flying()) || id in Where(s, Won()) || id in Where(s, Lost())
  {
  }

  lemma BegunSplit(s: State)
    ensures |Where(s, Begun())| == |Where(s, Flying())| + |Where(s, Won())| + |Where(s, Lost())|
  {
    BegunParts(s);
    hide Where;
    var begun, flying, won, lost := Where(s, Begun()), Where(s, Flying()), Where(s, Won()), Where(s, Lost());
    assert begun == flying + won + lost;
    SplitCount(flying, won, lost, begun);
  }

  /** A resolved message: acked or nacked as its attempts decided, and confirmed unless every try failed. */
  ghost predicate Resolved(c: Config, t: Task) {
    t.Finished? && t.untracked && Decides(c, t.ack, t.ends) && (t.confirmed || t.tries == c.ackRetries)
  }

  /** When the connection closes nothing is tracked and every delivered message is resolved. */
  lemma GracefulDrain(c: Config, steps: seq<Step>)
    requires Reasonable(c) && Exec(c, steps).phase.Closed?
    ensures
      var s := Exec(c, steps);
      s.active == {} && s.signalled && forall id :: id in s.tasks ==> Resolved(c, s.tasks[id])
  {
    AlwaysInv(c, steps);
    var s := Exec(c, steps);
    forall id | id in s.tasks ensures Resolved(c, s.tasks[id]) {
      assert id !in Where(s, Running());
    }
  }

  // -- draining ends -----------------------------------------------------------------------------------------------

  /** The step is one of this task's own. */
  predicate Of(step: Step, id: nat) {
    (step.Begin? || step.Attempt? || step.TryConfirm? || step.DoneCallback?) && step.id == id
  }

  /** The steps this task has taken. */
  function Taken(c: Config, steps: seq<Step>, id: nat): nat {
    if steps == [] then 0
    else
      var before := steps[..|steps| - 1];
      var step := steps[|steps| - 1];
      Taken(c, before, id) + if Of(step, id) && Enabled(c, Exec(c, before), step) then 1 else 0
  }

  /** Steps a task can still take. */
  function Left(c: Config, t: Task): int {
    match t
    case Created => c.maxRetries + c.ackRetries + 2
    case Processing(attempt, _, _) => c.maxRetries - attempt + c.ackRetries + 2
    case Confirming(_, tryNo, _) => c.ackRetries - tryNo + 2
    case Finished(_, _, _, _, untracked) => if untracked then 0 else 1
  }

  lemma StepUses(c: Config, s: State, step: Step, id: nat)
    requires Inv(c, s) && Reasonable(c) && Enabled(c, s, step) && id in s.tasks
    ensures
      var s' := Take(c, s, step);
      id in s'.tasks && Left(c, s'.tasks[id]) + (if Of(step, id) then 1 else 0) <= Left(c, s.tasks[id])
  {
  }

  /** Every task takes a bounded number of steps, in every interleaving. */
  lemma {:induction false} TaskBudget(c: Config, steps: seq<Step>, id: nat)
    requires Reasonable(c)
    ensures
      var s := Exec(c, steps);
      if id in s.tasks then Taken(c, steps, id) + Left(c, s.tasks[id]) <= c.maxRetries + c.ackRetries + 2 && Left(c, s.tasks[id]) >= 0
      else Taken(c, steps, id) == 0
  {
    if steps != [] {
      var before := steps[..|steps| - 1];
      var step := steps[|steps| - 1];
      var s := Exec(c, before);
      TaskBudget(c, before, id);
      AlwaysInv(c, before);
      AlwaysInv(c, steps);
      if Enabled(c, s, step) && id in s.tasks { StepUses(c, s, step, id); }
    }
  }

  /** The next step of a task that is not done with. */
  function NextOf(t: Task, id: nat): Step {
    match t
    case Created => Begin(id)
    case Processing(_, _, _) => Attempt(id, Fine)
    case Confirming(_, _, _) => TryConfirm(id, true)
    case Finished(_, _, _, _, _) => DoneCallback(id)
  }

  /** Shutdown never gets stuck: once signalled, the next phase can be entered, or some tracked task can take a step. */
  lemma DrainProgress(c: Config, steps: seq<Step>)
    requires Reasonable(c) && Exec(c, steps).signalled && !Exec(c, steps).phase.Closed?
    ensures
      var s := Exec(c, steps);
      || Enabled(c, s, StartCancel) || Enabled(c, s, CancelDone) || Enabled(c, s, Gathered)
      || exists id :: id in s.active && id in s.tasks && Enabled(c, s, NextOf(s.tasks[id], id))
  {
    AlwaysInv(c, steps);
    var s := Exec(c, steps);
    if s.phase.Draining? && !Enabled(c, s, Gathered) {
      var id :| id in s.phase.waiting && !(id in s.tasks && s.tasks[id].Finished? && s.tasks[id].untracked);
      WaitingKnown(c, steps);
      assert id in Where(s, Running());
      assert Enabled(c, s, NextOf(s.tasks[id], id));
    }
  }

  /** The drain waits only for tasks that exist. */
  lemma {:induction false} WaitingKnown(c: Config, steps: seq<Step>)
    requires Reasonable(c)
    ensures
      var s := Exec(c, steps);
      s.phase.Draining? ==> forall id :: id in s.phase.waiting ==> id in s.tasks
  {
    if steps != [] {
      var before := steps[..|steps| - 1];
      var s, step := Exec(c, before), steps[|steps| - 1];
      WaitingKnown(c, before);
      AlwaysInv(c, before);
      ActiveKnown(c, s);
      hide Inv, Enabled, Take;
      if Enabled(c, s, step) {
        TasksStay(c, s, step);
        var s' := Take(c, s, step);
        assert Exec(c, steps) == s';
        assert s'.phase.Draining? ==> s'.phase == s.phase || s'.phase.waiting == s.active;
        assert forall id :: id in s.active ==> id in s.tasks;
      }
    }
  }

  lemma ActiveKnown(c: Config, s: State)
    requires Inv(c, s)
    ensures s.active <= s.tasks.Keys
  {
  }

  /** No step forgets a task, and the set waited for is fixed when the cancel completes. */
  lemma TasksStay(c: Config, s: State, step: Step)
    requires Enabled(c, s, step)
    ensures
      var s' := Take(c, s, step);
      && (forall id :: id in s.tasks ==> id in s'.tasks)
      && (s'.phase.Draining? ==> s'.phase == s.phase || s'.phase.waiting == s.active)
  {
  }
}
