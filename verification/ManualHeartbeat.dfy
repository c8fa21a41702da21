/**
 The manual heartbeat stream of apps/hexis_api.py: a heartbeat task puts events on a queue while
 the generator drains it, then the heartbeat is finalized or released. Control changes hands at
 every await and yield, so the model is a state machine over the steps of both sides.
 */
module ManualHeartbeat {
  import opened Prelude
  import opened AgentEvents

  datatype Frame =
    | HeartbeatStart
    | Forwarded(event: Event)
    | HeartbeatDone
    | Failure(message: string)

  datatype Task = Running | Returned | TaskRaised(message: string)

  /** Where the generator stands after it has started a heartbeat. */
  datatype Generator =
    | SettingUp
    | LoopHead
    | Waiting
    | Finalizing
    | Releasing(message: string)
    | Ended
    | Escaped

  /** A finalizing call that raises may have committed already. */
  datatype Finalize = Committed | RaisedBeforeCommit(early: string) | RaisedAfterCommit(late: string)

  datatype Step =
    | SetUp(ok: bool)
    | Put(event: Event)
    | Complete(end: Task)
    | Check
    | Get
    | Timeout
    | CallFinalize(outcome: Finalize)
    | CallRelease(ok: bool)

  /**
   * `puts` is every event the task has put so far and `outcome` the answer to the finalizing call;
   * `finalized` and `released` are what the database holds.
   */
  datatype State = State(
    generator: Generator,
    task: Task,
    queue: seq<Event>,
    puts: seq<Event>,
    frames: seq<Frame>,
    outcome: Option<Finalize>,
    finalized: bool,
    released: bool)

  const INIT := State(SettingUp, Running, [], [], [HeartbeatStart], None, false, false)

  /** The registry and the context are built before the task exists and outside the `try`. */
  predicate Enabled(s: State, step: Step) {
    match step
    case SetUp(_) => s.generator.SettingUp?
    case Put(_) => !s.generator.SettingUp? && !s.generator.Escaped? && s.task.Running?
    case Complete(end) => !s.generator.SettingUp? && !s.generator.Escaped? && s.task.Running? && !end.Running?
    case Check => s.generator.LoopHead?
    case Get => s.generator.Waiting? && s.queue != []
    case Timeout => s.generator.Waiting?
    case CallFinalize(_) => s.generator.Finalizing?
    case CallRelease(_) => s.generator.Releasing?
  }

  function Apply(s: State, step: Step): State
    requires Enabled(s, step)
  {
    match step
    case SetUp(ok) => s.(generator := if ok then LoopHead else Escaped)
    case Put(e) => s.(queue := s.queue + [e], puts := s.puts + [e])
    case Complete(end) => s.(task := end)
    case Check =>
      if s.task.Running? || s.queue != [] then s.(generator := Waiting)
      else if s.task.TaskRaised? then s.(generator := Releasing(s.task.message))
      else s.(generator := Finalizing)
    case Get =>
      s.(generator := LoopHead, queue := s.queue[1..], frames := s.frames + [Forwarded(s.queue[0])])
    case Timeout => s.(generator := LoopHead)
    case CallFinalize(outcome) =>
      var t := s.(outcome := Some(outcome), finalized := !outcome.RaisedBeforeCommit?);
      (match outcome
       case Committed => t.(generator := Ended, frames := s.frames + [HeartbeatDone])
       case RaisedBeforeCommit(m) => t.(generator := Releasing(m))
       case RaisedAfterCommit(m) => t.(generator := Releasing(m)))
    case CallRelease(ok) =>
      if ok then s.(generator := Ended, released := true, frames := s.frames + [Failure(s.generator.message)])
      else s.(generator := Escaped)
  }

  ghost predicate ValidRun(steps: seq<Step>)
    decreases |steps|, 0
  {
    steps == [] || (
      var n := |steps| - 1;
      ValidRun(steps[..n]) && Enabled(After(steps[..n]), steps[n]))
  }

  ghost function After(steps: seq<Step>): State
    requires ValidRun(steps)
    decreases |steps|, 1
  {
    if steps == [] then INIT else
    var n := |steps| - 1;
    Apply(After(steps[..n]), steps[n])
  }

  // ---------- The invariant ----------

  function Forwards(events: seq<Event>): seq<Frame> {
    seq(|events|, i requires 0 <= i < |events| => Forwarded(events[i]))
  }

  /** The events taken off the queue so far. */
  function Taken(s: State): seq<Event>
    requires |s.queue| <= |s.puts|
  {
    s.puts[..|s.puts| - |s.queue|]
  }

  /** Why the heartbeat has to be released, if it has. */
  function Raised(s: State): Option<string> {
    if s.task.TaskRaised? then Some(s.task.message)
    else match s.outcome
      case Some(RaisedBeforeCommit(m)) => Some(m)
      case Some(RaisedAfterCommit(m)) => Some(m)
      case _ => None
  }

  function Closing(s: State): Frame {
    if Raised(s).Some? then Failure(Raised(s).value) else HeartbeatDone
  }

  ghost predicate QueueInv(s: State) {
    && |s.queue| <= |s.puts|
    && s.puts[|s.puts| - |s.queue|..] == s.queue
    && s.frames == [HeartbeatStart] + Forwards(Taken(s)) + if s.generator.Ended? then [Closing(s)] else []
  }

  ghost predicate ControlInv(s: State) {
    && (s.finalized <==> s.outcome.Some? && !s.outcome.value.RaisedBeforeCommit?)
    && (s.outcome.Some? ==> s.task.Returned?)
    && match s.generator
       case SettingUp => s.task.Running? && s.queue == s.puts == [] && s.outcome.None? && !s.released
       case LoopHead => s.outcome.None? && !s.released
       case Waiting => s.outcome.None? && !s.released
       case Finalizing => s.task.Returned? && s.queue == [] && s.outcome.None? && !s.released
       case Releasing(m) => !s.task.Running? && s.queue == [] && Raised(s) == Some(m) && !s.released
       case Ended =>
         && !s.task.Running? && s.queue == []
         && (s.released <==> Raised(s).Some?)
         && (s.task.Returned? ==> s.outcome.Some?)
       case Escaped =>
         && !s.released && s.queue == []
         && (if s.task.Running? then s.puts == [] && s.outcome.None? else Raised(s).Some?)
  }

  lemma TakeOne(s: State)
    requires QueueInv(s) && s.queue != []
    ensures var taken := |s.puts| - |s.queue|;
      && s.puts[taken + 1..] == s.queue[1..]
      && s.puts[..taken + 1] == Taken(s) + [s.queue[0]]
      && Forwards(s.puts[..taken + 1]) == Forwards(Taken(s)) + [Forwarded(s.queue[0])]
  {
    var taken := |s.puts| - |s.queue|;
    assert s.puts[taken] == s.puts[taken..][0] == s.queue[0];
  }

  lemma PutKeepsQueue(s: State, e: Event)
    requires Enabled(s, Put(e)) && QueueInv(s) && !s.generator.Ended?
    ensures QueueInv(Apply(s, Put(e)))
  {
    var t, taken := Apply(s, Put(e)), |s.puts| - |s.queue|;
    assert t.puts[taken..] == t.queue && Taken(t) == Taken(s);
  }

  lemma GetKeepsQueue(s: State)
    requires Enabled(s, Get) && QueueInv(s)
    ensures QueueInv(Apply(s, Get))
  {
    TakeOne(s);
    assert Taken(Apply(s, Get)) == s.puts[..|s.puts| - |s.queue| + 1];
  }

  /** A step that leaves the queue alone adds nothing to the frames but the closing one. */
  lemma CloseKeepsQueue(s: State, t: State)
    requires QueueInv(s) && !s.generator.Ended? && t.queue == s.queue && t.puts == s.puts
    requires t.frames == s.frames + if t.generator.Ended? then [Closing(t)] else []
    ensures QueueInv(t)
  {
  }

  lemma QueueStep(s: State, step: Step)
    requires Enabled(s, step) && QueueInv(s) && ControlInv(s)
    ensures QueueInv(Apply(s, step))
  {
    match step
    case Put(e) => PutKeepsQueue(s, e);
    case Get => GetKeepsQueue(s);
    case CallFinalize(_) => CloseKeepsQueue(s, Apply(s, step));
    case CallRelease(_) => CloseKeepsQueue(s, Apply(s, step));
    case _ => CloseKeepsQueue(s, Apply(s, step));
  }

  lemma ControlStep(s: State, step: Step)
    requires Enabled(s, step) && ControlInv(s)
    ensures ControlInv(Apply(s, step))
  {
  }

  lemma InvStep(s: State, step: Step)
    requires Enabled(s, step) && QueueInv(s) && ControlInv(s)
    ensures QueueInv(Apply(s, step)) && ControlInv(Apply(s, step))
  {
    QueueStep(s, step);
    ControlStep(s, step);
  }

  lemma {:induction false} RunInvariant(steps: seq<Step>)
    requires ValidRun(steps)
    ensures QueueInv(After(steps)) && ControlInv(After(steps))
    decreases |steps|
  {
    if steps != [] {
      var n := |steps| - 1;
      RunInvariant(steps[..n]);
      InvStep(After(steps[..n]), steps[n]);
    }
  }

  // ---------- What the steps say, without the state machine ----------

  /** The events the heartbeat task puts, in order. */
  function PutsOf(steps: seq<Step>): seq<Event> {
    if steps == [] then [] else
    var last := steps[|steps| - 1];
    PutsOf(steps[..|steps| - 1]) + if last.Put? then [last.event] else []
  }

  /** How the task has ended, if it has. */
  function TaskOf(steps: seq<Step>): Task {
    if steps == [] then Running else
    var last := steps[|steps| - 1];
    if last.Complete? then last.end else TaskOf(steps[..|steps| - 1])
  }

  /** What the finalizing call answered, if it was made. */
  function OutcomeOf(steps: seq<Step>): Option<Finalize> {
    if steps == [] then None else
    var last := steps[|steps| - 1];
    if last.CallFinalize? then Some(last.outcome) else OutcomeOf(steps[..|steps| - 1])
  }

  /** A releasing call has worked. */
  predicate ReleasedIn(steps: seq<Step>) {
    exists i :: 0 <= i < |steps| && steps[i] == CallRelease(true)
  }

  /** A finalizing call has committed, whether it returned or not. */
  predicate FinalizedIn(steps: seq<Step>) {
    exists i :: 0 <= i < |steps| && steps[i].CallFinalize? && !steps[i].outcome.RaisedBeforeCommit?
  }

  lemma StepHistory(s: State, step: Step)
    requires Enabled(s, step)
    ensures var t := Apply(s, step);
      && t.puts == s.puts + (if step.Put? then [step.event] else [])
      && t.task == (if step.Complete? then step.end else s.task)
      && t.outcome == (if step.CallFinalize? then Some(step.outcome) else s.outcome)
  {
    assert s.puts + [] == s.puts;
  }

  /** The state's history is that of the steps. */
  lemma {:induction false} HistoryIsSteps(steps: seq<Step>)
    requires ValidRun(steps)
    ensures After(steps).puts == PutsOf(steps)
    ensures After(steps).task == TaskOf(steps)
    ensures After(steps).outcome == OutcomeOf(steps)
    decreases |steps|
  {
    if steps != [] {
      var n := |steps| - 1;
      HistoryIsSteps(steps[..n]);
      StepHistory(After(steps[..n]), steps[n]);
    }
  }

  lemma ReleasedStep(steps: seq<Step>, step: Step)
    ensures ReleasedIn(steps + [step]) <==> ReleasedIn(steps) || step == CallRelease(true)
    ensures FinalizedIn(steps + [step])
      <==> FinalizedIn(steps) || (step.CallFinalize? && !step.outcome.RaisedBeforeCommit?)
  {
    var all := steps + [step];
    assert all[|steps|] == step;
    assert forall i | 0 <= i < |steps| :: all[i] == steps[i];
  }

  lemma StepDatabase(s: State, step: Step)
    requires Enabled(s, step) && ControlInv(s)
    ensures var t := Apply(s, step);
      && (t.released <==> s.released || step == CallRelease(true))
      && (t.finalized <==> s.finalized || (step.CallFinalize? && !step.outcome.RaisedBeforeCommit?))
  {
  }

  /** The database holds what the calls did. */
  lemma {:induction false} DatabaseIsSteps(steps: seq<Step>)
    requires ValidRun(steps)
    ensures After(steps).released <==> ReleasedIn(steps)
    ensures After(steps).finalized <==> FinalizedIn(steps)
    decreases |steps|
  {
    if steps != [] {
      var before, step := steps[..|steps| - 1], steps[|steps| - 1];
      assert steps == before + [step];
      DatabaseIsSteps(before);
      RunInvariant(before);
      StepDatabase(After(before), step);
      ReleasedStep(before, step);
    }
  }

  // ---------- What holds in every interleaving ----------

  lemma QueueSplits(s: State)
    requires QueueInv(s)
    ensures s.puts == Taken(s) + s.queue
    ensures var sent := [HeartbeatStart] + Forwards(Taken(s)); sent <= s.frames <= sent + [Closing(s)]
  {
    var sent := [HeartbeatStart] + Forwards(Taken(s));
    assert sent + [] == sent;
  }

  /** At any moment the events forwarded are those the task has put, in order, less the ones still queued. */
  lemma ForwardedInOrder(steps: seq<Step>)
    requires ValidRun(steps)
    ensures var s := After(steps);
      exists forwarded :: PutsOf(steps) == forwarded + s.queue
        && [HeartbeatStart] + Forwards(forwarded) <= s.frames <= [HeartbeatStart] + Forwards(forwarded) + [Closing(s)]
  {
    RunInvariant(steps);
    HistoryIsSteps(steps);
    QueueSplits(After(steps));
  }

  /** Why the steps make the heartbeat be released, if they do. */
  function RaisedIn(steps: seq<Step>): Option<string> {
    match TaskOf(steps)
    case TaskRaised(m) => Some(m)
    case _ =>
      match OutcomeOf(steps)
      case Some(RaisedBeforeCommit(m)) => Some(m)
      case Some(RaisedAfterCommit(m)) => Some(m)
      case _ => None
  }

  /**
   * An ended stream has forwarded every event that the finished task put, exactly once and in order,
   * before its one closing frame: `heartbeat_done`, or the message of what raised.
   */
  lemma DrainedBeforeClosing(steps: seq<Step>)
    requires ValidRun(steps) && After(steps).generator.Ended?
    ensures !TaskOf(steps).Running?
    ensures After(steps).frames == [HeartbeatStart] + Forwards(PutsOf(steps))
      + [if RaisedIn(steps).Some? then Failure(RaisedIn(steps).value) else HeartbeatDone]
    ensures RaisedIn(steps).None? <==> FinalizedIn(steps) && !ReleasedIn(steps)
  {
    RunInvariant(steps);
    HistoryIsSteps(steps);
    DatabaseIsSteps(steps);
    assert Taken(After(steps)) == After(steps).puts;
  }

  /** Whether the heartbeat is released is decided by the task and the finalizing call. */
  lemma ReleasedWhenRaised(steps: seq<Step>)
    requires ValidRun(steps) && After(steps).generator.Ended?
    ensures TaskOf(steps).TaskRaised? ==> ReleasedIn(steps) && !FinalizedIn(steps)
    ensures TaskOf(steps).Returned? ==>
      && OutcomeOf(steps).Some?
      && (ReleasedIn(steps) <==> !OutcomeOf(steps).value.Committed?)
      && (FinalizedIn(steps) <==> !OutcomeOf(steps).value.RaisedBeforeCommit?)
  {
    RunInvariant(steps);
    HistoryIsSteps(steps);
    DatabaseIsSteps(steps);
  }

  /** The stream has come to an end when neither side can move. */
  predicate Stopped(s: State) {
    s.generator.Ended? || s.generator.Escaped?
  }

  lemma StoppedRunsStay(steps: seq<Step>, step: Step)
    requires ValidRun(steps) && Stopped(After(steps))
    ensures !Enabled(After(steps), step)
  {
    RunInvariant(steps);
  }

  lemma RunningRunsMove(steps: seq<Step>)
    requires ValidRun(steps) && !Stopped(After(steps))
    ensures exists step :: Enabled(After(steps), step) && !step.Put? && !step.Complete?
  {
    RunInvariant(steps);
    var s := After(steps);
    assert Enabled(s, SetUp(true)) || Enabled(s, Check) || Enabled(s, Timeout)
        || Enabled(s, CallFinalize(Committed)) || Enabled(s, CallRelease(true));
  }

  /** The task raised, or the finalizing call did before it committed. */
  predicate NothingCommitted(task: Task, outcome: Option<Finalize>) {
    task.TaskRaised? || (outcome.Some? && outcome.value.RaisedBeforeCommit?)
  }

  /**
   * A started heartbeat is left neither finalized nor released exactly when the registry or the
   * context could not be built, which happens outside the `try`, or when the release raised after
   * the task, or a finalizing call that did not commit, had raised.
   */
  lemma LeftHanging(steps: seq<Step>)
    requires ValidRun(steps) && Stopped(After(steps)) && steps != []
    ensures var last := steps[|steps| - 1];
      !FinalizedIn(steps) && !ReleasedIn(steps) <==>
        || last == SetUp(false)
        || (last == CallRelease(false) && NothingCommitted(TaskOf(steps), OutcomeOf(steps)))
  {
    var n := |steps| - 1;
    RunInvariant(steps[..n]);
    HistoryIsSteps(steps);
    DatabaseIsSteps(steps);
    HangingStep(After(steps[..n]), steps[n]);
  }

  lemma HangingStep(s: State, step: Step)
    requires ControlInv(s) && Enabled(s, step) && Stopped(Apply(s, step))
    ensures var t := Apply(s, step);
      !t.finalized && !t.released <==>
        || step == SetUp(false)
        || (step == CallRelease(false) && NothingCommitted(t.task, t.outcome))
  {
  }

  /** The first of these happens: the registry raises and nothing else is done. */
  lemma SetUpFailureHangs()
    ensures ValidRun([SetUp(false)])
    ensures var s := After([SetUp(false)]);
      Stopped(s) && !s.finalized && !s.released && s.frames == [HeartbeatStart]
  {
    assert [SetUp(false)][..0] == [];
    assert After([]) == INIT;
  }
}
