/**
  * One pipeline machine and N stage machines coordinating through bounded queues, a barrier and a shutdown
  * broadcast, as an interleaving system. A step is one handler call or one blocking point inside a handler.
  */
module Pipeline {

  datatype PipelineState = Initializing | WaitingForStages | PipelineRunning | PipelineDraining | Shutdown
  datatype StageState = Uninitialized | Materializing | Materialized | Running | Draining | Drained

  datatype PipelineEvent =
    | Start
    | StageReady(stage: nat)
    | AllStagesReady
    | BeginShutdown
    | StageDrained(stage: nat)
    | AllStagesDrained

  /** The events that travel through a stage's queue; BeginDrain is raised by the shutdown branch itself. */
  datatype StageEvent =
    | Initialize
    | MaterializationComplete
    | StartProcessing
    | ProcessEvent(data: string)
    | DrainComplete

  /** Where the pipeline task is: receiving, sending StartProcessing to the rest, waiting at the barrier, ended. */
  datatype PipelineControl = Receiving | FanOut(todo: set<nat>) | AtBarrier(generation: nat) | Ended

  datatype StageControl = Selecting | Waiting(generation: nat) | Exited

  datatype LogEntry =
    | PipelineStarting
    | PipelineSawReady(stage: nat)
    | AllReady
    | BeginningShutdown
    | PipelineSawDrained(stage: nat)
    | AllDrained
    | StageInitializing(stage: nat)
    | StageMaterialized(stage: nat)
    | StartingProcessing(stage: nat)
    | Processing(stage: nat, data: string)
    | BeginningDrain(stage: nat)
    | StageIsDrained(stage: nat)

  /**
    * A stage, with the spawned tasks that owe it a message, the broadcast message it has not received,
    * the data the main task has still to send it, and the data it has processed.
    */
  datatype Stage = Stage(
    state: StageState,
    control: StageControl,
    queue: seq<StageEvent>,
    materializing: bool,
    draining: bool,
    shutdown: bool,
    feed: seq<string>,
    processed: seq<string>
  )

  datatype System = System(
    capacity: nat,
    state: PipelineState,
    control: PipelineControl,
    queue: seq<PipelineEvent>,
    ready: set<nat>,
    drained: set<nat>,
    stages: seq<Stage>,
    arrived: nat,
    generation: nat,
    invited: nat,
    launched: bool,
    stopping: bool,
    readySends: nat,
    drainedSends: nat,
    log: seq<LogEntry>,
    panicked: bool
  )

  predicate IsStage(i: nat, n: nat) {
    i < n
  }

  /** The stage numbers 0 .. n-1. */
  function Ids(n: nat): set<nat> {
    set i: nat | i < n && IsStage(i, n)
  }

  lemma {:induction false} IdsSize(n: nat)
    ensures |Ids(n)| == n
  {
    if n == 0 {
      assert Ids(0) == {};
    } else {
      IdsSize(n - 1);
      forall i: nat ensures i in Ids(n) <==> i in Ids(n - 1) + {n - 1} {
        assert IsStage(i, n) <==> i < n;
        assert IsStage(i, n - 1) <==> i < n - 1;
      }
      assert Ids(n) == Ids(n - 1) + {n - 1};
    }
  }

  /** Everything spawned and nothing sent yet. */
  function Initial(capacity: nat, feeds: seq<seq<string>>): System {
    System(capacity, Initializing, Receiving, [], {}, {},
           seq(|feeds|, i requires 0 <= i < |feeds| =>
             Stage(Uninitialized, Selecting, [], false, false, false, feeds[i], [])),
           0, 0, 0, false, false, 0, 0, [], false)
  }

  datatype Move =
    | PipelineReceive
    | SendStart(stage: nat)
    | PipelineArrive
    | PipelineRelease
    | StageReceive(stage: nat)
    | StageRelease(stage: nat)
    | StageShutdown(stage: nat)
    | CompleteMaterialization(stage: nat)
    | CompleteDrain(stage: nat)
    | Invite(stage: nat)
    | Launch
    | Feed(stage: nat)
    | Stop

  function Panic(s: System): System {
    s.(panicked := true)
  }

  /** A barrier for the pipeline and all stages: the last arrival opens the next generation. */
  function Arrive(s: System): System {
    if s.arrived + 1 == |s.stages| + 1 then s.(arrived := 0, generation := s.generation + 1)
    else s.(arrived := s.arrived + 1)
  }

  /** `send` on the pipeline's channel; it fails when the receiver is gone. */
  function Notify(s: System, e: PipelineEvent): System {
    if s.control.Ended? then Panic(s) else s.(queue := s.queue + [e])
  }

  function SendTo(s: System, i: nat, e: StageEvent): System
    requires i < |s.stages|
  {
    if s.stages[i].control.Exited? then Panic(s)
    else s.(stages := s.stages[i := s.stages[i].(queue := s.stages[i].queue + [e])])
  }

  function WithStage(s: System, i: nat, g: Stage): System
    requires i < |s.stages|
  {
    s.(stages := s.stages[i := g])
  }

  function Logged(s: System, e: LogEntry): System {
    s.(log := s.log + [e])
  }

  function Told(stages: seq<Stage>): (told: seq<Stage>)
    ensures |told| == |stages| && forall i :: 0 <= i < |stages| ==> told[i] == stages[i].(shutdown := true)
  {
    if stages == [] then [] else Told(stages[..|stages| - 1]) + [stages[|stages| - 1].(shutdown := true)]
  }

  /** Every subscribed stage gets the shutdown message; the handler insists that all are still subscribed. */
  function Broadcast(s: System): System {
    if exists i :: 0 <= i < |s.stages| && s.stages[i].control.Exited? then Panic(s)
    else s.(stages := Told(s.stages), state := PipelineDraining)
  }

  /** The pipeline's handlers. An event without a handler is an error, which the task unwraps. */
  function PipelineHandle(s: System, e: PipelineEvent): System {
    match (s.state, e)
    case (Initializing, Start) => Logged(s, PipelineStarting).(state := WaitingForStages)
    case (WaitingForStages, StageReady(i)) =>
      var s1 := Logged(s, PipelineSawReady(i)).(ready := s.ready + {i});
      if |s1.ready| == |s.stages| then Notify(s1, AllStagesReady).(readySends := s.readySends + 1) else s1
    case (WaitingForStages, AllStagesReady) => Logged(s, AllReady).(control := FanOut(Ids(|s.stages|)))
    case (PipelineRunning, BeginShutdown) => Broadcast(Logged(s, BeginningShutdown))
    case (PipelineDraining, StageDrained(i)) =>
      var s1 := Logged(s, PipelineSawDrained(i)).(drained := s.drained + {i});
      if |s1.drained| == |s.stages| then Notify(s1, AllStagesDrained).(drainedSends := s.drainedSends + 1) else s1
    case (PipelineDraining, AllStagesDrained) => Logged(s, AllDrained).(state := Shutdown, control := Ended)
    case _ => Panic(s)
  }

  /** The stages' handlers for queued events. */
  function StageHandle(s: System, i: nat, e: StageEvent): System
    requires i < |s.stages|
  {
    var g := s.stages[i];
    match (g.state, e)
    case (Uninitialized, Initialize) =>
      WithStage(Logged(s, StageInitializing(i)), i, g.(state := Materializing, materializing := true))
    case (Materializing, MaterializationComplete) =>
      Notify(WithStage(Logged(s, StageMaterialized(i)), i, g.(state := Materialized)), StageReady(i))
    case (Materialized, StartProcessing) =>
      Arrive(WithStage(Logged(s, StartingProcessing(i)), i, g.(control := Waiting(s.generation))))
    case (Running, ProcessEvent(data)) =>
      WithStage(Logged(s, Processing(i, data)), i, g.(processed := g.processed + [data]))
    case (Draining, DrainComplete) =>
      Notify(WithStage(Logged(s, StageIsDrained(i)), i, g.(state := Drained, control := Exited)), StageDrained(i))
    case _ => Panic(s)
  }

  /** The shutdown branch raises BeginDrain, which only Running handles. */
  function BeginDrain(s: System, i: nat): System
    requires i < |s.stages|
  {
    var g := s.stages[i];
    if g.state != Running then Panic(s)
    else WithStage(Logged(s, BeginningDrain(i)), i, g.(state := Draining, draining := true, shutdown := false))
  }

  predicate HasRoom<X>(queue: seq<X>, capacity: nat) {
    |queue| < capacity
  }

  /** The handler would send to the pipeline. */
  predicate Reports(g: Stage) {
    && g.queue != []
    && ((g.state == Materializing && g.queue[0] == MaterializationComplete) ||
         (g.state == Draining && g.queue[0] == DrainComplete))
  }

  predicate Enabled(s: System, m: Move) {
    && !s.panicked
    && match m
       case PipelineReceive => s.control.Receiving? && s.queue != []
       case SendStart(i) =>
         i < |s.stages| && s.control.FanOut? && i in s.control.todo && HasRoom(s.stages[i].queue, s.capacity)
       case PipelineArrive => s.control.FanOut? && s.control.todo == {}
       case PipelineRelease => s.control.AtBarrier? && s.generation > s.control.generation
       case StageReceive(i) =>
         && i < |s.stages| && s.stages[i].control.Selecting? && s.stages[i].queue != []
         && (Reports(s.stages[i]) ==> HasRoom(s.queue, s.capacity))
       case StageRelease(i) =>
         i < |s.stages| && s.stages[i].control.Waiting? && s.generation > s.stages[i].control.generation
       case StageShutdown(i) => i < |s.stages| && s.stages[i].control.Selecting? && s.stages[i].shutdown
       case CompleteMaterialization(i) =>
         i < |s.stages| && s.stages[i].materializing && HasRoom(s.stages[i].queue, s.capacity)
       case CompleteDrain(i) => i < |s.stages| && s.stages[i].draining && HasRoom(s.stages[i].queue, s.capacity)
       // The main task, in program order: Initialize to every stage, Start, the data stage by stage, BeginShutdown.
       case Invite(i) => i == s.invited < |s.stages| && HasRoom(s.stages[i].queue, s.capacity)
       case Launch => s.invited == |s.stages| && !s.launched && HasRoom(s.queue, s.capacity)
       case Feed(i) =>
         && i < |s.stages| && s.launched && !s.stopping
         && s.stages[i].feed != [] && HasRoom(s.stages[i].queue, s.capacity)
         && forall j :: 0 <= j < i ==> s.stages[j].feed == []
       case Stop =>
         && s.launched && !s.stopping && HasRoom(s.queue, s.capacity)
         && forall i :: 0 <= i < |s.stages| ==> s.stages[i].feed == []
  }

  function Do(s: System, m: Move): System
    requires Enabled(s, m)
  {
    match m
    case PipelineReceive => PipelineHandle(s.(queue := s.queue[1..]), s.queue[0])
    case SendStart(i) => SendTo(s.(control := FanOut(s.control.todo - {i})), i, StartProcessing)
    case PipelineArrive => Arrive(s.(state := PipelineRunning, control := AtBarrier(s.generation)))
    case PipelineRelease => s.(control := Receiving)
    case StageReceive(i) =>
      var g := s.stages[i];
      StageHandle(WithStage(s, i, g.(queue := g.queue[1..])), i, g.queue[0])
    case StageRelease(i) => WithStage(s, i, s.stages[i].(state := Running, control := Selecting))
    case StageShutdown(i) => BeginDrain(s, i)
    case CompleteMaterialization(i) =>
      SendTo(WithStage(s, i, s.stages[i].(materializing := false)), i, MaterializationComplete)
    case CompleteDrain(i) => SendTo(WithStage(s, i, s.stages[i].(draining := false)), i, DrainComplete)
    case Invite(i) => SendTo(s.(invited := i + 1), i, Initialize)
    case Launch => Notify(s.(launched := true), Start)
    case Feed(i) =>
      var g := s.stages[i];
      SendTo(WithStage(s, i, g.(feed := g.feed[1..])), i, ProcessEvent(g.feed[0]))
    case Stop => Notify(s.(stopping := true), BeginShutdown)
  }

  /** StartProcessing has been sent to stage i. */
  predicate Started(s: System, i: nat) {
    || s.state == PipelineRunning || s.state == PipelineDraining || s.state == Shutdown
    || (s.control.FanOut? && i !in s.control.todo)
  }

  /** AllStagesReady has been queued or handled. */
  predicate AllSignalled(s: System) {
    || AllStagesReady in s.queue || s.control.FanOut?
    || s.state == PipelineRunning || s.state == PipelineDraining || s.state == Shutdown
  }

  predicate ReportsReady(g: Stage) {
    g.state == Materializing && g.queue != [] && g.queue[0] == MaterializationComplete
  }

  /**
    * The timing the test brings about by sleeping: Start is queued before any stage reports that it is ready,
    * data is sent to a stage only after StartProcessing, BeginShutdown only after AllStagesReady, and a
    * stage takes its shutdown branch only when its queue is empty.
    */
  predicate Orderly(s: System, m: Move) {
    match m
    case StageReceive(i) => i < |s.stages| && ReportsReady(s.stages[i]) ==> s.launched
    case Feed(i) => Started(s, i)
    case Stop => AllSignalled(s)
    case StageShutdown(i) => i < |s.stages| ==> s.stages[i].queue == []
    case _ => true
  }

  /** Every task has ended as intended. */
  predicate Final(s: System) {
    && s.state == Shutdown && s.control.Ended? && !s.panicked
    && forall i :: 0 <= i < |s.stages| ==> s.stages[i].state == Drained && s.stages[i].control.Exited?
  }

  // ---------------------------------------------------------------------------------------------
  // Runs

  predicate IsRun(s: System, moves: seq<Move>)
    decreases |moves|
  {
    moves == [] || (Enabled(s, moves[0]) && IsRun(Do(s, moves[0]), moves[1..]))
  }

  function After(s: System, moves: seq<Move>): System
    requires IsRun(s, moves)
    decreases |moves|
  {
    if moves == [] then s else After(Do(s, moves[0]), moves[1..])
  }

  predicate AllOrderly(s: System, moves: seq<Move>)
    requires IsRun(s, moves)
    decreases |moves|
  {
    moves != [] ==> Orderly(s, moves[0]) && AllOrderly(Do(s, moves[0]), moves[1..])
  }

  /** Nothing can move any more. */
  ghost predicate Stuck(s: System) {
    forall m :: !Enabled(s, m)
  }

  // ---------------------------------------------------------------------------------------------
  // Termination measure

  function Flag(b: bool, weight: nat): nat {
    if b then weight else 0
  }

  function StageRank(g: Stage): nat {
    (if g.control.Waiting? then 10 else
     match g.state
     case Uninitialized => 20
     case Materializing => 16
     case Materialized => 12
     case Running => 8
     case Draining => 4
     case Drained => 0)
    + |g.queue| + Flag(g.materializing, 2) + Flag(g.draining, 2) + 2 * |g.feed|
  }

  function Total<T>(xs: seq<T>, rank: T -> nat): nat {
    if xs == [] then 0 else Total(xs[..|xs| - 1], rank) + rank(xs[|xs| - 1])
  }

  function EventRank(e: PipelineEvent): nat {
    if e.StageReady? || e.StageDrained? then 2 else 1
  }

  function ControlRank(s: System): nat {
    var receiving := if s.state.Initializing? || s.state.WaitingForStages? then 2 * |s.stages| + 4 else 1;
    match s.control
    case FanOut(todo) => 2 * |todo| + 3
    case AtBarrier(_) => receiving + 1
    case Receiving => receiving
    case Ended => 0
  }

  /** What the main task has still to send, feeds apart. */
  function MainRank(s: System): nat {
    Flag(!s.stopping, 2) + Flag(!s.launched, 2) + if s.invited < |s.stages| then 2 * (|s.stages| - s.invited) else 0
  }

  /** How queues and stage lists are weighed. */
  datatype Scale = Scale(queue: seq<PipelineEvent> -> nat, stages: seq<Stage> -> nat)

  const SUMS: Scale := Scale((q: seq<PipelineEvent>) => Total(q, EventRank), (g: seq<Stage>) => Total(g, StageRank))

  function Weigh(s: System, scale: Scale): nat {
    Flag(!s.panicked, 1) + MainRank(s) + ControlRank(s) + scale.queue(s.queue) + scale.stages(s.stages)
  }

  function Measure(s: System): nat {
    Weigh(s, SUMS)
  }
}
