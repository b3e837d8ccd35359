/** What goes wrong without each ordering hypothesis: concrete runs from the start of a small system. */
module PipelineEarly {
  import opened Pipeline
  import opened PipelineInvariant
  import opened PipelineDoom
  import opened PipelineTheorems

  /** A run that reaches s by orderly moves. */
  predicate Reaches(s0: System, moves: seq<Move>, s: System) {
    IsRun(s0, moves) && AllOrderly(s0, moves) && s == After(s0, moves)
  }

  lemma Step(s0: System, moves: seq<Move>, s: System, m: Move) returns (longer: seq<Move>)
    requires Reaches(s0, moves, s) && Enabled(s, m)
    ensures longer == moves + [m] && IsRun(s0, longer) && After(s0, longer) == Do(s, m)
    ensures AllOrderly(s0, longer) <==> Orderly(s, m)
  {
    longer := moves + [m];
    RunSnoc(s0, moves, m);
  }

  /** However the run goes on, it ends in a panic. */
  ghost predicate AllEndsPanic(s: System) {
    forall rest :: IsRun(s, rest) && Stuck(After(s, rest)) ==> After(s, rest).panicked
  }

  /** One move out of order is enough. */
  lemma OneMistakeIsFatal(capacity: nat, feeds: seq<seq<string>>, moves: seq<Move>, s: System, m: Move)
    requires capacity >= 1 && |feeds| >= 1 && Reaches(Initial(capacity, feeds), moves, s) && Enabled(s, m)
             && !Orderly(s, m)
    ensures AllEndsPanic(Do(s, m))
  {
    InitialOk(capacity, feeds);
    OrderlyRunsKeep(Initial(capacity, feeds), moves);
    DisorderlyMoveDooms(s, m);
    forall rest | IsRun(Do(s, m), rest) && Stuck(After(Do(s, m), rest)) ensures After(Do(s, m), rest).panicked {
      DoomedRunsPanic(Do(s, m), rest);
    }
  }

  lemma OneMessage<X>(x: X)
    ensures [x][1..] == [] && [] + [x] == [x]
  {
  }

  const DATA: seq<seq<string>> := [["x"]]

  function OneStage(g: Stage, state: PipelineState, control: PipelineControl, queue: seq<PipelineEvent>,
                    log: seq<LogEntry>): System {
    System(1, state, control, queue, {}, {}, [g], 0, 0, 1, true, false, 0, 0, log, false)
  }

  function FreshStage(state: StageState, queue: seq<StageEvent>): Stage {
    Stage(state, Selecting, queue, false, false, false, ["x"], [])
  }

  // ---------------------------------------------------------------------------------------------
  // The one-stage system, a few moves at a time

  /** Initialize and Start have been sent. */
  lemma UpToLaunch() returns (moves: seq<Move>, s: System)
    ensures Reaches(Initial(1, DATA), moves, s)
    ensures s == OneStage(FreshStage(Uninitialized, [Initialize]), Initializing, Receiving, [Start], [])
  {
    var s0 := Initial(1, DATA);
    OneMessage(Initialize);
    OneMessage(Start);
    moves := Step(s0, [], s0, Invite(0));
    var s1 := Do(s0, Invite(0));
    moves := Step(s0, moves, s1, Launch);
    s := Do(s1, Launch);
    assert s.stages == [FreshStage(Uninitialized, [Initialize])];
  }

  /** The stage is about to report. */
  lemma UpToMaterializing() returns (moves: seq<Move>, s: System)
    ensures Reaches(Initial(1, DATA), moves, s)
    ensures s == OneStage(FreshStage(Materializing, [MaterializationComplete]), WaitingForStages, Receiving, [], s.log)
  {
    var s0 := Initial(1, DATA);
    var s1;
    moves, s1 := UpToLaunch();
    OneMessage(Initialize);
    OneMessage(MaterializationComplete);
    OneMessage(Start);
    moves := Step(s0, moves, s1, PipelineReceive);
    var s2 := Do(s1, PipelineReceive);
    moves := Step(s0, moves, s2, StageReceive(0));
    var s3 := Do(s2, StageReceive(0));
    assert s3.stages == [FreshStage(Materializing, []).(materializing := true)];
    moves := Step(s0, moves, s3, CompleteMaterialization(0));
    s := Do(s3, CompleteMaterialization(0));
    assert s.stages == [FreshStage(Materializing, [MaterializationComplete])];
  }

  /** The pipeline has signalled to itself that its one stage is ready. */
  lemma UpToReady() returns (moves: seq<Move>, s: System)
    ensures Reaches(Initial(1, DATA), moves, s)
    ensures s == OneStage(FreshStage(Materialized, []), WaitingForStages, Receiving, [AllStagesReady], s.log)
                   .(ready := {0}, readySends := 1)
  {
    var s0 := Initial(1, DATA);
    var s1;
    moves, s1 := UpToMaterializing();
    OneMessage(MaterializationComplete);
    OneMessage(StageReady(0));
    OneMessage(AllStagesReady);
    moves := Step(s0, moves, s1, StageReceive(0));
    var s2 := Do(s1, StageReceive(0));
    assert s2.stages == [FreshStage(Materialized, [])];
    moves := Step(s0, moves, s2, PipelineReceive);
    s := Do(s2, PipelineReceive);
    assert {} + {0} == {0};
  }

  /** It has started the stage. */
  lemma UpToStarted() returns (moves: seq<Move>, s: System)
    ensures Reaches(Initial(1, DATA), moves, s)
    ensures s == OneStage(FreshStage(Materialized, [StartProcessing]), WaitingForStages, FanOut({}), [], s.log)
                   .(ready := {0}, readySends := 1)
  {
    var s0 := Initial(1, DATA);
    var s1;
    moves, s1 := UpToReady();
    OneMessage(AllStagesReady);
    OneMessage(StartProcessing);
    moves := Step(s0, moves, s1, PipelineReceive);
    var s2 := Do(s1, PipelineReceive);
    assert s2.control == FanOut({0}) by {
      assert IsStage(0, 1);
      assert forall i: nat :: i in Ids(1) <==> i in {0};
    }
    moves := Step(s0, moves, s2, SendStart(0));
    s := Do(s2, SendStart(0));
    assert {0} - {0} == {};
    assert s.stages == [FreshStage(Materialized, [StartProcessing])];
  }

  /** Both parties have reached the barrier. */
  lemma UpToBarrier() returns (moves: seq<Move>, s: System)
    ensures Reaches(Initial(1, DATA), moves, s)
    ensures s == OneStage(FreshStage(Materialized, []).(control := Waiting(0)), PipelineRunning, AtBarrier(0), [],
              s.log)
                   .(ready := {0}, readySends := 1, generation := 1)
  {
    var s0 := Initial(1, DATA);
    var s1;
    moves, s1 := UpToStarted();
    OneMessage(StartProcessing);
    moves := Step(s0, moves, s1, PipelineArrive);
    var s2 := Do(s1, PipelineArrive);
    moves := Step(s0, moves, s2, StageReceive(0));
    s := Do(s2, StageReceive(0));
    assert s.stages == [FreshStage(Materialized, []).(control := Waiting(0))];
  }

  /** And left it. */
  lemma UpToRunning() returns (moves: seq<Move>, s: System)
    ensures Reaches(Initial(1, DATA), moves, s)
    ensures s == OneStage(FreshStage(Running, []), PipelineRunning, Receiving, [], s.log)
                   .(ready := {0}, readySends := 1, generation := 1)
  {
    var s0 := Initial(1, DATA);
    var s1;
    moves, s1 := UpToBarrier();
    moves := Step(s0, moves, s1, PipelineRelease);
    var s2 := Do(s1, PipelineRelease);
    moves := Step(s0, moves, s2, StageRelease(0));
    s := Do(s2, StageRelease(0));
    assert s.stages == [FreshStage(Running, [])];
  }

  /** The data and BeginShutdown have been sent. */
  lemma UpToStop() returns (moves: seq<Move>, s: System)
    ensures Reaches(Initial(1, DATA), moves, s)
    ensures s == OneStage(FreshStage(Running, [ProcessEvent("x")]).(feed := []), PipelineRunning, Receiving,
              [BeginShutdown], s.log)
                   .(ready := {0}, readySends := 1, generation := 1, stopping := true)
  {
    var s0 := Initial(1, DATA);
    var s1;
    moves, s1 := UpToRunning();
    OneMessage(ProcessEvent("x"));
    OneMessage("x");
    OneMessage(BeginShutdown);
    moves := Step(s0, moves, s1, Feed(0));
    var s2 := Do(s1, Feed(0));
    assert s2.stages == [FreshStage(Running, [ProcessEvent("x")]).(feed := [])];
    moves := Step(s0, moves, s2, Stop);
    s := Do(s2, Stop);
  }

  // ---------------------------------------------------------------------------------------------
  // One mistake each

  /** A stage may take its shutdown branch while data is queued. */
  lemma UnconsumedDataIsFatal() returns (moves: seq<Move>, s: System)
    ensures Reaches(Initial(1, DATA), moves, s)
    ensures Enabled(s, StageShutdown(0)) && !Orderly(s, StageShutdown(0)) && AllEndsPanic(Do(s, StageShutdown(0)))
  {
    var s0 := Initial(1, DATA);
    var s1;
    moves, s1 := UpToStop();
    OneMessage(BeginShutdown);
    moves := Step(s0, moves, s1, PipelineReceive);
    s := Do(s1, PipelineReceive);
    assert s.stages == Told(s1.stages);
    OneMistakeIsFatal(1, DATA, moves, s, StageShutdown(0));
  }

  /** Data may be sent before the stage has been started. */
  lemma EarlyDataIsFatal() returns (moves: seq<Move>, s: System)
    ensures Reaches(Initial(1, DATA), moves, s)
    ensures Enabled(s, Feed(0)) && !Orderly(s, Feed(0)) && AllEndsPanic(Do(s, Feed(0)))
  {
    var s0 := Initial(1, DATA);
    var s1;
    moves, s1 := UpToLaunch();
    OneMessage(Initialize);
    moves := Step(s0, moves, s1, StageReceive(0));
    s := Do(s1, StageReceive(0));
    assert s.stages == [FreshStage(Materializing, []).(materializing := true)];
    OneMistakeIsFatal(1, DATA, moves, s, Feed(0));
  }

  /** Without data, the main task has only BeginShutdown left to send once the pipeline has handled Start. */
  lemma UpToWaiting() returns (moves: seq<Move>, s: System)
    ensures Reaches(Initial(1, [[]]), moves, s)
    ensures s == OneStage(FreshStage(Uninitialized, [Initialize]).(feed := []), WaitingForStages, Receiving, [], s.log)
  {
    var s0 := Initial(1, [[]]);
    OneMessage(Initialize);
    OneMessage(Start);
    moves := Step(s0, [], s0, Invite(0));
    var s1 := Do(s0, Invite(0));
    moves := Step(s0, moves, s1, Launch);
    var s2 := Do(s1, Launch);
    assert s2.queue == [Start] && s2.stages == [FreshStage(Uninitialized, [Initialize]).(feed := [])];
    moves := Step(s0, moves, s2, PipelineReceive);
    s := Do(s2, PipelineReceive);
  }

  /** BeginShutdown may be sent before all stages are ready. */
  lemma EarlyStopIsFatal() returns (moves: seq<Move>, s: System)
    ensures Reaches(Initial(1, [[]]), moves, s)
    ensures Enabled(s, Stop) && !Orderly(s, Stop) && AllEndsPanic(Do(s, Stop))
  {
    moves, s := UpToWaiting();
    OneMistakeIsFatal(1, [[]], moves, s, Stop);
  }

  /** With any number of stages and any data, a stage may report before Start is queued. */
  lemma LateStartIsFatal(capacity: nat, feeds: seq<seq<string>>) returns (moves: seq<Move>, s: System)
    requires capacity >= 1 && |feeds| >= 1
    ensures Reaches(Initial(capacity, feeds), moves, s)
    ensures Enabled(s, StageReceive(0)) && !Orderly(s, StageReceive(0)) && AllEndsPanic(Do(s, StageReceive(0)))
  {
    var s0 := Initial(capacity, feeds);
    OneMessage(Initialize);
    OneMessage(MaterializationComplete);
    moves := Step(s0, [], s0, Invite(0));
    var s1 := Do(s0, Invite(0));
    assert s1.stages[0].queue == [Initialize];
    moves := Step(s0, moves, s1, StageReceive(0));
    var s2 := Do(s1, StageReceive(0));
    assert s2.stages[0].queue == [] && s2.stages[0].materializing;
    moves := Step(s0, moves, s2, CompleteMaterialization(0));
    s := Do(s2, CompleteMaterialization(0));
    assert s.stages[0].queue == [MaterializationComplete];
    OneMistakeIsFatal(capacity, feeds, moves, s, StageReceive(0));
  }

  /** With no stages at all nobody reports, and BeginShutdown comes too early whenever it comes. */
  lemma NoStagesPanic(capacity: nat) returns (moves: seq<Move>)
    requires capacity >= 1
    ensures IsRun(Initial(capacity, []), moves) && After(Initial(capacity, []), moves).panicked
  {
    var s0 := Initial(capacity, []);
    OneMessage(Start);
    OneMessage(BeginShutdown);
    moves := Step(s0, [], s0, Launch);
    var s1 := Do(s0, Launch);
    moves := Step(s0, moves, s1, PipelineReceive);
    var s2 := Do(s1, PipelineReceive);
    RunSnoc(s0, moves, Stop);
    moves := moves + [Stop];
    var s3 := Do(s2, Stop);
    RunSnoc(s0, moves, PipelineReceive);
    moves := moves + [PipelineReceive];
  }
}
