/** Every move that is out of order leads to an event nobody handles, however the run goes on. */
module PipelineDoom {
  import opened Pipeline
  import opened PipelineInvariant
  import opened PipelineSteps

  // ---------------------------------------------------------------------------------------------
  // The four ways to be doomed

  /** A report of readiness is ahead of Start. */
  predicate EarlyReport(s: System) {
    && !s.panicked && s.state == Initializing && s.control.Receiving?
    && s.queue != [] && s.queue[0].StageReady?
  }

  /** BeginShutdown is queued with no AllStagesReady ahead of it. */
  predicate EarlyStop(s: System) {
    && !s.panicked && (s.state == Initializing || s.state == WaitingForStages) && s.control.Receiving?
    && exists k :: 0 <= k < |s.queue| && s.queue[k] == BeginShutdown && AllStagesReady !in s.queue[..k]
  }

  /** Stage i is draining with unprocessed data at the head of its queue. */
  predicate EarlyShutdown(s: System, i: nat) {
    && !s.panicked && i < |s.stages|
    && s.stages[i].state == Draining && s.stages[i].control.Selecting?
    && s.stages[i].queue != [] && s.stages[i].queue[0].ProcessEvent?
  }

  /** The next message but the ones that only advance a stage towards Materialized is data. */
  predicate DataTooSoon(g: Stage) {
    && g.control.Selecting? && g.queue != []
    && match g.state
       case Uninitialized => g.queue[0] == Initialize && |g.queue| > 1 && g.queue[1].ProcessEvent?
       case Materializing =>
         g.queue[0].ProcessEvent? ||
             (g.queue[0] == MaterializationComplete && |g.queue| > 1 && g.queue[1].ProcessEvent?)
       case Materialized => g.queue[0].ProcessEvent?
       case _ => false
  }

  /** The pipeline keeps receiving, for it has not heard and will not hear from stage i before i reports. */
  ghost predicate AwaitsStage(s: System, i: nat) {
    && s.capacity >= 1 && s.control.Receiving? && (s.state == Initializing || s.state == WaitingForStages)
    && i !in s.ready && (forall j :: j in s.ready ==> j < |s.stages|)
    && forall e :: e in s.queue ==> Harmless(|s.stages|, e, i)
  }

  ghost predicate EarlyData(s: System, i: nat) {
    && !s.panicked && i < |s.stages| && DataTooSoon(s.stages[i])
    && (ReportsReady(s.stages[i]) ==> AwaitsStage(s, i))
  }

  ghost predicate Doomed(s: System) {
    EarlyReport(s) || EarlyStop(s) || exists i :: EarlyShutdown(s, i) || EarlyData(s, i)
  }

  // ---------------------------------------------------------------------------------------------
  // A disorderly move dooms

  lemma EarlyReportDooms(s: System, i: nat)
    requires Inv(s) && Enabled(s, StageReceive(i)) && !Orderly(s, StageReceive(i))
    ensures EarlyReport(Do(s, StageReceive(i)))
  {
    assert StageOk(s, i);
    NoMessage(s);
  }

  lemma EarlyStopDooms(s: System)
    requires Inv(s) && Enabled(s, Stop) && !Orderly(s, Stop)
    ensures EarlyStop(Do(s, Stop))
  {
    var s' := Do(s, Stop);
    assert s'.queue[|s.queue|] == BeginShutdown && s'.queue[..|s.queue|] == s.queue;
  }

  lemma EarlyShutdownDooms(s: System, i: nat)
    requires Inv(s) && Enabled(s, StageShutdown(i)) && !Orderly(s, StageShutdown(i))
    ensures EarlyShutdown(Do(s, StageShutdown(i)), i)
  {
    assert StageOk(s, i);
  }

  /** A stage that has not been started has not been heard from once it is about to report. */
  lemma UnheardStage(s: System, i: nat)
    requires Inv(s) && i < |s.stages| && s.stages[i].state == Materializing
    ensures AwaitsStage(s, i)
  {
    assert StageOk(s, i);
    FullSet(s.ready, |s.stages|);
  }

  lemma EarlyDataDooms(s: System, i: nat)
    requires Inv(s) && Enabled(s, Feed(i)) && !Orderly(s, Feed(i))
    ensures EarlyData(Do(s, Feed(i)), i)
  {
    assert StageOk(s, i);
    if s.stages[i].state == Materializing {
      UnheardStage(s, i);
    }
  }

  lemma DisorderlyMoveDooms(s: System, m: Move)
    requires Inv(s) && Enabled(s, m) && !Orderly(s, m)
    ensures Doomed(Do(s, m))
  {
    match m
    case StageReceive(i) => EarlyReportDooms(s, i);
    case Feed(i) => EarlyDataDooms(s, i);
    case Stop => EarlyStopDooms(s);
    case StageShutdown(i) => EarlyShutdownDooms(s, i);
  }

  // ---------------------------------------------------------------------------------------------
  // Doom persists

  /** Only its own receiving moves a receiving pipeline; the others at most append to its queue. */
  predicate PipelineStays(s: System, s': System) {
    s'.panicked || (s'.state == s.state && s'.control == s.control && s.queue <= s'.queue && s'.ready == s.ready)
  }

  lemma StagesLeavePipeline(s: System, k: nat)
    requires Enabled(s, StageReceive(k))
    ensures PipelineStays(s, Do(s, StageReceive(k)))
  {
    ReceiveShape(s, k);
  }

  lemma SendStays(s: System, s0: System, j: nat, e: StageEvent)
    requires j < |s0.stages| && PipelineStays(s, s0)
    ensures PipelineStays(s, SendTo(s0, j, e))
  {
  }

  lemma SendsLeavePipeline(s: System, m: Move)
    requires s.control.Receiving? && Enabled(s, m)
    requires m.CompleteMaterialization? || m.CompleteDrain? || m.Invite? || m.Feed?
    ensures PipelineStays(s, Do(s, m))
  {
    match m
    case Invite(j) => SendStays(s, s.(invited := j + 1), j, Initialize);
    case CompleteMaterialization(j) =>
      SendStays(s, WithStage(s, j, s.stages[j].(materializing := false)), j, MaterializationComplete);
    case CompleteDrain(j) => SendStays(s, WithStage(s, j, s.stages[j].(draining := false)), j, DrainComplete);
    case Feed(j) =>
      var g := s.stages[j];
      SendStays(s, WithStage(s, j, g.(feed := g.feed[1..])), j, ProcessEvent(g.feed[0]));
  }

  lemma OthersLeavePipeline(s: System, m: Move)
    requires s.control.Receiving? && Enabled(s, m) && m != PipelineReceive
    ensures PipelineStays(s, Do(s, m))
  {
    match m
    case StageReceive(k) => StagesLeavePipeline(s, k);
    case CompleteMaterialization(_) => SendsLeavePipeline(s, m);
    case CompleteDrain(_) => SendsLeavePipeline(s, m);
    case Invite(_) => SendsLeavePipeline(s, m);
    case Feed(_) => SendsLeavePipeline(s, m);
    case _ =>
  }

  lemma EarlyReportPersists(s: System, m: Move)
    requires EarlyReport(s) && Enabled(s, m)
    ensures Do(s, m).panicked || EarlyReport(Do(s, m))
  {
    if m != PipelineReceive {
      OthersLeavePipeline(s, m);
    }
  }

  /** Before BeginShutdown the pipeline can only handle Start and reports of readiness, and stays receiving. */
  lemma HandledBeforeStop(s: System)
    requires Enabled(s, PipelineReceive) && (s.state == Initializing || s.state == WaitingForStages)
    requires s.queue[0] != AllStagesReady
    ensures var s' := Do(s, PipelineReceive);
            || s'.panicked
            || (&& s'.state == WaitingForStages && s'.control == s.control && s.queue[1..] <= s'.queue
                && s.queue[0] != BeginShutdown)
  {
  }

  lemma EarlyStopPersists(s: System, m: Move)
    requires EarlyStop(s) && Enabled(s, m)
    ensures Do(s, m).panicked || EarlyStop(Do(s, m))
  {
    var s' := Do(s, m);
    var k :| 0 <= k < |s.queue| && s.queue[k] == BeginShutdown && AllStagesReady !in s.queue[..k];
    if m == PipelineReceive {
      assert k > 0 ==> s.queue[0] in s.queue[..k];
      HandledBeforeStop(s);
      if !s'.panicked {
        assert s'.queue[k - 1] == s.queue[1..][k - 1] == BeginShutdown;
        assert s'.queue[..k - 1] == s.queue[1..][..k - 1] == s.queue[..k][1..];
      }
    } else {
      OthersLeavePipeline(s, m);
      if !s'.panicked {
        assert s'.queue[k] == s.queue[k] && s'.queue[..k] == s.queue[..k];
      }
    }
  }

  /** A stage that neither receives nor may shut down keeps its state; its queue can only grow. */
  ghost predicate StageStays(s: System, s': System, i: nat)
    requires i < |s.stages|
  {
    || s'.panicked
    || (&& |s'.stages| == |s.stages| && s'.stages[i].state == s.stages[i].state
        && s'.stages[i].control == s.stages[i].control && s.stages[i].queue <= s'.stages[i].queue)
  }

  lemma StagesLeaveStage(s: System, k: nat, i: nat)
    requires i < |s.stages| && k != i && Enabled(s, StageReceive(k))
    ensures StageStays(s, Do(s, StageReceive(k)), i)
  {
    ReceiveShape(s, k);
  }

  lemma PipelineLeavesStage(s: System, i: nat)
    requires i < |s.stages| && Enabled(s, PipelineReceive)
    ensures StageStays(s, Do(s, PipelineReceive), i)
  {
  }

  lemma SendLeavesStage(s: System, s0: System, j: nat, e: StageEvent, i: nat)
    requires i < |s.stages| == |s0.stages| && j < |s.stages|
    requires var g, g0 := s.stages[i], s0.stages[i];
             g0.state == g.state && g0.control == g.control && g0.queue == g.queue
    ensures StageStays(s, SendTo(s0, j, e), i)
  {
  }

  lemma SendsLeaveStage(s: System, m: Move, i: nat)
    requires i < |s.stages| && Enabled(s, m)
    requires m.SendStart? || m.CompleteMaterialization? || m.CompleteDrain? || m.Invite? || m.Feed?
    ensures StageStays(s, Do(s, m), i)
  {
    match m
    case SendStart(j) => SendLeavesStage(s, s.(control := FanOut(s.control.todo - {j})), j, StartProcessing, i);
    case Invite(j) => SendLeavesStage(s, s.(invited := j + 1), j, Initialize, i);
    case CompleteMaterialization(j) =>
      SendLeavesStage(s, WithStage(s, j, s.stages[j].(materializing := false)), j, MaterializationComplete, i);
    case CompleteDrain(j) =>
      SendLeavesStage(s, WithStage(s, j, s.stages[j].(draining := false)), j, DrainComplete, i);
    case Feed(j) =>
      var g := s.stages[j];
      SendLeavesStage(s, WithStage(s, j, g.(feed := g.feed[1..])), j, ProcessEvent(g.feed[0]), i);
  }

  lemma OthersLeaveStage(s: System, m: Move, i: nat)
    requires i < |s.stages| && Enabled(s, m) && m != StageReceive(i)
    requires s.stages[i].control.Selecting? && s.stages[i].state != Running
    ensures StageStays(s, Do(s, m), i)
  {
    match m
    case PipelineReceive => PipelineLeavesStage(s, i);
    case StageReceive(k) => StagesLeaveStage(s, k, i);
    case SendStart(_) => SendsLeaveStage(s, m, i);
    case CompleteMaterialization(_) => SendsLeaveStage(s, m, i);
    case CompleteDrain(_) => SendsLeaveStage(s, m, i);
    case Invite(_) => SendsLeaveStage(s, m, i);
    case Feed(_) => SendsLeaveStage(s, m, i);
    case _ =>
  }

  lemma EarlyShutdownPersists(s: System, i: nat, m: Move)
    requires EarlyShutdown(s, i) && Enabled(s, m)
    ensures Do(s, m).panicked || EarlyShutdown(Do(s, m), i)
  {
    if m != StageReceive(i) {
      OthersLeaveStage(s, m, i);
    }
  }

  /** What another stage, or the main task, can tell the pipeline. */
  predicate Harmless(n: nat, e: PipelineEvent, i: nat) {
    e != AllStagesReady && (e.StageReady? ==> e.stage < n && e.stage != i)
  }

  predicate TellsAtMost(s: System, s': System, i: nat) {
    && s'.capacity == s.capacity && |s'.stages| == |s.stages|
    && (s'.queue == s.queue || (|s'.queue| == |s.queue| + 1 && s'.queue == s.queue + [s'.queue[|s.queue|]]
                                && Harmless(|s.stages|, s'.queue[|s.queue|], i)))
  }

  lemma StagesTell(s: System, k: nat, i: nat)
    requires Enabled(s, StageReceive(k)) && k != i
    ensures TellsAtMost(s, Do(s, StageReceive(k)), i)
  {
    ReceiveShape(s, k);
  }

  lemma MainTells(s: System, m: Move, i: nat)
    requires Enabled(s, m) && (m.Launch? || m.Stop? || m.Invite? || m.Feed?)
    ensures TellsAtMost(s, Do(s, m), i)
  {
  }

  lemma OthersTell(s: System, m: Move, i: nat)
    requires s.control.Receiving? && Enabled(s, m) && m != PipelineReceive && m != StageReceive(i)
    ensures TellsAtMost(s, Do(s, m), i)
  {
    match m
    case StageReceive(k) => StagesTell(s, k, i);
    case Launch => MainTells(s, m, i);
    case Stop => MainTells(s, m, i);
    case Invite(_) => MainTells(s, m, i);
    case Feed(_) => MainTells(s, m, i);
    case _ =>
  }

  lemma ReadyAwaits(s: System, i: nat)
    requires i < |s.stages| && AwaitsStage(s, i) && Enabled(s, PipelineReceive) && s.state == WaitingForStages
    requires s.queue[0].StageReady?
    ensures Do(s, PipelineReceive).panicked || AwaitsStage(Do(s, PipelineReceive), i)
  {
    var s' := Do(s, PipelineReceive);
    assert s.queue[0] in s.queue;
    FullSet(s.ready + {s.queue[0].stage}, |s.stages|);
    assert i !in s.ready + {s.queue[0].stage};
    assert |s.ready + {s.queue[0].stage}| != |s.stages|;
    assert s'.queue == s.queue[1..];
  }

  lemma ReceivingAwaits(s: System, i: nat)
    requires i < |s.stages| && AwaitsStage(s, i) && Enabled(s, PipelineReceive)
    ensures Do(s, PipelineReceive).panicked || AwaitsStage(Do(s, PipelineReceive), i)
  {
    assert s.queue[0] in s.queue;
    if s.state == WaitingForStages && s.queue[0].StageReady? {
      ReadyAwaits(s, i);
    } else if s.state == Initializing && s.queue[0] == Start {
      var s' := Do(s, PipelineReceive);
      forall e | e in s'.queue ensures Harmless(|s'.stages|, e, i) {
        assert e in s.queue;
      }
    }
  }

  lemma AwaitingPersists(s: System, i: nat, m: Move)
    requires i < |s.stages| && AwaitsStage(s, i) && Enabled(s, m) && m != StageReceive(i)
    ensures Do(s, m).panicked || AwaitsStage(Do(s, m), i)
  {
    if m == PipelineReceive {
      ReceivingAwaits(s, i);
    } else {
      OthersLeavePipeline(s, m);
      OthersTell(s, m, i);
    }
  }

  lemma TooSoonAdvances(s: System, i: nat)
    requires EarlyData(s, i) && Enabled(s, StageReceive(i))
    ensures Do(s, StageReceive(i)).panicked || EarlyData(Do(s, StageReceive(i)), i)
  {
  }

  lemma EarlyDataPersists(s: System, i: nat, m: Move)
    requires EarlyData(s, i) && Enabled(s, m)
    ensures Do(s, m).panicked || EarlyData(Do(s, m), i)
  {
    var s' := Do(s, m);
    if m == StageReceive(i) {
      TooSoonAdvances(s, i);
    } else {
      OthersLeaveStage(s, m, i);
      if !s'.panicked {
        assert s'.stages[i].queue[0] == s.stages[i].queue[0];
        assert |s.stages[i].queue| > 1 ==> s'.stages[i].queue[1] == s.stages[i].queue[1];
        if ReportsReady(s.stages[i]) {
          AwaitingPersists(s, i, m);
        }
      }
    }
  }

  lemma DoomPersists(s: System, m: Move)
    requires Doomed(s) && Enabled(s, m)
    ensures Do(s, m).panicked || Doomed(Do(s, m))
  {
    if EarlyReport(s) {
      EarlyReportPersists(s, m);
    } else if EarlyStop(s) {
      EarlyStopPersists(s, m);
    } else {
      var i :| EarlyShutdown(s, i) || EarlyData(s, i);
      if EarlyShutdown(s, i) {
        EarlyShutdownPersists(s, i, m);
      } else {
        EarlyDataPersists(s, i, m);
      }
    }
  }

  /** The doomed are not stuck before they panic. */
  lemma DoomedMoves(s: System) returns (m: Move)
    requires Doomed(s)
    ensures Enabled(s, m)
  {
    if EarlyReport(s) || EarlyStop(s) {
      m := PipelineReceive;
    } else {
      var i :| EarlyShutdown(s, i) || EarlyData(s, i);
      m := StageReceive(i);
      if !Enabled(s, m) {
        m := PipelineReceive;
      }
    }
  }

  lemma {:induction false} DoomedRunsPanic(s: System, moves: seq<Move>)
    requires s.panicked || Doomed(s)
    requires IsRun(s, moves) && Stuck(After(s, moves))
    ensures After(s, moves).panicked
    decreases |moves|
  {
    if moves != [] {
      DoomPersists(s, moves[0]);
      DoomedRunsPanic(Do(s, moves[0]), moves[1..]);
    } else if !s.panicked {
      var m := DoomedMoves(s);
    }
  }
}
