/** Every move lowers the measure, whatever the state: all runs are finite. */
module PipelineProgress {
  import opened Pipeline

  lemma {:induction false} TotalUpdate<T>(xs: seq<T>, i: nat, x: T, rank: T -> nat)
    requires i < |xs|
    ensures Total(xs[i := x], rank) == Total(xs, rank) - rank(xs[i]) + rank(x)
  {
    var n := |xs| - 1;
    if i == n {
      assert xs[i := x][..n] == xs[..n];
    } else {
      assert xs[i := x][..n] == xs[..n][i := x];
      TotalUpdate(xs[..n], i, x, rank);
    }
  }

  lemma {:induction false} TotalSame<T>(xs: seq<T>, ys: seq<T>, rank: T -> nat)
    requires |xs| == |ys| && forall i :: 0 <= i < |xs| ==> rank(xs[i]) == rank(ys[i])
    ensures Total(xs, rank) == Total(ys, rank)
  {
    if xs != [] {
      TotalSame(xs[..|xs| - 1], ys[..|ys| - 1], rank);
    }
  }

  lemma TotalPush<T>(xs: seq<T>, x: T, rank: T -> nat)
    ensures Total(xs + [x], rank) == Total(xs, rank) + rank(x)
  {
    assert (xs + [x])[..|xs|] == xs;
  }

  lemma {:induction false} TotalPop<T>(xs: seq<T>, rank: T -> nat)
    requires xs != []
    ensures Total(xs, rank) == rank(xs[0]) + Total(xs[1..], rank)
  {
    var n := |xs| - 1;
    if n > 0 {
      TotalPop(xs[..n], rank);
      assert xs[..n][1..] == xs[1..][..n - 1];
    }
  }

  /** What the proofs below need of a scale. */
  ghost predicate Lawful(scale: Scale) {
    QueueLaws(scale) && StageLaws(scale)
  }

  ghost predicate QueueLaws(scale: Scale) {
    && (forall q, e :: scale.queue(q + [e]) == scale.queue(q) + EventRank(e))
    && (forall q :: q != [] ==> scale.queue(q) == EventRank(q[0]) + scale.queue(q[1..]))
  }

  ghost predicate StageLaws(scale: Scale) {
    && (forall gs, i, g :: 0 <= i < |gs| ==>
         scale.stages(gs[i := g]) == scale.stages(gs) - StageRank(gs[i]) + StageRank(g))
    && (forall gs :: scale.stages(Told(gs)) == scale.stages(gs))
  }

  lemma QueueSumsAreLawful()
    ensures QueueLaws(SUMS)
  {
    forall q, e ensures SUMS.queue(q + [e]) == SUMS.queue(q) + EventRank(e) {
      TotalPush(q, e, EventRank);
    }
    forall q: seq<PipelineEvent> | q != [] ensures SUMS.queue(q) == EventRank(q[0]) + SUMS.queue(q[1..]) {
      TotalPop(q, EventRank);
    }
  }

  lemma StageSumUpdate(gs: seq<Stage>, i: nat, g: Stage)
    requires i < |gs|
    ensures SUMS.stages(gs[i := g]) == SUMS.stages(gs) - StageRank(gs[i]) + StageRank(g)
    ensures SUMS.stages(Told(gs)) == SUMS.stages(gs)
  {
    TotalUpdate(gs, i, g, StageRank);
    TotalSame(gs, Told(gs), StageRank);
  }

  lemma SumsAreLawful()
    ensures Lawful(SUMS)
  {
    QueueSumsAreLawful();
    forall gs: seq<Stage>, i, g: Stage | 0 <= i < |gs|
      ensures SUMS.stages(gs[i := g]) == SUMS.stages(gs) - StageRank(gs[i]) + StageRank(g)
    {
      StageSumUpdate(gs, i, g);
    }
    forall gs ensures SUMS.stages(Told(gs)) == SUMS.stages(gs) {
      if gs == [] {
        assert Told(gs) == gs;
      } else {
        StageSumUpdate(gs, 0, gs[0]);
      }
    }
  }

  lemma LogWeighsNothing(scale: Scale, s: System, l: LogEntry)
    ensures Weigh(Logged(s, l), scale) == Weigh(s, scale)
  {
  }

  /** Replacing one stage. */
  lemma StageReplaced(scale: Scale, s: System, i: nat, g: Stage)
    requires Lawful(scale) && i < |s.stages|
    ensures Weigh(WithStage(s, i, g), scale) == Weigh(s, scale) - StageRank(s.stages[i]) + StageRank(g)
  {
    var s' := WithStage(s, i, g);
    assert MainRank(s') == MainRank(s) && ControlRank(s') == ControlRank(s);
    assert scale.stages(s'.stages) == scale.stages(s.stages) - StageRank(s.stages[i]) + StageRank(g);
  }

  /** With or without a log entry. */
  lemma StageChange(scale: Scale, s: System, i: nat, g: Stage, l: LogEntry)
    requires Lawful(scale)
    requires i < |s.stages|
    ensures Weigh(WithStage(s, i, g), scale) == Weigh(s, scale) - StageRank(s.stages[i]) + StageRank(g)
    ensures Weigh(WithStage(Logged(s, l), i, g), scale) == Weigh(s, scale) - StageRank(s.stages[i]) + StageRank(g)
  {
    StageReplaced(scale, s, i, g);
    LogWeighsNothing(scale, s, l);
    StageReplaced(scale, Logged(s, l), i, g);
  }

  lemma SendToRaises(scale: Scale, s: System, i: nat, e: StageEvent)
    requires Lawful(scale)
    requires i < |s.stages|
    ensures Weigh(SendTo(s, i, e), scale) <= Weigh(s, scale) + 1
  {
    StageChange(scale, s, i, s.stages[i].(queue := s.stages[i].queue + [e]), AllReady);
  }

  lemma NotifyRaises(scale: Scale, s: System, e: PipelineEvent)
    requires Lawful(scale)
    ensures Weigh(Notify(s, e), scale) <= Weigh(s, scale) + EventRank(e)
  {
  }

  lemma BroadcastKeeps(scale: Scale, s: System)
    requires Lawful(scale)
    requires s.state == PipelineRunning
    ensures Weigh(Broadcast(s), scale) <= Weigh(s, scale)
  {
  }

  /** Hearing of one more stage weighs nothing; the signal that may follow weighs one. */
  lemma HearingRaises(scale: Scale, s: System, s1: System, e: PipelineEvent)
    requires Lawful(scale) && EventRank(e) == 1
    requires s1 == s.(log := s1.log, ready := s1.ready, drained := s1.drained)
    ensures Weigh(s1, scale) == Weigh(s, scale) && Weigh(Notify(s1, e), scale) < Weigh(s, scale) + 2
    ensures Notify(s1, e).control == s.control
  {
    assert MainRank(s1) == MainRank(s) && ControlRank(s1) == ControlRank(s);
    NotifyRaises(scale, s1, e);
  }

  lemma CountingWeighsNothing(scale: Scale, s: System, ready: nat, drained: nat)
    ensures Weigh(s.(readySends := ready, drainedSends := drained), scale) == Weigh(s, scale)
  {
    var s' := s.(readySends := ready, drainedSends := drained);
    assert MainRank(s') == MainRank(s) && ControlRank(s') == ControlRank(s);
  }

  lemma ReadyLowers(scale: Scale, s: System, id: nat)
    requires Lawful(scale)
    requires !s.panicked && s.control.Receiving?
    ensures Weigh(PipelineHandle(s, StageReady(id)), scale) < Weigh(s, scale) + 2
  {
    var s1 := Logged(s, PipelineSawReady(id)).(ready := s.ready + {id});
    HearingRaises(scale, s, s1, AllStagesReady);
    CountingWeighsNothing(scale, Notify(s1, AllStagesReady), s.readySends + 1, s.drainedSends);
  }

  lemma DrainedLowers(scale: Scale, s: System, id: nat)
    requires Lawful(scale)
    requires !s.panicked && s.control.Receiving?
    ensures Weigh(PipelineHandle(s, StageDrained(id)), scale) < Weigh(s, scale) + 2
  {
    var s1 := Logged(s, PipelineSawDrained(id)).(drained := s.drained + {id});
    HearingRaises(scale, s, s1, AllStagesDrained);
    CountingWeighsNothing(scale, Notify(s1, AllStagesDrained), s.readySends, s.drainedSends + 1);
  }

  lemma BeginShutdownLowers(scale: Scale, s: System)
    requires Lawful(scale)
    requires !s.panicked && s.control.Receiving?
    ensures Weigh(PipelineHandle(s, BeginShutdown), scale) < Weigh(s, scale) + 1
  {
    if s.state == PipelineRunning {
      BroadcastKeeps(scale, Logged(s, BeginningShutdown));
    }
  }

  lemma StartEventLowers(scale: Scale, s: System)
    requires !s.panicked && s.control.Receiving?
    ensures Weigh(PipelineHandle(s, Start), scale) < Weigh(s, scale) + 1
    ensures Weigh(PipelineHandle(s, AllStagesDrained), scale) < Weigh(s, scale) + 1
  {
  }

  lemma FanOutBegins(scale: Scale, s: System)
    requires !s.panicked && s.control.Receiving?
    ensures Weigh(PipelineHandle(s, AllStagesReady), scale) < Weigh(s, scale) + 1
  {
    IdsSize(|s.stages|);
  }

  lemma PipelineHandleLowers(scale: Scale, s: System, e: PipelineEvent)
    requires Lawful(scale)
    requires !s.panicked && s.control.Receiving?
    ensures Weigh(PipelineHandle(s, e), scale) < Weigh(s, scale) + EventRank(e)
  {
    match e
    case Start => StartEventLowers(scale, s);
    case StageReady(id) => ReadyLowers(scale, s, id);
    case AllStagesReady => FanOutBegins(scale, s);
    case BeginShutdown => BeginShutdownLowers(scale, s);
    case StageDrained(id) => DrainedLowers(scale, s, id);
    case AllStagesDrained => StartEventLowers(scale, s);
  }

  lemma ReportLowers(scale: Scale, s: System, i: nat, g: Stage, l: LogEntry, e: PipelineEvent)
    requires Lawful(scale)
    requires i < |s.stages| && StageRank(g) + 4 <= StageRank(s.stages[i]) && EventRank(e) == 2
    ensures Weigh(Notify(WithStage(Logged(s, l), i, g), e), scale) <= Weigh(s, scale)
  {
    StageChange(scale, s, i, g, l);
    NotifyRaises(scale, WithStage(Logged(s, l), i, g), e);
  }

  lemma ArrivingWeighsNothing(scale: Scale, s: System)
    ensures Weigh(Arrive(s), scale) == Weigh(s, scale)
  {
    assert MainRank(Arrive(s)) == MainRank(s) && ControlRank(Arrive(s)) == ControlRank(s);
  }

  lemma ArriveLowers(scale: Scale, s: System, i: nat)
    requires Lawful(scale)
    requires i < |s.stages| && s.stages[i].control.Selecting? && s.stages[i].state == Materialized
    ensures var g := s.stages[i].(control := Waiting(s.generation));
            Weigh(Arrive(WithStage(Logged(s, StartingProcessing(i)), i, g)), scale) < Weigh(s, scale)
  {
    var g := s.stages[i].(control := Waiting(s.generation));
    StageChange(scale, s, i, g, StartingProcessing(i));
    ArrivingWeighsNothing(scale, WithStage(Logged(s, StartingProcessing(i)), i, g));
    assert StageRank(g) < StageRank(s.stages[i]);
  }

  lemma StepLowers(scale: Scale, s: System, i: nat, g: Stage, l: LogEntry)
    requires Lawful(scale)
    requires i < |s.stages| && StageRank(g) <= StageRank(s.stages[i])
    ensures Weigh(WithStage(Logged(s, l), i, g), scale) <= Weigh(s, scale)
  {
    StageChange(scale, s, i, g, l);
  }

  lemma ProcessLowers(scale: Scale, s: System, i: nat, data: string)
    requires Lawful(scale)
    requires i < |s.stages| && !s.panicked && s.stages[i].control.Selecting?
    ensures Weigh(StageHandle(s, i, ProcessEvent(data)), scale) <= Weigh(s, scale)
  {
    if s.stages[i].state == Running {
      StepLowers(scale, s, i, s.stages[i].(processed := s.stages[i].processed + [data]), Processing(i, data));
    }
  }

  lemma InitializeLowers(scale: Scale, s: System, i: nat)
    requires Lawful(scale)
    requires i < |s.stages| && !s.panicked && s.stages[i].control.Selecting?
    ensures Weigh(StageHandle(s, i, Initialize), scale) <= Weigh(s, scale)
  {
    if s.stages[i].state == Uninitialized {
      StepLowers(scale, s, i, s.stages[i].(state := Materializing, materializing := true), StageInitializing(i));
    }
  }

  lemma MaterializedLowers(scale: Scale, s: System, i: nat)
    requires Lawful(scale)
    requires i < |s.stages| && !s.panicked && s.stages[i].control.Selecting?
    ensures Weigh(StageHandle(s, i, MaterializationComplete), scale) <= Weigh(s, scale)
  {
    if s.stages[i].state == Materializing {
      ReportLowers(scale, s, i, s.stages[i].(state := Materialized), StageMaterialized(i), StageReady(i));
    }
  }

  lemma StageDrainedLowers(scale: Scale, s: System, i: nat)
    requires Lawful(scale)
    requires i < |s.stages| && !s.panicked && s.stages[i].control.Selecting?
    ensures Weigh(StageHandle(s, i, DrainComplete), scale) <= Weigh(s, scale)
  {
    if s.stages[i].state == Draining {
      ReportLowers(scale, s, i, s.stages[i].(state := Drained, control := Exited), StageIsDrained(i), StageDrained(i));
    }
  }

  lemma StartLowers(scale: Scale, s: System, i: nat)
    requires Lawful(scale)
    requires i < |s.stages| && !s.panicked && s.stages[i].control.Selecting?
    ensures Weigh(StageHandle(s, i, StartProcessing), scale) <= Weigh(s, scale)
  {
    if s.stages[i].state == Materialized {
      ArriveLowers(scale, s, i);
    }
  }

  lemma StageHandleLowers(scale: Scale, s: System, i: nat, e: StageEvent)
    requires Lawful(scale)
    requires i < |s.stages| && !s.panicked && s.stages[i].control.Selecting?
    ensures Weigh(StageHandle(s, i, e), scale) <= Weigh(s, scale)
  {
    match e
    case Initialize => InitializeLowers(scale, s, i);
    case MaterializationComplete => MaterializedLowers(scale, s, i);
    case StartProcessing => StartLowers(scale, s, i);
    case ProcessEvent(data) => ProcessLowers(scale, s, i, data);
    case DrainComplete => StageDrainedLowers(scale, s, i);
  }

  lemma ReceiveLowers(scale: Scale, s: System, i: nat)
    requires Lawful(scale)
    requires Enabled(s, StageReceive(i))
    ensures Weigh(Do(s, StageReceive(i)), scale) < Weigh(s, scale)
  {
    var g := s.stages[i].(queue := s.stages[i].queue[1..]);
    StageChange(scale, s, i, g, AllReady);
    assert StageRank(g) == StageRank(s.stages[i]) - 1;
    StageHandleLowers(scale, WithStage(s, i, g), i, s.stages[i].queue[0]);
  }

  /** A spawned or main task sends what it owes a stage. */
  lemma OwedSendLowers(scale: Scale, s: System, i: nat, g: Stage, e: StageEvent)
    requires Lawful(scale)
    requires i < |s.stages| && StageRank(g) + 2 <= StageRank(s.stages[i])
    ensures Weigh(SendTo(WithStage(s, i, g), i, e), scale) < Weigh(s, scale)
  {
    StageChange(scale, s, i, g, AllReady);
    SendToRaises(scale, WithStage(s, i, g), i, e);
  }

  lemma FanOutLowers(scale: Scale, s: System, i: nat)
    requires Lawful(scale)
    requires Enabled(s, SendStart(i))
    ensures Weigh(Do(s, SendStart(i)), scale) < Weigh(s, scale)
  {
    assert |s.control.todo - {i}| == |s.control.todo| - 1;
    SendToRaises(scale, s.(control := FanOut(s.control.todo - {i})), i, StartProcessing);
  }

  lemma ShutdownLowers(scale: Scale, s: System, i: nat)
    requires Lawful(scale)
    requires Enabled(s, StageShutdown(i))
    ensures Weigh(Do(s, StageShutdown(i)), scale) < Weigh(s, scale)
  {
    StageChange(scale, s, i, s.stages[i].(state := Draining, draining := true, shutdown := false), BeginningDrain(i));
  }

  lemma PipelineMoveLowers(scale: Scale, s: System, m: Move)
    requires Lawful(scale)
    requires Enabled(s, m) && (m.PipelineReceive? || m.PipelineArrive? || m.PipelineRelease? || m.Stop?)
    ensures Weigh(Do(s, m), scale) < Weigh(s, scale)
  {
    if m.PipelineReceive? {
      PipelineHandleLowers(scale, s.(queue := s.queue[1..]), s.queue[0]);
    } else if m.Stop? {
      NotifyRaises(scale, s.(stopping := true), BeginShutdown);
    }
  }

  lemma OwedMoveLowers(scale: Scale, s: System, m: Move)
    requires Lawful(scale)
    requires Enabled(s, m) && (m.CompleteMaterialization? || m.CompleteDrain? || m.Feed?)
    ensures Weigh(Do(s, m), scale) < Weigh(s, scale)
  {
    var i := m.stage;
    match m
    case CompleteMaterialization(_) => OwedSendLowers(scale, s, i, s.stages[i].(materializing := false),
        MaterializationComplete);
    case CompleteDrain(_) => OwedSendLowers(scale, s, i, s.stages[i].(draining := false), DrainComplete);
    case Feed(_) => OwedSendLowers(scale, s, i, s.stages[i].(feed := s.stages[i].feed[1..]),
        ProcessEvent(s.stages[i].feed[0]));
  }

  /** The main task's own rank falls by two for each Initialize. */
  lemma InvitingWeighs(scale: Scale, s: System)
    requires s.invited < |s.stages|
    ensures Weigh(s.(invited := s.invited + 1), scale) + 2 == Weigh(s, scale)
  {
    var s' := s.(invited := s.invited + 1);
    assert MainRank(s') + 2 == MainRank(s) && ControlRank(s') == ControlRank(s);
  }

  /** The main task's sends give up more rank than the message brings. */
  lemma MainSendLowers(scale: Scale, s: System, s0: System, i: nat, e: StageEvent)
    requires Lawful(scale) && i < |s0.stages| && Weigh(s0, scale) + 2 == Weigh(s, scale)
    ensures Weigh(SendTo(s0, i, e), scale) < Weigh(s, scale)
  {
    SendToRaises(scale, s0, i, e);
  }

  lemma InviteLowers(scale: Scale, s: System, i: nat)
    requires Lawful(scale)
    requires Enabled(s, Invite(i))
    ensures Weigh(Do(s, Invite(i)), scale) < Weigh(s, scale)
  {
    InvitingWeighs(scale, s);
    var s0 := s.(invited := i + 1);
    MainSendLowers(scale, s, s0, i, Initialize);
    assert Do(s, Invite(i)) == SendTo(s0, i, Initialize);
  }

  lemma LaunchLowers(scale: Scale, s: System)
    requires Lawful(scale)
    requires Enabled(s, Launch)
    ensures Weigh(Do(s, Launch), scale) < Weigh(s, scale)
  {
    NotifyRaises(scale, s.(launched := true), Start);
  }

  lemma ReleaseLowers(scale: Scale, s: System, i: nat)
    requires Lawful(scale)
    requires Enabled(s, StageRelease(i))
    ensures Weigh(Do(s, StageRelease(i)), scale) < Weigh(s, scale)
  {
    StageChange(scale, s, i, s.stages[i].(state := Running, control := Selecting), AllReady);
  }

  /** Every move, orderly or not, lowers the measure. */
  lemma MoveLowers(scale: Scale, s: System, m: Move)
    requires Lawful(scale)
    requires Enabled(s, m)
    ensures Weigh(Do(s, m), scale) < Weigh(s, scale)
  {
    match m
    case SendStart(i) => FanOutLowers(scale, s, i);
    case StageReceive(i) => ReceiveLowers(scale, s, i);
    case StageRelease(i) => ReleaseLowers(scale, s, i);
    case StageShutdown(i) => ShutdownLowers(scale, s, i);
    case CompleteMaterialization(_) => OwedMoveLowers(scale, s, m);
    case CompleteDrain(_) => OwedMoveLowers(scale, s, m);
    case Feed(_) => OwedMoveLowers(scale, s, m);
    case Invite(i) => InviteLowers(scale, s, i);
    case Launch => LaunchLowers(scale, s);
    case _ => PipelineMoveLowers(scale, s, m);
  }

  /** No run is longer than the measure of its first state. */
  lemma {:induction false} RunsAreFinite(s: System, moves: seq<Move>)
    requires IsRun(s, moves)
    ensures |moves| + Measure(After(s, moves)) <= Measure(s)
    decreases |moves|
  {
    if moves != [] {
      SumsAreLawful();
      MoveLowers(SUMS, s, moves[0]);
      RunsAreFinite(Do(s, moves[0]), moves[1..]);
    }
  }
}
