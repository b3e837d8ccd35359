/** The event log, exactly: what each stage and the pipeline have written, in every orderly run. */
module PipelineLog {
  import opened Pipeline
  import opened PipelineInvariant
  import opened PipelineSteps
  import opened PipelineTheorems
  import opened PipelineTrace

  // ---------------------------------------------------------------------------------------------
  // The log of one stage

  predicate About(e: LogEntry, i: nat) {
    match e
    case StageInitializing(k) => k == i
    case StageMaterialized(k) => k == i
    case StartingProcessing(k) => k == i
    case Processing(k, _) => k == i
    case BeginningDrain(k) => k == i
    case StageIsDrained(k) => k == i
    case _ => false
  }

  /** What stage i has written. */
  function OfStage(log: seq<LogEntry>, i: nat): seq<LogEntry> {
    if log == [] then []
    else
      var front := OfStage(log[..|log| - 1], i);
      if About(log[|log| - 1], i) then front + [log[|log| - 1]] else front
  }

  function ProcessingAll(i: nat, data: seq<string>): seq<LogEntry> {
    seq(|data|, k requires 0 <= k < |data| => Processing(i, data[k]))
  }

  /** What a stage that has come this far has written. */
  function Life(i: nat, state: StageState, waiting: bool, processed: seq<string>): seq<LogEntry> {
    var ready := [StageInitializing(i), StageMaterialized(i)];
    match state
    case Uninitialized => []
    case Materializing => [StageInitializing(i)]
    case Materialized => if waiting then ready + [StartingProcessing(i)] else ready
    case Running => ready + [StartingProcessing(i)] + ProcessingAll(i, processed)
    case Draining => ready + [StartingProcessing(i)] + ProcessingAll(i, processed) + [BeginningDrain(i)]
    case Drained =>
      ready + [StartingProcessing(i)] + ProcessingAll(i, processed) + [BeginningDrain(i), StageIsDrained(i)]
  }

  predicate StageLogged(s: System, i: nat)
    requires i < |s.stages|
  {
    var g := s.stages[i];
    && OfStage(s.log, i) == Life(i, g.state, g.control.Waiting?, g.processed)
    && (!Reported(g) || g.state == Materialized ==> g.processed == [])
  }

  predicate StagesLogged(s: System) {
    forall i :: 0 <= i < |s.stages| ==> StageLogged(s, i)
  }

  lemma OfStageSnoc(log: seq<LogEntry>, e: LogEntry, i: nat)
    ensures OfStage(log + [e], i) == if About(e, i) then OfStage(log, i) + [e] else OfStage(log, i)
  {
    assert (log + [e])[..|log|] == log;
  }

  predicate SameView(g: Stage, g': Stage) {
    g'.state == g.state && g'.control.Waiting? == g.control.Waiting? && g'.processed == g.processed
  }

  /** A step that writes nothing about stages and moves none of them on. */
  ghost predicate Aside(s: System, s': System, e: seq<LogEntry>) {
    && s'.log == s.log + e && |e| <= 1 && |s'.stages| == |s.stages|
    && (forall i: nat :: e != [] ==> !About(e[0], i))
    && forall i :: 0 <= i < |s.stages| ==> SameView(s.stages[i], s'.stages[i])
  }

  lemma AsideLogged(s: System, s': System, e: seq<LogEntry>)
    requires StagesLogged(s) && Aside(s, s', e)
    ensures StagesLogged(s')
  {
    forall i | 0 <= i < |s'.stages| ensures StageLogged(s', i) {
      assert StageLogged(s, i);
      if e == [] {
        assert s'.log == s.log;
      } else {
        assert e == [e[0]];
        OfStageSnoc(s.log, e[0], i);
      }
    }
  }

  /** A step of stage k alone that writes the entry e about it. */
  ghost predicate StageStep(s: System, s': System, k: nat, e: LogEntry) {
    && k < |s.stages| == |s'.stages| && s'.log == s.log + [e] && (forall i: nat :: About(e, i) <==> i == k)
    && forall i :: 0 <= i < |s.stages| && i != k ==> SameView(s.stages[i], s'.stages[i])
  }

  lemma StageStepLogged(s: System, s': System, k: nat, e: LogEntry)
    requires StagesLogged(s) && StageStep(s, s', k, e)
    requires var g, g' := s.stages[k], s'.stages[k];
             && Life(k, g'.state, g'.control.Waiting?, g'.processed)
                == Life(k, g.state, g.control.Waiting?, g.processed) + [e]
             && (g.processed == [] && (!Reported(g') || g'.state == Materialized) ==> g'.processed == [])
             && (!Reported(g') || g'.state == Materialized ==> !Reported(g) || g.state == Materialized)
    ensures StagesLogged(s')
  {
    forall i | 0 <= i < |s'.stages| ensures StageLogged(s', i) {
      assert StageLogged(s, i);
      OfStageSnoc(s.log, e, i);
    }
  }

  lemma InitializingLogged(s: System, i: nat)
    requires Inv(s) && StagesLogged(s) && Enabled(s, StageReceive(i)) && s.stages[i].state == Uninitialized
    ensures StagesLogged(Do(s, StageReceive(i)))
  {
    assert StageOk(s, i) && StageLogged(s, i);
    ReceiveShape(s, i);
    StageStepLogged(s, Do(s, StageReceive(i)), i, StageInitializing(i));
  }

  lemma StartingLogged(s: System, i: nat)
    requires Inv(s) && StagesLogged(s) && Enabled(s, StageReceive(i)) && s.stages[i].state == Materialized
    ensures StagesLogged(Do(s, StageReceive(i)))
  {
    assert StageOk(s, i) && StageLogged(s, i);
    ReceiveShape(s, i);
    StageStepLogged(s, Do(s, StageReceive(i)), i, StartingProcessing(i));
  }

  lemma ReadyEffects(s: System, i: nat)
    requires Enabled(s, StageReceive(i)) && ReportsReady(s.stages[i]) && !Do(s, StageReceive(i)).panicked
    ensures var s' := Do(s, StageReceive(i));
            && s'.log == s.log + [StageMaterialized(i)] && i < |s'.stages| && s'.stages[i].state == Materialized
            && s'.stages[i].control == s.stages[i].control
  {
  }

  lemma ReadyLogged(s: System, i: nat)
    requires Inv(s) && StagesLogged(s) && Enabled(s, StageReceive(i)) && s.stages[i].state == Materializing
    requires !Do(s, StageReceive(i)).panicked
    ensures StagesLogged(Do(s, StageReceive(i)))
  {
    assert StageOk(s, i) && StageLogged(s, i);
    ReceiveShape(s, i);
    ReadyEffects(s, i);
    ReadyStep(s, Do(s, StageReceive(i)), i);
  }

  lemma ReadyStep(s: System, s': System, i: nat)
    requires StagesLogged(s) && OnlyStageReceives(s, s', i) && s'.log == s.log + [StageMaterialized(i)]
    requires s.stages[i].state == Materializing && s.stages[i].control.Selecting?
    requires s'.stages[i].state == Materialized && s'.stages[i].control == s.stages[i].control
    ensures StagesLogged(s')
  {
    assert StageLogged(s, i);
    StageStepLogged(s, s', i, StageMaterialized(i));
  }

  lemma DrainedLogged(s: System, i: nat)
    requires Inv(s) && StagesLogged(s) && Enabled(s, StageReceive(i)) && s.stages[i].state == Draining
    requires !Do(s, StageReceive(i)).panicked
    ensures StagesLogged(Do(s, StageReceive(i)))
  {
    assert StageOk(s, i) && StageLogged(s, i);
    ReceiveShape(s, i);
    var before := Life(i, Draining, false, s.stages[i].processed);
    assert Life(i, Drained, false, s.stages[i].processed) == before + [StageIsDrained(i)];
    StageStepLogged(s, Do(s, StageReceive(i)), i, StageIsDrained(i));
  }

  lemma ProcessingLogged(s: System, i: nat)
    requires Inv(s) && StagesLogged(s) && Enabled(s, StageReceive(i)) && s.stages[i].state == Running
    ensures StagesLogged(Do(s, StageReceive(i)))
  {
    assert StageOk(s, i) && StageLogged(s, i);
    ReceiveShape(s, i);
    var g, data := s.stages[i], s.stages[i].queue[0].data;
    assert ProcessingAll(i, g.processed + [data]) == ProcessingAll(i, g.processed) + [Processing(i, data)];
    StageStepLogged(s, Do(s, StageReceive(i)), i, Processing(i, data));
  }

  lemma DrainLogged(s: System, i: nat)
    requires Inv(s) && StagesLogged(s) && Enabled(s, StageShutdown(i)) && s.stages[i].state == Running
    ensures StagesLogged(Do(s, StageShutdown(i)))
  {
    assert StageOk(s, i) && StageLogged(s, i);
    StageStepLogged(s, Do(s, StageShutdown(i)), i, BeginningDrain(i));
  }

  /** Released from the barrier, a stage is Running with nothing processed. */
  lemma ReleaseLogged(s: System, i: nat)
    requires Inv(s) && StagesLogged(s) && Enabled(s, StageRelease(i))
    ensures StagesLogged(Do(s, StageRelease(i)))
  {
    assert StageOk(s, i);
    var s' := Do(s, StageRelease(i));
    forall j | 0 <= j < |s'.stages| ensures StageLogged(s', j) {
      assert StageLogged(s, j);
      assert ProcessingAll(i, []) == [];
    }
  }

  // ---------------------------------------------------------------------------------------------
  // The log of the pipeline

  predicate OwnEntry(e: LogEntry) {
    e.PipelineStarting? || e.PipelineSawReady? || e.AllReady? || e.BeginningShutdown? || e.PipelineSawDrained?
    || e.AllDrained?
  }

  /** What the pipeline has written. */
  function OfPipeline(log: seq<LogEntry>): seq<LogEntry> {
    if log == [] then []
    else
      var front := OfPipeline(log[..|log| - 1]);
      if OwnEntry(log[|log| - 1]) then front + [log[|log| - 1]] else front
  }

  lemma OfPipelineSnoc(log: seq<LogEntry>, e: LogEntry)
    ensures OfPipeline(log + [e]) == if OwnEntry(e) then OfPipeline(log) + [e] else OfPipeline(log)
  {
    assert (log + [e])[..|log|] == log;
  }

  function SawReady(order: seq<nat>): seq<LogEntry> {
    seq(|order|, k requires 0 <= k < |order| => PipelineSawReady(order[k]))
  }

  function SawDrained(order: seq<nat>): seq<LogEntry> {
    seq(|order|, k requires 0 <= k < |order| => PipelineSawDrained(order[k]))
  }

  function If(b: bool, e: LogEntry): seq<LogEntry> {
    if b then [e] else []
  }

  /** What a pipeline that has come this far has written, given the order in which it has heard of the stages. */
  function Annals(s: System, ready: seq<nat>, drained: seq<nat>): seq<LogEntry> {
    If(!s.state.Initializing?, PipelineStarting) + SawReady(ready) + If(PastReady(s), AllReady)
    + If(ToldAll(s), BeginningShutdown) + SawDrained(drained) + If(s.state.Shutdown?, AllDrained)
  }

  /** The order lists each member once. */
  ghost predicate Lists(order: seq<nat>, members: set<nat>) {
    Distinct(order) && |order| == |members| && forall i :: i in order <==> i in members
  }

  ghost predicate PipelineLogged(s: System, ready: seq<nat>, drained: seq<nat>) {
    OfPipeline(s.log) == Annals(s, ready, drained) && Lists(ready, s.ready) && Lists(drained, s.drained)
  }

  /** A step that changes nothing the pipeline's own entries depend on. */
  lemma PipelineStays(s: System, s': System, e: seq<LogEntry>, ready: seq<nat>, drained: seq<nat>)
    requires PipelineLogged(s, ready, drained) && s'.log == s.log + e && |e| <= 1 && (e != [] ==> !OwnEntry(e[0]))
    requires s'.state.Initializing? == s.state.Initializing? && PastReady(s') == PastReady(s)
    requires ToldAll(s') == ToldAll(s) && s'.state.Shutdown? == s.state.Shutdown?
    requires s'.ready == s.ready && s'.drained == s.drained
    ensures PipelineLogged(s', ready, drained)
  {
    if e == [] {
      assert s'.log == s.log;
    } else {
      assert e == [e[0]];
      OfPipelineSnoc(s.log, e[0]);
    }
  }

  lemma ListsNothing(order: seq<nat>, members: set<nat>)
    requires Lists(order, members) && members == {}
    ensures order == []
  {
  }

  lemma ListsOneMore(order: seq<nat>, members: set<nat>, i: nat)
    requires Lists(order, members) && i !in members
    ensures Lists(order + [i], members + {i})
  {
    assert forall a :: 0 <= a < |order| ==> order[a] in order;
  }

  /** Nobody is drained before all have been told to. */
  lemma NobodyDrained(s: System, drained: seq<nat>)
    requires Inv(s) && !ToldAll(s) && Lists(drained, s.drained)
    ensures drained == []
  {
    forall i | 0 <= i < |s.stages| ensures s.stages[i].state != Drained {
      assert StageOk(s, i);
    }
    ListsNothing(drained, s.drained);
  }

  /** The pipeline has written e, and is now here. */
  predicate Becomes(s: System, s': System, e: LogEntry, state: PipelineState, fanningOut: bool, ready: set<nat>,
                    drained: set<nat>) {
    && s'.log == s.log + [e] && s'.state == state && s'.control.FanOut? == fanningOut && s'.ready == ready
    && s'.drained == drained
  }

  lemma StartEffect(s: System)
    requires Enabled(s, PipelineReceive) && s.queue[0] == Start && s.state == Initializing
    ensures Becomes(s, Do(s, PipelineReceive), PipelineStarting, WaitingForStages, false, s.ready, s.drained)
  {
  }

  lemma ReadyEffect(s: System, i: nat)
    requires Enabled(s, PipelineReceive) && s.queue[0] == StageReady(i) && s.state == WaitingForStages
    ensures Becomes(s, Do(s, PipelineReceive), PipelineSawReady(i), WaitingForStages, false, s.ready + {i}, s.drained)
  {
  }

  lemma AllReadyEffect(s: System)
    requires Enabled(s, PipelineReceive) && s.queue[0] == AllStagesReady && s.state == WaitingForStages
    ensures Becomes(s, Do(s, PipelineReceive), AllReady, WaitingForStages, true, s.ready, s.drained)
  {
  }

  lemma ShutdownEffect(s: System)
    requires Enabled(s, PipelineReceive) && s.queue[0] == BeginShutdown && s.state == PipelineRunning
    requires forall j :: 0 <= j < |s.stages| ==> !s.stages[j].control.Exited?
    ensures Becomes(s, Do(s, PipelineReceive), BeginningShutdown, PipelineDraining, false, s.ready, s.drained)
  {
  }

  lemma DrainedEffect(s: System, i: nat)
    requires Enabled(s, PipelineReceive) && s.queue[0] == StageDrained(i) && s.state == PipelineDraining
    ensures Becomes(s, Do(s, PipelineReceive), PipelineSawDrained(i), PipelineDraining, false, s.ready, s.drained + {i})
  {
  }

  lemma AllDrainedEffect(s: System)
    requires Enabled(s, PipelineReceive) && s.queue[0] == AllStagesDrained && s.state == PipelineDraining
    ensures Becomes(s, Do(s, PipelineReceive), AllDrained, Shutdown, false, s.ready, s.drained)
  {
  }

  /** The event the pipeline takes has its entry written, and takes the pipeline to this point. */
  predicate Receives(s: System, s': System) {
    s.queue != [] &&
    match s.queue[0]
    case Start =>
      s.state == Initializing && Becomes(s, s', PipelineStarting, WaitingForStages, false, s.ready, s.drained)
    case StageReady(i) =>
      && s.state == WaitingForStages && i !in s.ready
      && Becomes(s, s', PipelineSawReady(i), WaitingForStages, false, s.ready + {i}, s.drained)
    case AllStagesReady =>
      s.state == WaitingForStages && Becomes(s, s', AllReady, WaitingForStages, true, s.ready, s.drained)
    case BeginShutdown =>
      s.state == PipelineRunning && Becomes(s, s', BeginningShutdown, PipelineDraining, false, s.ready, s.drained)
    case StageDrained(i) =>
      && s.state == PipelineDraining && i !in s.drained
      && Becomes(s, s', PipelineSawDrained(i), PipelineDraining, false, s.ready, s.drained + {i})
    case AllStagesDrained =>
      s.state == PipelineDraining && Becomes(s, s', AllDrained, Shutdown, false, s.ready, s.drained)
  }

  lemma SignalReceived(s: System)
    requires Inv(s) && Enabled(s, PipelineReceive) && (s.queue[0] == Start || s.queue[0] == BeginShutdown)
    ensures Receives(s, Do(s, PipelineReceive))
  {
    assert Expected(s, s.queue[0]);
    if s.queue[0] == Start {
      StartEffect(s);
    } else {
      forall j | 0 <= j < |s.stages| ensures !s.stages[j].control.Exited? {
        assert StageOk(s, j);
      }
      ShutdownEffect(s);
    }
  }

  lemma ReportReceived(s: System, i: nat)
    requires Inv(s) && Enabled(s, PipelineReceive) && (s.queue[0] == StageReady(i) || s.queue[0] == StageDrained(i))
    ensures Receives(s, Do(s, PipelineReceive))
  {
    assert Expected(s, s.queue[0]) && StageOk(s, i);
    FullSet(s.ready, |s.stages|);
    FullSet(s.drained, |s.stages|);
    if s.queue[0] == StageReady(i) {
      ReadyEffect(s, i);
    } else {
      DrainedEffect(s, i);
    }
  }

  lemma EventReceived(s: System)
    requires Inv(s) && Enabled(s, PipelineReceive)
    ensures Receives(s, Do(s, PipelineReceive))
  {
    assert Expected(s, s.queue[0]);
    match s.queue[0]
    case StageReady(i) => ReportReceived(s, i);
    case StageDrained(i) => ReportReceived(s, i);
    case AllStagesReady => AllReadyEffect(s);
    case AllStagesDrained => AllDrainedEffect(s);
    case _ => SignalReceived(s);
  }

  /** What has not been heard yet. */
  lemma Unheard(s: System, ready: seq<nat>, drained: seq<nat>)
    requires Inv(s) && PipelineLogged(s, ready, drained)
    ensures s.state == Initializing ==> ready == []
    ensures !ToldAll(s) ==> drained == []
  {
    if s.state == Initializing {
      ListsNothing(ready, s.ready);
    }
    if !ToldAll(s) {
      NobodyDrained(s, drained);
    }
  }

  lemma StartAnnals(s: System, s': System)
    requires PipelineLogged(s, [], []) && s.state == Initializing && s.control.Receiving?
    requires Becomes(s, s', PipelineStarting, WaitingForStages, false, s.ready, s.drained)
    ensures PipelineLogged(s', [], [])
  {
    OfPipelineSnoc(s.log, PipelineStarting);
    assert Annals(s, [], []) == [];
    assert Annals(s', [], []) == [PipelineStarting];
  }

  /** The annals while stages report, and while they drain. */
  lemma AnnalsSoFar(s: System, ready: seq<nat>, drained: seq<nat>)
    ensures s.state == WaitingForStages && !s.control.FanOut? && drained == [] ==>
              Annals(s, ready, drained) == [PipelineStarting] + SawReady(ready)
    ensures s.state == PipelineDraining && !s.control.FanOut? ==>
              Annals(s, ready, drained)
              == [PipelineStarting] + SawReady(ready) + [AllReady] + [BeginningShutdown] + SawDrained(drained)
  {
  }

  lemma ShutdownAnnals(s: System, s': System, ready: seq<nat>)
    requires PipelineLogged(s, ready, []) && s.state == PipelineRunning
    requires Becomes(s, s', BeginningShutdown, PipelineDraining, false, s.ready, s.drained)
    ensures PipelineLogged(s', ready, [])
  {
    OfPipelineSnoc(s.log, BeginningShutdown);
    assert Annals(s', ready, []) == Annals(s, ready, []) + [BeginningShutdown];
  }

  lemma AllReadyAnnals(s: System, s': System, ready: seq<nat>)
    requires PipelineLogged(s, ready, []) && s.state == WaitingForStages && s.control.Receiving?
    requires Becomes(s, s', AllReady, WaitingForStages, true, s.ready, s.drained)
    ensures PipelineLogged(s', ready, [])
  {
    OfPipelineSnoc(s.log, AllReady);
    AnnalsSoFar(s, ready, []);
    assert Annals(s', ready, []) == [PipelineStarting] + SawReady(ready) + [AllReady];
  }

  lemma AllDrainedAnnals(s: System, s': System, ready: seq<nat>, drained: seq<nat>)
    requires PipelineLogged(s, ready, drained) && s.state == PipelineDraining
    requires Becomes(s, s', AllDrained, Shutdown, false, s.ready, s.drained)
    ensures PipelineLogged(s', ready, drained)
  {
    OfPipelineSnoc(s.log, AllDrained);
    assert Annals(s', ready, drained) == Annals(s, ready, drained) + [AllDrained];
  }

  lemma SawReadySnoc(ready: seq<nat>, i: nat)
    ensures SawReady(ready + [i]) == SawReady(ready) + [PipelineSawReady(i)]
  {
  }

  lemma SawDrainedSnoc(drained: seq<nat>, i: nat)
    ensures SawDrained(drained + [i]) == SawDrained(drained) + [PipelineSawDrained(i)]
  {
  }

  lemma ReadyAnnals(s: System, s': System, i: nat, ready: seq<nat>)
    requires PipelineLogged(s, ready, []) && s.state == WaitingForStages && s.control.Receiving? && i !in s.ready
    requires Becomes(s, s', PipelineSawReady(i), WaitingForStages, false, s.ready + {i}, s.drained)
    ensures PipelineLogged(s', ready + [i], [])
  {
    var before := [PipelineStarting] + SawReady(ready);
    OfPipelineSnoc(s.log, PipelineSawReady(i));
    ListsOneMore(ready, s.ready, i);
    assert Annals(s, ready, []) == before by { AnnalsSoFar(s, ready, []); }
    assert Annals(s', ready + [i], []) == before + [PipelineSawReady(i)] by {
      AnnalsSoFar(s', ready + [i], []);
      SawReadySnoc(ready, i);
    }
  }

  lemma DrainedAnnals(s: System, s': System, i: nat, ready: seq<nat>, drained: seq<nat>)
    requires PipelineLogged(s, ready, drained) && s.state == PipelineDraining && s.control.Receiving?
             && i !in s.drained
    requires Becomes(s, s', PipelineSawDrained(i), PipelineDraining, false, s.ready, s.drained + {i})
    ensures PipelineLogged(s', ready, drained + [i])
  {
    var before := [PipelineStarting] + SawReady(ready) + [AllReady] + [BeginningShutdown] + SawDrained(drained);
    OfPipelineSnoc(s.log, PipelineSawDrained(i));
    ListsOneMore(drained, s.drained, i);
    assert Annals(s, ready, drained) == before by { AnnalsSoFar(s, ready, drained); }
    assert Annals(s', ready, drained + [i]) == before + [PipelineSawDrained(i)] by {
      AnnalsSoFar(s', ready, drained + [i]);
      SawDrainedSnoc(drained, i);
    }
  }

  // ---------------------------------------------------------------------------------------------
  // Every move

  lemma ReceiveAnnals(s: System, s': System, ready: seq<nat>, drained: seq<nat>)
    returns (ready': seq<nat>, drained': seq<nat>)
    requires Inv(s) && PipelineLogged(s, ready, drained) && s.control.Receiving? && Receives(s, s')
    ensures PipelineLogged(s', ready', drained')
  {
    ready', drained' := ready, drained;
    Unheard(s, ready, drained);
    match s.queue[0]
    case StageReady(i) =>
      ReadyAnnals(s, s', i, ready);
      ready' := ready + [i];
    case StageDrained(i) =>
      DrainedAnnals(s, s', i, ready, drained);
      drained' := drained + [i];
    case Start => StartAnnals(s, s');
    case BeginShutdown => ShutdownAnnals(s, s', ready);
    case AllStagesReady => AllReadyAnnals(s, s', ready);
    case AllStagesDrained => AllDrainedAnnals(s, s', ready, drained);
  }

  /** What the pipeline writes is not about stages, and moves none on. */
  lemma ReceiveIsAside(s: System)
    requires StagesLogged(s) && Enabled(s, PipelineReceive) && Receives(s, Do(s, PipelineReceive))
    ensures StagesLogged(Do(s, PipelineReceive))
  {
    PipelineLeavesStages(s.(queue := s.queue[1..]), s.queue[0]);
    WritesAside(s, Do(s, PipelineReceive));
  }

  lemma WritesAside(s: System, s': System)
    requires StagesLogged(s) && Receives(s, s') && (s'.stages == s.stages || s'.stages == Told(s.stages))
    ensures StagesLogged(s')
  {
    AsideLogged(s, s', [s'.log[|s.log|]]);
  }

  /** Nothing written, no stage moved on, nothing changed that the pipeline's entries depend on. */
  ghost predicate Quiet(s: System, s': System) {
    && Aside(s, s', []) && s'.state.Initializing? == s.state.Initializing? && PastReady(s') == PastReady(s)
    && ToldAll(s') == ToldAll(s) && s'.state.Shutdown? == s.state.Shutdown?
    && s'.ready == s.ready && s'.drained == s.drained
  }

  lemma QuietSend(s: System, s0: System, i: nat, e: StageEvent)
    requires i < |s.stages| && |s0.stages| == |s.stages| && !SendTo(s0, i, e).panicked
    requires s0 == s.(stages := s0.stages, control := s0.control, invited := s0.invited)
    requires s0.control.FanOut? == s.control.FanOut?
    requires forall j :: 0 <= j < |s.stages| ==> SameView(s.stages[j], s0.stages[j])
    ensures Quiet(s, SendTo(s0, i, e))
  {
    assert s.log + [] == s.log;
  }

  lemma QuietMainSends(s: System, m: Move)
    requires Enabled(s, m) && (m.SendStart? || m.Invite? || m.Feed?) && !Do(s, m).panicked
    ensures Quiet(s, Do(s, m))
  {
    var i := m.stage;
    if m.Invite? {
      QuietSend(s, s.(invited := i + 1), i, Initialize);
    } else if m.SendStart? {
      QuietSend(s, s.(control := FanOut(s.control.todo - {i})), i, StartProcessing);
    } else {
      var g := s.stages[i];
      QuietSend(s, WithStage(s, i, g.(feed := g.feed[1..])), i, ProcessEvent(g.feed[0]));
    }
  }

  lemma QuietCompletions(s: System, m: Move)
    requires Enabled(s, m) && (m.CompleteMaterialization? || m.CompleteDrain?) && !Do(s, m).panicked
    ensures Quiet(s, Do(s, m))
  {
    var i := m.stage;
    if m.CompleteMaterialization? {
      QuietSend(s, WithStage(s, i, s.stages[i].(materializing := false)), i, MaterializationComplete);
    } else {
      QuietSend(s, WithStage(s, i, s.stages[i].(draining := false)), i, DrainComplete);
    }
  }

  lemma QuietSignals(s: System, m: Move)
    requires Inv(s) && Enabled(s, m) && (m.PipelineArrive? || m.PipelineRelease? || m.Launch? || m.Stop?)
    ensures Quiet(s, Do(s, m))
  {
    assert s.log + [] == s.log;
  }

  /** Moves that write nothing. */
  predicate Silent(m: Move) {
    !m.PipelineReceive? && !m.StageReceive? && !m.StageShutdown? && !m.StageRelease?
  }

  lemma SilentKeeps(s: System, m: Move, ready: seq<nat>, drained: seq<nat>)
    requires Inv(s) && StagesLogged(s) && PipelineLogged(s, ready, drained) && Enabled(s, m) && Silent(m)
    requires !Do(s, m).panicked
    ensures StagesLogged(Do(s, m)) && PipelineLogged(Do(s, m), ready, drained)
  {
    if m.SendStart? || m.Invite? || m.Feed? {
      QuietMainSends(s, m);
    } else if m.CompleteMaterialization? || m.CompleteDrain? {
      QuietCompletions(s, m);
    } else {
      QuietSignals(s, m);
    }
    QuietKeeps(s, Do(s, m), ready, drained);
  }

  lemma QuietKeeps(s: System, s': System, ready: seq<nat>, drained: seq<nat>)
    requires StagesLogged(s) && PipelineLogged(s, ready, drained) && Quiet(s, s')
    ensures StagesLogged(s') && PipelineLogged(s', ready, drained)
  {
    AsideLogged(s, s', []);
    PipelineStays(s, s', [], ready, drained);
  }

  /** What a stage does is written in an entry of its own. */
  predicate Noted(s: System, s': System) {
    |s'.log| == |s.log| + 1 && s'.log[..|s.log|] == s.log && !OwnEntry(s'.log[|s.log|])
  }

  lemma ReportNoted(s: System, i: nat)
    requires Enabled(s, StageReceive(i)) && Reports(s.stages[i]) && !Do(s, StageReceive(i)).panicked
    ensures Noted(s, Do(s, StageReceive(i)))
  {
  }

  lemma ProcessingNoted(s: System, i: nat)
    requires Enabled(s, StageReceive(i)) && s.stages[i].state == Running && !Do(s, StageReceive(i)).panicked
    ensures Noted(s, Do(s, StageReceive(i)))
  {
  }

  lemma StartNoted(s: System, i: nat)
    requires Enabled(s, StageReceive(i)) && !Reports(s.stages[i]) && s.stages[i].state != Running
    requires !Do(s, StageReceive(i)).panicked
    ensures Noted(s, Do(s, StageReceive(i)))
  {
  }

  lemma StageReceiveAnnals(s: System, i: nat, ready: seq<nat>, drained: seq<nat>)
    requires PipelineLogged(s, ready, drained) && Enabled(s, StageReceive(i)) && !Do(s, StageReceive(i)).panicked
    ensures PipelineLogged(Do(s, StageReceive(i)), ready, drained)
  {
    var s' := Do(s, StageReceive(i));
    ReceiveShape(s, i);
    if Reports(s.stages[i]) {
      ReportNoted(s, i);
    } else if s.stages[i].state == Running {
      ProcessingNoted(s, i);
    } else {
      StartNoted(s, i);
    }
    PipelineStays(s, s', [s'.log[|s.log|]], ready, drained);
  }

  /** A stage's own moves write nothing for the pipeline. */
  lemma StageMoveAnnals(s: System, m: Move, ready: seq<nat>, drained: seq<nat>)
    requires PipelineLogged(s, ready, drained) && Enabled(s, m) && !Do(s, m).panicked
    requires m.StageReceive? || m.StageRelease? || (m.StageShutdown? && s.stages[m.stage].state == Running)
    ensures PipelineLogged(Do(s, m), ready, drained)
  {
    if m.StageRelease? {
      assert s.log + [] == s.log;
      PipelineStays(s, Do(s, m), [], ready, drained);
    } else if m.StageShutdown? {
      PipelineStays(s, Do(s, m), [BeginningDrain(m.stage)], ready, drained);
    } else {
      StageReceiveAnnals(s, m.stage, ready, drained);
    }
  }

  lemma StageMoveLogged(s: System, m: Move)
    requires Inv(s) && StagesLogged(s) && Enabled(s, m) && Inv(Do(s, m))
    requires m.StageReceive? || m.StageRelease? || (m.StageShutdown? && s.stages[m.stage].state == Running)
    ensures StagesLogged(Do(s, m))
  {
    var i := m.stage;
    assert StageOk(s, i);
    if m.StageRelease? {
      ReleaseLogged(s, i);
    } else if m.StageShutdown? {
      DrainLogged(s, i);
    } else {
      match s.stages[i].state
      case Running => ProcessingLogged(s, i);
      case Materializing => ReadyLogged(s, i);
      case Draining => DrainedLogged(s, i);
      case Uninitialized => InitializingLogged(s, i);
      case Materialized => StartingLogged(s, i);
    }
  }

  lemma MoveWrites(s: System, m: Move, ready: seq<nat>, drained: seq<nat>)
    returns (ready': seq<nat>, drained': seq<nat>)
    requires Inv(s) && StagesLogged(s) && PipelineLogged(s, ready, drained) && Enabled(s, m) && Orderly(s, m)
    ensures StagesLogged(Do(s, m)) && PipelineLogged(Do(s, m), ready', drained')
  {
    ready', drained' := ready, drained;
    MoveKeeps(s, m);
    if m.PipelineReceive? {
      EventReceived(s);
      ReceiveIsAside(s);
      ready', drained' := ReceiveAnnals(s, Do(s, m), ready, drained);
    } else if Silent(m) {
      SilentKeeps(s, m, ready, drained);
    } else {
      assert StageOk(s, m.stage);
      StageMoveLogged(s, m);
      StageMoveAnnals(s, m, ready, drained);
    }
  }

  // ---------------------------------------------------------------------------------------------
  // The main task

  /** Initialize goes to every stage, then Start, then the data stage by stage, then BeginShutdown. */
  predicate Programmed(s: System, feeds: seq<seq<string>>) {
    && |s.stages| == |feeds| && s.invited <= |feeds|
    && (s.launched ==> s.invited == |feeds|)
    && (forall i :: 0 <= i < |feeds| && s.stages[i].feed != feeds[i] ==> s.launched)
    && (forall i, j :: 0 <= i < j < |feeds| && s.stages[j].feed != feeds[j] ==> s.stages[i].feed == [])
    && (s.stopping ==> s.launched && forall i :: 0 <= i < |feeds| ==> s.stages[i].feed == [])
  }

  /** No other task feeds, invites, launches or stops. */
  predicate MainStays(s: System, s': System) {
    && s'.capacity == s.capacity
    && |s'.stages| == |s.stages| && s'.invited == s.invited && s'.launched == s.launched && s'.stopping == s.stopping
    && forall i :: 0 <= i < |s.stages| ==> s'.stages[i].feed == s.stages[i].feed
  }

  lemma ReadyLeavesMain(s: System, i: nat)
    ensures MainStays(s, PipelineHandle(s, StageReady(i)))
  {
  }

  lemma DrainedLeavesMain(s: System, i: nat)
    ensures MainStays(s, PipelineHandle(s, StageDrained(i)))
  {
  }

  lemma ShutdownLeavesMain(s: System)
    ensures MainStays(s, PipelineHandle(s, BeginShutdown))
  {
    ShutdownTellsStages(s);
  }

  lemma HandleLeavesMain(s: System, e: PipelineEvent)
    ensures MainStays(s, PipelineHandle(s, e))
  {
    match e
    case StageReady(i) => ReadyLeavesMain(s, i);
    case StageDrained(i) => DrainedLeavesMain(s, i);
    case BeginShutdown => ShutdownLeavesMain(s);
    case _ =>
  }

  lemma OthersLeaveMain(s: System, m: Move)
    requires Enabled(s, m) && !Do(s, m).panicked && !m.Invite? && !m.Launch? && !m.Feed? && !m.Stop?
    ensures MainStays(s, Do(s, m))
  {
    if m.PipelineReceive? {
      HandleLeavesMain(s.(queue := s.queue[1..]), s.queue[0]);
    } else if m.StageReceive? {
      ReceiveShape(s, m.stage);
    } else if m.CompleteMaterialization? || m.CompleteDrain? || m.SendStart? {
      CompletionsLeaveMain(s, m);
    }
  }

  lemma CompletionsLeaveMain(s: System, m: Move)
    requires Enabled(s, m) && !Do(s, m).panicked && (m.CompleteMaterialization? || m.CompleteDrain? || m.SendStart?)
    ensures MainStays(s, Do(s, m))
  {
  }

  lemma FeedIsProgrammed(s: System, feeds: seq<seq<string>>, i: nat)
    requires Programmed(s, feeds) && Enabled(s, Feed(i)) && !Do(s, Feed(i)).panicked
    ensures Programmed(Do(s, Feed(i)), feeds)
  {
    var s' := Do(s, Feed(i));
    assert forall j :: 0 <= j < |feeds| && j != i ==> s'.stages[j].feed == s.stages[j].feed;
    assert s'.stages[i].feed == s.stages[i].feed[1..];
  }

  lemma MoveIsProgrammed(s: System, feeds: seq<seq<string>>, m: Move)
    requires Programmed(s, feeds) && Enabled(s, m) && !Do(s, m).panicked
    ensures Programmed(Do(s, m), feeds)
  {
    match m
    case Feed(i) => FeedIsProgrammed(s, feeds, i);
    case Invite(_) =>
      assert forall j :: 0 <= j < |feeds| ==> Do(s, m).stages[j].feed == s.stages[j].feed;
    case Launch =>
    case Stop =>
    case _ => OthersLeaveMain(s, m);
  }

  // ---------------------------------------------------------------------------------------------
  // Bounded queues

  /** No channel holds more than its capacity. */
  predicate Bounded(s: System) {
    |s.queue| <= s.capacity && forall i :: 0 <= i < |s.stages| ==> |s.stages[i].queue| <= s.capacity
  }

  lemma SendIsBounded(s: System, s0: System, i: nat, e: StageEvent)
    requires Bounded(s) && i < |s.stages| && HasRoom(s.stages[i].queue, s.capacity)
    requires s0.capacity == s.capacity && s0.queue == s.queue && |s0.stages| == |s.stages|
    requires forall j :: 0 <= j < |s.stages| ==> s0.stages[j].queue == s.stages[j].queue
    ensures Bounded(SendTo(s0, i, e))
  {
  }

  lemma SendsAreBounded(s: System, m: Move)
    requires Bounded(s) && Enabled(s, m)
    requires m.SendStart? || m.Invite? || m.Feed? || m.CompleteMaterialization? || m.CompleteDrain?
    ensures Bounded(Do(s, m))
  {
    var i := m.stage;
    var g := s.stages[i];
    match m
    case SendStart(_) => SendIsBounded(s, s.(control := FanOut(s.control.todo - {i})), i, StartProcessing);
    case Invite(_) => SendIsBounded(s, s.(invited := i + 1), i, Initialize);
    case Feed(_) => SendIsBounded(s, WithStage(s, i, g.(feed := g.feed[1..])), i, ProcessEvent(g.feed[0]));
    case CompleteMaterialization(_) =>
      SendIsBounded(s, WithStage(s, i, g.(materializing := false)), i, MaterializationComplete);
    case CompleteDrain(_) => SendIsBounded(s, WithStage(s, i, g.(draining := false)), i, DrainComplete);
  }

  lemma ReceiveIsBounded(s: System)
    requires Inv(s) && Bounded(s) && Enabled(s, PipelineReceive) && PipelineOk(Do(s, PipelineReceive))
    ensures Bounded(Do(s, PipelineReceive))
  {
    var s' := Do(s, PipelineReceive);
    PipelineLeavesStages(s.(queue := s.queue[1..]), s.queue[0]);
    HandleLeavesMain(s.(queue := s.queue[1..]), s.queue[0]);
    forall i | 0 <= i < |s'.stages| ensures |s'.stages[i].queue| <= s'.capacity {
      assert s'.stages[i].queue == s.stages[i].queue;
    }
  }

  /** A stage reports only into a queue with room. */
  lemma StageReceiveIsBounded(s: System, i: nat)
    requires Bounded(s) && Enabled(s, StageReceive(i)) && Inv(Do(s, StageReceive(i)))
    ensures Bounded(Do(s, StageReceive(i)))
  {
    ReceiveShape(s, i);
  }

  lemma MoveIsBounded(s: System, m: Move)
    requires Inv(s) && Bounded(s) && Enabled(s, m) && Orderly(s, m)
    ensures Bounded(Do(s, m))
  {
    MoveKeeps(s, m);
    if m.PipelineReceive? {
      ReceiveIsBounded(s);
    } else if m.StageReceive? {
      StageReceiveIsBounded(s, m.stage);
    } else if m.SendStart? || m.Invite? || m.Feed? || m.CompleteMaterialization? || m.CompleteDrain? {
      SendsAreBounded(s, m);
    } else {
      assert m.StageShutdown? ==> StageOk(s, m.stage);
      ControlIsBounded(s, m);
    }
  }

  lemma ControlIsBounded(s: System, m: Move)
    requires Bounded(s) && Enabled(s, m) && PipelineOk(s)
    requires m.PipelineArrive? || m.PipelineRelease? || m.Launch? || m.Stop? || m.StageRelease?
             || (m.StageShutdown? && s.stages[m.stage].state == Running)
    ensures Bounded(Do(s, m))
  {
  }

  // ---------------------------------------------------------------------------------------------
  // Runs

  lemma {:induction false} OrderlyRunsWrite(s: System, feeds: seq<seq<string>>, moves: seq<Move>, ready: seq<nat>,
                                            drained: seq<nat>)
    returns (ready': seq<nat>, drained': seq<nat>)
    requires Inv(s) && StagesLogged(s) && PipelineLogged(s, ready, drained) && Programmed(s, feeds) && Bounded(s)
    requires IsRun(s, moves) && AllOrderly(s, moves)
    ensures var v := After(s, moves);
            StagesLogged(v) && PipelineLogged(v, ready', drained') && Programmed(v, feeds) && Bounded(v)
    decreases |moves|
  {
    if moves == [] {
      return ready, drained;
    }
    ready', drained' := MoveWrites(s, moves[0], ready, drained);
    MoveKeeps(s, moves[0]);
    MoveIsProgrammed(s, feeds, moves[0]);
    MoveIsBounded(s, moves[0]);
    ready', drained' := OrderlyRunsWrite(Do(s, moves[0]), feeds, moves[1..], ready', drained');
  }

  /**
    * At every point of every orderly run each stage has written exactly the entries of what it has gone through, its
    * data in order; the pipeline has written exactly its own, one for each report of each stage; and the main task
    * has kept to its program. No channel is over its capacity.
    */
  lemma LogExactly(capacity: nat, feeds: seq<seq<string>>, moves: seq<Move>)
    returns (ready: seq<nat>, drained: seq<nat>)
    requires capacity >= 1 && |feeds| >= 1
    requires var s := Initial(capacity, feeds); IsRun(s, moves) && AllOrderly(s, moves)
    ensures var s := After(Initial(capacity, feeds), moves);
            StagesLogged(s) && PipelineLogged(s, ready, drained) && Programmed(s, feeds) && Bounded(s)
  {
    InitialOk(capacity, feeds);
    ready, drained := OrderlyRunsWrite(Initial(capacity, feeds), feeds, moves, [], []);
  }

  /** The whole log of a stage that is done. */
  predicate StageIsComplete(log: seq<LogEntry>, i: nat, data: seq<string>) {
    OfStage(log, i) == [StageInitializing(i), StageMaterialized(i), StartingProcessing(i)] + ProcessingAll(i, data)
                       + [BeginningDrain(i), StageIsDrained(i)]
  }

  /** And of a pipeline that is done. */
  predicate PipelineIsComplete(log: seq<LogEntry>, ready: seq<nat>, drained: seq<nat>) {
    OfPipeline(log) == [PipelineStarting] + SawReady(ready) + [AllReady, BeginningShutdown] + SawDrained(drained)
                       + [AllDrained]
  }

  lemma ShutdownAnnalsComplete(s: System, ready: seq<nat>, drained: seq<nat>)
    requires s.state == Shutdown && PipelineLogged(s, ready, drained)
    ensures PipelineIsComplete(s.log, ready, drained)
  {
    assert Annals(s, ready, drained) == [PipelineStarting] + SawReady(ready) + ([AllReady] + [BeginningShutdown])
                                        + SawDrained(drained) + [AllDrained];
    assert [AllReady] + [BeginningShutdown] == [AllReady, BeginningShutdown];
  }

  lemma ListsAll(s: System, order: seq<nat>, members: set<nat>)
    requires Lists(order, members) && |members| == |s.stages| && forall i :: i in members ==> i < |s.stages|
    ensures Distinct(order) && forall i: nat :: i in order <==> i < |s.stages|
  {
    FullSet(members, |s.stages|);
  }

  /** So in the end everything is in the log once: no entry of the causal order is missing. */
  lemma FinalLog(capacity: nat, feeds: seq<seq<string>>, moves: seq<Move>) returns (ready: seq<nat>, drained: seq<nat>)
    requires capacity >= 1 && |feeds| >= 1
    requires var s := Initial(capacity, feeds); IsRun(s, moves) && AllOrderly(s, moves) && Stuck(After(s, moves))
    ensures var log := After(Initial(capacity, feeds), moves).log;
            && (forall i :: 0 <= i < |feeds| ==> StageIsComplete(log, i, feeds[i]))
            && PipelineIsComplete(log, ready, drained)
            && Distinct(ready) && (forall i: nat :: i in ready <==> i < |feeds|)
            && Distinct(drained) && (forall i: nat :: i in drained <==> i < |feeds|)
  {
    ready, drained := LogExactly(capacity, feeds, moves);
    OrderlyRunsFinish(capacity, feeds, moves);
    OrderlyRunStays(capacity, feeds, moves);
    var s := After(Initial(capacity, feeds), moves);
    forall i | 0 <= i < |feeds| ensures StageIsComplete(s.log, i, feeds[i]) {
      assert StageLogged(s, i);
    }
    ShutdownAnnalsComplete(s, ready, drained);
    ListsAll(s, ready, s.ready);
    ListsAll(s, drained, s.drained);
  }

  lemma OrderlyRunStays(capacity: nat, feeds: seq<seq<string>>, moves: seq<Move>)
    requires capacity >= 1 && |feeds| >= 1
    requires var s := Initial(capacity, feeds); IsRun(s, moves) && AllOrderly(s, moves)
    ensures PipelineOk(After(Initial(capacity, feeds), moves))
  {
    InitialGood(capacity, feeds);
    OrderlyRunsStayGood(Initial(capacity, feeds), feeds, moves);
  }
}
