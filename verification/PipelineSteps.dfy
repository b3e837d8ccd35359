/** What a stage's receiving can change, whatever the state of the system. */
module PipelineSteps {
  import opened Pipeline

  /**
    * Only stage k changes, by taking a message off its queue, and at most one report goes to the pipeline. This
    * holds of panics too.
    */
  predicate OnlyStageReceives(s: System, s': System, k: nat) {
    && k < |s.stages| == |s'.stages| && s.stages[k].queue != [] && s'.stages == s.stages[k := s'.stages[k]]
    && s'.state == s.state && s'.control == s.control && s'.ready == s.ready && s'.drained == s.drained
    && s'.capacity == s.capacity && s'.invited == s.invited && s'.launched == s.launched && s'.stopping == s.stopping
    && (s'.queue == s.queue || s'.queue == s.queue + [StageReady(k)] || s'.queue == s.queue + [StageDrained(k)])
    && var g, g' := s.stages[k], s'.stages[k];
       g'.queue == g.queue[1..] && g'.feed == g.feed && (g.state != Running ==> g'.processed == g.processed)
  }

  /** Stage k becomes g', nothing else changes that counts here. */
  lemma StageBecomes(s: System, s': System, k: nat, g': Stage)
    requires k < |s.stages| && s.stages[k].queue != []
    requires s' == s.(stages := s.stages[k := g'], log := s'.log, arrived := s'.arrived, generation := s'.generation,
                      panicked := s'.panicked)
    requires g'.queue == s.stages[k].queue[1..] && g'.feed == s.stages[k].feed
    requires s.stages[k].state != Running ==> g'.processed == s.stages[k].processed
    ensures OnlyStageReceives(s, s', k)
  {
  }

  lemma ReportKeepsShape(s: System, s1: System, k: nat, e: PipelineEvent)
    requires OnlyStageReceives(s, s1, k) && s1.queue == s.queue && (e == StageReady(k) || e == StageDrained(k))
    ensures OnlyStageReceives(s, Notify(s1, e), k)
  {
  }

  /** The stage with its head message taken off. */
  function Taken(s: System, k: nat): Stage
    requires k < |s.stages| && s.stages[k].queue != []
  {
    s.stages[k].(queue := s.stages[k].queue[1..])
  }

  lemma ReportingShape(s: System, k: nat)
    requires Enabled(s, StageReceive(k)) && Reports(s.stages[k])
    ensures OnlyStageReceives(s, Do(s, StageReceive(k)), k)
  {
    var g, s0 := Taken(s, k), WithStage(s, k, Taken(s, k));
    if g.state == Materializing {
      var g' := g.(state := Materialized);
      var s1 := WithStage(Logged(s0, StageMaterialized(k)), k, g');
      assert s1.stages == s.stages[k := g'];
      StageBecomes(s, s1, k, g');
      ReportKeepsShape(s, s1, k, StageReady(k));
    } else {
      var g' := g.(state := Drained, control := Exited);
      var s1 := WithStage(Logged(s0, StageIsDrained(k)), k, g');
      assert s1.stages == s.stages[k := g'];
      StageBecomes(s, s1, k, g');
      ReportKeepsShape(s, s1, k, StageDrained(k));
    }
  }

  lemma StartingShape(s: System, k: nat)
    requires Enabled(s, StageReceive(k)) && s.stages[k].state == Materialized && s.stages[k].queue[0] == StartProcessing
    ensures OnlyStageReceives(s, Do(s, StageReceive(k)), k)
  {
    var s0, g' := WithStage(s, k, Taken(s, k)), Taken(s, k).(control := Waiting(s.generation));
    assert WithStage(Logged(s0, StartingProcessing(k)), k, g').stages == s.stages[k := g'];
    StageBecomes(s, Do(s, StageReceive(k)), k, g');
  }

  lemma InitializingShape(s: System, k: nat)
    requires Enabled(s, StageReceive(k)) && s.stages[k].state == Uninitialized && s.stages[k].queue[0] == Initialize
    ensures OnlyStageReceives(s, Do(s, StageReceive(k)), k)
  {
    var s0, g' := WithStage(s, k, Taken(s, k)), Taken(s, k).(state := Materializing, materializing := true);
    assert WithStage(Logged(s0, StageInitializing(k)), k, g').stages == s.stages[k := g'];
    StageBecomes(s, Do(s, StageReceive(k)), k, g');
  }

  lemma ProcessingShape(s: System, k: nat)
    requires Enabled(s, StageReceive(k)) && s.stages[k].state == Running && s.stages[k].queue[0].ProcessEvent?
    ensures OnlyStageReceives(s, Do(s, StageReceive(k)), k)
  {
    var s0, data := WithStage(s, k, Taken(s, k)), s.stages[k].queue[0].data;
    var g' := Taken(s, k).(processed := s.stages[k].processed + [data]);
    assert WithStage(Logged(s0, Processing(k, data)), k, g').stages == s.stages[k := g'];
    StageBecomes(s, Do(s, StageReceive(k)), k, g');
  }

  /** The events the stage has a handler for. */
  predicate Handled(g: Stage) {
    && g.queue != []
    && match g.state
       case Uninitialized => g.queue[0] == Initialize
       case Materializing => g.queue[0] == MaterializationComplete
       case Materialized => g.queue[0] == StartProcessing
       case Running => g.queue[0].ProcessEvent?
       case Draining => g.queue[0] == DrainComplete
       case Drained => false
  }

  lemma UnhandledShape(s: System, k: nat)
    requires Enabled(s, StageReceive(k)) && !Handled(s.stages[k])
    ensures OnlyStageReceives(s, Do(s, StageReceive(k)), k) && Do(s, StageReceive(k)).panicked
  {
    var s0 := WithStage(s, k, Taken(s, k));
    StageBecomes(s, Panic(s0), k, Taken(s, k));
  }

  lemma ReceiveShape(s: System, k: nat)
    requires Enabled(s, StageReceive(k))
    ensures OnlyStageReceives(s, Do(s, StageReceive(k)), k)
  {
    if !Handled(s.stages[k]) {
      UnhandledShape(s, k);
    } else {
      match s.stages[k].state
      case Uninitialized => InitializingShape(s, k);
      case Materializing => ReportingShape(s, k);
      case Materialized => StartingShape(s, k);
      case Running => ProcessingShape(s, k);
      case Draining => ReportingShape(s, k);
    }
  }
}
