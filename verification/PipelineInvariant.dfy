/** What every orderly move keeps. */
module PipelineInvariant {
  import opened Pipeline
  import opened Sets

  predicate Reported(g: Stage) {
    g.state != Uninitialized && g.state != Materializing
  }

  predicate ToldAll(s: System) {
    s.state == PipelineDraining || s.state == Shutdown
  }

  predicate OnlyData(q: seq<StageEvent>) {
    forall k :: 0 <= k < |q| ==> q[k].ProcessEvent?
  }

  /** Where stage i can be, what its queue then holds, and who still owes it something. */
  predicate StageOk(s: System, i: nat)
    requires i < |s.stages|
  {
    var g := s.stages[i];
    && (g.control.Exited? <==> g.state == Drained)
    && (i >= s.invited ==> g.state == Uninitialized)
    && (g.control.Waiting? ==> g.state == Materialized && g.control.generation == 0 && Started(s, i))
    && (g.materializing ==> g.state == Materializing)
    && (g.draining ==> g.state == Draining)
    && (g.shutdown <==> ToldAll(s) && (g.state == Materialized || g.state == Running))
    && (s.stopping ==> g.feed == [])
    && match g.state
       case Uninitialized => g.queue == (if i < s.invited then [Initialize] else []) && !Started(s, i)
       case Materializing => g.queue == (if g.materializing then [] else [MaterializationComplete]) && !Started(s, i)
       case Materialized =>
         if g.control.Waiting? then OnlyData(g.queue)
         else if Started(s, i) then g.queue != [] && g.queue[0] == StartProcessing && OnlyData(g.queue[1..])
         else g.queue == []
       case Running => s.generation == 1 && OnlyData(g.queue)
       case Draining => ToldAll(s) && g.queue == if g.draining then [] else [DrainComplete]
       case Drained => ToldAll(s) && g.queue == []
  }

  predicate StagesOk(s: System) {
    forall i :: 0 <= i < |s.stages| ==> StageOk(s, i)
  }

  /** The handlers' test for having heard from every stage. */
  predicate AllReported(s: System, ids: set<nat>) {
    |ids| == |s.stages|
  }

  predicate PipelineOk(s: System) {
    && !s.panicked && |s.stages| >= 1 && s.capacity >= 1 && |s.queue| <= s.capacity
    && (s.control.Ended? <==> s.state == Shutdown)
    && (s.control.FanOut? ==>
          s.state == WaitingForStages && AllReported(s, s.ready) && forall i :: i in s.control.todo ==> i < |s.stages|)
    && (s.control.AtBarrier? ==> s.state == PipelineRunning && s.control.generation == 0)
    && s.invited <= |s.stages| && (s.launched ==> s.invited == |s.stages|) && MainOk(s)
    && (s.state == Initializing ==> s.ready == {})
    && (s.state == PipelineRunning || ToldAll(s) ==> AllReported(s, s.ready))
    && ((s.state == PipelineRunning && s.control.Receiving?) || ToldAll(s) ==> s.generation == 1)
    && (ToldAll(s) ==> s.stopping)
    && (s.state == Shutdown ==> AllReported(s, s.drained))
    && (forall i :: i in s.ready ==> i < |s.stages| && Reported(s.stages[i]))
    && (forall i :: i in s.drained ==> i < |s.stages| && s.stages[i].state == Drained)
    && s.readySends == Flag(AllReported(s, s.ready), 1) && s.drainedSends == Flag(AllReported(s, s.drained), 1)
  }

  /** What the main task's progress says about the pipeline. */
  predicate MainOk(s: System) {
    && (!s.launched ==> s.state == Initializing && forall i :: 0 <= i < |s.stages| ==> !Reported(s.stages[i]))
    && (s.stopping ==> s.launched && s.state != Initializing)
    && (s.stopping && s.state == WaitingForStages ==> AllReported(s, s.ready))
  }

  function WaitingSet(s: System): set<nat> {
    set i: nat | i < |s.stages| && s.stages[i].control.Waiting?
  }

  /** The barrier counts its waiters while closed, and opens once, when all parties are there. */
  predicate BarrierOk(s: System) {
    && s.generation <= 1
    && (s.generation == 0 ==>
          s.arrived == |WaitingSet(s)| + Flag(s.control.AtBarrier?, 1) && s.arrived <= |s.stages|)
    && (s.generation == 1 ==>
          && s.arrived == 0 && (s.state == PipelineRunning || ToldAll(s))
          && forall i :: 0 <= i < |s.stages| ==>
               s.stages[i].control.Waiting? || (s.stages[i].state != Materialized && Reported(s.stages[i])))
  }

  /** The messages in flight to the pipeline are exactly these, each once. */
  predicate Expected(s: System, e: PipelineEvent) {
    match e
    case Start => s.state == Initializing && s.launched
    case StageReady(i) => i < |s.stages| && Reported(s.stages[i]) && i !in s.ready
    case AllStagesReady => s.state == WaitingForStages && s.control.Receiving? && AllReported(s, s.ready)
    case BeginShutdown => (s.state == WaitingForStages || s.state == PipelineRunning) && s.stopping
    case StageDrained(i) => i < |s.stages| && s.stages[i].state == Drained && i !in s.drained
    case AllStagesDrained => s.state == PipelineDraining && AllReported(s, s.drained)
  }

  predicate Distinct<X(==)>(xs: seq<X>) {
    forall a, b :: 0 <= a < b < |xs| ==> xs[a] != xs[b]
  }

  ghost predicate QueueOk(s: System) {
    && Distinct(s.queue)
    && (forall e :: e in s.queue <==> Expected(s, e))
    && HeadOk(s)
  }

  /** Start comes before every report, and AllStagesReady before BeginShutdown. */
  predicate HeadOk(s: System) {
    && (s.state == Initializing && s.launched ==> s.queue != [] && s.queue[0] == Start)
    && (s.state == WaitingForStages && s.control.Receiving? && s.stopping ==>
          s.queue != [] && s.queue[0] == AllStagesReady)
  }

  ghost predicate Inv(s: System) {
    PipelineOk(s) && StagesOk(s) && BarrierOk(s) && QueueOk(s)
  }

  // ---------------------------------------------------------------------------------------------
  // Queue bookkeeping

  lemma Popped(s: System, s': System)
    requires QueueOk(s) && s.queue != [] && s'.queue == s.queue[1..] && HeadOk(s')
    requires forall e :: Expected(s', e) <==> Expected(s, e) && e != s.queue[0]
    ensures QueueOk(s')
  {
    forall e ensures e in s'.queue <==> Expected(s', e) {
      if e in s.queue && e != s.queue[0] {
        var k :| 0 <= k < |s.queue| && s.queue[k] == e;
        assert s'.queue[k - 1] == e;
      }
    }
  }

  lemma Replaced(s: System, s': System, p: PipelineEvent)
    requires QueueOk(s) && s.queue != [] && s'.queue == s.queue[1..] + [p] && !Expected(s, p) && HeadOk(s')
    requires forall e :: Expected(s', e) <==> (Expected(s, e) && e != s.queue[0]) || e == p
    ensures QueueOk(s')
  {
    assert s'.queue[|s.queue| - 1] == p;
    forall e ensures e in s'.queue <==> Expected(s', e) {
      if e in s.queue && e != s.queue[0] {
        var k :| 0 <= k < |s.queue| && s.queue[k] == e;
        assert s'.queue[k - 1] == e;
      }
    }
  }

  lemma Pushed(s: System, s': System, p: PipelineEvent)
    requires QueueOk(s) && s'.queue == s.queue + [p] && !Expected(s, p) && HeadOk(s')
    requires forall e :: Expected(s', e) <==> Expected(s, e) || e == p
    ensures QueueOk(s')
  {
    assert s'.queue[|s.queue|] == p;
    forall e ensures e in s'.queue <==> Expected(s', e) {
    }
  }

  lemma QueueUnchanged(s: System, s': System)
    requires QueueOk(s) && s'.queue == s.queue && HeadOk(s')
    requires forall e :: Expected(s', e) <==> Expected(s, e)
    ensures QueueOk(s')
  {
  }

  lemma OnlyMessage(s: System)
    requires QueueOk(s) && s.queue != [] && forall e :: Expected(s, e) ==> e == s.queue[0]
    ensures s.queue == [s.queue[0]]
  {
    forall k | 0 <= k < |s.queue| ensures s.queue[k] == s.queue[0] {
      assert s.queue[k] in s.queue;
    }
    var last := s.queue[|s.queue| - 1];
    assert last == s.queue[0];
  }

  lemma HeadIsExpected(s: System)
    requires QueueOk(s) && s.queue != []
    ensures Expected(s, s.queue[0])
  {
    assert s.queue[0] in s.queue;
  }

  lemma NoMessage(s: System)
    requires QueueOk(s) && forall e :: !Expected(s, e)
    ensures s.queue == []
  {
    if s.queue != [] {
      HeadIsExpected(s);
    }
  }

  /** A set of stage numbers has at most n members, and n only if it has all of them. */
  lemma FullSet(ids: set<nat>, n: nat)
    requires forall i :: i in ids ==> i < n
    ensures |ids| <= n
    ensures |ids| == n ==> forall i: nat :: i < n ==> i in ids
    ensures (forall i: nat :: i < n ==> i in ids) ==> |ids| == n
  {
    IdsSize(n);
    assert ids <= Ids(n) by { assert forall i :: i in ids ==> IsStage(i, n); }
    SubsetSize(ids, Ids(n));
    forall i: nat | i < n ensures i in Ids(n) { assert IsStage(i, n); }
    if forall i: nat :: i < n ==> i in ids {
      assert ids == Ids(n);
    }
  }

  // ---------------------------------------------------------------------------------------------
  // Initially

  lemma InitialOk(capacity: nat, feeds: seq<seq<string>>)
    requires capacity >= 1 && |feeds| >= 1
    ensures Inv(Initial(capacity, feeds))
  {
    var s := Initial(capacity, feeds);
    assert WaitingSet(s) == {};
    assert forall e :: !Expected(s, e);
  }

  // ---------------------------------------------------------------------------------------------
  // The pipeline's moves

  lemma StartKeeps(s: System)
    requires Inv(s) && Enabled(s, PipelineReceive) && s.state == Initializing
    ensures Inv(Do(s, PipelineReceive))
  {
    var s' := Do(s, PipelineReceive);
    assert Expected(s, s.queue[0]);
    forall j | 0 <= j < |s'.stages| ensures StageOk(s', j) {
      assert StageOk(s, j);
    }
    Popped(s, s');
    assert WaitingSet(s') == WaitingSet(s);
  }

  lemma LastReadyQueue(s: System, i: nat)
    requires Inv(s) && Enabled(s, PipelineReceive) && s.state == WaitingForStages && s.queue[0] == StageReady(i)
    requires |s.ready + {i}| == |s.stages|
    ensures QueueOk(Do(s, PipelineReceive))
  {
    assert Expected(s, s.queue[0]);
    FullSet(s.ready, |s.stages|);
    Replaced(s, Do(s, PipelineReceive), AllStagesReady);
  }

  lemma StageReadyQueue(s: System, i: nat)
    requires Inv(s) && Enabled(s, PipelineReceive) && s.state == WaitingForStages && s.queue[0] == StageReady(i)
    ensures QueueOk(Do(s, PipelineReceive))
  {
    if |s.ready + {i}| == |s.stages| {
      LastReadyQueue(s, i);
    } else {
      assert Expected(s, s.queue[0]);
      FullSet(s.ready, |s.stages|);
      Popped(s, Do(s, PipelineReceive));
    }
  }

  lemma StageReadyKeeps(s: System, i: nat)
    requires Inv(s) && Enabled(s, PipelineReceive) && s.state == WaitingForStages && s.queue[0] == StageReady(i)
    ensures Inv(Do(s, PipelineReceive))
  {
    var s' := Do(s, PipelineReceive);
    assert Expected(s, s.queue[0]);
    FullSet(s.ready, |s.stages|);
    StageReadyQueue(s, i);
    forall j | 0 <= j < |s'.stages| ensures StageOk(s', j) {
      assert StageOk(s, j);
    }
    assert WaitingSet(s') == WaitingSet(s);
  }

  lemma AllStagesReadyKeeps(s: System)
    requires Inv(s) && Enabled(s, PipelineReceive) && s.state == WaitingForStages && s.queue[0] == AllStagesReady
    ensures Inv(Do(s, PipelineReceive))
  {
    var s' := Do(s, PipelineReceive);
    assert Expected(s, s.queue[0]);
    forall j | 0 <= j < |s'.stages| ensures StageOk(s', j) {
      assert StageOk(s, j) && IsStage(j, |s.stages|);
    }
    assert WaitingSet(s') == WaitingSet(s);
    Popped(s, s');
  }

  lemma BeginShutdownKeeps(s: System)
    requires Inv(s) && Enabled(s, PipelineReceive) && s.state == PipelineRunning
    ensures Inv(Do(s, PipelineReceive))
  {
    var s' := Do(s, PipelineReceive);
    FullSet(s.ready, |s.stages|);
    assert Expected(s, s.queue[0]);
    forall j | 0 <= j < |s.stages| ensures StageOk(s, j) && !s.stages[j].control.Exited?
      && s.stages[j].state != Drained {
      assert StageOk(s, j);
    }
    assert s.queue[0] == BeginShutdown;
    forall j | 0 <= j < |s'.stages| ensures StageOk(s', j) {
      assert StageOk(s, j);
    }
    Popped(s, s');
  }

  lemma LastDrainedQueue(s: System, i: nat)
    requires Inv(s) && Enabled(s, PipelineReceive) && s.state == PipelineDraining && s.queue[0] == StageDrained(i)
    requires |s.drained + {i}| == |s.stages|
    ensures QueueOk(Do(s, PipelineReceive))
  {
    assert Expected(s, s.queue[0]);
    FullSet(s.drained, |s.stages|);
    Replaced(s, Do(s, PipelineReceive), AllStagesDrained);
  }

  lemma StageDrainedQueue(s: System, i: nat)
    requires Inv(s) && Enabled(s, PipelineReceive) && s.state == PipelineDraining && s.queue[0] == StageDrained(i)
    ensures QueueOk(Do(s, PipelineReceive))
  {
    if |s.drained + {i}| == |s.stages| {
      LastDrainedQueue(s, i);
    } else {
      assert Expected(s, s.queue[0]);
      FullSet(s.drained, |s.stages|);
      Popped(s, Do(s, PipelineReceive));
    }
  }

  lemma StageDrainedStages(s: System, i: nat)
    requires Inv(s) && Enabled(s, PipelineReceive) && s.state == PipelineDraining && s.queue[0] == StageDrained(i)
    ensures var s' := Do(s, PipelineReceive); StagesOk(s') && BarrierOk(s') && s'.stages == s.stages
  {
    var s' := Do(s, PipelineReceive);
    forall j | 0 <= j < |s'.stages| ensures StageOk(s', j) {
      assert StageOk(s, j);
    }
  }

  lemma StageDrainedKeeps(s: System, i: nat)
    requires Inv(s) && Enabled(s, PipelineReceive) && s.state == PipelineDraining && s.queue[0] == StageDrained(i)
    ensures Inv(Do(s, PipelineReceive))
  {
    assert Expected(s, s.queue[0]);
    FullSet(s.drained, |s.stages|);
    StageDrainedQueue(s, i);
    StageDrainedStages(s, i);
  }

  lemma AllStagesDrainedKeeps(s: System)
    requires Inv(s) && Enabled(s, PipelineReceive) && s.state == PipelineDraining && s.queue[0] == AllStagesDrained
    ensures Inv(Do(s, PipelineReceive))
  {
    var s' := Do(s, PipelineReceive);
    assert Expected(s, s.queue[0]);
    forall j | 0 <= j < |s'.stages| ensures StageOk(s', j) {
      assert StageOk(s, j);
    }
    Popped(s, s');
  }

  lemma PipelineReceiveKeeps(s: System)
    requires Inv(s) && Enabled(s, PipelineReceive)
    ensures Inv(Do(s, PipelineReceive))
  {
    assert Expected(s, s.queue[0]);
    FullSet(s.ready, |s.stages|);
    match s.state
    case Initializing => StartKeeps(s);
    case WaitingForStages =>
      if s.queue[0] == AllStagesReady {
        AllStagesReadyKeeps(s);
      } else {
        assert s.queue[0].StageDrained? ==> StageOk(s, s.queue[0].stage);
        StageReadyKeeps(s, s.queue[0].stage);
      }
    case PipelineRunning => BeginShutdownKeeps(s);
    case PipelineDraining =>
      if s.queue[0] == AllStagesDrained {
        AllStagesDrainedKeeps(s);
      } else {
        StageDrainedKeeps(s, s.queue[0].stage);
      }
    case Shutdown =>
  }

  lemma SendStartStages(s: System, i: nat)
    requires Inv(s) && Enabled(s, SendStart(i))
    ensures StagesOk(Do(s, SendStart(i))) && !Do(s, SendStart(i)).panicked
    ensures var g, control := s.stages[i], FanOut(s.control.todo - {i});
            var stages := s.stages[i := g.(queue := g.queue + [StartProcessing])];
            Do(s, SendStart(i)) == s.(stages := stages, control := control)
  {
    var s' := Do(s, SendStart(i));
    FullSet(s.ready, |s.stages|);
    assert StageOk(s, i) && i in s.ready && Reported(s.stages[i]);
    forall j | 0 <= j < |s'.stages| ensures StageOk(s', j) {
      assert StageOk(s, j);
    }
  }

  lemma SendStartKeeps(s: System, i: nat)
    requires Inv(s) && Enabled(s, SendStart(i))
    ensures Inv(Do(s, SendStart(i)))
  {
    var s' := Do(s, SendStart(i));
    SendStartStages(s, i);
    assert WaitingSet(s') == WaitingSet(s);
    QueueUnchanged(s, s');
  }

  lemma PipelineArriveBarrier(s: System)
    requires Inv(s) && Enabled(s, PipelineArrive)
    ensures BarrierOk(Do(s, PipelineArrive))
  {
    var s' := Do(s, PipelineArrive);
    assert WaitingSet(s') == WaitingSet(s);
    FullSet(WaitingSet(s), |s.stages|);
    forall j: nat | j < |s.stages| && s'.generation == 1 ensures s'.stages[j].control.Waiting? {
      assert j in WaitingSet(s);
    }
  }

  lemma PipelineArriveStages(s: System)
    requires Inv(s) && Enabled(s, PipelineArrive)
    ensures StagesOk(Do(s, PipelineArrive))
  {
    var s' := Do(s, PipelineArrive);
    forall j | 0 <= j < |s'.stages| ensures StageOk(s', j) {
      assert StageOk(s, j);
    }
  }

  lemma PipelineArriveKeeps(s: System)
    requires Inv(s) && Enabled(s, PipelineArrive)
    ensures Inv(Do(s, PipelineArrive))
  {
    PipelineArriveStages(s);
    PipelineArriveBarrier(s);
    QueueUnchanged(s, Do(s, PipelineArrive));
  }

  lemma PipelineReleaseKeeps(s: System)
    requires Inv(s) && Enabled(s, PipelineRelease)
    ensures Inv(Do(s, PipelineRelease))
  {
    var s' := Do(s, PipelineRelease);
    forall j | 0 <= j < |s'.stages| ensures StageOk(s', j) {
      assert StageOk(s, j);
    }
    QueueUnchanged(s, s');
  }

  lemma InviteKeeps(s: System, i: nat)
    requires Inv(s) && Enabled(s, Invite(i))
    ensures Inv(Do(s, Invite(i)))
  {
    var s' := Do(s, Invite(i));
    assert StageOk(s, i);
    forall j | 0 <= j < |s'.stages| ensures StageOk(s', j) {
      assert StageOk(s, j);
    }
    assert WaitingSet(s') == WaitingSet(s);
    QuietQueue(s, s');
  }

  lemma LaunchKeeps(s: System)
    requires Inv(s) && Enabled(s, Launch)
    ensures Inv(Do(s, Launch))
  {
    var s' := Do(s, Launch);
    forall j | 0 <= j < |s'.stages| ensures StageOk(s', j) {
      assert StageOk(s, j);
    }
    assert WaitingSet(s') == WaitingSet(s);
    NoMessage(s);
    Pushed(s, s', Start);
  }

  /** BeginShutdown may follow AllStagesReady into the queue; then it is second. */
  lemma StopFacts(s: System)
    requires Inv(s) && Enabled(s, Stop) && Orderly(s, Stop)
    ensures s.state == WaitingForStages || s.state == PipelineRunning
    ensures s.state == WaitingForStages ==>
          AllReported(s, s.ready) && (s.control.Receiving? ==> s.queue == [AllStagesReady])
  {
    if AllStagesReady in s.queue {
      assert Expected(s, AllStagesReady);
      FullSet(s.ready, |s.stages|);
      forall j | 0 <= j < |s.stages| ensures s.stages[j].state != Drained {
        assert StageOk(s, j);
      }
      assert s.queue[0] in s.queue;
      OnlyMessage(s);
    }
  }

  lemma StopKeeps(s: System)
    requires Inv(s) && Enabled(s, Stop) && Orderly(s, Stop)
    ensures Inv(Do(s, Stop))
  {
    var s' := Do(s, Stop);
    StopFacts(s);
    forall j | 0 <= j < |s'.stages| ensures StageOk(s', j) {
      assert StageOk(s, j);
    }
    assert WaitingSet(s') == WaitingSet(s);
    Pushed(s, s', BeginShutdown);
  }

  // ---------------------------------------------------------------------------------------------
  // The stages' moves

  /** The other stages do not notice a change of stage i. */
  lemma OthersKeep(s: System, s': System, i: nat)
    requires StagesOk(s) && i < |s.stages| && i < |s'.stages| && s'.stages == s.stages[i := s'.stages[i]]
    requires s'.state == s.state && s'.control == s.control && s'.stopping == s.stopping && s'.invited == s.invited
    requires s.generation == 1 ==> s'.generation == 1
    requires StageOk(s', i)
    ensures StagesOk(s')
  {
    forall j | 0 <= j < |s'.stages| ensures StageOk(s', j) {
      assert StageOk(s, j);
    }
  }

  /** Nothing the pipeline waits for has changed. */
  lemma QuietQueue(s: System, s': System)
    requires QueueOk(s) && s'.queue == s.queue && |s'.stages| == |s.stages|
    requires s'.state == s.state && s'.control == s.control && s'.stopping == s.stopping && s'.launched == s.launched
    requires s'.ready == s.ready && s'.drained == s.drained
    requires forall j :: 0 <= j < |s.stages| ==>
               Reported(s'.stages[j]) == Reported(s.stages[j])
                 && (s'.stages[j].state == Drained <==> s.stages[j].state == Drained)
    ensures QueueOk(s')
  {
    QueueUnchanged(s, s');
  }

  /** A change of one stage that nobody counts. */
  lemma QuietChangeKeeps(s: System, s': System, i: nat)
    requires Inv(s) && i < |s.stages| && i < |s'.stages|
    requires s' == s.(stages := s.stages[i := s'.stages[i]], log := s'.log)
    requires StageOk(s', i)
    requires var g, g' := s.stages[i], s'.stages[i];
             && Reported(g') == Reported(g) && g'.control == g.control
             && (g'.state == Materialized <==> g.state == Materialized) && (g'.state == Drained <==> g.state == Drained)
    ensures Inv(s')
  {
    OthersKeep(s, s', i);
    assert WaitingSet(s') == WaitingSet(s);
    QuietQueue(s, s');
  }

  lemma MaterializedFacts(s: System, i: nat)
    requires Inv(s) && Enabled(s, StageReceive(i)) && Orderly(s, StageReceive(i)) && s.stages[i].state == Materializing
    ensures s.launched && i !in s.ready && !AllReported(s, s.ready)
    ensures s.stages[i].queue == [MaterializationComplete] && !s.stages[i].materializing && !s.stages[i].draining
    ensures !Started(s, i) && s.generation == 0 && !s.control.Ended? && !s.stopping && !ToldAll(s)
            && !s.stages[i].shutdown
  {
    assert StageOk(s, i);
    FullSet(s.ready, |s.stages|);
  }

  lemma MaterializedKeeps(s: System, i: nat)
    requires Inv(s) && Enabled(s, StageReceive(i)) && Orderly(s, StageReceive(i)) && s.stages[i].state == Materializing
    ensures Inv(Do(s, StageReceive(i)))
  {
    var s' := Do(s, StageReceive(i));
    MaterializedFacts(s, i);
    OthersKeep(s, s', i);
    assert WaitingSet(s') == WaitingSet(s);
    Pushed(s, s', StageReady(i));
  }

  lemma OneMoreWaiting(s: System, s': System, i: nat)
    requires i < |s.stages| == |s'.stages| && s'.stages == s.stages[i := s'.stages[i]]
    requires !s.stages[i].control.Waiting? && s'.stages[i].control.Waiting?
    ensures |WaitingSet(s')| == |WaitingSet(s)| + 1
    ensures |WaitingSet(s')| <= |s.stages|
    ensures |WaitingSet(s')| == |s.stages| ==> forall j :: 0 <= j < |s.stages| ==> s'.stages[j].control.Waiting?
  {
    assert WaitingSet(s') == WaitingSet(s) + {i} && i !in WaitingSet(s);
    FullSet(WaitingSet(s'), |s.stages|);
    forall j: nat | j < |s.stages| && |WaitingSet(s')| == |s.stages| ensures s'.stages[j].control.Waiting? {
      assert j in WaitingSet(s');
    }
  }

  lemma StartProcessingFacts(s: System, i: nat)
    requires Inv(s) && Enabled(s, StageReceive(i)) && s.stages[i].state == Materialized
    ensures s.generation == 0 && s.stages[i].queue[0] == StartProcessing && Started(s, i)
    ensures OnlyData(s.stages[i].queue[1..]) && !s.stages[i].materializing && !s.stages[i].draining
            && !s.stages[i].shutdown
    ensures s.stopping ==> s.stages[i].feed == []
  {
    assert StageOk(s, i);
  }

  lemma StartProcessingEffect(s: System, i: nat)
    requires Inv(s) && Enabled(s, StageReceive(i)) && s.stages[i].state == Materialized
    ensures var s', g := Do(s, StageReceive(i)), s.stages[i];
            && s' == s.(stages := s.stages[i := g.(queue := g.queue[1..], control := Waiting(0))],
                        log := s.log + [StartingProcessing(i)], arrived := s'.arrived, generation := s'.generation)
            && (s'.arrived, s'.generation) == if s.arrived == |s.stages| then (0, 1) else (s.arrived + 1, 0)
  {
    StartProcessingFacts(s, i);
  }

  lemma StartProcessingBarrier(s: System, i: nat)
    requires Inv(s) && Enabled(s, StageReceive(i)) && s.stages[i].state == Materialized
    ensures BarrierOk(Do(s, StageReceive(i)))
  {
    StartProcessingFacts(s, i);
    StartProcessingEffect(s, i);
    OneMoreWaiting(s, Do(s, StageReceive(i)), i);
  }

  lemma StartProcessingKeeps(s: System, i: nat)
    requires Inv(s) && Enabled(s, StageReceive(i)) && s.stages[i].state == Materialized
    ensures Inv(Do(s, StageReceive(i)))
  {
    var s' := Do(s, StageReceive(i));
    StartProcessingFacts(s, i);
    StartProcessingEffect(s, i);
    StartProcessingBarrier(s, i);
    OthersKeep(s, s', i);
    QuietQueue(s, s');
  }

  lemma DrainedKeeps(s: System, i: nat)
    requires Inv(s) && Enabled(s, StageReceive(i)) && s.stages[i].state == Draining
    ensures Inv(Do(s, StageReceive(i)))
  {
    var s' := Do(s, StageReceive(i));
    FullSet(s.drained, |s.stages|);
    assert StageOk(s, i);
    OthersKeep(s, s', i);
    Pushed(s, s', StageDrained(i));
  }

  lemma StageReceiveKeeps(s: System, i: nat)
    requires Inv(s) && Enabled(s, StageReceive(i)) && Orderly(s, StageReceive(i))
    ensures Inv(Do(s, StageReceive(i)))
  {
    assert StageOk(s, i);
    match s.stages[i].state
    case Uninitialized => InitializeKeeps(s, i);
    case Materializing => MaterializedKeeps(s, i);
    case Materialized => StartProcessingKeeps(s, i);
    case Running => ProcessKeeps(s, i);
    case Draining => DrainedKeeps(s, i);
    case Drained =>
  }

  lemma InitializeKeeps(s: System, i: nat)
    requires Inv(s) && Enabled(s, StageReceive(i)) && s.stages[i].state == Uninitialized
    ensures Inv(Do(s, StageReceive(i)))
  {
    assert StageOk(s, i);
    QuietChangeKeeps(s, Do(s, StageReceive(i)), i);
  }

  lemma ProcessKeeps(s: System, i: nat)
    requires Inv(s) && Enabled(s, StageReceive(i)) && s.stages[i].state == Running
    ensures Inv(Do(s, StageReceive(i)))
  {
    assert StageOk(s, i);
    QuietChangeKeeps(s, Do(s, StageReceive(i)), i);
  }

  lemma StageReleaseKeeps(s: System, i: nat)
    requires Inv(s) && Enabled(s, StageRelease(i))
    ensures Inv(Do(s, StageRelease(i)))
  {
    var s' := Do(s, StageRelease(i));
    assert StageOk(s, i);
    OthersKeep(s, s', i);
    QuietQueue(s, s');
  }

  lemma ShutdownBranchKeeps(s: System, i: nat)
    requires Inv(s) && Enabled(s, StageShutdown(i)) && Orderly(s, StageShutdown(i))
    ensures Inv(Do(s, StageShutdown(i)))
  {
    assert StageOk(s, i);
    QuietChangeKeeps(s, Do(s, StageShutdown(i)), i);
  }

  /** The sends of the spawned tasks and of the main task. */
  lemma MaterializationKeeps(s: System, i: nat)
    requires Inv(s) && Enabled(s, CompleteMaterialization(i))
    ensures Inv(Do(s, CompleteMaterialization(i)))
  {
    assert StageOk(s, i);
    QuietChangeKeeps(s, Do(s, CompleteMaterialization(i)), i);
  }

  lemma DrainCompletionKeeps(s: System, i: nat)
    requires Inv(s) && Enabled(s, CompleteDrain(i))
    ensures Inv(Do(s, CompleteDrain(i)))
  {
    assert StageOk(s, i);
    QuietChangeKeeps(s, Do(s, CompleteDrain(i)), i);
  }

  lemma FeedKeeps(s: System, i: nat)
    requires Inv(s) && Enabled(s, Feed(i)) && Orderly(s, Feed(i))
    ensures Inv(Do(s, Feed(i)))
  {
    assert StageOk(s, i);
    QuietChangeKeeps(s, Do(s, Feed(i)), i);
  }

  /** Every orderly move keeps the invariant, so nothing ever panics. */
  lemma MoveKeeps(s: System, m: Move)
    requires Inv(s) && Enabled(s, m) && Orderly(s, m)
    ensures Inv(Do(s, m))
  {
    match m
    case PipelineReceive => PipelineReceiveKeeps(s);
    case SendStart(i) => SendStartKeeps(s, i);
    case PipelineArrive => PipelineArriveKeeps(s);
    case PipelineRelease => PipelineReleaseKeeps(s);
    case StageReceive(i) => StageReceiveKeeps(s, i);
    case StageRelease(i) => StageReleaseKeeps(s, i);
    case StageShutdown(i) => ShutdownBranchKeeps(s, i);
    case CompleteMaterialization(i) => MaterializationKeeps(s, i);
    case CompleteDrain(i) => DrainCompletionKeeps(s, i);
    case Feed(i) => FeedKeeps(s, i);
    case Invite(i) => InviteKeeps(s, i);
    case Launch => LaunchKeeps(s);
    case Stop => StopKeeps(s);
  }
}
