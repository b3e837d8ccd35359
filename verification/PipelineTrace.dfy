/** What orderly runs leave behind: the event log in causal order, all data processed, each signal sent once. */
module PipelineTrace {
  import opened Pipeline
  import opened PipelineInvariant
  import opened PipelineSteps
  import opened PipelineTheorems

  // ---------------------------------------------------------------------------------------------
  // Causal order of the log

  /** What must already be in the log of an n-stage system when the entry is written. */
  ghost predicate Caused(log: seq<LogEntry>, e: LogEntry, n: nat) {
    match e
    case AllReady => forall i: nat :: i < n ==> StageMaterialized(i) in log
    case StartingProcessing(_) => AllReady in log
    case BeginningShutdown => AllReady in log
    case BeginningDrain(_) => BeginningShutdown in log
    case AllDrained => forall i: nat :: i < n ==> StageIsDrained(i) in log
    case _ => true
  }

  ghost predicate Causal(log: seq<LogEntry>, n: nat) {
    forall k :: 0 <= k < |log| ==> Caused(log[..k], log[k], n)
  }

  /** What has been reached has been logged. */
  ghost predicate ReachedIsLogged(s: System) {
    && (s.control.FanOut? || s.state == PipelineRunning || ToldAll(s) ==> AllReady in s.log)
    && (ToldAll(s) ==> BeginningShutdown in s.log)
    && (forall i: nat :: i < |s.stages| && Reported(s.stages[i]) ==> StageMaterialized(i) in s.log)
    && (forall i: nat :: i < |s.stages| && s.stages[i].state == Drained ==> StageIsDrained(i) in s.log)
  }

  ghost predicate Logs(s: System) {
    Causal(s.log, |s.stages|) && ReachedIsLogged(s)
  }

  lemma CausalSnoc(log: seq<LogEntry>, e: LogEntry, n: nat)
    requires Causal(log, n) && Caused(log, e, n)
    ensures Causal(log + [e], n)
  {
    forall k | 0 <= k < |log| + 1 ensures Caused((log + [e])[..k], (log + [e])[k], n) {
      assert (log + [e])[..k] == log[..k];
      assert log[..|log|] == log;
    }
  }

  predicate PastReady(s: System) {
    s.control.FanOut? || s.state == PipelineRunning || ToldAll(s)
  }

  /**
    * A step that writes the entries e, at most one and justified, where at most stage i moves on, and e is
    * the entry for whatever is newly reached.
    */
  lemma LogStep(s: System, s': System, e: seq<LogEntry>, i: nat)
    requires Logs(s) && s'.log == s.log + e && |e| <= 1 && (e != [] ==> Caused(s.log, e[0], |s.stages|))
    requires |s'.stages| == |s.stages|
    requires forall j :: 0 <= j < |s.stages| && j != i ==> s'.stages[j].state == s.stages[j].state
    requires i < |s.stages| && Reported(s'.stages[i]) ==> Reported(s.stages[i]) || e == [StageMaterialized(i)]
    requires i < |s.stages| && s'.stages[i].state == Drained ==>
          s.stages[i].state == Drained || e == [StageIsDrained(i)]
    requires PastReady(s') ==> PastReady(s) || e == [AllReady]
    requires ToldAll(s') ==> ToldAll(s) || e == [BeginningShutdown]
    ensures Logs(s')
  {
    assert Causal(s'.log, |s.stages|) by {
      if e == [] {
        assert s'.log == s.log;
      } else {
        assert e == [e[0]];
        CausalSnoc(s.log, e[0], |s.stages|);
      }
    }
    ReachedStep(s, s', e, i);
  }

  lemma ReachedStep(s: System, s': System, e: seq<LogEntry>, i: nat)
    requires ReachedIsLogged(s) && s'.log == s.log + e && |s'.stages| == |s.stages|
    requires forall j :: 0 <= j < |s.stages| && j != i ==> s'.stages[j].state == s.stages[j].state
    requires i < |s.stages| && Reported(s'.stages[i]) ==> Reported(s.stages[i]) || e == [StageMaterialized(i)]
    requires i < |s.stages| && s'.stages[i].state == Drained ==>
          s.stages[i].state == Drained || e == [StageIsDrained(i)]
    requires PastReady(s') ==> PastReady(s) || e == [AllReady]
    requires ToldAll(s') ==> ToldAll(s) || e == [BeginningShutdown]
    ensures ReachedIsLogged(s')
  {
    assert forall x :: x in e ==> x in s'.log;
  }

  /** In the states that handle them, reports only add an entry to the log. */
  lemma ReportEffect(s: System, i: nat)
    requires Enabled(s, PipelineReceive)
    ensures s.state == WaitingForStages && s.queue[0] == StageReady(i) ==>
          SameButLog(s, Do(s, PipelineReceive), [PipelineSawReady(i)])
    ensures s.state == PipelineDraining && s.queue[0] == StageDrained(i) ==>
          SameButLog(s, Do(s, PipelineReceive), [PipelineSawDrained(i)])
  {
  }

  predicate SameButLog(s: System, s': System, e: seq<LogEntry>) {
    s'.log == s.log + e && s'.stages == s.stages && s'.state == s.state && s'.control == s.control
  }

  lemma ReportLogs(s: System, s': System, e: LogEntry)
    requires Logs(s) && SameButLog(s, s', [e]) && Caused(s.log, e, |s.stages|)
    ensures Logs(s')
  {
    LogStep(s, s', [e], |s.stages|);
  }

  lemma ReadyReportLogs(s: System, i: nat)
    requires Inv(s) && Logs(s) && Enabled(s, PipelineReceive) && s.queue[0] == StageReady(i)
    ensures Logs(Do(s, PipelineReceive))
  {
    assert Expected(s, s.queue[0]);
    FullSet(s.ready, |s.stages|);
    assert s.state == WaitingForStages;
    ReportEffect(s, i);
    ReportLogs(s, Do(s, PipelineReceive), PipelineSawReady(i));
  }

  lemma DrainedReportLogs(s: System, i: nat)
    requires Inv(s) && Logs(s) && Enabled(s, PipelineReceive) && s.queue[0] == StageDrained(i)
    ensures Logs(Do(s, PipelineReceive))
  {
    assert Expected(s, s.queue[0]) && StageOk(s, i);
    assert s.state == PipelineDraining;
    ReportEffect(s, i);
    ReportLogs(s, Do(s, PipelineReceive), PipelineSawDrained(i));
  }

  lemma AllReadyLogs(s: System)
    requires Inv(s) && Logs(s) && Enabled(s, PipelineReceive) && s.queue[0] == AllStagesReady
    ensures Logs(Do(s, PipelineReceive))
  {
    assert Expected(s, AllStagesReady);
    FullSet(s.ready, |s.stages|);
    LogStep(s, Do(s, PipelineReceive), [AllReady], |s.stages|);
  }

  lemma AllDrainedLogs(s: System)
    requires Inv(s) && Logs(s) && Enabled(s, PipelineReceive) && s.queue[0] == AllStagesDrained
    ensures Logs(Do(s, PipelineReceive))
  {
    assert Expected(s, AllStagesDrained);
    FullSet(s.drained, |s.stages|);
    LogStep(s, Do(s, PipelineReceive), [AllDrained], |s.stages|);
  }

  lemma SignalLogs(s: System)
    requires Inv(s) && Logs(s) && Enabled(s, PipelineReceive) && (s.queue[0] == Start || s.queue[0] == BeginShutdown)
    ensures Logs(Do(s, PipelineReceive))
  {
    var e := s.queue[0];
    assert Expected(s, e);
    forall j | 0 <= j < |s.stages| ensures !ToldAll(s) ==> !s.stages[j].control.Exited? {
      assert StageOk(s, j);
    }
    LogStep(s, Do(s, PipelineReceive), [if e == Start then PipelineStarting else BeginningShutdown], |s.stages|);
  }

  lemma StageReceiveLogs(s: System, i: nat)
    requires Inv(s) && Logs(s) && Enabled(s, StageReceive(i)) && s.stages[i].state != Materialized
             && s.stages[i].state != Draining
    ensures Logs(Do(s, StageReceive(i)))
  {
    var g := s.stages[i];
    assert StageOk(s, i);
    var e := match g.state
             case Uninitialized => StageInitializing(i)
             case Materializing => StageMaterialized(i)
             case Running => Processing(i, g.queue[0].data);
    LogStep(s, Do(s, StageReceive(i)), [e], i);
  }

  lemma StartingLogs(s: System, i: nat)
    requires Inv(s) && Logs(s) && Enabled(s, StageReceive(i)) && s.stages[i].state == Materialized
    ensures Logs(Do(s, StageReceive(i)))
  {
    StartProcessingFacts(s, i);
    StartProcessingEffect(s, i);
    LogStep(s, Do(s, StageReceive(i)), [StartingProcessing(i)], i);
  }

  lemma DrainedLogs(s: System, i: nat)
    requires Inv(s) && Logs(s) && Enabled(s, StageReceive(i)) && s.stages[i].state == Draining
    ensures Logs(Do(s, StageReceive(i)))
  {
    assert StageOk(s, i);
    FullSet(s.drained, |s.stages|);
    LogStep(s, Do(s, StageReceive(i)), [StageIsDrained(i)], i);
  }

  lemma DrainingLogs(s: System, i: nat)
    requires Inv(s) && Logs(s) && Enabled(s, StageShutdown(i))
    ensures Logs(Do(s, StageShutdown(i)))
  {
    assert StageOk(s, i);
    LogStep(s, Do(s, StageShutdown(i)), [BeginningDrain(i)], i);
  }

  /** Sending to a stage and taking the message off its source leave log, pipeline and stage states alone. */
  lemma SendIsSilent(s: System, s0: System, i: nat, e: StageEvent)
    requires Logs(s) && i < |s.stages| && |s0.stages| == |s.stages|
    requires s0.log == s.log && s0.state == s.state && s0.control.FanOut? == s.control.FanOut?
    requires forall j :: 0 <= j < |s.stages| ==> s0.stages[j].state == s.stages[j].state
    ensures Logs(SendTo(s0, i, e))
  {
    var s' := SendTo(s0, i, e);
    assert forall j :: 0 <= j < |s.stages| ==> s'.stages[j].state == s0.stages[j].state;
    LogStep(s, s', [], |s.stages|);
  }

  lemma StartSendLogs(s: System, i: nat)
    requires Logs(s) && Enabled(s, SendStart(i))
    ensures Logs(Do(s, SendStart(i)))
  {
    SendIsSilent(s, s.(control := FanOut(s.control.todo - {i})), i, StartProcessing);
  }

  lemma CompletionLogs(s: System, i: nat)
    requires Logs(s)
    ensures Enabled(s, CompleteMaterialization(i)) ==> Logs(Do(s, CompleteMaterialization(i)))
    ensures Enabled(s, CompleteDrain(i)) ==> Logs(Do(s, CompleteDrain(i)))
  {
    if Enabled(s, CompleteMaterialization(i)) {
      SendIsSilent(s, WithStage(s, i, s.stages[i].(materializing := false)), i, MaterializationComplete);
    }
    if Enabled(s, CompleteDrain(i)) {
      SendIsSilent(s, WithStage(s, i, s.stages[i].(draining := false)), i, DrainComplete);
    }
  }

  lemma FeedLogs(s: System, i: nat)
    requires Logs(s) && Enabled(s, Feed(i))
    ensures Logs(Do(s, Feed(i)))
  {
    SendIsSilent(s, WithStage(s, i, s.stages[i].(feed := s.stages[i].feed[1..])), i, ProcessEvent(s.stages[i].feed[0]));
  }

  lemma InviteLogs(s: System, i: nat)
    requires Logs(s) && Enabled(s, Invite(i))
    ensures Logs(Do(s, Invite(i)))
  {
    SendIsSilent(s, s.(invited := i + 1), i, Initialize);
  }

  lemma ReleaseLogs(s: System, i: nat)
    requires Inv(s) && Logs(s) && Enabled(s, StageRelease(i))
    ensures Logs(Do(s, StageRelease(i)))
  {
    assert StageOk(s, i);
    LogStep(s, Do(s, StageRelease(i)), [], i);
  }

  lemma SilentLogs(s: System, m: Move)
    requires Inv(s) && Logs(s) && Enabled(s, m) && (m.PipelineArrive? || m.PipelineRelease? || m.Launch? || m.Stop?)
    ensures Logs(Do(s, m))
  {
    LogStep(s, Do(s, m), [], |s.stages|);
  }

  lemma MoveLogs(s: System, m: Move)
    requires Inv(s) && Logs(s) && Enabled(s, m) && Orderly(s, m)
    ensures Logs(Do(s, m))
  {
    match m
    case PipelineReceive =>
      match s.queue[0] {
        case Start => SignalLogs(s);
        case StageReady(i) => ReadyReportLogs(s, i);
        case AllStagesReady => AllReadyLogs(s);
        case BeginShutdown => SignalLogs(s);
        case StageDrained(i) => DrainedReportLogs(s, i);
        case AllStagesDrained => AllDrainedLogs(s);
      }
    case StageReceive(i) =>
      if s.stages[i].state == Materialized {
        StartingLogs(s, i);
      } else if s.stages[i].state == Draining {
        DrainedLogs(s, i);
      } else {
        StageReceiveLogs(s, i);
      }
    case StageShutdown(i) => DrainingLogs(s, i);
    case SendStart(i) => StartSendLogs(s, i);
    case CompleteMaterialization(i) => CompletionLogs(s, i);
    case CompleteDrain(i) => CompletionLogs(s, i);
    case Feed(i) => FeedLogs(s, i);
    case Invite(i) => InviteLogs(s, i);
    case StageRelease(i) => ReleaseLogs(s, i);
    case _ => SilentLogs(s, m);
  }

  // ---------------------------------------------------------------------------------------------
  // Conservation of data

  function Payload(q: seq<StageEvent>): seq<string> {
    if q == [] then [] else Carried(q[0]) + Payload(q[1..])
  }

  function Carried(e: StageEvent): seq<string> {
    if e.ProcessEvent? then [e.data] else []
  }

  lemma {:induction false} PayloadPush(q: seq<StageEvent>, e: StageEvent)
    ensures Payload(q + [e]) == Payload(q) + Carried(e)
  {
    if q == [] {
      assert [e][1..] == [];
    } else {
      assert (q + [e])[1..] == q[1..] + [e];
      PayloadPush(q[1..], e);
      assert Carried(q[0]) + (Payload(q[1..]) + Carried(e)) == Carried(q[0]) + Payload(q[1..]) + Carried(e);
    }
  }

  /** A stage's data: processed, then queued, then still to be sent, in the order given. */
  function DataOf(g: Stage): seq<string> {
    g.processed + (Payload(g.queue) + g.feed)
  }

  predicate SameData(s: System, s': System) {
    |s'.stages| == |s.stages| && forall i :: 0 <= i < |s.stages| ==> DataOf(s'.stages[i]) == DataOf(s.stages[i])
  }

  lemma OnlyStage(s: System, s': System, i: nat)
    requires i < |s.stages| == |s'.stages| && s'.stages == s.stages[i := s'.stages[i]]
    requires DataOf(s'.stages[i]) == DataOf(s.stages[i])
    ensures SameData(s, s')
  {
  }

  /** The stage the message e goes to keeps its data if e carries none, or carries the head of its feed. */
  lemma SendConserves(s: System, s0: System, i: nat, e: StageEvent)
    requires StagesOk(s) && i < |s.stages| && |s0.stages| == |s.stages| && !s.stages[i].control.Exited?
    requires s0.stages == s.stages[i := s0.stages[i]] && s0.stages[i].control == s.stages[i].control
    requires var g, g' := s.stages[i], s0.stages[i];
             && g'.processed == g.processed && g'.queue == g.queue
             && (if e.ProcessEvent? then g.feed == [e.data] + g'.feed else g'.feed == g.feed)
    ensures SameData(s, SendTo(s0, i, e))
  {
    var g, g' := s.stages[i], s0.stages[i];
    PayloadPush(g.queue, e);
    if e.ProcessEvent? {
      assert Payload(g.queue) + [e.data] + g'.feed == Payload(g.queue) + g.feed;
    } else {
      assert Payload(g.queue) + [] == Payload(g.queue);
    }
    OnlyStage(s, SendTo(s0, i, e), i);
  }

  lemma SendsConserve(s: System, m: Move)
    requires Inv(s) && Enabled(s, m) && (m.SendStart? || m.Invite? || m.Feed?)
    ensures SameData(s, Do(s, m))
  {
    var i := m.stage;
    var g := s.stages[i];
    FullSet(s.ready, |s.stages|);
    assert StageOk(s, i);
    if m.Invite? {
      SendConserves(s, s.(invited := i + 1), i, Initialize);
    } else if m.SendStart? {
      assert !g.control.Exited?;
      SendConserves(s, s.(control := FanOut(s.control.todo - {i})), i, StartProcessing);
    } else {
      assert !g.control.Exited?;
      SendConserves(s, WithStage(s, i, g.(feed := g.feed[1..])), i, ProcessEvent(g.feed[0]));
    }
  }

  lemma CompletionsConserve(s: System, m: Move)
    requires Inv(s) && Enabled(s, m) && (m.CompleteMaterialization? || m.CompleteDrain?)
    ensures SameData(s, Do(s, m))
  {
    var i := m.stage;
    assert StageOk(s, i);
    if m.CompleteMaterialization? {
      SendConserves(s, WithStage(s, i, s.stages[i].(materializing := false)), i, MaterializationComplete);
    } else {
      SendConserves(s, WithStage(s, i, s.stages[i].(draining := false)), i, DrainComplete);
    }
  }

  lemma ProcessingConserves(s: System, i: nat)
    requires Inv(s) && Enabled(s, StageReceive(i)) && s.stages[i].state == Running
    ensures SameData(s, Do(s, StageReceive(i)))
  {
    assert StageOk(s, i);
    var g := s.stages[i];
    assert g.processed + [g.queue[0].data] + (Payload(g.queue[1..]) + g.feed) == DataOf(g);
    OnlyStage(s, Do(s, StageReceive(i)), i);
  }

  /** The stage hands on a message that carries no data. */
  lemma SignalConserves(s: System, i: nat)
    requires Inv(s) && Enabled(s, StageReceive(i)) && s.stages[i].state != Running
    ensures SameData(s, Do(s, StageReceive(i)))
  {
    assert StageOk(s, i);
    var g := s.stages[i];
    assert !g.queue[0].ProcessEvent?;
    assert [] + Payload(g.queue[1..]) == Payload(g.queue[1..]);
    ReceiveShape(s, i);
    OnlyStage(s, Do(s, StageReceive(i)), i);
  }

  lemma BroadcastTells(s: System)
    ensures Broadcast(s).stages == s.stages || Broadcast(s).stages == Told(s.stages)
  {
  }

  lemma ShutdownTellsStages(s: System)
    ensures PipelineHandle(s, BeginShutdown).stages == s.stages ||
              PipelineHandle(s, BeginShutdown).stages == Told(s.stages)
  {
    BroadcastTells(Logged(s, BeginningShutdown));
    assert PipelineHandle(s, BeginShutdown)
        == if s.state == PipelineRunning then Broadcast(Logged(s, BeginningShutdown)) else Panic(s);
  }

  lemma ReportsLeaveStages(s: System, i: nat)
    ensures PipelineHandle(s, StageReady(i)).stages == s.stages
    ensures PipelineHandle(s, StageDrained(i)).stages == s.stages
  {
  }

  lemma PipelineLeavesStages(s: System, e: PipelineEvent)
    ensures PipelineHandle(s, e).stages == s.stages || PipelineHandle(s, e).stages == Told(s.stages)
  {
    match e
    case StageReady(i) => ReportsLeaveStages(s, i);
    case StageDrained(i) => ReportsLeaveStages(s, i);
    case BeginShutdown => ShutdownTellsStages(s);
    case _ =>
  }

  /** The pipeline's own moves touch no data. */
  lemma PipelineConserves(s: System)
    requires Enabled(s, PipelineReceive)
    ensures SameData(s, Do(s, PipelineReceive))
  {
    PipelineLeavesStages(s.(queue := s.queue[1..]), s.queue[0]);
  }

  lemma BarrierConserves(s: System, m: Move)
    requires Enabled(s, m)
             && (m.PipelineArrive? || m.PipelineRelease? || m.StageRelease? || m.StageShutdown? || m.Launch? || m.Stop?)
    ensures SameData(s, Do(s, m))
  {
  }

  lemma MoveConserves(s: System, m: Move)
    requires Inv(s) && Enabled(s, m)
    ensures SameData(s, Do(s, m))
  {
    match m
    case StageReceive(i) =>
      if s.stages[i].state == Running {
        ProcessingConserves(s, i);
      } else {
        SignalConserves(s, i);
      }
    case SendStart(_) => SendsConserve(s, m);
    case Invite(_) => SendsConserve(s, m);
    case Feed(_) => SendsConserve(s, m);
    case CompleteMaterialization(_) => CompletionsConserve(s, m);
    case CompleteDrain(_) => CompletionsConserve(s, m);
    case PipelineReceive => PipelineConserves(s);
    case _ => BarrierConserves(s, m);
  }

  // ---------------------------------------------------------------------------------------------
  // Signals

  function Members(xs: seq<nat>): (members: set<nat>)
    ensures forall x :: x in members <==> x in xs
  {
    if xs == [] then {} else Members(xs[1..]) + {xs[0]}
  }

  lemma {:induction false} DistinctSize(xs: seq<nat>)
    requires Distinct(xs)
    ensures |Members(xs)| == |xs|
  {
    if xs != [] {
      assert xs[0] !in xs[1..];
      DistinctSize(xs[1..]);
    }
  }

  /** A place for each message that can be in flight: one per stage, and one for the signals. */
  function Slot(s: System, e: PipelineEvent): nat {
    if e.StageReady? || e.StageDrained? then e.stage
    else if e == BeginShutdown && s.state == WaitingForStages then 0
    else |s.stages|
  }

  lemma SlotsDiffer(s: System, d: PipelineEvent, e: PipelineEvent)
    requires Inv(s) && Expected(s, d) && Expected(s, e) && d != e
    ensures Slot(s, d) != Slot(s, e) && Slot(s, d) <= |s.stages|
  {
    FullSet(s.ready, |s.stages|);
    assert d.StageDrained? ==> StageOk(s, d.stage);
    assert e.StageDrained? ==> StageOk(s, e.stage);
  }

  /** The pipeline queue never holds more than one message per stage and one more. */
  lemma QueueBound(s: System)
    requires Inv(s)
    ensures |s.queue| <= |s.stages| + 1
  {
    var n := |s.stages|;
    var slots: seq<nat> := seq(|s.queue|, k requires 0 <= k < |s.queue| => Slot(s, s.queue[k]));
    forall a, b | 0 <= a < b < |slots| ensures slots[a] != slots[b] {
      assert s.queue[a] in s.queue && s.queue[b] in s.queue;
      SlotsDiffer(s, s.queue[a], s.queue[b]);
    }
    forall k | 0 <= k < |slots| ensures slots[k] < n + 1 {
      assert s.queue[k] in s.queue && Expected(s, s.queue[k]);
    }
    SlotsFit(slots, n + 1);
  }

  lemma SlotsFit(slots: seq<nat>, n: nat)
    requires Distinct(slots) && forall k :: 0 <= k < |slots| ==> slots[k] < n
    ensures |slots| <= n
  {
    DistinctSize(slots);
    FullSet(Members(slots), n);
  }

  lemma LastReadyReport(s: System, i: nat)
    requires Inv(s) && s.state == WaitingForStages && s.queue != [] && s.queue[0] == StageReady(i)
    requires |s.ready + {i}| == |s.stages|
    ensures s.queue == [StageReady(i)]
  {
    assert Expected(s, s.queue[0]);
    FullSet(s.ready + {i}, |s.stages|);
    FullSet(s.ready, |s.stages|);
    forall j | 0 <= j < |s.stages| ensures s.stages[j].state != Drained {
      assert StageOk(s, j);
    }
    OnlyMessage(s);
  }

  lemma LastDrainedReport(s: System, i: nat)
    requires Inv(s) && s.state == PipelineDraining && s.queue != [] && s.queue[0] == StageDrained(i)
    requires |s.drained + {i}| == |s.stages|
    ensures s.queue == [StageDrained(i)]
  {
    assert Expected(s, s.queue[0]);
    FullSet(s.drained + {i}, |s.stages|);
    FullSet(s.drained, |s.stages|);
    FullSet(s.ready, |s.stages|);
    OnlyMessage(s);
  }

  lemma WhenSignalled(s: System)
    requires Enabled(s, PipelineReceive)
    ensures var s', e := Do(s, PipelineReceive), s.queue[0];
            && (s'.readySends > s.readySends ==>
                  s.state == WaitingForStages && e.StageReady? && |s.ready + {e.stage}| == |s.stages|
                    && s'.queue == s.queue[1..] + [AllStagesReady])
            && (s'.drainedSends > s.drainedSends ==>
                  s.state == PipelineDraining && e.StageDrained? && |s.drained + {e.stage}| == |s.stages|
                    && s'.queue == s.queue[1..] + [AllStagesDrained])
  {
  }

  /** When the pipeline signals to itself that all stages are ready, or drained, its queue is empty. */
  lemma SelfSendsIntoEmptyQueue(s: System)
    requires Inv(s) && Enabled(s, PipelineReceive)
    ensures var s' := Do(s, PipelineReceive);
            && (s'.readySends > s.readySends ==> s.queue[1..] == [] && s'.queue == [AllStagesReady])
            && (s'.drainedSends > s.drainedSends ==> s.queue[1..] == [] && s'.queue == [AllStagesDrained])
  {
    WhenSignalled(s);
    if Do(s, PipelineReceive).readySends > s.readySends {
      LastReadyReport(s, s.queue[0].stage);
    }
    if Do(s, PipelineReceive).drainedSends > s.drainedSends {
      LastDrainedReport(s, s.queue[0].stage);
    }
  }

  // ---------------------------------------------------------------------------------------------
  // All orderly runs

  ghost predicate Good(s: System, feeds: seq<seq<string>>) {
    && Inv(s) && Logs(s)
    && |s.stages| == |feeds| && forall i :: 0 <= i < |feeds| ==> DataOf(s.stages[i]) == feeds[i]
  }

  lemma {:induction false} OrderlyRunsStayGood(s: System, feeds: seq<seq<string>>, moves: seq<Move>)
    requires Good(s, feeds) && IsRun(s, moves) && AllOrderly(s, moves)
    ensures Good(After(s, moves), feeds)
    decreases |moves|
  {
    if moves != [] {
      MoveKeeps(s, moves[0]);
      MoveLogs(s, moves[0]);
      MoveConserves(s, moves[0]);
      OrderlyRunsStayGood(Do(s, moves[0]), feeds, moves[1..]);
    }
  }

  lemma InitialGood(capacity: nat, feeds: seq<seq<string>>)
    requires capacity >= 1 && |feeds| >= 1
    ensures Good(Initial(capacity, feeds), feeds)
  {
    InitialOk(capacity, feeds);
    assert Payload([Initialize]) == [] by { assert [Initialize][1..] == []; }
  }

  /**
    * At every point of every orderly run: no panic; the log is in causal order; the pipeline queue is bounded
    * by n + 1; each self-signal has been sent at most once, and only when every stage has reported; the barrier
    * has opened at most once; Shutdown means every stage is Drained; and each stage's data is, in order, what it
    * has processed, what is queued, and what is still to be sent.
    */
  lemma OrderlyRunFacts(capacity: nat, feeds: seq<seq<string>>, moves: seq<Move>)
    requires capacity >= 1 && |feeds| >= 1
    requires var s := Initial(capacity, feeds); IsRun(s, moves) && AllOrderly(s, moves)
    ensures var s := After(Initial(capacity, feeds), moves);
            && !s.panicked && |s.stages| == |feeds| && Causal(s.log, |feeds|) && |s.queue| <= |feeds| + 1
            && s.readySends == Flag(forall i: nat :: i < |feeds| ==> i in s.ready, 1)
            && s.drainedSends == Flag(forall i: nat :: i < |feeds| ==> i in s.drained, 1)
            && s.generation <= 1
            && (s.state == Shutdown ==> forall i :: 0 <= i < |feeds| ==> s.stages[i].state == Drained)
            && forall i :: 0 <= i < |feeds| ==>
                 feeds[i] == s.stages[i].processed + (Payload(s.stages[i].queue) + s.stages[i].feed)
  {
    InitialGood(capacity, feeds);
    OrderlyRunsStayGood(Initial(capacity, feeds), feeds, moves);
    var s := After(Initial(capacity, feeds), moves);
    QueueBound(s);
    FullSet(s.ready, |s.stages|);
    FullSet(s.drained, |s.stages|);
  }

  /** And at the end of a maximal one: signals sent and barrier opened exactly once, all data processed in order. */
  lemma OrderlyRunsFinish(capacity: nat, feeds: seq<seq<string>>, moves: seq<Move>)
    requires capacity >= 1 && |feeds| >= 1
    requires var s := Initial(capacity, feeds); IsRun(s, moves) && AllOrderly(s, moves) && Stuck(After(s, moves))
    ensures var s := After(Initial(capacity, feeds), moves);
            && Final(s) && s.readySends == 1 && s.drainedSends == 1 && s.generation == 1 && |s.stages| == |feeds|
            && forall i :: 0 <= i < |feeds| ==> s.stages[i].processed == feeds[i]
  {
    InitialGood(capacity, feeds);
    OrderlyRunsStayGood(Initial(capacity, feeds), feeds, moves);
    EveryMaximalRun(capacity, feeds, moves);
    var s := After(Initial(capacity, feeds), moves);
    forall i | 0 <= i < |feeds| ensures s.stages[i].processed == feeds[i] {
      assert StageOk(s, i) && DataOf(s.stages[i]) == feeds[i];
    }
  }
}
