/** Safety, liveness, exactness and causal order of the coordination protocol, for any number of stages. */
module PipelineTheorems {
  import opened Pipeline
  import opened PipelineProgress
  import opened PipelineInvariant
  import opened PipelineDoom

  // ---------------------------------------------------------------------------------------------
  // Deadlock freedom

  /** An orderly move of stage i, which still owes the pipeline a report of readiness. */
  lemma UnreportedStageMoves(s: System, i: nat) returns (m: Move)
    requires Inv(s) && i < |s.stages| && !Reported(s.stages[i]) && s.queue == [] && s.launched
    ensures Enabled(s, m) && Orderly(s, m)
  {
    assert StageOk(s, i);
    m := if s.stages[i].materializing then CompleteMaterialization(i) else StageReceive(i);
  }

  /** Until Start is queued the main task can go on: every queue it sends to is empty. */
  lemma MainMoves(s: System) returns (m: Move)
    requires Inv(s) && !s.launched
    ensures Enabled(s, m) && Orderly(s, m)
  {
    if s.invited < |s.stages| {
      m := Invite(s.invited);
      assert StageOk(s, s.invited);
    } else {
      m := Launch;
      NoMessage(s);
    }
  }

  /** An orderly move of stage i, which has been told to shut down and has not drained. */
  lemma UndrainedStageMoves(s: System, i: nat) returns (m: Move)
    requires Inv(s) && i < |s.stages| && s.state == PipelineDraining && s.stages[i].state != Drained && s.queue == []
    ensures Enabled(s, m) && Orderly(s, m)
  {
    assert StageOk(s, i);
    var g := s.stages[i];
    m := if g.control.Waiting? then StageRelease(i)
         else if g.draining then CompleteDrain(i)
         else if g.queue != [] then StageReceive(i)
         else StageShutdown(i);
  }

  lemma MissingMember(ids: set<nat>, n: nat) returns (i: nat)
    requires |ids| != n && forall j :: j in ids ==> j < n
    ensures i < n && i !in ids
  {
    FullSet(ids, n);
    i :| i < n && i !in ids;
  }

  lemma WaitingForStagesMoves(s: System) returns (m: Move)
    requires Inv(s) && s.state == WaitingForStages
    ensures Enabled(s, m) && Orderly(s, m)
  {
    if s.control.FanOut? {
      if s.control.todo == {} {
        m := PipelineArrive;
      } else {
        var i :| i in s.control.todo;
        FullSet(s.ready, |s.stages|);
        assert StageOk(s, i) && i in s.ready;
        m := SendStart(i);
      }
    } else if s.queue != [] {
      m := PipelineReceive;
    } else {
      assert !Expected(s, AllStagesReady);
      var i := MissingMember(s.ready, |s.stages|);
      assert !Expected(s, StageReady(i));
      m := UnreportedStageMoves(s, i);
    }
  }

  lemma ClosedBarrierMoves(s: System) returns (m: Move)
    requires Inv(s) && s.state == PipelineRunning && s.control.AtBarrier? && s.generation == 0
    ensures Enabled(s, m) && Orderly(s, m)
  {
    var i := MissingMember(WaitingSet(s), |s.stages|);
    FullSet(s.ready, |s.stages|);
    assert StageOk(s, i) && i in s.ready && Reported(s.stages[i]);
    m := StageReceive(i);
  }

  lemma {:induction false} FirstUnfed(s: System, k: nat) returns (i: nat)
    requires k < |s.stages| && s.stages[k].feed != []
    ensures i <= k && s.stages[i].feed != [] && forall j :: 0 <= j < i ==> s.stages[j].feed == []
  {
    i := k;
    if j: nat :| j < k && s.stages[j].feed != [] {
      i := FirstUnfed(s, j);
    }
  }

  lemma FeedingMoves(s: System) returns (m: Move)
    requires Inv(s) && s.state == PipelineRunning && s.control.Receiving? && !s.stopping
    ensures Enabled(s, m) && Orderly(s, m)
  {
    if unfed: nat :| unfed < |s.stages| && s.stages[unfed].feed != [] {
      var i := FirstUnfed(s, unfed);
      assert StageOk(s, i);
      m := if HasRoom(s.stages[i].queue, s.capacity) then Feed(i)
           else if s.stages[i].control.Waiting? then StageRelease(i) else StageReceive(i);
    } else {
      if s.queue != [] {
        m := PipelineReceive;
      } else {
        m := Stop;
      }
    }
  }

  /** No reachable state is deadlocked: short of the intended end there is always an orderly move. */
  lemma NoDeadlock(s: System) returns (m: Move)
    requires Inv(s) && !Final(s)
    ensures Enabled(s, m) && Orderly(s, m)
  {
    match s.state
    case Initializing =>
      if s.launched {
        m := PipelineReceive;
      } else {
        m := MainMoves(s);
      }
    case WaitingForStages => m := WaitingForStagesMoves(s);
    case PipelineRunning =>
      if s.control.AtBarrier? {
        if s.generation == 1 {
          m := PipelineRelease;
        } else {
          m := ClosedBarrierMoves(s);
        }
      } else if s.stopping {
        assert Expected(s, BeginShutdown);
        m := PipelineReceive;
      } else {
        m := FeedingMoves(s);
      }
    case PipelineDraining =>
      if s.queue != [] {
        m := PipelineReceive;
      } else {
        assert !Expected(s, AllStagesDrained);
        var i := MissingMember(s.drained, |s.stages|);
        assert !Expected(s, StageDrained(i));
        m := UndrainedStageMoves(s, i);
      }
    case Shutdown =>
      FullSet(s.drained, |s.stages|);
      forall i | 0 <= i < |s.stages| ensures s.stages[i].state == Drained && s.stages[i].control.Exited? {
        assert StageOk(s, i);
      }
      assert false;
  }

  lemma FinalIsStuck(s: System)
    requires Inv(s) && Final(s)
    ensures Stuck(s)
  {
    forall m ensures !Enabled(s, m) {
      if m.CompleteMaterialization? || m.CompleteDrain? {
        assert m.stage < |s.stages| ==> StageOk(s, m.stage);
      }
    }
  }

  // ---------------------------------------------------------------------------------------------
  // All runs

  lemma {:induction false} OrderlyRunsKeep(s: System, moves: seq<Move>)
    requires Inv(s) && IsRun(s, moves) && AllOrderly(s, moves)
    ensures Inv(After(s, moves))
    decreases |moves|
  {
    if moves != [] {
      MoveKeeps(s, moves[0]);
      OrderlyRunsKeep(Do(s, moves[0]), moves[1..]);
    }
  }

  lemma {:induction false} MaximalRuns(s: System, moves: seq<Move>)
    requires Inv(s) && IsRun(s, moves) && Stuck(After(s, moves))
    ensures AllOrderly(s, moves) ==> Final(After(s, moves))
    ensures !AllOrderly(s, moves) ==> After(s, moves).panicked
    decreases |moves|
  {
    if moves == [] {
      if !Final(s) {
        var m := NoDeadlock(s);
      }
    } else if Orderly(s, moves[0]) {
      MoveKeeps(s, moves[0]);
      MaximalRuns(Do(s, moves[0]), moves[1..]);
    } else {
      DisorderlyMoveDooms(s, moves[0]);
      DoomedRunsPanic(Do(s, moves[0]), moves[1..]);
    }
  }

  /**
    * Safety and liveness together. For any number of stages and any data, every run that cannot be continued
    * ends with the pipeline in Shutdown and every stage Drained if all its moves are orderly, and in a panic
    * (an unhandled event) if a single one is not; and every run does end.
    */
  lemma EveryMaximalRun(capacity: nat, feeds: seq<seq<string>>, moves: seq<Move>)
    requires capacity >= 1 && |feeds| >= 1
    requires var s := Initial(capacity, feeds); IsRun(s, moves) && Stuck(After(s, moves))
    ensures var s := Initial(capacity, feeds);
            && |moves| <= Measure(s)
            && (AllOrderly(s, moves) <==> Final(After(s, moves)))
            && (AllOrderly(s, moves) <==> !After(s, moves).panicked)
  {
    InitialOk(capacity, feeds);
    RunsAreFinite(Initial(capacity, feeds), moves);
    MaximalRuns(Initial(capacity, feeds), moves);
  }

  /** A scheduler that keeps taking orderly moves until none is left: it always ends as intended. */
  method RunToCompletion(capacity: nat, feeds: seq<seq<string>>) returns (s: System, moves: seq<Move>)
    requires capacity >= 1 && |feeds| >= 1
    ensures IsRun(Initial(capacity, feeds), moves) && AllOrderly(Initial(capacity, feeds), moves)
    ensures s == After(Initial(capacity, feeds), moves) && Final(s) && Stuck(s)
  {
    s, moves := Initial(capacity, feeds), [];
    InitialOk(capacity, feeds);
    while !Final(s)
      invariant Inv(s) && IsRun(Initial(capacity, feeds), moves) && AllOrderly(Initial(capacity, feeds), moves)
      invariant s == After(Initial(capacity, feeds), moves)
      decreases Measure(s)
    {
      ghost var witnessed := NoDeadlock(s);
      var m: Move :| Enabled(s, m) && Orderly(s, m);
      MoveKeeps(s, m);
      SumsAreLawful();
      MoveLowers(SUMS, s, m);
      RunSnoc(Initial(capacity, feeds), moves, m);
      s, moves := Do(s, m), moves + [m];
    }
    FinalIsStuck(s);
  }

  lemma {:induction false} RunSnoc(s: System, moves: seq<Move>, m: Move)
    requires IsRun(s, moves) && Enabled(After(s, moves), m)
    ensures IsRun(s, moves + [m]) && After(s, moves + [m]) == Do(After(s, moves), m)
    ensures AllOrderly(s, moves + [m]) <==> AllOrderly(s, moves) && Orderly(After(s, moves), m)
    decreases |moves|
  {
    if moves == [] {
      assert [m][1..] == [];
    } else {
      assert (moves + [m])[1..] == moves[1..] + [m];
      RunSnoc(Do(s, moves[0]), moves[1..], m);
    }
  }
}
