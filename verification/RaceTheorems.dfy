/** Conservation of the in-flight count, and that every race is drained. */
module RaceTheorems {
  import opened Race

  function AddedBy(d: Demon): nat { d.added }

  function TakenBy(d: Demon): nat { d.taken }

  function BorrowedBy(d: Demon): nat { d.borrowed }

  /** The machine's own count: current while Racing, then the last. */
  function Own(d: Demon): nat {
    if d.state.Racing? then d.state.counter else d.last
  }

  /** The own count and an increment that has reached only the shared counter. */
  function Pledged(d: Demon): nat {
    Own(d) + if d.suspended then 1 else 0
  }

  function IsWaiting(d: Demon): nat {
    if d.waiting then 1 else 0
  }

  predicate DemonOk(s: System, i: nat)
    requires i < |s.demons|
  {
    var d := s.demons[i];
    && (match d.state
        case Idle => d.call == 0 && i !in s.metrics && d.added == d.last == 0
        case Racing(_) => 1 <= d.call <= DRAIN_CALL
        case Draining => if d.waiting then d.call == COMPLETE_CALL + 1 else d.call == COMPLETE_CALL && s.generation == 0
        case Done => d.call == COMPLETE_CALL + 2 && s.generation > 0)
    && (d.suspended ==> d.state.Racing? && MayIncrement(d.call))
    && (d.waiting ==> d.state == Draining)
    && d.added <= GROW + CHAOS && (MayIncrement(d.call) ==> d.added <= if d.suspended then d.call else d.call - 1)
    && Pledged(d) + d.taken == d.added + d.borrowed
    && (d.state != Idle ==> i in s.metrics && s.metrics[i] + (if d.suspended then 1 else 0) == d.added)
  }

  predicate DemonsOk(s: System) {
    forall i :: 0 <= i < |s.demons| ==> DemonOk(s, i)
  }

  predicate CountOk(s: System) {
    s.inFlight + Sum(s.demons, TakenBy) == Sum(s.demons, AddedBy)
  }

  predicate BarrierOk(s: System) {
    && (s.generation == 0 ==>
          && s.arrived == Sum(s.demons, IsWaiting) + (if s.coordinator == AtBarrier then 1 else 0) <= |s.demons|
          && s.coordinator != Judging)
    && (s.generation > 0 ==>
          s.coordinator != Arriving
            && forall i :: 0 <= i < |s.demons| ==> s.demons[i].waiting || s.demons[i].state == Done)
  }

  predicate Inv(s: System) {
    !s.panicked && |s.demons| * (GROW + CHAOS) < WORD && DemonsOk(s) && CountOk(s) && BarrierOk(s)
  }

  // ---------------------------------------------------------------------------------------------
  // Moves

  lemma OthersKeep(s: System, s': System, i: nat)
    requires DemonsOk(s) && i < |s.demons| && |s'.demons| == |s.demons| && s'.demons == s.demons[i := s'.demons[i]]
    requires forall j :: j != i ==>
          (j in s'.metrics <==> j in s.metrics) && (j in s.metrics ==> s'.metrics[j] == s.metrics[j])
    requires s'.generation == s.generation && DemonOk(s', i)
    ensures DemonsOk(s')
  {
    forall j | 0 <= j < |s'.demons| ensures DemonOk(s', j) {
      assert DemonOk(s, j);
    }
  }

  lemma Counts(s: System, s': System, i: nat)
    requires CountOk(s) && i < |s.demons| && |s'.demons| == |s.demons| && s'.demons == s.demons[i := s'.demons[i]]
    requires s'.inFlight + s'.demons[i].taken + s.demons[i].added == s.inFlight + s.demons[i].taken + s'.demons[i].added
    ensures CountOk(s')
  {
    SumUpdate(s.demons, i, s'.demons[i], TakenBy);
    SumUpdate(s.demons, i, s'.demons[i], AddedBy);
  }

  lemma BarrierUntouched(s: System, s': System, i: nat)
    requires BarrierOk(s) && i < |s.demons| && |s'.demons| == |s.demons| && s'.demons == s.demons[i := s'.demons[i]]
    requires s'.arrived == s.arrived && s'.generation == s.generation == 0 && s'.coordinator == s.coordinator
    requires s'.demons[i].waiting == s.demons[i].waiting
    ensures BarrierOk(s')
  {
    SumUpdate(s.demons, i, s'.demons[i], IsWaiting);
  }

  /** Adding one cannot wrap: the machines add too little in all. */
  lemma NoWrap(s: System, i: nat)
    requires Inv(s) && i < |s.demons| && MayIncrement(s.demons[i].call) && !s.demons[i].suspended
    ensures s.inFlight + 1 < WORD
  {
    forall j | 0 <= j < |s.demons| ensures AddedBy(s.demons[j]) <= GROW + CHAOS {
      assert DemonOk(s, j);
    }
    var more := s.demons[i].(added := s.demons[i].added + 1);
    assert DemonOk(s, i);
    SumUpdate(s.demons, i, more, AddedBy);
    SumBound(s.demons[i := more], AddedBy, GROW + CHAOS);
  }

  lemma AddKeeps(s: System, i: nat)
    requires Inv(s) && Enabled(s, Add(i))
    ensures Inv(Do(s, Add(i)))
  {
    var s' := Do(s, Add(i));
    assert DemonOk(s, i);
    NoWrap(s, i);
    OthersKeep(s, s', i);
    Counts(s, s', i);
    BarrierUntouched(s, s', i);
  }

  lemma FinishKeeps(s: System, i: nat)
    requires Inv(s) && Enabled(s, FinishIncrement(i))
    ensures Inv(Do(s, FinishIncrement(i)))
  {
    var s' := Do(s, FinishIncrement(i));
    assert DemonOk(s, i);
    OthersKeep(s, s', i);
    Counts(s, s', i);
    BarrierUntouched(s, s', i);
  }

  lemma DecrementKeeps(s: System, i: nat)
    requires Inv(s) && Enabled(s, Decrement(i))
    ensures Inv(Do(s, Decrement(i)))
  {
    var s' := Do(s, Decrement(i));
    assert DemonOk(s, i);
    OthersKeep(s, s', i);
    Counts(s, s', i);
    BarrierUntouched(s, s', i);
  }

  lemma PhaseKeeps(s: System, m: Move)
    requires Inv(s) && Enabled(s, m) && (m.Start? || m.BeginDrain?)
    ensures Inv(Do(s, m))
  {
    var s' := Do(s, m);
    assert DemonOk(s, m.demon);
    OthersKeep(s, s', m.demon);
    Counts(s, s', m.demon);
    BarrierUntouched(s, s', m.demon);
  }

  /** One more waiter; the last one finds everybody there. */
  lemma ArriveKeeps(s: System, i: nat)
    requires Inv(s) && Enabled(s, Arrive(i))
    ensures Inv(Do(s, Arrive(i)))
  {
    assert DemonOk(s, i);
    var d := s.demons[i].(call := s.demons[i].call + 1, waiting := true);
    var s1, s' := With(s, i, d), Do(s, Arrive(i));
    OthersKeep(s, s1, i);
    Counts(s, s1, i);
    SumUpdate(s.demons, i, d, IsWaiting);
    SumFull(s1.demons, IsWaiting);
    forall j | 0 <= j < |s'.demons| ensures DemonOk(s', j) && (s'.generation > 0 ==> s'.demons[j].waiting) {
      assert DemonOk(s1, j);
    }
  }

  lemma CoordinatorArriveKeeps(s: System)
    requires Inv(s) && Enabled(s, CoordinatorArrive)
    ensures Inv(Do(s, CoordinatorArrive))
  {
    var s' := Do(s, CoordinatorArrive);
    SumFull(s.demons, IsWaiting);
    forall j | 0 <= j < |s'.demons| ensures DemonOk(s', j) && (s'.generation > 0 ==> s'.demons[j].waiting) {
      assert DemonOk(s, j);
    }
  }

  lemma ReleaseKeeps(s: System, i: nat)
    requires Inv(s) && Enabled(s, Release(i))
    ensures Inv(Do(s, Release(i)))
  {
    var s' := Do(s, Release(i));
    assert DemonOk(s, i);
    OthersKeep(s, s', i);
    Counts(s, s', i);
  }

  lemma CoordinatorReleaseKeeps(s: System)
    requires Inv(s) && Enabled(s, CoordinatorRelease)
    ensures Inv(Do(s, CoordinatorRelease))
  {
    var s' := Do(s, CoordinatorRelease);
    forall j | 0 <= j < |s'.demons| ensures DemonOk(s', j) {
      assert DemonOk(s, j);
    }
  }

  lemma MoveKeeps(s: System, m: Move)
    requires Inv(s) && Enabled(s, m)
    ensures Inv(Do(s, m))
  {
    match m
    case Start(_) => PhaseKeeps(s, m);
    case Add(i) => AddKeeps(s, i);
    case FinishIncrement(i) => FinishKeeps(s, i);
    case Decrement(i) => DecrementKeeps(s, i);
    case BeginDrain(_) => PhaseKeeps(s, m);
    case Arrive(i) => ArriveKeeps(s, i);
    case Release(i) => ReleaseKeeps(s, i);
    case CoordinatorArrive => CoordinatorArriveKeeps(s);
    case CoordinatorRelease => CoordinatorReleaseKeeps(s);
  }

  // ---------------------------------------------------------------------------------------------
  // Ending

  function Rank(d: Demon): nat {
    if d.call > COMPLETE_CALL + 2 then 0 else 2 * (COMPLETE_CALL + 2 - d.call) + if d.suspended then 0 else 1
  }

  function Measure(s: System): nat {
    Sum(s.demons, Rank) + match s.coordinator case Arriving => 2 case AtBarrier => 1 case Judging => 0
  }

  lemma MoveLowers(s: System, m: Move)
    requires Inv(s) && Enabled(s, m)
    ensures Measure(Do(s, m)) < Measure(s)
  {
    if !(m.CoordinatorArrive? || m.CoordinatorRelease?) {
      assert DemonOk(s, m.demon);
      SumUpdate(s.demons, m.demon, Do(s, m).demons[m.demon], Rank);
      assert Do(s, m).demons == s.demons[m.demon := Do(s, m).demons[m.demon]];
    }
  }

  /** The next call of a machine that has not reached the barrier. */
  lemma RacingMoves(s: System, i: nat) returns (m: Move)
    requires Inv(s) && i < |s.demons| && !s.demons[i].waiting && s.demons[i].state != Done
    ensures Enabled(s, m)
  {
    assert DemonOk(s, i);
    var d := s.demons[i];
    m := if d.suspended then FinishIncrement(i)
         else if d.call == 0 then Start(i)
         else if MayIncrement(d.call) then Add(i)
         else if MayDecrement(d.call) then Decrement(i)
         else if d.call == DRAIN_CALL then BeginDrain(i)
         else Arrive(i);
  }

  lemma NoDeadlock(s: System) returns (m: Move)
    requires Inv(s) && !AllDone(s)
    ensures Enabled(s, m)
  {
    if i: nat :| i < |s.demons| && !s.demons[i].waiting && s.demons[i].state != Done {
      m := RacingMoves(s, i);
    } else if s.coordinator == Arriving {
      m := CoordinatorArrive;
    } else if s.generation > 0 {
      if s.coordinator == AtBarrier {
        m := CoordinatorRelease;
      } else {
        var i: nat :| i < |s.demons| && s.demons[i].state != Done;
        assert DemonOk(s, i);
        m := Release(i);
      }
    } else {
      forall i | 0 <= i < |s.demons| ensures IsWaiting(s.demons[i]) == 1 {
        assert DemonOk(s, i);
      }
      SumFull(s.demons, IsWaiting);
      assert false;
    }
  }

  // ---------------------------------------------------------------------------------------------
  // Runs

  /** What the counters say at any point of a race. */
  lemma Conservation(s: System)
    requires Inv(s)
    ensures s.inFlight == Sum(s.demons, AddedBy) - Sum(s.demons, TakenBy) < WORD
    ensures Sum(s.demons, Pledged) - s.inFlight == Sum(s.demons, BorrowedBy)
    ensures s.inFlight == Sum(s.demons, Pledged) <==> forall i :: 0 <= i < |s.demons| ==> s.demons[i].borrowed == 0
  {
    forall i | 0 <= i < |s.demons|
      ensures Pledged(s.demons[i]) + TakenBy(s.demons[i]) == AddedBy(s.demons[i]) + BorrowedBy(s.demons[i])
      ensures AddedBy(s.demons[i]) <= GROW + CHAOS
    {
      assert DemonOk(s, i);
    }
    SumOfSums(s.demons, Pledged, TakenBy, AddedBy, BorrowedBy);
    SumBound(s.demons, AddedBy, GROW + CHAOS);
    SumZero(s.demons, BorrowedBy);
  }

  /** A decrement takes one from the shared counter if there is one to take, and otherwise changes no count. */
  lemma DecrementExactly(s: System, i: nat)
    requires Inv(s) && Enabled(s, Decrement(i))
    ensures var s' := Do(s, Decrement(i));
            var own, own' := Own(s.demons[i]), Own(s'.demons[i]);
            if s.inFlight == 0 then
              s'.inFlight == 0 && s'.demons[i].state == s.demons[i].state && s'.metrics == s.metrics
            else
              s'.inFlight == s.inFlight - 1 && own' == if own == 0 then 0 else own - 1
  {
    assert DemonOk(s, i);
  }

  lemma {:induction false} InitialOk(n: nat)
    requires n * (GROW + CHAOS) < WORD
    ensures Inv(Initial(n))
  {
    var s := Initial(n);
    SumZero(s.demons, AddedBy);
    SumZero(s.demons, TakenBy);
    SumZero(s.demons, IsWaiting);
  }

  lemma {:induction false} RunKeeps(s: System, moves: seq<Move>)
    requires Inv(s) && IsRun(s, moves)
    ensures Inv(After(s, moves)) && |After(s, moves).demons| == |s.demons|
            && |moves| + Measure(After(s, moves)) <= Measure(s)
    decreases |moves|
  {
    if moves != [] {
      MoveKeeps(s, moves[0]);
      MoveLowers(s, moves[0]);
      RunKeeps(Do(s, moves[0]), moves[1..]);
    }
  }

  /**
    * For any number of machines whose additions fit a machine word, in every interleaving: no event is unhandled;
    * the shared counter is what was added less what was taken, and never wraps; it is short of the machines' own
    * counts (and pledged increments) by exactly the decrements taken at an own count of zero; each metric is the
    * number of its machine's completed increments. No machine is Done before all have reached the barrier, the
    * coordinator included. Every run ends, with all machines Done.
    */
  lemma EveryRace(n: nat, moves: seq<Move>)
    requires n * (GROW + CHAOS) < WORD && IsRun(Initial(n), moves)
    ensures var s := After(Initial(n), moves);
            && !s.panicked && |s.demons| == n && |moves| <= Measure(Initial(n))
            && s.inFlight == Sum(s.demons, AddedBy) - Sum(s.demons, TakenBy) < WORD
            && Sum(s.demons, Pledged) - s.inFlight == Sum(s.demons, BorrowedBy)
            && (s.inFlight == Sum(s.demons, Pledged) <==> forall i :: 0 <= i < n ==> s.demons[i].borrowed == 0)
            && (forall i: nat :: i < n && s.demons[i].state != Idle && !s.demons[i].suspended ==>
                  i in s.metrics && s.metrics[i] == s.demons[i].added)
            && ((exists i :: 0 <= i < n && s.demons[i].state == Done) ==>
                  && s.coordinator != Arriving
                  && forall i :: 0 <= i < n ==> s.demons[i].waiting || s.demons[i].state == Done)
            && (Stuck(s) ==> AllDone(s))
  {
    InitialOk(n);
    RunKeeps(Initial(n), moves);
    var s := After(Initial(n), moves);
    Conservation(s);
    forall i: nat | i < n && s.demons[i].state != Idle && !s.demons[i].suspended
      ensures i in s.metrics && s.metrics[i] == s.demons[i].added
    {
      assert DemonOk(s, i);
    }
    if i :| 0 <= i < n && s.demons[i].state == Done {
      assert DemonOk(s, i);
    }
    if Stuck(s) && !AllDone(s) {
      var m := NoDeadlock(s);
    }
  }
}
