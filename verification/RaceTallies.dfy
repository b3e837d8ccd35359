/** The counters of a race against the moves that were made in it. */
module RaceTallies {
  import opened Race
  import opened RaceTheorems

  lemma {:induction false} RunSnoc(s: System, moves: seq<Move>)
    requires IsRun(s, moves) && moves != []
    ensures var front, last := moves[..|moves| - 1], moves[|moves| - 1];
            IsRun(s, front) && Enabled(After(s, front), last) && After(s, moves) == Do(After(s, front), last)
    decreases |moves|
  {
    if |moves| > 1 {
      var front := moves[..|moves| - 1];
      assert moves[1..][..|moves| - 2] == front[1..];
      RunSnoc(Do(s, moves[0]), moves[1..]);
    }
  }

  function One(b: bool): nat {
    if b then 1 else 0
  }

  /** How often machine i found nothing to take. */
  function Refusals(s: System, moves: seq<Move>, i: nat): nat
    requires IsRun(s, moves)
    decreases |moves|
  {
    if moves == [] then 0
    else
      RunSnoc(s, moves);
      var front, last := moves[..|moves| - 1], moves[|moves| - 1];
      Refusals(s, front, i) + One(last == Decrement(i) && After(s, front).inFlight == 0)
  }

  /** The increments and decrements a task has behind it when it has reached this call. */
  function Rounds(call: nat): nat {
    if call == 0 then 0 else if call <= DRAIN_CALL then call - 1 else DRAIN_CALL - 1
  }

  /** What machine i holds is what its moves have brought it. */
  predicate Tallied(s: System, made: multiset<Move>, refused: nat, i: nat)
    requires i < |s.demons|
  {
    var d, ups, downs := s.demons[i], made[FinishIncrement(i)], made[Decrement(i)];
    && d.added == made[Add(i)] == ups + One(d.suspended)
    && d.taken + refused == downs
    && ups + downs == Rounds(d.call)
    && (if Rounds(d.call) <= GROW then downs == 0 else GROW <= ups <= GROW + CHAOS)
  }

  /** A move of another machine, or of the coordinator, changes nothing here. */
  lemma OthersTally(s: System, m: Move, made: multiset<Move>, refused: nat, i: nat)
    requires Inv(s) && Enabled(s, m) && i < |s.demons| && Tallied(s, made, refused, i)
    requires m.CoordinatorArrive? || m.CoordinatorRelease? || m.demon != i
    ensures i < |Do(s, m).demons| && Tallied(Do(s, m), made + multiset{m}, refused, i)
  {
    if !(m.CoordinatorArrive? || m.CoordinatorRelease?) {
      assert DemonOk(s, m.demon);
    }
  }

  lemma IncrementTallies(s: System, m: Move, made: multiset<Move>, refused: nat)
    requires Inv(s) && Enabled(s, m) && (m.Add? || m.FinishIncrement?) && Tallied(s, made, refused, m.demon)
    ensures m.demon < |Do(s, m).demons| && Tallied(Do(s, m), made + multiset{m}, refused, m.demon)
  {
    assert DemonOk(s, m.demon);
  }

  lemma DecrementTallies(s: System, i: nat, made: multiset<Move>, refused: nat)
    requires Inv(s) && Enabled(s, Decrement(i)) && Tallied(s, made, refused, i)
    ensures var s' := Do(s, Decrement(i));
            i < |s'.demons| && Tallied(s', made + multiset{Decrement(i)}, refused + One(s.inFlight == 0), i)
  {
    assert DemonOk(s, i);
  }

  lemma PhaseTallies(s: System, m: Move, made: multiset<Move>, refused: nat)
    requires Inv(s) && Enabled(s, m) && (m.Start? || m.BeginDrain? || m.Arrive? || m.Release?)
    requires Tallied(s, made, refused, m.demon)
    ensures m.demon < |Do(s, m).demons| && Tallied(Do(s, m), made + multiset{m}, refused, m.demon)
  {
    assert DemonOk(s, m.demon);
  }

  lemma MoveTallies(s: System, m: Move, made: multiset<Move>, refused: nat, i: nat)
    requires Inv(s) && Enabled(s, m) && i < |s.demons| && Tallied(s, made, refused, i)
    ensures var s' := Do(s, m);
            && i < |s'.demons|
            && Tallied(s', made + multiset{m}, refused + One(m == Decrement(i) && s.inFlight == 0), i)
  {
    if m.CoordinatorArrive? || m.CoordinatorRelease? || m.demon != i {
      OthersTally(s, m, made, refused, i);
    } else if m.Add? || m.FinishIncrement? {
      IncrementTallies(s, m, made, refused);
    } else if m.Decrement? {
      DecrementTallies(s, i, made, refused);
    } else {
      PhaseTallies(s, m, made, refused);
    }
  }

  lemma {:induction false} RunTallies(s: System, moves: seq<Move>, i: nat)
    requires Inv(s) && IsRun(s, moves) && i < |s.demons| && Tallied(s, multiset{}, 0, i)
    ensures var s' := After(s, moves);
            i < |s'.demons| && Tallied(s', multiset(moves), Refusals(s, moves, i), i)
    decreases |moves|
  {
    if moves != [] {
      var front, last := moves[..|moves| - 1], moves[|moves| - 1];
      RunSnoc(s, moves);
      RunKeeps(s, front);
      RunTallies(s, front, i);
      assert moves == front + [last];
      MoveTallies(After(s, front), last, multiset(front), Refusals(s, front, i), i);
    }
  }

  /**
    * In every interleaving a machine has added to the shared counter as often as it has begun an increment, and
    * taken from it at every decrement but those that found it at zero. Once all are done, each has made between 50
    * and 150 increments and decrements for the rest of its 250 rounds, and its metric is its increments.
    */
  lemma RoundsExactly(n: nat, moves: seq<Move>)
    requires n * (GROW + CHAOS) < WORD && IsRun(Initial(n), moves)
    ensures var s0 := Initial(n);
            var s, made := After(s0, moves), multiset(moves);
            && |s.demons| == n
            && (forall i: nat :: i < n ==>
                  && s.demons[i].added == made[Add(i)]
                  && s.demons[i].taken + Refusals(s0, moves, i) == made[Decrement(i)])
            && (AllDone(s) ==> forall i: nat :: i < n ==>
                  && 50 <= made[FinishIncrement(i)] <= 150
                  && made[FinishIncrement(i)] + made[Decrement(i)] == 250
                  && i in s.metrics && s.metrics[i] == made[FinishIncrement(i)])
  {
    InitialOk(n);
    RunKeeps(Initial(n), moves);
    var s := After(Initial(n), moves);
    forall i: nat | i < n
      ensures s.demons[i].added == multiset(moves)[Add(i)]
      ensures s.demons[i].taken + Refusals(Initial(n), moves, i) == multiset(moves)[Decrement(i)]
      ensures AllDone(s) ==>
                && 50 <= multiset(moves)[FinishIncrement(i)] <= 150
                && multiset(moves)[FinishIncrement(i)] + multiset(moves)[Decrement(i)] == 250
                && i in s.metrics && s.metrics[i] == multiset(moves)[FinishIncrement(i)]
    {
      RunTallies(Initial(n), moves, i);
      assert DemonOk(s, i);
    }
  }
}
