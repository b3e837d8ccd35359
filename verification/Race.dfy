/** Machines racing on a shared in-flight counter, drained through a barrier, in every interleaving. */
module Race {

  const GROW: nat := 50
  const CHAOS: nat := 100
  const EXORCISM: nat := 100
  const WORD: nat := 0x1_0000_0000_0000_0000

  datatype RaceState = Idle | Racing(counter: nat) | Draining | Done

  /**
    * A machine with its task: the call it has reached in the loops; whether it is suspended inside Increment,
    * between the shared counter and its own; the barrier generation it waits for; what it last counted while
    * Racing; how often it added to and took from the shared counter, and took while its own stood at zero.
    */
  datatype Demon = Demon(
    state: RaceState,
    call: nat,
    suspended: bool,
    waiting: bool,
    last: nat,
    added: nat,
    taken: nat,
    borrowed: nat
  )

  datatype Coordinator = Arriving | AtBarrier | Judging

  datatype System = System(
    inFlight: nat,
    metrics: map<nat, nat>,
    demons: seq<Demon>,
    coordinator: Coordinator,
    arrived: nat,
    generation: nat,
    panicked: bool
  )

  datatype Move =
    | Start(demon: nat)
    | Add(demon: nat)
    | FinishIncrement(demon: nat)
    | Decrement(demon: nat)
    | BeginDrain(demon: nat)
    | Arrive(demon: nat)
    | Release(demon: nat)
    | CoordinatorArrive
    | CoordinatorRelease

  // The calls of a task, in order.
  predicate MayIncrement(call: nat) {
    1 <= call <= GROW + CHAOS
  }

  predicate MayDecrement(call: nat) {
    GROW < call <= GROW + CHAOS + EXORCISM
  }

  const DRAIN_CALL: nat := GROW + CHAOS + EXORCISM + 1
  const COMPLETE_CALL: nat := DRAIN_CALL + 1

  function Initial(n: nat): System {
    System(0, map[], seq(n, i requires 0 <= i < n => Demon(Idle, 0, false, false, 0, 0, 0, 0)), Arriving, 0, 0, false)
  }

  function With(s: System, i: nat, d: Demon): System
    requires i < |s.demons|
  {
    s.(demons := s.demons[i := d])
  }

  function ArriveAt(s: System): System {
    if s.arrived + 1 == |s.demons| + 1 then s.(arrived := 0, generation := s.generation + 1)
    else s.(arrived := s.arrived + 1)
  }

  predicate Enabled(s: System, m: Move) {
    && !s.panicked
    && match m
       case CoordinatorArrive => s.coordinator == Arriving
       case CoordinatorRelease => s.coordinator == AtBarrier && s.generation > 0
       case _ =>
         && m.demon < |s.demons|
         && var d := s.demons[m.demon];
            && (d.suspended <==> m.FinishIncrement?) && (d.waiting <==> m.Release?)
            && match m
               case Start(_) => d.call == 0
               case Add(_) => MayIncrement(d.call)
               case FinishIncrement(_) => true
               case Decrement(_) => MayDecrement(d.call)
               case BeginDrain(_) => d.call == DRAIN_CALL
               case Arrive(_) => d.call == COMPLETE_CALL
               case Release(_) => s.generation > 0
  }

  /** The counter is a machine word and `fetch_add` wraps. */
  function FetchAdd(v: nat): nat {
    (v + 1) % WORD
  }

  /** An event without a handler in the machine's state is an error, which the task unwraps. */
  function Do(s: System, m: Move): System
    requires Enabled(s, m)
  {
    match m
    case Start(i) =>
      var d := s.demons[i];
      if d.state != Idle then s.(panicked := true)
      else With(s, i, d.(state := Racing(0), call := d.call + 1)).(metrics := s.metrics[i := 0])
    case Add(i) =>
      var d := s.demons[i];
      if !d.state.Racing? then s.(panicked := true)
      else With(s, i, d.(suspended := true, added := d.added + 1)).(inFlight := FetchAdd(s.inFlight))
    case FinishIncrement(i) =>
      var d := s.demons[i];
      if !d.state.Racing? then s.(panicked := true)
      else With(s, i, d.(state := Racing(d.state.counter + 1), call := d.call + 1, suspended := false))
           .(metrics := if i in s.metrics then s.metrics[i := FetchAdd(s.metrics[i])] else s.metrics)
    case Decrement(i) =>
      var d := s.demons[i];
      if !d.state.Racing? then s.(panicked := true)
      else if s.inFlight == 0 then With(s, i, d.(call := d.call + 1))
      else
        var zero := d.state.counter == 0;
        With(s, i, d.(state := Racing(if zero then 0 else d.state.counter - 1), call := d.call + 1,
                      taken := d.taken + 1, borrowed := d.borrowed + if zero then 1 else 0))
        .(inFlight := s.inFlight - 1)
    case BeginDrain(i) =>
      var d := s.demons[i];
      if !d.state.Racing? then s.(panicked := true)
      else With(s, i, d.(state := Draining, call := d.call + 1, last := d.state.counter))
    case Arrive(i) =>
      var d := s.demons[i];
      if d.state != Draining
          then s.(panicked := true) else ArriveAt(With(s, i, d.(call := d.call + 1, waiting := true)))
    case Release(i) => With(s, i, s.demons[i].(state := Done, call := s.demons[i].call + 1, waiting := false))
    case CoordinatorArrive => ArriveAt(s.(coordinator := AtBarrier))
    case CoordinatorRelease => s.(coordinator := Judging)
  }

  predicate AllDone(s: System) {
    s.coordinator == Judging && forall i :: 0 <= i < |s.demons| ==> s.demons[i].state == Done
  }

  predicate IsRun(s: System, moves: seq<Move>)
    decreases |moves|
  {
    moves == [] || (Enabled(s, moves[0]) && IsRun(Do(s, moves[0]), moves[1..]))
  }

  function After(s: System, moves: seq<Move>): System
    requires IsRun(s, moves)
    decreases |moves|
  {
    if moves == [] then s else After(Do(s, moves[0]), moves[1..])
  }

  ghost predicate Stuck(s: System) {
    forall m :: !Enabled(s, m)
  }

  // ---------------------------------------------------------------------------------------------
  // Sums over the machines

  function Sum(demons: seq<Demon>, f: Demon -> nat): nat {
    if demons == [] then 0 else f(demons[0]) + Sum(demons[1..], f)
  }

  lemma {:induction false} SumUpdate(demons: seq<Demon>, i: nat, d: Demon, f: Demon -> nat)
    requires i < |demons|
    ensures Sum(demons[i := d], f) + f(demons[i]) == Sum(demons, f) + f(d)
  {
    if i == 0 {
      assert demons[0 := d][1..] == demons[1..];
    } else {
      assert demons[i := d][1..] == demons[1..][i - 1 := d];
      SumUpdate(demons[1..], i - 1, d, f);
    }
  }

  lemma {:induction false} SumBound(demons: seq<Demon>, f: Demon -> nat, bound: nat)
    requires forall i :: 0 <= i < |demons| ==> f(demons[i]) <= bound
    ensures Sum(demons, f) <= |demons| * bound
  {
    if demons != [] {
      SumBound(demons[1..], f, bound);
      assert |demons| * bound == bound + (|demons| - 1) * bound;
    }
  }

  lemma {:induction false} SumZero(demons: seq<Demon>, f: Demon -> nat)
    ensures Sum(demons, f) == 0 <==> forall i :: 0 <= i < |demons| ==> f(demons[i]) == 0
  {
    if demons != [] {
      SumZero(demons[1..], f);
      assert forall i :: 0 < i < |demons| ==> demons[i] == demons[1..][i - 1];
    }
  }

  lemma {:induction false} SumFull(demons: seq<Demon>, f: Demon -> nat)
    requires forall i :: 0 <= i < |demons| ==> f(demons[i]) <= 1
    ensures Sum(demons, f) <= |demons|
    ensures Sum(demons, f) == |demons| <==> forall i :: 0 <= i < |demons| ==> f(demons[i]) == 1
  {
    if demons != [] {
      SumFull(demons[1..], f);
      assert forall i :: 0 < i < |demons| ==> demons[i] == demons[1..][i - 1];
    }
  }

  lemma {:induction false} SumOfSums(demons: seq<Demon>,
                                     f: Demon -> nat, g: Demon -> nat, a: Demon -> nat, b: Demon -> nat)
    requires forall i :: 0 <= i < |demons| ==> f(demons[i]) + g(demons[i]) == a(demons[i]) + b(demons[i])
    ensures Sum(demons, f) + Sum(demons, g) == Sum(demons, a) + Sum(demons, b)
  {
    if demons != [] {
      SumOfSums(demons[1..], f, g, a, b);
    }
  }
}
