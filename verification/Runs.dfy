/** Whole runs of the engine: timer, hooks and emitted actions. */
module Runs {
  import opened FsmTypes
  import opened Machine

  datatype World<S, E, C, A> =
    World(cfg: Config<S>, ctx: C, outs: seq<Outcome<seq<A>>>, trace: seq<Note<S, E, A>>)

  function Boot<S, E, C, A>(t: Table<S, E, C, A>, initial: S, ctx: C, now: nat): World<S, E, C, A> {
    World(Start(t, initial, now), ctx, [], [Entered(initial, now)])
  }

  function Advance<S, E, C, A>(t: Table<S, E, C, A>, w: World<S, E, C, A>, op: Op<E>): World<S, E, C, A> {
    var step := Fire(t, w.cfg, w.ctx, op);
    World(step.cfg, step.ctx, w.outs + [step.result], w.trace + step.notes)
  }

  function Run<S, E, C, A>(t: Table<S, E, C, A>, w: World<S, E, C, A>, ops: seq<Op<E>>): World<S, E, C, A>
    decreases |ops|
  {
    if ops == [] then w else Run(t, Advance(t, w, ops[0]), ops[1..])
  }

  /** Clock readings inside one call never go backwards: the swap comes before the re-arming. */
  predicate Clocked<E>(ops: seq<Op<E>>) {
    forall i :: 0 <= i < |ops| ==> ops[i].enterAt <= ops[i].armAt
  }

  // ---------------------------------------------------------------------------------------------
  // Timer

  predicate FailedEntry<S, E, A>(n: Note<S, E, A>) {
    n.EntryCall? && !n.result.Ok?
  }

  predicate FailedExit<S, E, A>(n: Note<S, E, A>) {
    n.ExitCall? && !n.result.Ok?
  }

  /** Where the current state was installed: the last swap in the trace. */
  function LastSwap<S, E, A>(trace: seq<Note<S, E, A>>): (i: int)
    ensures -1 <= i < |trace| && (i >= 0 ==> trace[i].Entered?)
  {
    if trace == [] then -1
    else if trace[|trace| - 1].Entered? then |trace| - 1
    else LastSwap(trace[..|trace| - 1])
  }

  /** The last swap whose entry hook did not fail: the one that (re-)armed the timer. */
  function LastArming<S, E, A>(trace: seq<Note<S, E, A>>): (i: int)
    ensures -1 <= i < |trace| && (i >= 0 ==> trace[i].Entered?)
  {
    if trace == [] then -1
    else if trace[|trace| - 1].Entered? then |trace| - 1
    else if FailedEntry(trace[|trace| - 1]) && |trace| >= 2 then LastArming(trace[..|trace| - 2])
    else LastArming(trace[..|trace| - 1])
  }

  lemma {:induction false} LastSwapAppend<S, E, A>(xs: seq<Note<S, E, A>>, ys: seq<Note<S, E, A>>)
    ensures LastSwap(xs + ys) == if LastSwap(ys) >= 0 then |xs| + LastSwap(ys) else LastSwap(xs)
  {
    if ys == [] {
      assert xs + ys == xs;
    } else {
      assert (xs + ys)[..|xs + ys| - 1] == xs + ys[..|ys| - 1];
      LastSwapAppend(xs, ys[..|ys| - 1]);
    }
  }

  lemma {:induction false} LastArmingAppend<S, E, A>(xs: seq<Note<S, E, A>>, ys: seq<Note<S, E, A>>)
    requires ys != [] ==> !ys[0].EntryCall?
    ensures LastArming(xs + ys) == if LastArming(ys) >= 0 then |xs| + LastArming(ys) else LastArming(xs)
  {
    if ys == [] {
      assert xs + ys == xs;
    } else {
      var k := if FailedEntry(ys[|ys| - 1]) then 2 else 1;
      assert (xs + ys)[..|xs + ys| - k] == xs + ys[..|ys| - k];
      LastArmingAppend(xs, ys[..|ys| - k]);
    }
  }

  /**
    * What ties the timer to the trace, entry failures included: the deadline is the one set by the
    * last arming, whichever state is current.
    */
  ghost predicate Anchored<S, E, C, A>(t: Table<S, E, C, A>, w: World<S, E, C, A>) {
    var swap, arming := LastSwap(w.trace), LastArming(w.trace);
    && swap >= 0 && w.trace[swap].state == w.cfg.state
    && arming >= 0
    && var armed := t.stateName(w.trace[arming].state);
       && (w.cfg.deadline.Some? <==> armed in t.timeouts)
       && (w.cfg.deadline.Some? ==> w.cfg.deadline.value >= w.trace[arming].at + t.timeouts[armed].0)
  }

  /** The timeout handler called at position i was due with respect to the last arming before it. */
  ghost predicate Due<S, E, C, A>(t: Table<S, E, C, A>, trace: seq<Note<S, E, A>>, i: nat)
    requires i < |trace| && trace[i].TimeoutCall?
  {
    var arming, swap := LastArming(trace[..i]), LastSwap(trace[..i]);
    && swap >= 0 && trace[swap].state == trace[i].state
    && arming >= 0
    && var armed := t.stateName(trace[arming].state);
       armed in t.timeouts && trace[i].now >= trace[arming].at + t.timeouts[armed].0
  }

  /** A timeout handler is called first in a step, in the current state, and only past the deadline. */
  ghost predicate Shaped<S, E, C, A>(cfg: Config<S>, s: Step<S, E, C, A>) {
    && (s.notes != [] ==> !s.notes[0].EntryCall?)
    && (forall i :: 0 < i < |s.notes| ==> !s.notes[i].TimeoutCall?)
    && (s.notes != [] && s.notes[0].TimeoutCall? ==>
          s.notes[0].state == cfg.state && cfg.deadline.Some? && s.notes[0].now >= cfg.deadline.value)
  }

  lemma StepShape<S, E, C, A>(t: Table<S, E, C, A>, cfg: Config<S>, ctx: C, op: Op<E>)
    ensures Shaped(cfg, Fire(t, cfg, ctx, op))
  {
  }

  /** What a step does to state and deadline, read off the notes it leaves. */
  ghost predicate TimerEffect<S, E, C, A>(t: Table<S, E, C, A>, cfg: Config<S>, s: Step<S, E, C, A>,
                                          enterAt: nat, armAt: nat)
  {
    var swap, arming := LastSwap(s.notes), LastArming(s.notes);
    && (swap < 0 ==> s.cfg == cfg && arming < 0)
    && (swap >= 0 ==> s.cfg.state == s.notes[swap].state && s.notes[swap].at == enterAt)
    && (arming < 0 ==> s.cfg.deadline == cfg.deadline)
    && (arming >= 0 ==> arming == swap && s.cfg.deadline == Deadline(t, s.cfg.state, armAt))
    && (arming >= 0 <==> swap >= 0 && s.result.Ok?)
    && (swap >= 0 && !s.result.Ok? <==> s.notes != [] && FailedEntry(s.notes[|s.notes| - 1]))
  }

  lemma EnterTimer<S, E, C, A>(t: Table<S, E, C, A>, cfg: Config<S>, tr: Transition<S, A>, ctx: C,
                               enterAt: nat, armAt: nat)
    ensures var s := EnterState(t, cfg, tr, ctx, enterAt, armAt);
            TimerEffect(t, cfg, s, enterAt, armAt) && s.notes[0].Entered?
  {
    var n := EnterState(t, cfg, tr, ctx, enterAt, armAt).notes;
    if |n| == 2 {
      assert n[..1] == [n[0]] && n[..0] == [];
    }
  }

  lemma ApplyTimer<S, E, C, A>(t: Table<S, E, C, A>, cfg: Config<S>, tr: Transition<S, A>, ctx: C,
                               enterAt: nat, armAt: nat)
    ensures var s := ApplyTransition(t, cfg, tr, ctx, enterAt, armAt);
            TimerEffect(t, cfg, s, enterAt, armAt) && s.notes != [] && !s.notes[0].EntryCall?
  {
    var name := t.stateName(cfg.state);
    if name !in t.exit {
      EnterTimer(t, cfg, tr, ctx, enterAt, armAt);
    } else {
      var (ctx', r) := t.exit[name](cfg.state, ctx);
      if r.Ok? {
        EnterTimer(t, cfg, tr, ctx', enterAt, armAt);
        var rest := EnterState(t, cfg, tr, ctx', enterAt, armAt).notes;
        LastSwapAppend([ExitCall(cfg.state, r)], rest);
        LastArmingAppend([ExitCall(cfg.state, r)], rest);
      }
    }
  }

  lemma AfterTimer<S, E, C, A>(t: Table<S, E, C, A>, cfg: Config<S>, call: Note<S, E, A>,
                               ran: (C, Outcome<Transition<S, A>>), enterAt: nat, armAt: nat)
    requires !call.Entered? && !call.EntryCall?
    ensures TimerEffect(t, cfg, AfterHandler(t, cfg, call, ran, enterAt, armAt), enterAt, armAt)
  {
    if ran.1.Ok? {
      ApplyTimer(t, cfg, ran.1.value, ran.0, enterAt, armAt);
      var rest := ApplyTransition(t, cfg, ran.1.value, ran.0, enterAt, armAt).notes;
      LastSwapAppend([call], rest);
      LastArmingAppend([call], rest);
    }
  }

  lemma StepTimer<S, E, C, A>(t: Table<S, E, C, A>, cfg: Config<S>, ctx: C, op: Op<E>)
    ensures TimerEffect(t, cfg, Fire(t, cfg, ctx, op), op.enterAt, op.armAt)
  {
    if op.HandleOp? {
      var handler := Dispatch(t, cfg.state, op.event);
      if handler.Some? {
        var ran := handler.value(cfg.state, op.event, ctx);
        AfterTimer(t, cfg, OnCall(cfg.state, op.event, ran.1), ran, op.enterAt, op.armAt);
      }
    } else if Fire(t, cfg, ctx, op).notes != [] {
      var ran := t.timeouts[t.stateName(cfg.state)].1(cfg.state, ctx);
      AfterTimer(t, cfg, TimeoutCall(cfg.state, op.now, ran.1), ran, op.enterAt, op.armAt);
    }
  }

  ghost predicate AllDue<S, E, C, A>(t: Table<S, E, C, A>, trace: seq<Note<S, E, A>>) {
    forall i :: 0 <= i < |trace| && trace[i].TimeoutCall? ==> Due(t, trace, i)
  }

  lemma NotesKeepAnchor<S, E, C, A>(t: Table<S, E, C, A>, w: World<S, E, C, A>, w': World<S, E, C, A>,
                                    s: Step<S, E, C, A>, enterAt: nat, armAt: nat)
    requires Anchored(t, w) && enterAt <= armAt && Shaped(w.cfg, s) && TimerEffect(t, w.cfg, s, enterAt, armAt)
    requires w'.cfg == s.cfg && w'.trace == w.trace + s.notes
    ensures Anchored(t, w')
  {
    LastSwapAppend(w.trace, s.notes);
    LastArmingAppend(w.trace, s.notes);
  }

  lemma NotesKeepDue<S, E, C, A>(t: Table<S, E, C, A>, w: World<S, E, C, A>, s: Step<S, E, C, A>)
    requires Anchored(t, w) && Shaped(w.cfg, s) && AllDue(t, w.trace)
    ensures AllDue(t, w.trace + s.notes)
  {
    var trace := w.trace + s.notes;
    forall i | 0 <= i < |trace| && trace[i].TimeoutCall? ensures Due(t, trace, i) {
      if i < |w.trace| {
        assert trace[..i] == w.trace[..i] && Due(t, w.trace, i);
      } else {
        assert trace[i] == s.notes[i - |w.trace|] && i == |w.trace|;
        assert trace[..i] == w.trace;
      }
    }
  }

  lemma StepKeepsAnchor<S, E, C, A>(t: Table<S, E, C, A>, w: World<S, E, C, A>, op: Op<E>)
    requires Anchored(t, w) && op.enterAt <= op.armAt && AllDue(t, w.trace)
    ensures Anchored(t, Advance(t, w, op)) && AllDue(t, Advance(t, w, op).trace)
  {
    var s := Fire(t, w.cfg, w.ctx, op);
    StepTimer(t, w.cfg, w.ctx, op);
    StepShape(t, w.cfg, w.ctx, op);
    NotesKeepAnchor(t, w, Advance(t, w, op), s, op.enterAt, op.armAt);
    NotesKeepDue(t, w, s);
  }

  /**
    * On every run, entry failures included, the deadline belongs to the last arming, and a timeout
    * handler is called only when the duration of the state armed last has passed since that arming.
    */
  lemma {:induction false} DeadlineBelongsToLastArming<S, E, C, A>(t: Table<S, E, C, A>, w: World<S, E, C, A>,
      ops: seq<Op<E>>)
    requires Anchored(t, w) && Clocked(ops) && AllDue(t, w.trace)
    ensures Anchored(t, Run(t, w, ops)) && AllDue(t, Run(t, w, ops).trace)
    decreases |ops|
  {
    if ops != [] {
      StepKeepsAnchor(t, w, ops[0]);
      DeadlineBelongsToLastArming(t, Advance(t, w, ops[0]), ops[1..]);
    }
  }

  lemma {:induction false} CleanTraceArms<S, E, A>(trace: seq<Note<S, E, A>>)
    requires forall i :: 0 <= i < |trace| ==> !FailedEntry(trace[i])
    ensures LastArming(trace) == LastSwap(trace)
  {
    if trace != [] {
      CleanTraceArms(trace[..|trace| - 1]);
    }
  }

  lemma BootIsAnchored<S, E, C, A>(t: Table<S, E, C, A>, initial: S, ctx: C, now: nat)
    ensures Anchored(t, Boot(t, initial, ctx, now))
  {
    var trace: seq<Note<S, E, A>> := [Entered(initial, now)];
    assert LastSwap(trace) == 0 && LastArming(trace) == 0;
  }

  /**
    * A timeout handler never runs before its state's duration has passed since the state was entered, if the
    * last swap before it armed the timer: no matter which entry hooks failed before that swap.
    */
  lemma TimeoutNeverEarly<S, E, C, A>(t: Table<S, E, C, A>, initial: S, ctx: C, now: nat, ops: seq<Op<E>>, i: nat)
    requires Clocked(ops)
    requires i < |Run(t, Boot(t, initial, ctx, now), ops).trace|
    requires Run(t, Boot(t, initial, ctx, now), ops).trace[i].TimeoutCall?
    requires var before := Run(t, Boot(t, initial, ctx, now), ops).trace[..i];
             LastArming(before) == LastSwap(before)
    ensures var trace := Run(t, Boot(t, initial, ctx, now), ops).trace;
            var swap := LastSwap(trace[..i]);
            && swap >= 0 && trace[swap].state == trace[i].state
            && t.stateName(trace[i].state) in t.timeouts
            && trace[i].now >= trace[swap].at + t.timeouts[t.stateName(trace[i].state)].0
  {
    BootIsAnchored(t, initial, ctx, now);
    DeadlineBelongsToLastArming(t, Boot(t, initial, ctx, now), ops);
    assert Due(t, Run(t, Boot(t, initial, ctx, now), ops).trace, i);
  }

  /** In particular when no entry hook has failed or been dropped before. */
  lemma CleanRunsAreNeverEarly<S, E, A>(trace: seq<Note<S, E, A>>, i: nat)
    requires i <= |trace| && forall k :: 0 <= k < i ==> !FailedEntry(trace[k])
    ensures LastArming(trace[..i]) == LastSwap(trace[..i])
  {
    CleanTraceArms(trace[..i]);
  }

  /** Checking at the instant n runs the state's timeout handler although its duration has not passed. */
  predicate FiresEarly<S, E, C, A>(t: Table<S, E, C, A>, cfg: Config<S>, ctx: C, enteredAt: nat, n: nat) {
    var name := t.stateName(cfg.state);
    var notes := CheckTimeout(t, cfg, ctx, n, n, n).notes;
    notes != [] && notes[0].TimeoutCall? && name in t.timeouts && n < enteredAt + t.timeouts[name].0
  }

  lemma FiringNeedsDeadline<S, E, C, A>(t: Table<S, E, C, A>, cfg: Config<S>, ctx: C, enteredAt: nat, n: nat)
    ensures var name := t.stateName(cfg.state);
            FiresEarly(t, cfg, ctx, enteredAt, n) <==>
              cfg.deadline.Some? && cfg.deadline.value <= n && name in t.timeouts && n < enteredAt + t.timeouts[name].0
  {
  }

  /**
    * Exactly when a call that swaps the state admits an early firing: its entry hook fails, the new state has
    * a timeout, and the old deadline, still armed, comes before that timeout is due.
    */
  lemma EarlyFiringExactly<S, E, C, A>(t: Table<S, E, C, A>, cfg: Config<S>, ctx: C, op: Op<E>)
    requires op.enterAt <= op.armAt && LastSwap(Fire(t, cfg, ctx, op).notes) >= 0
    ensures var s := Fire(t, cfg, ctx, op);
            var name := t.stateName(s.cfg.state);
            (exists n: nat :: FiresEarly(t, s.cfg, s.ctx, op.enterAt, n)) <==>
              && FailedEntry(s.notes[|s.notes| - 1])
              && name in t.timeouts
              && cfg.deadline.Some? && cfg.deadline.value < op.enterAt + t.timeouts[name].0
  {
    var s := Fire(t, cfg, ctx, op);
    StepTimer(t, cfg, ctx, op);
    forall n: nat {
      FiringNeedsDeadline(t, s.cfg, s.ctx, op.enterAt, n);
    }
    if cfg.deadline.Some? {
      FiringNeedsDeadline(t, s.cfg, s.ctx, op.enterAt, cfg.deadline.value);
    }
  }

  ghost predicate TimerOk<S, E, C, A>(t: Table<S, E, C, A>, cfg: Config<S>) {
    cfg.deadline.Some? <==> t.stateName(cfg.state) in t.timeouts
  }

  /**
    * The timer invariant and exactly what breaks it: after any run a deadline is armed iff the current
    * state has a timeout, unless the last swap was followed by a failed entry hook and the state that
    * armed last and the current one differ in having a timeout.
    */
  lemma TimerInvariantExactly<S, E, C, A>(t: Table<S, E, C, A>, initial: S, ctx: C, now: nat, ops: seq<Op<E>>)
    requires Clocked(ops)
    ensures var w := Run(t, Boot(t, initial, ctx, now), ops);
            var swap, arming := LastSwap(w.trace), LastArming(w.trace);
            && swap >= 0 && arming >= 0
            && (TimerOk(t, w.cfg) <==>
                  (arming == swap ||
                   (t.stateName(w.trace[arming].state) in t.timeouts <==> t.stateName(w.cfg.state) in t.timeouts)))
  {
    BootIsAnchored(t, initial, ctx, now);
    DeadlineBelongsToLastArming(t, Boot(t, initial, ctx, now), ops);
  }

  /**
    * The three ways a call can end. Success without a swap, or any error before the swap, leaves state
    * and deadline alone; a failed entry hook leaves the new state with the old deadline; a completed
    * transition sets state and deadline together, whatever they were before.
    */
  lemma CallEffects<S, E, C, A>(t: Table<S, E, C, A>, cfg: Config<S>, ctx: C, op: Op<E>)
    ensures var s := Fire(t, cfg, ctx, op);
            var swapped := LastSwap(s.notes) >= 0;
            var failed := s.notes != [] && FailedEntry(s.notes[|s.notes| - 1]);
            && (!swapped ==> s.cfg == cfg && !failed)
            && (swapped && s.result.Ok? ==> s.cfg == Start(t, s.cfg.state, op.armAt) && TimerOk(t, s.cfg))
            && (swapped && !s.result.Ok? <==> failed)
            && (failed ==> s.cfg.deadline == cfg.deadline)
            && (TimerOk(t, cfg) ==>
                  (TimerOk(t, s.cfg) <==>
                     !(failed && (t.stateName(cfg.state) in t.timeouts) != (t.stateName(s.cfg.state) in t.timeouts))))
  {
    StepTimer(t, cfg, ctx, op);
  }

  lemma {:induction false} RunStartsWithACall<S, E, C, A>(t: Table<S, E, C, A>, w: World<S, E, C, A>, ops: seq<Op<E>>)
    returns (rest: seq<Note<S, E, A>>)
    ensures Run(t, w, ops).trace == w.trace + rest && (rest != [] ==> !rest[0].EntryCall?)
    decreases |ops|
  {
    rest := [];
    if ops != [] {
      var v := Advance(t, w, ops[0]);
      StepShape(t, w.cfg, w.ctx, ops[0]);
      var later := RunStartsWithACall(t, v, ops[1..]);
      rest := Fire(t, w.cfg, w.ctx, ops[0]).notes + later;
    } else {
      assert w.trace + [] == w.trace;
    }
  }

  /** A successful timeout transition swaps the state, and so arms anew. */
  lemma SuccessfulFiringArms<S, E, C, A>(t: Table<S, E, C, A>, cfg: Config<S>, ctx: C, op: Op<E>)
    requires var s := Fire(t, cfg, ctx, op); s.notes != [] && s.notes[0].TimeoutCall? && s.result.Ok?
    ensures LastArming(Fire(t, cfg, ctx, op).notes) >= 1
  {
    var s := Fire(t, cfg, ctx, op);
    var ran := t.timeouts[t.stateName(cfg.state)].1(cfg.state, ctx);
    ApplySwaps(t, cfg, ran.1.value, ran.0, op.enterAt, op.armAt);
    var applied := ApplyTransition(t, cfg, ran.1.value, ran.0, op.enterAt, op.armAt);
    ApplyTimer(t, cfg, ran.1.value, ran.0, op.enterAt, op.armAt);
    LastArmingAppend([TimeoutCall(cfg.state, op.now, ran.1)], applied.notes);
  }

  lemma ApplySwaps<S, E, C, A>(t: Table<S, E, C, A>, cfg: Config<S>, tr: Transition<S, A>, ctx: C, enterAt: nat,
                               armAt: nat)
    requires ApplyTransition(t, cfg, tr, ctx, enterAt, armAt).result.Ok?
    ensures LastSwap(ApplyTransition(t, cfg, tr, ctx, enterAt, armAt).notes) >= 0
  {
    var name := t.stateName(cfg.state);
    if name !in t.exit {
      EnterSwaps(t, cfg, tr, ctx, enterAt, armAt);
    } else {
      var (ctx', r) := t.exit[name](cfg.state, ctx);
      EnterSwaps(t, cfg, tr, ctx', enterAt, armAt);
      LastSwapAppend([ExitCall(cfg.state, r)], EnterState(t, cfg, tr, ctx', enterAt, armAt).notes);
    }
  }

  lemma EnterSwaps<S, E, C, A>(t: Table<S, E, C, A>, cfg: Config<S>, tr: Transition<S, A>, ctx: C, enterAt: nat,
                               armAt: nat)
    ensures LastSwap(EnterState(t, cfg, tr, ctx, enterAt, armAt).notes) >= 0
  {
    var n := EnterState(t, cfg, tr, ctx, enterAt, armAt).notes;
    if |n| == 2 {
      assert n[..1] == [n[0]];
    }
  }

  /** A later timeout call comes after the arming that a step's notes contain. */
  lemma ArmingStays<S, E, A>(before: seq<Note<S, E, A>>, notes: seq<Note<S, E, A>>, rest: seq<Note<S, E, A>>, j: nat)
    requires LastArming(notes) >= 1 && !notes[0].EntryCall? && (rest != [] ==> !rest[0].EntryCall?)
    requires forall k :: 0 < k < |notes| ==> !notes[k].TimeoutCall?
    requires |before| < j < |before + notes + rest| && (before + notes + rest)[j].TimeoutCall?
    ensures var trace := before + notes + rest;
            trace[..|before|] == before && trace[|before|] == notes[0] && LastArming(before) < LastArming(trace[..j])
  {
    var trace := before + notes + rest;
    assert forall k :: 0 <= k < |notes| ==> trace[|before| + k] == notes[k];
    var n := j - |before + notes|;
    assert trace[..j] == before + notes + rest[..n];
    LastArmingAppend(before, notes);
    LastArmingAppend(before + notes, rest[..n]);
  }

  /**
    * Each arming leads to at most one successful timeout transition: after a timeout call that returned
    * Ok, every later timeout call is preceded by a later arming.
    */
  lemma FiringsUseDifferentArmings<S, E, C, A>(t: Table<S, E, C, A>, w: World<S, E, C, A>, op: Op<E>,
                                               later: seq<Op<E>>, j: nat)
    requires var s := Fire(t, w.cfg, w.ctx, op); s.notes != [] && s.notes[0].TimeoutCall? && s.result.Ok?
    requires |w.trace| < j < |Run(t, w, [op] + later).trace| && Run(t, w, [op] + later).trace[j].TimeoutCall?
    ensures var trace := Run(t, w, [op] + later).trace;
            && trace[..|w.trace|] == w.trace && trace[|w.trace|].TimeoutCall?
            && LastArming(trace[..|w.trace|]) < LastArming(trace[..j])
  {
    var s := Fire(t, w.cfg, w.ctx, op);
    var rest := RunStartsWithACall(t, Advance(t, w, op), later);
    assert ([op] + later)[1..] == later;
    StepShape(t, w.cfg, w.ctx, op);
    SuccessfulFiringArms(t, w.cfg, w.ctx, op);
    ArmingStays(w.trace, s.notes, rest, j);
  }

  /** Two states with timeouts 10 and 100, and an entry hook of the second that fails. */
  function StaleTable(): Table<bool, (), (), ()> {
    var back := (s: bool, c: ()) => (c, Ok(Transition(false, [])));
    Table((s: bool) => if s then "Slow" else "Fast", (e: ()) => "Go",
          map[("Fast", "Go") := (s: bool, e: (), c: ()) => (c, Ok(Transition(true, [])))],
          map["Slow" := (s: bool, c: ()) => (c, Err(HandlerError("entry")))],
          map[],
          map["Fast" := (10, back), "Slow" := (100, back)],
          None)
  }

  /** Without the hypothesis on entry hooks the stale deadline fires 95 ticks early. */
  lemma StaleDeadlineFiresEarly()
    ensures var ops := [HandleOp((), 5, 5), CheckOp(10, 10, 10)];
            var trace := Run(StaleTable(), Boot(StaleTable(), false, (), 0), ops).trace;
            && Clocked(ops)
            && |trace| > 4 && trace[2] == Entered(true, 5) && FailedEntry(trace[3])
            && trace[4].TimeoutCall? && trace[4].state && trace[4].now == 10 < 5 + StaleTable().timeouts["Slow"].0
  {
    var t := StaleTable();
    var w0 := Boot(t, false, (), 0);
    var w1 := Advance(t, w0, HandleOp((), 5, 5));
    assert w1.cfg == Config(true, Some(10));
    var w2 := Advance(t, w1, CheckOp(10, 10, 10));
    var ops := [HandleOp((), 5, 5), CheckOp(10, 10, 10)];
    assert ops[1..][1..] == [];
    assert Run(t, w0, ops) == Run(t, w1, ops[1..]) == Run(t, w2, []);
  }
}
