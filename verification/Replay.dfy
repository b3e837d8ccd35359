/** Live hosts execute the returned actions, replaying hosts ignore them. */
module Replay {
  import opened FsmTypes
  import opened Machine
  import opened Runs

  function LiveAdvance<S, E, C, A>(t: Table<S, E, C, A>, execute: (A, C) -> (C, Outcome<()>),
                                   w: World<S, E, C, A>, op: Op<E>): World<S, E, C, A>
  {
    var step := Fire(t, w.cfg, w.ctx, op);
    var ctx := if step.result.Ok? then ExecuteActions(execute, step.result.value, step.ctx).0 else step.ctx;
    World(step.cfg, ctx, w.outs + [step.result], w.trace + step.notes)
  }

  function LiveRun<S, E, C, A>(t: Table<S, E, C, A>, execute: (A, C) -> (C, Outcome<()>),
                               w: World<S, E, C, A>, ops: seq<Op<E>>): World<S, E, C, A>
    decreases |ops|
  {
    if ops == [] then w else LiveRun(t, execute, LiveAdvance(t, execute, w, ops[0]), ops[1..])
  }

  ghost predicate SameEffect<C, T, V>(view: C -> V, x: (C, T), y: (C, T)) {
    view(x.0) == view(y.0) && x.1 == y.1
  }

  /** Every handler and hook reads and writes only the part of the context that the view shows. */
  ghost predicate Confined<S(!new), E(!new), C(!new), A(!new), V>(t: Table<S, E, C, A>, view: C -> V) {
    && (forall k, s, e, c, c' | k in t.transitions && view(c) == view(c') ::
          SameEffect(view, t.transitions[k](s, e, c), t.transitions[k](s, e, c')))
    && (forall k, s, c, c' | k in t.entry && view(c) == view(c') ::
          SameEffect(view, t.entry[k](s, c), t.entry[k](s, c')))
    && (forall k, s, c, c' | k in t.exit && view(c) == view(c') ::
          SameEffect(view, t.exit[k](s, c), t.exit[k](s, c')))
    && (forall k, s, c, c' | k in t.timeouts && view(c) == view(c') ::
          SameEffect(view, t.timeouts[k].1(s, c), t.timeouts[k].1(s, c')))
    && (t.unhandled.Some? ==> forall s, e, c, c' | view(c) == view(c') ::
          SameEffect(view, t.unhandled.value(s, e, c), t.unhandled.value(s, e, c')))
  }

  /** Executing an action never writes what the view shows. */
  ghost predicate Invisible<C(!new), A(!new), V>(execute: (A, C) -> (C, Outcome<()>), view: C -> V) {
    forall a, c :: view(execute(a, c).0) == view(c)
  }

  ghost predicate SameStep<S, E, C, A, V>(view: C -> V, x: Step<S, E, C, A>, y: Step<S, E, C, A>) {
    x.cfg == y.cfg && view(x.ctx) == view(y.ctx) && x.result == y.result && x.notes == y.notes
  }

  ghost predicate SameWorld<S, E, C, A, V>(view: C -> V, x: World<S, E, C, A>, y: World<S, E, C, A>) {
    x.cfg == y.cfg && view(x.ctx) == view(y.ctx) && x.outs == y.outs && x.trace == y.trace
  }

  lemma ApplyConfined<S(!new), E(!new), C(!new), A(!new), V>(
      t: Table<S, E, C, A>, view: C -> V, cfg: Config<S>, tr: Transition<S, A>, c: C, c': C, enterAt: nat, armAt: nat)
    requires Confined(t, view) && view(c) == view(c')
    ensures SameStep(view, ApplyTransition(t, cfg, tr, c, enterAt, armAt), ApplyTransition(t, cfg, tr, c', enterAt,
              armAt))
  {
    var exit, entry := t.stateName(cfg.state), t.stateName(tr.nextState);
    var d, d' := c, c';
    if exit in t.exit {
      assert SameEffect(view, t.exit[exit](cfg.state, c), t.exit[exit](cfg.state, c'));
      d, d' := t.exit[exit](cfg.state, c).0, t.exit[exit](cfg.state, c').0;
    }
    if entry in t.entry {
      assert SameEffect(view, t.entry[entry](tr.nextState, d), t.entry[entry](tr.nextState, d'));
    }
    assert SameStep(view, EnterState(t, cfg, tr, d, enterAt, armAt), EnterState(t, cfg, tr, d', enterAt, armAt));
  }

  lemma FireConfined<S(!new), E(!new), C(!new), A(!new), V>(
      t: Table<S, E, C, A>, view: C -> V, cfg: Config<S>, c: C, c': C, op: Op<E>)
    requires Confined(t, view) && view(c) == view(c')
    ensures SameStep(view, Fire(t, cfg, c, op), Fire(t, cfg, c', op))
  {
    var name := t.stateName(cfg.state);
    var ran, ran': (C, Outcome<Transition<S, A>>);
    if op.HandleOp? {
      var handler := Dispatch(t, cfg.state, op.event);
      if handler.None? {
        return;
      }
      ran, ran' := handler.value(cfg.state, op.event, c), handler.value(cfg.state, op.event, c');
      var key := if (name, t.eventName(op.event)) in t.transitions then (name, t.eventName(op.event))
                 else ("_", t.eventName(op.event));
      assert SameEffect(view, t.transitions[key](cfg.state, op.event, c), t.transitions[key](cfg.state, op.event, c'));
    } else {
      if Fire(t, cfg, c, op).notes == [] {
        return;
      }
      ran, ran' := t.timeouts[name].1(cfg.state, c), t.timeouts[name].1(cfg.state, c');
    }
    assert SameEffect(view, ran, ran');
    if ran.1.Ok? {
      ApplyConfined(t, view, cfg, ran.1.value, ran.0, ran'.0, op.enterAt, op.armAt);
    }
  }

  lemma {:induction false} ExecutionInvisible<C(!new), A(!new), V>(
      execute: (A, C) -> (C, Outcome<()>), view: C -> V, actions: seq<A>, c: C)
    requires Invisible(execute, view)
    ensures view(ExecuteActions(execute, actions, c).0) == view(c)
  {
    if actions != [] {
      ExecutionInvisible(execute, view, actions[1..], execute(actions[0], c).0);
    }
  }

  /**
    * A replay that ignores actions and a live run that executes them, failing actions included, go through
    * the same states, deadlines, handler calls and returned actions, and show handlers the same context.
    */
  lemma {:induction false} ReplayAgreesWithLive<S(!new), E(!new), C(!new), A(!new), V>(
      t: Table<S, E, C, A>, view: C -> V, execute: (A, C) -> (C, Outcome<()>), replay: World<S, E, C, A>,
      live: World<S, E, C, A>, ops: seq<Op<E>>)
    requires Confined(t, view) && Invisible(execute, view) && SameWorld(view, replay, live)
    ensures SameWorld(view, Run(t, replay, ops), LiveRun(t, execute, live, ops))
    decreases |ops|
  {
    if ops != [] {
      FireConfined(t, view, replay.cfg, replay.ctx, live.ctx, ops[0]);
      var step := Fire(t, live.cfg, live.ctx, ops[0]);
      if step.result.Ok? {
        ExecutionInvisible(execute, view, step.result.value, step.ctx);
      }
      ReplayAgreesWithLive(t, view, execute, Advance(t, replay, ops[0]), LiveAdvance(t, execute, live, ops[0]),
          ops[1..]);
    }
  }

  // ---------------------------------------------------------------------------------------------
  // Exactly when the modes agree

  /** The two modes are told apart by states, deadlines, results and handler calls; the context is the host's. */
  ghost predicate SameObservations<S, E, C, A>(x: World<S, E, C, A>, y: World<S, E, C, A>) {
    x.cfg == y.cfg && x.outs == y.outs && x.trace == y.trace
  }

  ghost predicate ModesAgree<S(!new), E(!new), C(!new), A(!new)>(
      t: Table<S, E, C, A>, execute: (A, C) -> (C, Outcome<()>)) {
    forall w, ops :: SameObservations(Run(t, w, ops), LiveRun(t, execute, w, ops))
  }

  /** Executing the actions a call returns changes nothing that a later call, in any number, brings to light. */
  ghost predicate ExecutionUnnoticed<S(!new), E(!new), C(!new), A(!new)>(
      t: Table<S, E, C, A>, execute: (A, C) -> (C, Outcome<()>)) {
    forall w, op, ops :: SameObservations(Run(t, Advance(t, w, op), ops), Run(t, LiveAdvance(t, execute, w, op), ops))
  }

  lemma {:induction false} UnnoticedExecutionAgrees<S(!new), E(!new), C(!new), A(!new)>(
      t: Table<S, E, C, A>, execute: (A, C) -> (C, Outcome<()>), w: World<S, E, C, A>, ops: seq<Op<E>>)
    requires ExecutionUnnoticed(t, execute)
    ensures SameObservations(Run(t, w, ops), LiveRun(t, execute, w, ops))
    decreases |ops|
  {
    if ops != [] {
      var live := LiveAdvance(t, execute, w, ops[0]);
      UnnoticedExecutionAgrees(t, execute, live, ops[1..]);
      assert SameObservations(Run(t, Advance(t, w, ops[0]), ops[1..]), Run(t, live, ops[1..]));
    }
  }

  lemma AgreementIsUnnoticed<S(!new), E(!new), C(!new), A(!new)>(
      t: Table<S, E, C, A>, execute: (A, C) -> (C, Outcome<()>), w: World<S, E, C, A>, op: Op<E>, ops: seq<Op<E>>)
    requires ModesAgree(t, execute)
    ensures SameObservations(Run(t, Advance(t, w, op), ops), Run(t, LiveAdvance(t, execute, w, op), ops))
  {
    var live := LiveAdvance(t, execute, w, op);
    assert ([op] + ops)[1..] == ops;
    assert SameObservations(Run(t, w, [op] + ops), LiveRun(t, execute, w, [op] + ops));
    assert SameObservations(Run(t, live, ops), LiveRun(t, execute, live, ops));
  }

  /**
    * Replay agrees with live mode on all runs from all worlds exactly when, after every single call, the
    * contexts before and after executing its actions lead to the same observations on every continuation.
    */
  lemma ReplayAgreesExactly<S(!new), E(!new), C(!new), A(!new)>(
      t: Table<S, E, C, A>, execute: (A, C) -> (C, Outcome<()>))
    ensures ModesAgree(t, execute) <==> ExecutionUnnoticed(t, execute)
  {
    if ExecutionUnnoticed(t, execute) {
      forall w, ops ensures SameObservations(Run(t, w, ops), LiveRun(t, execute, w, ops)) {
        UnnoticedExecutionAgrees(t, execute, w, ops);
      }
    }
    if ModesAgree(t, execute) {
      forall w, op, ops
        ensures SameObservations(Run(t, Advance(t, w, op), ops), Run(t, LiveAdvance(t, execute, w, op), ops))
      {
        AgreementIsUnnoticed(t, execute, w, op, ops);
      }
    }
  }

  // ---------------------------------------------------------------------------------------------
  // The same, one call at a time

  /** Which contexts cannot be told apart in a configuration. */
  type Relation<!S, !C> = (Config<S>, C, C) -> bool

  ghost predicate IsEquivalence<S(!new), C(!new)>(alike: Relation<S, C>) {
    && (forall cfg, c :: alike(cfg, c, c))
    && (forall cfg, c, d :: alike(cfg, c, d) ==> alike(cfg, d, c))
    && (forall cfg, c, d, e :: alike(cfg, c, d) && alike(cfg, d, e) ==> alike(cfg, c, e))
  }

  /** One call from contexts alike shows the same and leaves contexts alike. */
  ghost predicate CallKeeps<S, E, C, A>(
      t: Table<S, E, C, A>, alike: Relation<S, C>, cfg: Config<S>, c: C, d: C, op: Op<E>) {
    var x, y := Fire(t, cfg, c, op), Fire(t, cfg, d, op);
    x.cfg == y.cfg && x.result == y.result && x.notes == y.notes && alike(x.cfg, x.ctx, y.ctx)
  }

  ghost predicate CallsKeep<S(!new), E(!new), C(!new), A>(t: Table<S, E, C, A>, alike: Relation<S, C>) {
    forall cfg, c, d, op :: alike(cfg, c, d) ==> CallKeeps(t, alike, cfg, c, d, op)
  }

  /** The context the host goes on with after one call, its actions executed. */
  function Executed<S, E, C, A>(
      t: Table<S, E, C, A>, execute: (A, C) -> (C, Outcome<()>), cfg: Config<S>, c: C, op: Op<E>): C {
    var step := Fire(t, cfg, c, op);
    if step.result.Ok? then ExecuteActions(execute, step.result.value, step.ctx).0 else step.ctx
  }

  /** Executing the actions of one call leads to a context like the one before. */
  ghost predicate ExecutionKeeps<S(!new), E(!new), C(!new), A>(
      t: Table<S, E, C, A>, execute: (A, C) -> (C, Outcome<()>), alike: Relation<S, C>) {
    forall cfg, c, op :: alike(Fire(t, cfg, c, op).cfg, Fire(t, cfg, c, op).ctx, Executed(t, execute, cfg, c, op))
  }

  lemma {:induction false} AlikeRunsAgree<S(!new), E(!new), C(!new), A>(
      t: Table<S, E, C, A>, alike: Relation<S, C>, w: World<S, E, C, A>, v: World<S, E, C, A>, ops: seq<Op<E>>)
    requires CallsKeep(t, alike) && SameObservations(w, v) && alike(w.cfg, w.ctx, v.ctx)
    ensures SameObservations(Run(t, w, ops), Run(t, v, ops))
    decreases |ops|
  {
    if ops != [] {
      assert CallKeeps(t, alike, w.cfg, w.ctx, v.ctx, ops[0]);
      AlikeRunsAgree(t, alike, Advance(t, w, ops[0]), Advance(t, v, ops[0]), ops[1..]);
    }
  }

  lemma KeptExecutionIsUnnoticed<S(!new), E(!new), C(!new), A(!new)>(
      t: Table<S, E, C, A>, execute: (A, C) -> (C, Outcome<()>), alike: Relation<S, C>)
    requires CallsKeep(t, alike) && ExecutionKeeps(t, execute, alike)
    ensures ModesAgree(t, execute)
  {
    forall w, op, ops
      ensures SameObservations(Run(t, Advance(t, w, op), ops), Run(t, LiveAdvance(t, execute, w, op), ops))
    {
      var x, y := Advance(t, w, op), LiveAdvance(t, execute, w, op);
      assert alike(x.cfg, x.ctx, Executed(t, execute, w.cfg, w.ctx, op));
      AlikeRunsAgree(t, alike, x, y, ops);
    }
    ReplayAgreesExactly(t, execute);
  }

  /** Contexts that no calls, in any number, tell apart. */
  ghost predicate Indistinct<S, E(!new), C, A>(t: Table<S, E, C, A>, cfg: Config<S>, c: C, d: C) {
    forall ops :: SameObservations(Run(t, World(cfg, c, [], []), ops), Run(t, World(cfg, d, [], []), ops))
  }

  lemma {:induction false} EarlierOutputsDoNotMatter<S, E, C, A>(
      t: Table<S, E, C, A>, w: World<S, E, C, A>, outs: seq<Outcome<seq<A>>>, trace: seq<Note<S, E, A>>,
      ops: seq<Op<E>>)
    ensures var x, y := Run(t, w, ops), Run(t, w.(outs := outs + w.outs, trace := trace + w.trace), ops);
            y == x.(outs := outs + x.outs, trace := trace + x.trace)
    decreases |ops|
  {
    if ops != [] {
      var v := Advance(t, w, ops[0]);
      var s := Fire(t, w.cfg, w.ctx, ops[0]);
      EarlierOutputsDoNotMatter(t, v, outs, trace, ops[1..]);
      assert outs + v.outs == outs + w.outs + [s.result] && trace + v.trace == trace + w.trace + s.notes;
    }
  }

  /** What a first call shows, and what shows later. */
  lemma FirstCall<S, E, C, A>(t: Table<S, E, C, A>, cfg: Config<S>, c: C, op: Op<E>, ops: seq<Op<E>>)
    ensures var s := Fire(t, cfg, c, op);
            var later, all := Run(t, World(s.cfg, s.ctx, [], []), ops), Run(t, World(cfg, c, [], []), [op] + ops);
            all == later.(outs := [s.result] + later.outs, trace := s.notes + later.trace)
  {
    var s := Fire(t, cfg, c, op);
    var w, v := World(cfg, c, [], []), World(s.cfg, s.ctx, [], []);
    assert [s.result] + v.outs == [s.result] == w.outs + [s.result];
    assert s.notes + v.trace == s.notes == w.trace + s.notes;
    assert Advance(t, w, op) == v.(outs := [s.result] + v.outs, trace := s.notes + v.trace);
    EarlierOutputsDoNotMatter(t, v, [s.result], s.notes, ops);
    assert ([op] + ops)[1..] == ops && ([op] + ops)[0] == op;
    assert Run(t, w, [op] + ops) == Run(t, Advance(t, w, op), ops);
  }

  lemma IndistinctStepsMatch<S, E(!new), C, A>(t: Table<S, E, C, A>, cfg: Config<S>, c: C, d: C, op: Op<E>)
    requires Indistinct(t, cfg, c, d)
    ensures var x, y := Fire(t, cfg, c, op), Fire(t, cfg, d, op);
            x.cfg == y.cfg && x.result == y.result && x.notes == y.notes
  {
    FirstCall(t, cfg, c, op, []);
    FirstCall(t, cfg, d, op, []);
    var x, y := Fire(t, cfg, c, op), Fire(t, cfg, d, op);
    var one := [op] + [];
    assert SameObservations(Run(t, World(cfg, c, [], []), one), Run(t, World(cfg, d, [], []), one));
    assert ([x.result] + [])[0] == x.result && ([y.result] + [])[0] == y.result;
    assert x.notes + [] == x.notes && y.notes + [] == y.notes;
  }

  lemma IndistinctIsKept<S, E(!new), C, A>(t: Table<S, E, C, A>, cfg: Config<S>, c: C, d: C, op: Op<E>)
    requires Indistinct(t, cfg, c, d)
    ensures var x, y := Fire(t, cfg, c, op), Fire(t, cfg, d, op); Indistinct(t, x.cfg, x.ctx, y.ctx)
  {
    var x, y := Fire(t, cfg, c, op), Fire(t, cfg, d, op);
    IndistinctStepsMatch(t, cfg, c, d, op);
    forall ops
      ensures SameObservations(Run(t, World(x.cfg, x.ctx, [], []), ops), Run(t, World(x.cfg, y.ctx, [], []), ops))
    {
      FirstCall(t, cfg, c, op, ops);
      FirstCall(t, cfg, d, op, ops);
      var u, v := Run(t, World(x.cfg, x.ctx, [], []), ops), Run(t, World(x.cfg, y.ctx, [], []), ops);
      assert SameObservations(Run(t, World(cfg, c, [], []), [op] + ops), Run(t, World(cfg, d, [], []), [op] + ops));
      assert ([x.result] + u.outs)[1..] == u.outs && ([y.result] + v.outs)[1..] == v.outs;
      assert (x.notes + u.trace)[|x.notes|..] == u.trace && (y.notes + v.trace)[|y.notes|..] == v.trace;
    }
  }

  /**
    * One call at a time: the modes agree on all runs from all worlds exactly when some equivalence of contexts,
    * configuration by configuration, is kept by every call, which then shows the same, and relates the context
    * after each call to the one after executing its actions.
    */
  lemma ReplayAgreesStepwise<S(!new), E(!new), C(!new), A(!new)>(
      t: Table<S, E, C, A>, execute: (A, C) -> (C, Outcome<()>))
    ensures ModesAgree(t, execute) <==>
              exists alike: Relation<S, C> ::
                IsEquivalence(alike) && CallsKeep(t, alike) && ExecutionKeeps(t, execute, alike)
  {
    if alike: Relation<S, C> :| IsEquivalence(alike) && CallsKeep(t, alike) && ExecutionKeeps(t, execute, alike) {
      KeptExecutionIsUnnoticed(t, execute, alike);
    }
    if ModesAgree(t, execute) {
      var alike := AgreementGivesEquivalence(t, execute);
    }
  }

  lemma AgreementGivesEquivalence<S(!new), E(!new), C(!new), A(!new)>(
      t: Table<S, E, C, A>, execute: (A, C) -> (C, Outcome<()>)) returns (alike: Relation<S, C>)
    requires ModesAgree(t, execute)
    ensures IsEquivalence(alike) && CallsKeep(t, alike) && ExecutionKeeps(t, execute, alike)
  {
    alike := (cfg, c, d) => Indistinct(t, cfg, c, d);
    forall cfg, c, d, op | alike(cfg, c, d) ensures CallKeeps(t, alike, cfg, c, d, op) {
      IndistinctStepsMatch(t, cfg, c, d, op);
      IndistinctIsKept(t, cfg, c, d, op);
    }
    forall cfg, c, op
      ensures alike(Fire(t, cfg, c, op).cfg, Fire(t, cfg, c, op).ctx, Executed(t, execute, cfg, c, op))
    {
      ExecutionIsIndistinct(t, execute, cfg, c, op);
    }
  }

  lemma ExecutionIsIndistinct<S(!new), E(!new), C(!new), A(!new)>(
      t: Table<S, E, C, A>, execute: (A, C) -> (C, Outcome<()>), cfg: Config<S>, c: C, op: Op<E>)
    requires ModesAgree(t, execute)
    ensures Indistinct(t, Fire(t, cfg, c, op).cfg, Fire(t, cfg, c, op).ctx, Executed(t, execute, cfg, c, op))
  {
    var s, d := Fire(t, cfg, c, op), Executed(t, execute, cfg, c, op);
    forall ops
      ensures SameObservations(Run(t, World(s.cfg, s.ctx, [], []), ops), Run(t, World(s.cfg, d, [], []), ops))
    {
      AgreementIsUnnoticed(t, execute, World(cfg, c, [], []), op, ops);
      EarlierOutputsDoNotMatter(t, World(s.cfg, s.ctx, [], []), [s.result], s.notes, ops);
      EarlierOutputsDoNotMatter(t, World(s.cfg, d, [], []), [s.result], s.notes, ops);
      var u, v := Run(t, World(s.cfg, s.ctx, [], []), ops), Run(t, World(s.cfg, d, [], []), ops);
      assert [s.result] + [] == [] + [s.result] && s.notes + [] == [] + s.notes;
      assert ([s.result] + u.outs)[1..] == u.outs && ([s.result] + v.outs)[1..] == v.outs;
      assert (s.notes + u.trace)[|s.notes|..] == u.trace && (s.notes + v.trace)[|s.notes|..] == v.trace;
    }
  }

  /** A condition on handlers and actions alone that is enough. */
  lemma ConfinedHandlersNoticeNothing<S(!new), E(!new), C(!new), A(!new), V>(
      t: Table<S, E, C, A>, view: C -> V, execute: (A, C) -> (C, Outcome<()>))
    requires Confined(t, view) && Invisible(execute, view)
    ensures ModesAgree(t, execute) && ExecutionUnnoticed(t, execute)
  {
    forall w, ops ensures SameObservations(Run(t, w, ops), LiveRun(t, execute, w, ops)) {
      ReplayAgreesWithLive(t, view, execute, w, w, ops);
    }
    ReplayAgreesExactly(t, execute);
  }

  /** A machine that counts its own actions through the context: the handler reads what `execute` writes. */
  function PeekingTable(): Table<int, (), int, ()> {
    Table((s: int) => "Counting", (e: ()) => "Tick",
          map[("Counting", "Tick") := (s: int, e: (), c: int) => (c, Ok(Transition(c, [()])))],
          map[], map[], map[], None)
  }

  /** The hypothesis is needed: without it the two modes reach different states after two events. */
  lemma ReplayDivergesWhenActionsAreVisible()
    ensures var ops := [HandleOp((), 0, 0), HandleOp((), 0, 0)];
            var execute := (a: (), c: int) => (c + 1, Ok(()));
            var w := Boot(PeekingTable(), 0, 0, 0);
            Run(PeekingTable(), w, ops).cfg.state == 0 && LiveRun(PeekingTable(), execute, w, ops).cfg.state == 1
  {
    var t := PeekingTable();
    var execute := (a: (), c: int) => (c + 1, Ok(()));
    var op: Op<()> := HandleOp((), 0, 0);
    var w := Boot(t, 0, 0, 0);
    assert [op, op][1..] == [op] && [op][1..] == [];
    assert Run(t, w, [op, op]) == Run(t, Advance(t, w, op), [op]) == Advance(t, Advance(t, w, op), op);
    assert ExecuteActions(execute, [()], 0) == ExecuteActions(execute, [], 1);
    assert LiveAdvance(t, execute, w, op).ctx == 1;
    assert LiveRun(t, execute, w, [op, op]) == LiveRun(t, execute, LiveAdvance(t, execute, w, op), [op])
        == LiveAdvance(t, execute, LiveAdvance(t, execute, w, op), op);
  }

  /** Execution performs exactly the actions before the first failing one, then that one, and stops there. */
  lemma {:induction false} ExecutionCutsAtFirstFailure<C, A>(execute: (A, C) -> (C, Outcome<()>), actions: seq<A>, c: C)
    returns (k: nat)
    ensures k <= |actions|
    ensures var before := ExecuteActions(execute, actions[..k], c);
            && before.1.Ok?
            && ExecuteActions(execute, actions, c) == (if k == |actions| then before else execute(actions[k], before.0))
            && (k < |actions| ==> !execute(actions[k], before.0).1.Ok?)
  {
    if actions == [] || !execute(actions[0], c).1.Ok? {
      k := 0;
      assert k == |actions| ==> actions[..k] == actions;
    } else {
      var rest := ExecutionCutsAtFirstFailure(execute, actions[1..], execute(actions[0], c).0);
      k := rest + 1;
      assert actions[..k][1..] == actions[1..][..rest];
    }
  }
}
