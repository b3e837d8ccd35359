/** How exit and entry hooks bracket the states of a run, and which actions each call emits. */
module Hooks {
  import opened FsmTypes
  import opened Machine
  import opened Runs

  datatype Hook<S> = Exit(state: S) | Entry(state: S)

  function HookCalls<S, E, A>(trace: seq<Note<S, E, A>>): seq<Hook<S>> {
    if trace == [] then []
    else
      var rest := HookCalls(trace[..|trace| - 1]);
      match trace[|trace| - 1]
      case ExitCall(s, _) => rest + [Exit(s)]
      case EntryCall(s, _) => rest + [Entry(s)]
      case _ => rest
  }

  function Visited<S, E, A>(trace: seq<Note<S, E, A>>): seq<S> {
    if trace == [] then []
    else
      var rest := Visited(trace[..|trace| - 1]);
      if trace[|trace| - 1].Entered? then rest + [trace[|trace| - 1].state] else rest
  }

  function FailedExits<S, E, A>(trace: seq<Note<S, E, A>>): nat {
    if trace == [] then 0
    else FailedExits(trace[..|trace| - 1]) + if FailedExit(trace[|trace| - 1]) then 1 else 0
  }

  /** Leaving `from` and entering `to`, restricted to the states that have hooks. */
  function Bracket<S, E, C, A>(t: Table<S, E, C, A>, from: S, to: S): seq<Hook<S>> {
    (if t.stateName(from) in t.exit then [Exit(from)] else []) +
    (if t.stateName(to) in t.entry then [Entry(to)] else [])
  }

  /** The hook calls that visiting these states in order must make: none for the initial state. */
  function Weave<S, E, C, A>(t: Table<S, E, C, A>, visited: seq<S>): seq<Hook<S>> {
    if |visited| <= 1 then []
    else Weave(t, visited[..|visited| - 1]) + Bracket(t, visited[|visited| - 2], visited[|visited| - 1])
  }

  lemma {:induction false} CallsAppend<S, E, A>(xs: seq<Note<S, E, A>>, ys: seq<Note<S, E, A>>)
    ensures HookCalls(xs + ys) == HookCalls(xs) + HookCalls(ys)
  {
    if ys == [] {
      assert xs + ys == xs;
    } else {
      assert (xs + ys)[..|xs + ys| - 1] == xs + ys[..|ys| - 1];
      CallsAppend(xs, ys[..|ys| - 1]);
    }
  }

  lemma {:induction false} VisitedAppend<S, E, A>(xs: seq<Note<S, E, A>>, ys: seq<Note<S, E, A>>)
    ensures Visited(xs + ys) == Visited(xs) + Visited(ys)
  {
    if ys == [] {
      assert xs + ys == xs;
    } else {
      assert (xs + ys)[..|xs + ys| - 1] == xs + ys[..|ys| - 1];
      VisitedAppend(xs, ys[..|ys| - 1]);
    }
  }

  lemma {:induction false} FailuresAppend<S, E, A>(xs: seq<Note<S, E, A>>, ys: seq<Note<S, E, A>>)
    ensures FailedExits(xs + ys) == FailedExits(xs) + FailedExits(ys)
  {
    if ys == [] {
      assert xs + ys == xs;
    } else {
      assert (xs + ys)[..|xs + ys| - 1] == xs + ys[..|ys| - 1];
      FailuresAppend(xs, ys[..|ys| - 1]);
    }
  }

  lemma ReadingsAppend<S, E, A>(xs: seq<Note<S, E, A>>, ys: seq<Note<S, E, A>>)
    ensures HookCalls(xs + ys) == HookCalls(xs) + HookCalls(ys)
    ensures Visited(xs + ys) == Visited(xs) + Visited(ys)
    ensures FailedExits(xs + ys) == FailedExits(xs) + FailedExits(ys)
  {
    CallsAppend(xs, ys);
    VisitedAppend(xs, ys);
    FailuresAppend(xs, ys);
  }

  lemma ReadingsOfOne<S, E, A>(n: Note<S, E, A>)
    ensures HookCalls([n]) == match n case ExitCall(s, _) => [Exit(s)] case EntryCall(s, _) => [Entry(s)] case _ => []
    ensures Visited([n]) == if n.Entered? then [n.state] else []
    ensures FailedExits([n]) == if FailedExit(n) then 1 else 0
  {
    assert [n][..0] == [];
  }

  /** The readings of the notes one call leaves. */
  ghost predicate StepReadings<S, E, C, A>(t: Table<S, E, C, A>, cfg: Config<S>, s: Step<S, E, C, A>) {
    var calls, visited, failed := HookCalls(s.notes), Visited(s.notes), FailedExits(s.notes);
    || (visited == [s.cfg.state] && calls == Bracket(t, cfg.state, s.cfg.state) && failed == 0)
    || (visited == [] && s.cfg == cfg && |calls| == failed)
  }

  lemma EnterReadings<S, E, C, A>(t: Table<S, E, C, A>, cfg: Config<S>, tr: Transition<S, A>, ctx: C,
                                  enterAt: nat, armAt: nat)
    ensures var s := EnterState(t, cfg, tr, ctx, enterAt, armAt);
            && s.cfg.state == tr.nextState && Visited(s.notes) == [tr.nextState] && FailedExits(s.notes) == 0
            && HookCalls(s.notes) == if t.stateName(tr.nextState) in t.entry then [Entry(tr.nextState)] else []
  {
    var n := EnterState(t, cfg, tr, ctx, enterAt, armAt).notes;
    ReadingsOfOne(n[0]);
    if |n| == 2 {
      ReadingsOfOne(n[1]);
      ReadingsAppend([n[0]], [n[1]]);
      assert n == [n[0]] + [n[1]];
    }
  }

  lemma ApplyReadings<S, E, C, A>(t: Table<S, E, C, A>, cfg: Config<S>, tr: Transition<S, A>, ctx: C,
                                  enterAt: nat, armAt: nat)
    ensures StepReadings(t, cfg, ApplyTransition(t, cfg, tr, ctx, enterAt, armAt))
  {
    var name := t.stateName(cfg.state);
    if name !in t.exit {
      EnterReadings(t, cfg, tr, ctx, enterAt, armAt);
    } else {
      var (ctx', r) := t.exit[name](cfg.state, ctx);
      ReadingsOfOne<S, E, A>(ExitCall(cfg.state, r));
      if r.Ok? {
        EnterReadings(t, cfg, tr, ctx', enterAt, armAt);
        ReadingsAppend([ExitCall(cfg.state, r)], EnterState(t, cfg, tr, ctx', enterAt, armAt).notes);
      }
    }
  }

  lemma AfterReadings<S, E, C, A>(t: Table<S, E, C, A>, cfg: Config<S>, call: Note<S, E, A>,
                                  ran: (C, Outcome<Transition<S, A>>), enterAt: nat, armAt: nat)
    requires call.OnCall? || call.TimeoutCall?
    ensures StepReadings(t, cfg, AfterHandler(t, cfg, call, ran, enterAt, armAt))
  {
    ReadingsOfOne(call);
    if ran.1.Ok? {
      ApplyReadings(t, cfg, ran.1.value, ran.0, enterAt, armAt);
      ReadingsAppend([call], ApplyTransition(t, cfg, ran.1.value, ran.0, enterAt, armAt).notes);
    }
  }

  lemma FireReadings<S, E, C, A>(t: Table<S, E, C, A>, cfg: Config<S>, ctx: C, op: Op<E>)
    ensures StepReadings(t, cfg, Fire(t, cfg, ctx, op))
  {
    if op.HandleOp? {
      var handler := Dispatch(t, cfg.state, op.event);
      if handler.Some? {
        var ran := handler.value(cfg.state, op.event, ctx);
        AfterReadings(t, cfg, OnCall(cfg.state, op.event, ran.1), ran, op.enterAt, op.armAt);
      } else if t.unhandled.Some? {
        ReadingsOfOne<S, E, A>(UnhandledCall(cfg.state, op.event, t.unhandled.value(cfg.state, op.event, ctx).1));
      }
    } else if Fire(t, cfg, ctx, op).notes != [] {
      var ran := t.timeouts[t.stateName(cfg.state)].1(cfg.state, ctx);
      AfterReadings(t, cfg, TimeoutCall(cfg.state, op.now, ran.1), ran, op.enterAt, op.armAt);
    }
  }

  /** The trace brackets its states: exactly when no exit hook failed, with an extra call per failed exit otherwise. */
  ghost predicate Bracketed<S, E, C, A>(t: Table<S, E, C, A>, w: World<S, E, C, A>) {
    var visited := Visited(w.trace);
    && visited != [] && visited[|visited| - 1] == w.cfg.state
    && |HookCalls(w.trace)| == |Weave(t, visited)| + FailedExits(w.trace)
    && (FailedExits(w.trace) == 0 ==> HookCalls(w.trace) == Weave(t, visited))
  }

  /** One more state has been visited. */
  lemma WeaveSnoc<S, E, C, A>(t: Table<S, E, C, A>, visited: seq<S>, s: S)
    requires visited != []
    ensures Weave(t, visited + [s]) == Weave(t, visited) + Bracket(t, visited[|visited| - 1], s)
  {
    assert (visited + [s])[..|visited|] == visited;
  }

  /** What a call adds to the trace keeps the trace bracketed. */
  lemma NotesBracket<S, E, C, A>(t: Table<S, E, C, A>, w: World<S, E, C, A>, v: World<S, E, C, A>, s: Step<S, E, C, A>)
    requires Bracketed(t, w) && StepReadings(t, w.cfg, s) && v.cfg == s.cfg && v.trace == w.trace + s.notes
    ensures Bracketed(t, v)
  {
    ReadingsAppend(w.trace, s.notes);
    if Visited(s.notes) == [] {
      assert Visited(v.trace) == Visited(w.trace);
    } else {
      WeaveSnoc(t, Visited(w.trace), s.cfg.state);
    }
  }

  lemma StepBrackets<S, E, C, A>(t: Table<S, E, C, A>, w: World<S, E, C, A>, op: Op<E>)
    requires Bracketed(t, w)
    ensures Bracketed(t, Advance(t, w, op))
  {
    FireReadings(t, w.cfg, w.ctx, op);
    NotesBracket(t, w, Advance(t, w, op), Fire(t, w.cfg, w.ctx, op));
  }

  lemma {:induction false} RunBrackets<S, E, C, A>(t: Table<S, E, C, A>, w: World<S, E, C, A>, ops: seq<Op<E>>)
    requires Bracketed(t, w)
    ensures Bracketed(t, Run(t, w, ops))
    decreases |ops|
  {
    if ops != [] {
      StepBrackets(t, w, ops[0]);
      RunBrackets(t, Advance(t, w, ops[0]), ops[1..]);
    }
  }

  /**
    * Over a whole run the hook calls are those of the visited states, each exit hook given the very state
    * value installed before it, self-transitions included, and none for entering the initial state --
    * if and only if no exit hook failed or was dropped.
    */
  lemma HooksBracketStates<S, E, C, A>(t: Table<S, E, C, A>, initial: S, ctx: C, now: nat, ops: seq<Op<E>>)
    ensures var w := Run(t, Boot(t, initial, ctx, now), ops);
            && (HookCalls(w.trace) == Weave(t, Visited(w.trace)) <==> FailedExits(w.trace) == 0)
            && Visited(w.trace) != [] && Visited(w.trace)[0] == initial
            && Visited(w.trace)[|Visited(w.trace)| - 1] == w.cfg.state
  {
    var w := Boot(t, initial, ctx, now);
    BootBrackets(t, initial, ctx, now);
    RunBrackets(t, w, ops);
    FirstVisited(t, initial, ctx, now, ops);
  }

  lemma BootBrackets<S, E, C, A>(t: Table<S, E, C, A>, initial: S, ctx: C, now: nat)
    ensures Bracketed(t, Boot(t, initial, ctx, now))
  {
    ReadingsOfOne<S, E, A>(Entered(initial, now));
  }

  lemma FirstVisited<S, E, C, A>(t: Table<S, E, C, A>, initial: S, ctx: C, now: nat, ops: seq<Op<E>>)
    ensures [initial] <= Visited(Run(t, Boot(t, initial, ctx, now), ops).trace)
  {
    ReadingsOfOne<S, E, A>(Entered(initial, now));
    var boot := Boot(t, initial, ctx, now).trace;
    var trace := Run(t, Boot(t, initial, ctx, now), ops).trace;
    RunExtends(t, Boot(t, initial, ctx, now), ops);
    ReadingsAppend(boot, trace[1..]);
    assert trace == boot + trace[1..];
  }

  lemma {:induction false} RunExtends<S, E, C, A>(t: Table<S, E, C, A>, w: World<S, E, C, A>, ops: seq<Op<E>>)
    ensures w.trace <= Run(t, w, ops).trace
    decreases |ops|
  {
    if ops != [] {
      RunExtends(t, Advance(t, w, ops[0]), ops[1..]);
    }
  }

  // ---------------------------------------------------------------------------------------------
  // Actions

  /** Exit actions, then entry actions, then the actions of the transition itself. */
  function Emitted<S, E, A>(notes: seq<Note<S, E, A>>): seq<A> {
    HookActions(notes) + if notes != [] then OwnActions(notes[0]) else []
  }

  function HookActions<S, E, A>(notes: seq<Note<S, E, A>>): seq<A> {
    if notes == [] then [] else HookResult(notes[0]) + HookActions(notes[1..])
  }

  lemma HookActionsCons<S, E, A>(n: Note<S, E, A>, rest: seq<Note<S, E, A>>)
    ensures HookActions([n] + rest) == HookResult(n) + HookActions(rest)
  {
    assert ([n] + rest)[1..] == rest;
  }

  function HookResult<S, E, A>(n: Note<S, E, A>): seq<A> {
    if (n.ExitCall? || n.EntryCall?) && n.result.Ok? then n.result.value else []
  }

  function OwnActions<S, E, A>(n: Note<S, E, A>): seq<A> {
    if (n.OnCall? || n.TimeoutCall?) && n.ran.Ok? then n.ran.value.actions else []
  }

  lemma EnterActions<S, E, C, A>(t: Table<S, E, C, A>, cfg: Config<S>, tr: Transition<S, A>, ctx: C,
                                 enterAt: nat, armAt: nat)
    ensures var s := EnterState(t, cfg, tr, ctx, enterAt, armAt);
            s.result.Ok? ==> s.result.value == HookActions(s.notes) + tr.actions
  {
    var s := EnterState(t, cfg, tr, ctx, enterAt, armAt);
    HookActionsCons(s.notes[0], s.notes[1..]);
    assert s.notes == [s.notes[0]] + s.notes[1..];
    if |s.notes| == 2 {
      HookActionsCons(s.notes[1], []);
      assert s.notes[1..] == [s.notes[1]] + [];
    }
  }

  /** The exit hook's actions come before those of whatever follows. */
  lemma ExitActions<S, E, A>(exit: Note<S, E, A>, rest: seq<Note<S, E, A>>, own: seq<A>)
    ensures HookResult(exit) + (HookActions(rest) + own) == HookActions([exit] + rest) + own
  {
    HookActionsCons(exit, rest);
  }

  lemma ApplyActions<S, E, C, A>(t: Table<S, E, C, A>, cfg: Config<S>, tr: Transition<S, A>, ctx: C,
                                 enterAt: nat, armAt: nat)
    ensures var s := ApplyTransition(t, cfg, tr, ctx, enterAt, armAt);
            s.result.Ok? ==> s.result.value == HookActions(s.notes) + tr.actions
  {
    var name := t.stateName(cfg.state);
    if name !in t.exit {
      EnterActions(t, cfg, tr, ctx, enterAt, armAt);
    } else {
      var (ctx', r) := t.exit[name](cfg.state, ctx);
      if r.Ok? {
        EnterActions(t, cfg, tr, ctx', enterAt, armAt);
        var rest := EnterState(t, cfg, tr, ctx', enterAt, armAt);
        var exit: Note<S, E, A> := ExitCall(cfg.state, r);
        ExitActions(exit, rest.notes, tr.actions);
        assert HookResult(exit) == r.value;
      }
    }
  }

  lemma AfterActions<S, E, C, A>(t: Table<S, E, C, A>, cfg: Config<S>, call: Note<S, E, A>,
                                 ran: (C, Outcome<Transition<S, A>>), enterAt: nat, armAt: nat)
    requires (call.OnCall? || call.TimeoutCall?) && call.ran == ran.1
    ensures var s := AfterHandler(t, cfg, call, ran, enterAt, armAt);
            s.result.Ok? ==> s.result.value == Emitted(s.notes)
  {
    if ran.1.Ok? {
      var applied := ApplyTransition(t, cfg, ran.1.value, ran.0, enterAt, armAt);
      ApplyActions(t, cfg, ran.1.value, ran.0, enterAt, armAt);
      HookActionsCons(call, applied.notes);
      assert HookResult(call) == [] && [] + HookActions(applied.notes) == HookActions(applied.notes);
    }
  }

  /** The actions a successful call returns, in the documented order. */
  lemma ActionsFollowHooks<S, E, C, A>(t: Table<S, E, C, A>, cfg: Config<S>, ctx: C, op: Op<E>)
    ensures var s := Fire(t, cfg, ctx, op);
            s.result.Ok? ==> s.result.value == Emitted(s.notes)
  {
    if op.HandleOp? {
      var handler := Dispatch(t, cfg.state, op.event);
      if handler.Some? {
        var ran := handler.value(cfg.state, op.event, ctx);
        AfterActions(t, cfg, OnCall(cfg.state, op.event, ran.1), ran, op.enterAt, op.armAt);
      } else {
        forall r: Outcome<()> ensures HookActions<S, E, A>([UnhandledCall(cfg.state, op.event, r)]) == [] {
          var call: Note<S, E, A> := UnhandledCall(cfg.state, op.event, r);
          HookActionsCons(call, []);
          assert [call] + [] == [call];
        }
      }
    } else if Fire(t, cfg, ctx, op).notes != [] {
      var ran := t.timeouts[t.stateName(cfg.state)].1(cfg.state, ctx);
      AfterActions(t, cfg, TimeoutCall(cfg.state, op.now, ran.1), ran, op.enterAt, op.armAt);
    }
  }
}
