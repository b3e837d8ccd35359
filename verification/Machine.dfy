/** The runtime engine: dispatch, hooks, state swap, cooperative timer, partial failure. */
module Machine {
  import opened FsmTypes

  /** The variant names of the state and event types, and the handler tables keyed by them. */
  datatype Table<!S, !E, !C, !A> = Table(
    stateName: S -> string,
    eventName: E -> string,
    transitions: map<(string, string), TransitionHandler<S, E, C, A>>,
    entry: map<string, StateHandler<S, C, A>>,
    exit: map<string, StateHandler<S, C, A>>,
    timeouts: map<string, (nat, TimeoutHandler<S, C, A>)>,
    unhandled: Option<UnhandledHandler<S, E, C>>
  )

  /** The two mutable fields of a machine. */
  datatype Config<S> = Config(state: S, deadline: Option<nat>)

  /**
    * What an observer of the engine sees: the handlers called, with the results of the hooks, and the
    * instant at which the current state was replaced.
    */
  datatype Note<S, E, A> =
    | OnCall(state: S, event: E, ran: Outcome<Transition<S, A>>)
    | UnhandledCall(state: S, event: E, decided: Outcome<()>)
    | TimeoutCall(state: S, now: nat, ran: Outcome<Transition<S, A>>)
    | ExitCall(state: S, result: Outcome<seq<A>>)
    | Entered(state: S, at: nat)
    | EntryCall(state: S, result: Outcome<seq<A>>)

  datatype Step<S, E, C, A> = Step(cfg: Config<S>, ctx: C, result: Outcome<seq<A>>, notes: seq<Note<S, E, A>>)

  /** One call by the host, with the clock readings that fall inside it. */
  datatype Op<E> =
    | HandleOp(event: E, enterAt: nat, armAt: nat)
    | CheckOp(now: nat, enterAt: nat, armAt: nat)

  function Deadline<S, E, C, A>(t: Table<S, E, C, A>, s: S, now: nat): Option<nat> {
    var name := t.stateName(s);
    if name in t.timeouts then Some(now + t.timeouts[name].0) else None
  }

  function Start<S, E, C, A>(t: Table<S, E, C, A>, s: S, now: nat): Config<S> {
    Config(s, Deadline(t, s, now))
  }

  function EnterState<S, E, C, A>(t: Table<S, E, C, A>, cfg: Config<S>, tr: Transition<S, A>, ctx: C,
                                  enterAt: nat, armAt: nat): Step<S, E, C, A>
  {
    var name := t.stateName(tr.nextState);
    var armed := Config(tr.nextState, Deadline(t, tr.nextState, armAt));
    var swap := [Entered(tr.nextState, enterAt)];
    if name !in t.entry then
      Step(armed, ctx, Ok(tr.actions), swap)
    else
      var (ctx', r) := t.entry[name](tr.nextState, ctx);
      var notes := swap + [EntryCall(tr.nextState, r)];
      if r.Ok? then Step(armed, ctx', Ok(r.value + tr.actions), notes)
      else Step(Config(tr.nextState, cfg.deadline), ctx', r, notes)
  }

  function ApplyTransition<S, E, C, A>(t: Table<S, E, C, A>, cfg: Config<S>, tr: Transition<S, A>, ctx: C,
                                       enterAt: nat, armAt: nat): Step<S, E, C, A>
  {
    var name := t.stateName(cfg.state);
    if name !in t.exit then
      EnterState(t, cfg, tr, ctx, enterAt, armAt)
    else
      var (ctx', r) := t.exit[name](cfg.state, ctx);
      if r.Ok? then
        var rest := EnterState(t, cfg, tr, ctx', enterAt, armAt);
        rest.(result := if rest.result.Ok? then Ok(r.value + rest.result.value) else rest.result,
              notes := [ExitCall(cfg.state, r)] + rest.notes)
      else Step(cfg, ctx', r, [ExitCall(cfg.state, r)])
  }

  /** Continue with what a transition or timeout handler returned. */
  function AfterHandler<S, E, C, A>(t: Table<S, E, C, A>, cfg: Config<S>, call: Note<S, E, A>,
                                    ran: (C, Outcome<Transition<S, A>>), enterAt: nat, armAt: nat): Step<S, E, C, A>
  {
    if ran.1.Ok? then
      var applied := ApplyTransition(t, cfg, ran.1.value, ran.0, enterAt, armAt);
      applied.(notes := [call] + applied.notes)
    else Step(cfg, ran.0, Propagate(ran.1), [call])
  }

  /** Exact row first, then the wildcard row. */
  function Dispatch<S, E, C, A>(t: Table<S, E, C, A>, state: S, event: E): Option<TransitionHandler<S, E, C, A>> {
    var exact := (t.stateName(state), t.eventName(event));
    var wildcard := ("_", t.eventName(event));
    if exact in t.transitions then Some(t.transitions[exact])
    else if wildcard in t.transitions then Some(t.transitions[wildcard])
    else None
  }

  function Handle<S, E, C, A>(t: Table<S, E, C, A>, cfg: Config<S>, event: E, ctx: C,
                              enterAt: nat, armAt: nat): Step<S, E, C, A>
  {
    var handler := Dispatch(t, cfg.state, event);
    if handler.Some? then
      var ran := handler.value(cfg.state, event, ctx);
      AfterHandler(t, cfg, OnCall(cfg.state, event, ran.1), ran, enterAt, armAt)
    else if t.unhandled.Some? then
      var (ctx', r) := t.unhandled.value(cfg.state, event, ctx);
      Step(cfg, ctx', if r.Ok? then Ok([]) else Propagate(r), [UnhandledCall(cfg.state, event, r)])
    else
      Step(cfg, ctx, Err(UnhandledEvent(t.stateName(cfg.state), t.eventName(event))), [])
  }

  function CheckTimeout<S, E, C, A>(t: Table<S, E, C, A>, cfg: Config<S>, ctx: C,
                                    now: nat, enterAt: nat, armAt: nat): Step<S, E, C, A>
  {
    var name := t.stateName(cfg.state);
    if cfg.deadline.Some? && now >= cfg.deadline.value && name in t.timeouts then
      var ran := t.timeouts[name].1(cfg.state, ctx);
      AfterHandler(t, cfg, TimeoutCall(cfg.state, now, ran.1), ran, enterAt, armAt)
    else
      Step(cfg, ctx, Ok([]), [])
  }

  function Fire<S, E, C, A>(t: Table<S, E, C, A>, cfg: Config<S>, ctx: C, op: Op<E>): Step<S, E, C, A> {
    match op
    case HandleOp(event, enterAt, armAt) => Handle(t, cfg, event, ctx, enterAt, armAt)
    case CheckOp(now, enterAt, armAt) => CheckTimeout(t, cfg, ctx, now, enterAt, armAt)
  }

  /** The actions' effects on the context, up to and including the first that fails. */
  function ExecuteActions<C, A>(execute: (A, C) -> (C, Outcome<()>), actions: seq<A>, ctx: C): (C, Outcome<()>) {
    if actions == [] then (ctx, Ok(()))
    else
      var (ctx', r) := execute(actions[0], ctx);
      if r.Ok? then ExecuteActions(execute, actions[1..], ctx') else (ctx', r)
  }

  /** The machine as the source has it: one object whose methods overwrite its state and deadline. */
  class StateMachine<!S(==), !E, !C, !A> {
    var currentState: S
    const stateName: S -> string
    const eventName: E -> string
    const transitions: map<(string, string), TransitionHandler<S, E, C, A>>
    const entryHandlers: map<string, StateHandler<S, C, A>>
    const exitHandlers: map<string, StateHandler<S, C, A>>
    const timeoutHandlers: map<string, (nat, TimeoutHandler<S, C, A>)>
    const unhandledHandler: Option<UnhandledHandler<S, E, C>>
    var stateTimeout: Option<nat>
    ghost var trace: seq<Note<S, E, A>>

    ghost function TableOf(): Table<S, E, C, A> {
      Table(stateName, eventName, transitions, entryHandlers, exitHandlers, timeoutHandlers, unhandledHandler)
    }

    ghost function Now(): Config<S>
      reads this
    {
      Config(currentState, stateTimeout)
    }

    constructor (t: Table<S, E, C, A>, initial: S, now: nat)
      ensures TableOf() == t && Now() == Start(t, initial, now) && trace == [Entered(initial, now)]
    {
      currentState := initial;
      stateName, eventName := t.stateName, t.eventName;
      transitions, entryHandlers, exitHandlers := t.transitions, t.entry, t.exit;
      timeoutHandlers, unhandledHandler := t.timeouts, t.unhandled;
      stateTimeout := None;
      trace := [Entered(initial, now)];
      new;
      var name := stateName(currentState);
      if name in timeoutHandlers {
        stateTimeout := Some(now + timeoutHandlers[name].0);
      }
    }

    method Apply(tr: Transition<S, A>, ctx: C, ghost enterAt: nat, armAt: nat) returns (ctx': C, r: Outcome<seq<A>>)
      modifies this
      ensures var step := ApplyTransition(TableOf(), old(Now()), tr, ctx, enterAt, armAt);
              Now() == step.cfg && ctx' == step.ctx && r == step.result && trace == old(trace) + step.notes
    {
      ghost var step := ApplyTransition(TableOf(), old(Now()), tr, ctx, enterAt, armAt);
      ctx' := ctx;
      var allActions: seq<A> := [];
      ghost var exited, entered: seq<A> := [], [];
      var oldName := stateName(currentState);
      var newName := stateName(tr.nextState);
      if oldName in exitHandlers {
        var ran := exitHandlers[oldName](currentState, ctx');
        ctx' := ran.0;
        trace := trace + [ExitCall(currentState, ran.1)];
        if !ran.1.Ok? {
          return ctx', ran.1;
        }
        allActions := allActions + ran.1.value;
        exited := ran.1.value;
      }
      currentState := tr.nextState;
      trace := trace + [Entered(currentState, enterAt)];
      if newName in entryHandlers {
        var ran := entryHandlers[newName](currentState, ctx');
        ctx' := ran.0;
        trace := trace + [EntryCall(currentState, ran.1)];
        if !ran.1.Ok? {
          return ctx', ran.1;
        }
        allActions := allActions + ran.1.value;
        entered := ran.1.value;
      }
      if newName in timeoutHandlers {
        stateTimeout := Some(armAt + timeoutHandlers[newName].0);
      } else {
        stateTimeout := None;
      }
      allActions := allActions + tr.actions;
      assert allActions == exited + (entered + tr.actions);
      assert step.result.value == allActions;
      r := Ok(allActions);
    }

    method HandleEvent(event: E, ctx: C, ghost enterAt: nat, armAt: nat) returns (ctx': C, r: Outcome<seq<A>>)
      modifies this
      ensures var step := Handle(TableOf(), old(Now()), event, ctx, enterAt, armAt);
              Now() == step.cfg && ctx' == step.ctx && r == step.result && trace == old(trace) + step.notes
    {
      var state := stateName(currentState);
      var name := eventName(event);
      var key := (state, name);
      if key !in transitions {
        key := ("_", name);
      }
      if key in transitions {
        var ran := transitions[key](currentState, event, ctx);
        trace := trace + [OnCall(currentState, event, ran.1)];
        if !ran.1.Ok? {
          return ran.0, Propagate(ran.1);
        }
        ctx', r := Apply(ran.1.value, ran.0, enterAt, armAt);
      } else if unhandledHandler.Some? {
        var ran := unhandledHandler.value(currentState, event, ctx);
        trace := trace + [UnhandledCall(currentState, event, ran.1)];
        ctx', r := ran.0, if ran.1.Ok? then Ok([]) else Propagate(ran.1);
      } else {
        ctx', r := ctx, Err(UnhandledEvent(state, name));
      }
    }

    method Check(ctx: C, now: nat, ghost enterAt: nat, armAt: nat) returns (ctx': C, r: Outcome<seq<A>>)
      modifies this
      ensures var step := CheckTimeout(TableOf(), old(Now()), ctx, now, enterAt, armAt);
              Now() == step.cfg && ctx' == step.ctx && r == step.result && trace == old(trace) + step.notes
    {
      if stateTimeout.Some? && now >= stateTimeout.value {
        var name := stateName(currentState);
        if name in timeoutHandlers {
          var ran := timeoutHandlers[name].1(currentState, ctx);
          trace := trace + [TimeoutCall(currentState, now, ran.1)];
          if !ran.1.Ok? {
            return ran.0, Propagate(ran.1);
          }
          ctx', r := Apply(ran.1.value, ran.0, enterAt, armAt);
          return;
        }
      }
      ctx', r := ctx, Ok([]);
    }

    method Execute(execute: (A, C) -> (C, Outcome<()>), actions: seq<A>, ctx: C) returns (ctx': C, r: Outcome<()>)
      ensures (ctx', r) == ExecuteActions(execute, actions, ctx)
    {
      ctx' := ctx;
      for i := 0 to |actions|
        invariant ExecuteActions(execute, actions, ctx) == ExecuteActions(execute, actions[i..], ctx')
      {
        var ran := execute(actions[i], ctx');
        ctx' := ran.0;
        if !ran.1.Ok? {
          return ctx', ran.1;
        }
      }
      r := Ok(());
    }
  }
}
