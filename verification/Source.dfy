/**
  * The meaning of an `fsm!` table read directly: each block and row names an enum variant by a pattern,
  * the last matching row, hook or timeout in source order wins. No builder, no names as keys, no maps.
  */
module Source {
  import opened FsmTypes
  import opened Machine
  import opened Runs
  import opened Dsl
  import opened Codegen

  /**
    * The two enums and name resolution: which types derive their variant names, the variants' identifiers, the
    * variant of a value by its position, and the variant a path denotes as a pattern, if any. Patterns are
    * matched by position, never by name.
    */
  datatype Scope<!S, !E> = Scope(
    states: seq<string>,
    events: seq<string>,
    stateOf: S -> nat,
    eventOf: E -> nat,
    state: Path -> Option<nat>,
    event: Path -> Option<nat>,
    derivesState: Ty -> bool,
    derivesEvent: Ty -> bool
  )

  predicate InState<S, E>(scope: Scope<S, E>, b: StateBlock, s: S) {
    scope.state(b.statePath) == Some(scope.stateOf(s))
  }

  predicate OnEvent<S, E>(scope: Scope<S, E>, row: OnHandler, e: E) {
    scope.event(row.eventPath) == Some(scope.eventOf(e))
  }

  function RowFor<S, E>(scope: Scope<S, E>, rows: seq<OnHandler>, e: E): Option<Expr> {
    if rows == [] then None
    else
      var row := rows[|rows| - 1];
      if OnEvent(scope, row, e) then Some(row.handler) else RowFor(scope, rows[..|rows| - 1], e)
  }

  function HandlerFor<S, E>(scope: Scope<S, E>, blocks: seq<StateBlock>, s: S, e: E): Option<Expr> {
    if blocks == [] then None
    else
      var b := blocks[|blocks| - 1];
      var row := if InState(scope, b, s) then RowFor(scope, b.handlers, e) else None;
      if row.Some? then row else HandlerFor(scope, blocks[..|blocks| - 1], s, e)
  }

  /** The last block for the state that has the clause. */
  function ClauseFor<S, E, X>(scope: Scope<S, E>, blocks: seq<StateBlock>, s: S,
                              clause: StateBlock -> Option<X>): Option<X> {
    if blocks == [] then None
    else
      var b := blocks[|blocks| - 1];
      if InState(scope, b, s) && clause(b).Some? then clause(b)
      else ClauseFor(scope, blocks[..|blocks| - 1], s, clause)
  }

  const ENTRY_CLAUSE := (b: StateBlock) => b.entry
  const EXIT_CLAUSE := (b: StateBlock) => b.exit
  const TIMEOUT_CLAUSE := (b: StateBlock) => b.timeout

  function RunHook<S, E, C, A>(m: Meaning<S, E, C, A>, h: Option<Expr>, s: S, ctx: C): (C, Outcome<seq<A>>) {
    if h.Some? then m.hook(h.value)(s, ctx) else (ctx, Ok([]))
  }

  function SourceDeadline<S, E, C, A>(m: Meaning<S, E, C, A>, scope: Scope<S, E>, spec: FsmSpec, s: S,
                                      now: nat): Option<nat> {
    match ClauseFor(scope, spec.states, s, TIMEOUT_CLAUSE)
    case None => None
    case Some(to) => Some(now + m.duration(to.duration))
  }

  /** Exit hook, swap, entry hook, timer, in that order, stopping at the first that does not succeed. */
  function SourceTransition<S, E, C, A>(m: Meaning<S, E, C, A>, scope: Scope<S, E>, spec: FsmSpec, cfg: Config<S>,
                                        call: Note<S, E, A>, ctx: C, ran: Outcome<Transition<S, A>>, enterAt: nat,
                                        armAt: nat): Step<S, E, C, A>
  {
    if ran.Err? then Step(cfg, ctx, Err(ran.error), [call]) else
    if ran.Dropped? then Step(cfg, ctx, Dropped, [call]) else
    var next := ran.value.nextState;
    var exit := ClauseFor(scope, spec.states, cfg.state, EXIT_CLAUSE);
    var (ctx1, exited) := RunHook(m, exit, cfg.state, ctx);
    var notes1 := [call] + if exit.Some? then [ExitCall(cfg.state, exited)] else [];
    if !exited.Ok? then Step(cfg, ctx1, exited, notes1) else
    var entry := ClauseFor(scope, spec.states, next, ENTRY_CLAUSE);
    var (ctx2, entered) := RunHook(m, entry, next, ctx1);
    var notes2 := notes1 + [Entered(next, enterAt)] + if entry.Some? then [EntryCall(next, entered)] else [];
    if !entered.Ok? then Step(Config(next, cfg.deadline), ctx2, entered, notes2)
    else Step(Config(next, SourceDeadline(m, scope, spec, next, armAt)), ctx2,
              Ok(exited.value + entered.value + ran.value.actions), notes2)
  }

  function SourceFire<S, E, C, A>(m: Meaning<S, E, C, A>, scope: Scope<S, E>, spec: FsmSpec, cfg: Config<S>, ctx: C,
                                  op: Op<E>):
    Step<S, E, C, A>
  {
    match op
    case HandleOp(e, enterAt, armAt) =>
      (match HandlerFor(scope, spec.states, cfg.state, e)
       case Some(h) =>
         var (ctx', ran) := m.on(h)(cfg.state, e, ctx);
         SourceTransition(m, scope, spec, cfg, OnCall(cfg.state, e, ran), ctx', ran, enterAt, armAt)
       case None =>
         match spec.unhandled
         case None => Step(cfg, ctx, Err(UnhandledEvent(m.stateName(cfg.state), m.eventName(e))), [])
         case Some(h) =>
           var (ctx', r) := m.onUnhandled(h)(cfg.state, e, ctx);
           var out := match r case Ok(_) => Ok([]) case Err(x) => Err(x) case Dropped => Dropped;
           Step(cfg, ctx', out, [UnhandledCall(cfg.state, e, r)]))
    case CheckOp(now, enterAt, armAt) =>
      var to := ClauseFor(scope, spec.states, cfg.state, TIMEOUT_CLAUSE);
      if cfg.deadline.None? || now < cfg.deadline.value || to.None? then Step(cfg, ctx, Ok([]), [])
      else
        var (ctx', ran) := m.onTimeout(to.value.handler)(cfg.state, ctx);
        SourceTransition(m, scope, spec, cfg, TimeoutCall(cfg.state, now, ran), ctx', ran, enterAt, armAt)
  }

  function SourceBoot<S, E, C, A>(m: Meaning<S, E, C, A>, scope: Scope<S, E>, spec: FsmSpec, ctx: C,
                                  now: nat): World<S, E, C, A> {
    var s := m.initial(spec.initial);
    World(Config(s, SourceDeadline(m, scope, spec, s, now)), ctx, [], [Entered(s, now)])
  }

  function SourceRun<S, E, C, A>(m: Meaning<S, E, C, A>, scope: Scope<S, E>, spec: FsmSpec, w: World<S, E, C, A>,
                                 ops: seq<Op<E>>):
    World<S, E, C, A>
    decreases |ops|
  {
    if ops == [] then w
    else
      var step := SourceFire(m, scope, spec, w.cfg, w.ctx, ops[0]);
      SourceRun(m, scope, spec, World(step.cfg, step.ctx, w.outs + [step.result], w.trace + step.notes), ops[1..])
  }
}
