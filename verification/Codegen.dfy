/** Lowering a parsed table to builder calls, and running the generated code. */
module Codegen {
  import opened FsmTypes
  import opened Machine
  import opened Builder
  import opened Dsl

  /** The statements of the generated block, between creating the builder and building. */
  datatype Stmt =
    | Unhandled(handler: Expr)
    | StatePattern(path: Path)
    | EventPattern(path: Path)
    | Entry(state: string, handler: Expr)
    | Exit(state: string, handler: Expr)
    | Chain(state: string, timeout: Option<TimeoutSpec>, rows: seq<(string, Expr)>)

  datatype Expansion = Expansion(requiredState: Ty, requiredEvent: Ty, initial: Expr, body: seq<Stmt>)

  /** What the opaque expressions evaluate to, and the derived variant names of the two enums. */
  datatype Meaning<!S, !E, !C, !A> = Meaning(
    stateName: S -> string,
    eventName: E -> string,
    initial: Expr -> S,
    duration: Expr -> nat,
    on: Expr -> TransitionHandler<S, E, C, A>,
    onTimeout: Expr -> TimeoutHandler<S, C, A>,
    hook: Expr -> StateHandler<S, C, A>,
    onUnhandled: Expr -> UnhandledHandler<S, E, C>
  )

  function RowOf(h: OnHandler): (string, Expr) {
    (LastSegment(h.eventPath), h.handler)
  }

  function Rows(handlers: seq<OnHandler>): (rows: seq<(string, Expr)>)
    ensures |rows| == |handlers| && forall i :: 0 <= i < |rows| ==> rows[i] == RowOf(handlers[i])
  {
    if handlers == [] then [] else Rows(handlers[..|handlers| - 1]) + [RowOf(handlers[|handlers| - 1])]
  }

  function Patterns(handlers: seq<OnHandler>): (stmts: seq<Stmt>)
    ensures |stmts| == |handlers| && forall i :: 0 <= i < |stmts| ==> stmts[i] == EventPattern(handlers[i].eventPath)
  {
    if handlers == []
        then [] else Patterns(handlers[..|handlers| - 1]) + [EventPattern(handlers[|handlers| - 1].eventPath)]
  }

  function LowerHooks(b: StateBlock): seq<Stmt> {
    (if b.entry.Some? then [Entry(LastSegment(b.statePath), b.entry.value)] else []) +
    (if b.exit.Some? then [Exit(LastSegment(b.statePath), b.exit.value)] else [])
  }

  function LowerBlock(b: StateBlock): seq<Stmt> {
    [StatePattern(b.statePath)] + Patterns(b.handlers) + LowerHooks(b)
    + [Chain(LastSegment(b.statePath), b.timeout, Rows(b.handlers))]
  }

  function LowerBlocks(blocks: seq<StateBlock>): seq<Stmt> {
    if blocks == [] then [] else LowerBlocks(blocks[..|blocks| - 1]) + LowerBlock(blocks[|blocks| - 1])
  }

  function Lower(spec: FsmSpec): Expansion {
    Expansion(spec.stateTy, spec.eventTy, spec.initial,
              (if spec.unhandled.Some? then [Unhandled(spec.unhandled.value)] else []) + LowerBlocks(spec.states))
  }

  lemma LowerNext(prelude: seq<Stmt>, blocks: seq<StateBlock>, k: nat)
    requires k < |blocks|
    ensures prelude + LowerBlocks(blocks[..k + 1]) == prelude + LowerBlocks(blocks[..k]) + LowerBlock(blocks[k])
  {
    assert blocks[..k + 1][..k] == blocks[..k];
  }

  /**
    * Read by position: the checks of the block's path and of every row's path, in order, then the entry hook, the
    * exit hook, and the chain of rows, in order.
    */
  predicate IsExpansionOf(stmts: seq<Stmt>, b: StateBlock) {
    var state, n, last := LastSegment(b.statePath), |b.handlers|, |stmts| - 1;
    && last == 1 + n + (if b.entry.Some? then 1 else 0) + (if b.exit.Some? then 1 else 0)
    && stmts[0] == StatePattern(b.statePath)
    && (forall i :: 0 <= i < n ==> stmts[1 + i] == EventPattern(b.handlers[i].eventPath))
    && (b.entry.Some? ==> stmts[1 + n] == Entry(state, b.entry.value))
    && (b.exit.Some? ==> stmts[last - 1] == Exit(state, b.exit.value))
    && stmts[last].Chain? && stmts[last].state == state && stmts[last].timeout == b.timeout
    && |stmts[last].rows| == n
    && forall i :: 0 <= i < n ==>
         stmts[last].rows[i] == (LastSegment(b.handlers[i].eventPath), b.handlers[i].handler)
  }

  lemma PiecesByPosition(head: Stmt, patterns: seq<Stmt>, hooks: seq<Stmt>, chain: Stmt)
    ensures var stmts := [head] + patterns + hooks + [chain];
            && |stmts| == 2 + |patterns| + |hooks| && stmts[0] == head && stmts[|stmts| - 1] == chain
            && (forall i :: 0 <= i < |patterns| ==> stmts[1 + i] == patterns[i])
            && (hooks != [] ==> stmts[1 + |patterns|] == hooks[0] && stmts[|stmts| - 2] == hooks[|hooks| - 1])
  {
  }

  lemma LoweredByPosition(b: StateBlock)
    ensures IsExpansionOf(LowerBlock(b), b)
  {
    PiecesByPosition(StatePattern(b.statePath), Patterns(b.handlers), LowerHooks(b),
        Chain(LastSegment(b.statePath), b.timeout, Rows(b.handlers)));
  }

  /**
    * The statements generated for one block: the checks, then the hooks, then the chain, which the source
    * collects apart in one pass over the rows.
    */
  method ExpandBlock(block: StateBlock) returns (stmts: seq<Stmt>)
    ensures stmts == LowerBlock(block)
    ensures IsExpansionOf(stmts, block)
  {
    var state := LastSegment(block.statePath);
    stmts := [StatePattern(block.statePath)];
    var onChain: seq<(string, Expr)> := [];
    for i := 0 to |block.handlers|
      invariant stmts == [StatePattern(block.statePath)] + Patterns(block.handlers[..i])
      invariant onChain == Rows(block.handlers[..i])
    {
      assert block.handlers[..i + 1][..i] == block.handlers[..i];
      stmts := stmts + [EventPattern(block.handlers[i].eventPath)];
      onChain := onChain + [(LastSegment(block.handlers[i].eventPath), block.handlers[i].handler)];
    }
    assert block.handlers[..|block.handlers|] == block.handlers;
    var entryExit: seq<Stmt> := [];
    if block.entry.Some? {
      entryExit := entryExit + [Entry(state, block.entry.value)];
    }
    if block.exit.Some? {
      entryExit := entryExit + [Exit(state, block.exit.value)];
    }
    assert entryExit == LowerHooks(block);
    stmts := stmts + entryExit + [Chain(state, block.timeout, onChain)];
    LoweredByPosition(block);
  }

  /** Code generation, in the order the source appends token streams. */
  method ExpandFsmSpec(spec: FsmSpec) returns (code: Expansion)
    ensures code == Lower(spec)
    ensures code.requiredState == spec.stateTy && code.requiredEvent == spec.eventTy && code.initial == spec.initial
  {
    var stmts: seq<Stmt> := [];
    if spec.unhandled.Some? {
      stmts := stmts + [Unhandled(spec.unhandled.value)];
    }
    ghost var prelude := stmts;
    for k := 0 to |spec.states|
      invariant stmts == prelude + LowerBlocks(spec.states[..k])
    {
      var block := ExpandBlock(spec.states[k]);
      LowerNext(prelude, spec.states, k);
      stmts := stmts + block;
    }
    assert spec.states[..|spec.states|] == spec.states;
    code := Expansion(spec.stateTy, spec.eventTy, spec.initial, stmts);
  }

  // ---------------------------------------------------------------------------------------------
  // Running the generated code

  function ExecRows<S, E, C, A>(m: Meaning<S, E, C, A>, b: BuilderState<S, E, C, A>, state: string,
                                rows: seq<(string, Expr)>, checked: bool): BuilderState<S, E, C, A>
  {
    if rows == [] then b
    else
      var row := rows[|rows| - 1];
      AddRow(ExecRows(m, b, state, rows[..|rows| - 1], checked), (state, row.0), m.on(row.1), checked)
  }

  function ExecStmt<S, E, C, A>(m: Meaning<S, E, C, A>, b: BuilderState<S, E, C, A>,
                                s: Stmt): BuilderState<S, E, C, A> {
    match s
    case Unhandled(h) => SetUnhandled(b, m.onUnhandled(h))
    case StatePattern(_) => b
    case EventPattern(_) => b
    case Entry(name, h) => SetEntry(b, name, m.hook(h))
    case Exit(name, h) => SetExit(b, name, m.hook(h))
    case Chain(name, None, rows) => ExecRows(m, b, name, rows, true)
    case Chain(name, Some(to), rows) =>
      ExecRows(m, SetTimeout(b, name, m.duration(to.duration), m.onTimeout(to.handler)), name, rows, false)
  }

  function ExecStmts<S, E, C, A>(m: Meaning<S, E, C, A>, b: BuilderState<S, E, C, A>, stmts: seq<Stmt>):
    BuilderState<S, E, C, A>
  {
    if stmts == [] then b else ExecStmt(m, ExecStmts(m, b, stmts[..|stmts| - 1]), stmts[|stmts| - 1])
  }

  /** The state of the builder when the generated code reaches its final `build`. */
  function Configured<S, E, C, A>(m: Meaning<S, E, C, A>, code: Expansion): BuilderState<S, E, C, A> {
    ExecStmts(m, Fresh(m.initial(code.initial), m.stateName, m.eventName), code.body)
  }

  lemma NextRow<S, E, C, A>(m: Meaning<S, E, C, A>, b: BuilderState<S, E, C, A>, state: string,
                            rows: seq<(string, Expr)>, checked: bool, i: nat)
    requires i < |rows|
    ensures ExecRows(m, b, state, rows[..i + 1], checked)
         == AddRow(ExecRows(m, b, state, rows[..i], checked), (state, rows[i].0), m.on(rows[i].1), checked)
  {
    assert rows[..i + 1][..i] == rows[..i];
  }

  method RunChain<S(==), E, C, A>(m: Meaning<S, E, C, A>, builder: FsmBuilder<S, E, C, A>, s: Stmt)
    requires s.Chain?
    modifies builder
    ensures builder.View() == ExecStmt(m, old(builder.View()), s)
  {
    var w := builder.When(s.state);
    if s.timeout.Some? {
      var tb := w.Timeout(m.duration(s.timeout.value.duration), m.onTimeout(s.timeout.value.handler));
      ghost var start := builder.View();
      for i := 0 to |s.rows|
        invariant builder.View() == ExecRows(m, start, s.state, s.rows[..i], false)
      {
        NextRow(m, start, s.state, s.rows, false, i);
        tb.On(s.rows[i].0, m.on(s.rows[i].1));
      }
    } else {
      for i := 0 to |s.rows|
        invariant builder.View() == ExecRows(m, old(builder.View()), s.state, s.rows[..i], true)
      {
        NextRow(m, old(builder.View()), s.state, s.rows, true, i);
        w.On(s.rows[i].0, m.on(s.rows[i].1));
      }
    }
    assert s.rows[..|s.rows|] == s.rows;
  }

  /** Evaluate the generated block. */
  method RunExpansion<S(==), E, C, A>(m: Meaning<S, E, C, A>, code: Expansion, now: nat) returns (r: Built<S, E, C, A>)
    ensures var b := Configured(m, code);
            && (r.Refused? <==> Refusal(b).Some?)
            && (r.Refused? ==> Refusal(b) == Some(r.error))
            && (r.Built? ==> fresh(r.machine) && r.machine.TableOf() == b.table
                             && r.machine.Now() == Start(b.table, m.initial(code.initial), now)
                             && r.machine.trace == [Entered(m.initial(code.initial), now)])
  {
    var builder := new FsmBuilder(m.initial(code.initial), m.stateName, m.eventName);
    ghost var start := builder.View();
    for i := 0 to |code.body|
      invariant fresh(builder) && builder.View() == ExecStmts(m, start, code.body[..i])
    {
      assert code.body[..i + 1][..i] == code.body[..i];
      match code.body[i]
      case Unhandled(h) => builder.WhenUnhandled(m.onUnhandled(h));
      case StatePattern(_) =>
      case EventPattern(_) =>
      case Entry(name, h) => builder.OnEntry(name, m.hook(h));
      case Exit(name, h) => builder.OnExit(name, m.hook(h));
      case Chain(_, _, _) => RunChain(m, builder, code.body[i]);
    }
    assert code.body[..|code.body|] == code.body;
    InitialKept(m, start, code.body);
    r := builder.TryBuild(now);
  }

  lemma {:induction false} InitialKept<S, E, C, A>(m: Meaning<S, E, C, A>, b: BuilderState<S, E, C, A>,
                                                   stmts: seq<Stmt>)
    ensures var b' := ExecStmts(m, b, stmts);
            && b'.initial == b.initial && b'.strict == b.strict
            && b'.table.stateName == b.table.stateName && b'.table.eventName == b.table.eventName
  {
    if stmts != [] {
      InitialKept(m, b, stmts[..|stmts| - 1]);
      var mid, last := ExecStmts(m, b, stmts[..|stmts| - 1]), stmts[|stmts| - 1];
      if last.Chain? {
        match last.timeout
        case None => RowsKeep(m, mid, last.state, last.rows, true);
        case Some(to) =>
          RowsKeep(m, SetTimeout(mid, last.state, m.duration(to.duration), m.onTimeout(to.handler)), last.state,
              last.rows, false);
      }
    }
  }

  /** Adding rows touches the transition table and the duplicate record only. */
  lemma {:induction false} RowsKeep<S, E, C, A>(m: Meaning<S, E, C, A>, b: BuilderState<S, E, C, A>, state: string,
                                                rows: seq<(string, Expr)>, checked: bool)
    ensures var b' := ExecRows(m, b, state, rows, checked);
            b' == b.(table := b.table.(transitions := b'.table.transitions), duplicates := b'.duplicates)
  {
    if rows != [] {
      RowsKeep(m, b, state, rows[..|rows| - 1], checked);
    }
  }
}
