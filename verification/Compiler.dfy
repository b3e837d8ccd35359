/** The generated machine means what the table says. */
module Compiler {
  import opened FsmTypes
  import opened Machine
  import opened Runs
  import opened Builder
  import opened Dsl
  import opened Codegen
  import opened Source
  import opened Derive

  // ---------------------------------------------------------------------------------------------
  // What the tables contain after any number of blocks

  /** Scanning by name: what the source scan becomes once patterns and names agree. */
  function NamedRow(rows: seq<OnHandler>, event: string): Option<Expr> {
    if rows == [] then None
    else if LastSegment(rows[|rows| - 1].eventPath) == event then Some(rows[|rows| - 1].handler)
    else NamedRow(rows[..|rows| - 1], event)
  }

  function NamedHandler(blocks: seq<StateBlock>, key: Key): Option<Expr> {
    if blocks == [] then None
    else
      var b := blocks[|blocks| - 1];
      var row := if LastSegment(b.statePath) == key.0 then NamedRow(b.handlers, key.1) else None;
      if row.Some? then row else NamedHandler(blocks[..|blocks| - 1], key)
  }

  function NamedClause<X>(blocks: seq<StateBlock>, state: string, clause: StateBlock -> Option<X>): Option<X> {
    if blocks == [] then None
    else
      var b := blocks[|blocks| - 1];
      if LastSegment(b.statePath) == state && clause(b).Some? then clause(b)
      else NamedClause(blocks[..|blocks| - 1], state, clause)
  }

  function Lookup<K, V>(m: map<K, V>, k: K): Option<V> {
    if k in m then Some(m[k]) else None
  }

  function MapOption<X, Y>(o: Option<X>, f: X -> Y): Option<Y> {
    if o.Some? then Some(f(o.value)) else None
  }

  /** The collected tables are exactly what scanning the blocks by name finds. */
  ghost predicate Holds<S, E, C, A>(m: Meaning<S, E, C, A>, blocks: seq<StateBlock>, t: Table<S, E, C, A>) {
    && (forall key :: Lookup(t.transitions, key) == MapOption(NamedHandler(blocks, key), m.on))
    && (forall n :: Lookup(t.entry, n) == MapOption(NamedClause(blocks, n, ENTRY_CLAUSE), m.hook))
    && (forall n :: Lookup(t.exit, n) == MapOption(NamedClause(blocks, n, EXIT_CLAUSE), m.hook))
    && (forall n :: Lookup(t.timeouts, n) == MapOption(NamedClause(blocks, n, TIMEOUT_CLAUSE),
          (to: TimeoutSpec) => (m.duration(to.duration), m.onTimeout(to.handler))))
  }

  lemma {:induction false} ExecAppend<S, E, C, A>(m: Meaning<S, E, C, A>, b: BuilderState<S, E, C, A>, xs: seq<Stmt>,
                                                  ys: seq<Stmt>)
    ensures ExecStmts(m, b, xs + ys) == ExecStmts(m, ExecStmts(m, b, xs), ys)
  {
    if ys == [] {
      assert xs + ys == xs;
    } else {
      assert (xs + ys)[..|xs + ys| - 1] == xs + ys[..|ys| - 1];
      ExecAppend(m, b, xs, ys[..|ys| - 1]);
    }
  }

  lemma ExecOne<S, E, C, A>(m: Meaning<S, E, C, A>, b: BuilderState<S, E, C, A>, s: Stmt)
    ensures ExecStmts(m, b, [s]) == ExecStmt(m, b, s)
  {
    assert [s][..0] == [];
  }

  lemma {:induction false} PatternsDoNothing<S, E, C, A>(m: Meaning<S, E, C, A>, b: BuilderState<S, E, C, A>,
                                                         handlers: seq<OnHandler>)
    ensures ExecStmts(m, b, Patterns(handlers)) == b
  {
    if handlers != [] {
      var all := Patterns(handlers);
      assert all[..|all| - 1] == Patterns(handlers[..|handlers| - 1]);
      PatternsDoNothing(m, b, handlers[..|handlers| - 1]);
    }
  }

  function WithHooks<S, E, C, A>(m: Meaning<S, E, C, A>, b: BuilderState<S, E, C, A>,
                                 block: StateBlock): BuilderState<S, E, C, A> {
    var name := LastSegment(block.statePath);
    var b1 := if block.entry.Some? then SetEntry(b, name, m.hook(block.entry.value)) else b;
    if block.exit.Some? then SetExit(b1, name, m.hook(block.exit.value)) else b1
  }

  function WithTimeout<S, E, C, A>(m: Meaning<S, E, C, A>, b: BuilderState<S, E, C, A>,
                                   block: StateBlock): BuilderState<S, E, C, A> {
    match block.timeout
    case None => b
    case Some(to) => SetTimeout(b, LastSegment(block.statePath), m.duration(to.duration), m.onTimeout(to.handler))
  }

  /** The builder after one block. */
  function AfterBlock<S, E, C, A>(m: Meaning<S, E, C, A>, b: BuilderState<S, E, C, A>,
                                  block: StateBlock): BuilderState<S, E, C, A> {
    ExecRows(m, WithTimeout(m, WithHooks(m, b, block), block), LastSegment(block.statePath), Rows(block.handlers),
        block.timeout.None?)
  }

  lemma BlockEffect<S, E, C, A>(m: Meaning<S, E, C, A>, b: BuilderState<S, E, C, A>, block: StateBlock)
    ensures ExecStmts(m, b, LowerBlock(block)) == AfterBlock(m, b, block)
  {
    var name := LastSegment(block.statePath);
    var pattern, patterns, hooks := [StatePattern(block.statePath)], Patterns(block.handlers), LowerHooks(block);
    var chain := Chain(name, block.timeout, Rows(block.handlers));
    ExecAppend(m, b, pattern + patterns + hooks, [chain]);
    ExecAppend(m, b, pattern + patterns, hooks);
    ExecAppend(m, b, pattern, patterns);
    ExecOne(m, b, pattern[0]);
    PatternsDoNothing(m, b, block.handlers);
    HooksEffect(m, b, block);
    ExecOne(m, WithHooks(m, b, block), chain);
  }

  lemma HooksEffect<S, E, C, A>(m: Meaning<S, E, C, A>, b: BuilderState<S, E, C, A>, block: StateBlock)
    ensures ExecStmts(m, b, LowerHooks(block)) == WithHooks(m, b, block)
  {
    var name := LastSegment(block.statePath);
    var entry := if block.entry.Some? then [Entry(name, block.entry.value)] else [];
    var exit := if block.exit.Some? then [Exit(name, block.exit.value)] else [];
    ExecAppend(m, b, entry, exit);
    if block.entry.Some? { ExecOne(m, b, entry[0]); }
    if block.exit.Some? { ExecOne(m, ExecStmts(m, b, entry), exit[0]); }
  }

  lemma {:induction false} RowsHold<S, E, C, A>(m: Meaning<S, E, C, A>, b: BuilderState<S, E, C, A>, state: string,
                                                handlers: seq<OnHandler>, checked: bool, key: Key)
    ensures var t := ExecRows(m, b, state, Rows(handlers), checked).table.transitions;
            var row := if state == key.0 then NamedRow(handlers, key.1) else None;
            Lookup(t, key) == if row.Some? then Some(m.on(row.value)) else Lookup(b.table.transitions, key)
  {
    if handlers != [] {
      var rows := Rows(handlers);
      assert rows[..|rows| - 1] == Rows(handlers[..|handlers| - 1]);
      RowsHold(m, b, state, handlers[..|handlers| - 1], checked, key);
    }
  }

  lemma HooksKeepRows<S, E, C, A>(m: Meaning<S, E, C, A>, b: BuilderState<S, E, C, A>, block: StateBlock)
    ensures WithTimeout(m, WithHooks(m, b, block), block).table.transitions == b.table.transitions
  {
    var hooked := WithHooks(m, b, block);
    assert hooked.table.transitions == b.table.transitions;
  }

  lemma RowsExtend<S, E, C, A>(m: Meaning<S, E, C, A>, blocks: seq<StateBlock>, b: BuilderState<S, E, C, A>,
                               checked: bool, key: Key)
    requires blocks != []
    requires Lookup(b.table.transitions, key) == MapOption(NamedHandler(blocks[..|blocks| - 1], key), m.on)
    ensures var block := blocks[|blocks| - 1];
            var after := ExecRows(m, b, LastSegment(block.statePath), Rows(block.handlers), checked);
            Lookup(after.table.transitions, key) == MapOption(NamedHandler(blocks, key), m.on)
  {
    var block := blocks[|blocks| - 1];
    RowsHold(m, b, LastSegment(block.statePath), block.handlers, checked, key);
  }

  lemma BlockRowsHold<S, E, C, A>(m: Meaning<S, E, C, A>, blocks: seq<StateBlock>, b: BuilderState<S, E, C, A>,
                                  key: Key)
    requires blocks != []
    requires Lookup(b.table.transitions, key) == MapOption(NamedHandler(blocks[..|blocks| - 1], key), m.on)
    ensures Lookup(AfterBlock(m, b, blocks[|blocks| - 1]).table.transitions, key)
              == MapOption(NamedHandler(blocks, key), m.on)
  {
    var block := blocks[|blocks| - 1];
    HooksKeepRows(m, b, block);
    RowsExtend(m, blocks, WithTimeout(m, WithHooks(m, b, block), block), block.timeout.None?, key);
  }

  /** The tables other than the transitions, and the settings, are those of the block's hooks and timeout. */
  lemma BlockKeeps<S, E, C, A>(m: Meaning<S, E, C, A>, b: BuilderState<S, E, C, A>, block: StateBlock)
    ensures var b' := AfterBlock(m, b, block);
            && b'.table.entry == WithHooks(m, b, block).table.entry
               && b'.table.exit == WithHooks(m, b, block).table.exit
            && b'.table.timeouts == WithTimeout(m, b, block).table.timeouts
            && b'.table.unhandled == b.table.unhandled && b'.initial == b.initial && b'.strict == b.strict
            && b'.table.stateName == b.table.stateName && b'.table.eventName == b.table.eventName
  {
    RowsKeep(m, WithTimeout(m, WithHooks(m, b, block), block), LastSegment(block.statePath), Rows(block.handlers),
        block.timeout.None?);
  }

  /** A table that gets the block's clause, if it has one, under the block's name. */
  lemma ClauseHolds<X, Y>(blocks: seq<StateBlock>, table: map<string, Y>, n: string,
                          clause: StateBlock -> Option<X>, f: X -> Y)
    requires blocks != []
    requires Lookup(table, n) == MapOption(NamedClause(blocks[..|blocks| - 1], n, clause), f)
    ensures var b := blocks[|blocks| - 1];
            var table' := if clause(b).Some? then table[LastSegment(b.statePath) := f(clause(b).value)] else table;
            Lookup(table', n) == MapOption(NamedClause(blocks, n, clause), f)
  {
  }

  lemma HooksHold<S, E, C, A>(m: Meaning<S, E, C, A>, blocks: seq<StateBlock>, b: BuilderState<S, E, C, A>, n: string)
    requires blocks != [] && Holds(m, blocks[..|blocks| - 1], b.table)
    ensures var t := WithHooks(m, b, blocks[|blocks| - 1]).table;
            && Lookup(t.entry, n) == MapOption(NamedClause(blocks, n, ENTRY_CLAUSE), m.hook)
            && Lookup(t.exit, n) == MapOption(NamedClause(blocks, n, EXIT_CLAUSE), m.hook)
  {
    ClauseHolds(blocks, b.table.entry, n, ENTRY_CLAUSE, m.hook);
    ClauseHolds(blocks, b.table.exit, n, EXIT_CLAUSE, m.hook);
  }

  lemma BlockClausesHold<S, E, C, A>(m: Meaning<S, E, C, A>, blocks: seq<StateBlock>, b: BuilderState<S, E, C, A>,
                                     n: string)
    requires blocks != [] && Holds(m, blocks[..|blocks| - 1], b.table)
    ensures var t := AfterBlock(m, b, blocks[|blocks| - 1]).table;
            && Lookup(t.entry, n) == MapOption(NamedClause(blocks, n, ENTRY_CLAUSE), m.hook)
            && Lookup(t.exit, n) == MapOption(NamedClause(blocks, n, EXIT_CLAUSE), m.hook)
            && Lookup(t.timeouts, n) == MapOption(NamedClause(blocks, n, TIMEOUT_CLAUSE),
                 (to: TimeoutSpec) => (m.duration(to.duration), m.onTimeout(to.handler)))
  {
    BlockKeeps(m, b, blocks[|blocks| - 1]);
    HooksHold(m, blocks, b, n);
  }

  lemma BlockHolds<S, E, C, A>(m: Meaning<S, E, C, A>, blocks: seq<StateBlock>, b: BuilderState<S, E, C, A>)
    requires blocks != [] && Holds(m, blocks[..|blocks| - 1], b.table)
    ensures Holds(m, blocks, AfterBlock(m, b, blocks[|blocks| - 1]).table)
  {
    forall key ensures Lookup(AfterBlock(m, b, blocks[|blocks| - 1]).table.transitions, key)
        == MapOption(NamedHandler(blocks, key), m.on) {
      BlockRowsHold(m, blocks, b, key);
    }
    forall n: string {
      BlockClausesHold(m, blocks, b, n);
    }
  }

  lemma {:induction false} BlocksHold<S, E, C, A>(m: Meaning<S, E, C, A>, blocks: seq<StateBlock>,
                                                  b: BuilderState<S, E, C, A>)
    requires Holds(m, [], b.table)
    ensures Holds(m, blocks, ExecStmts(m, b, LowerBlocks(blocks)).table)
  {
    if blocks != [] {
      BlocksHold(m, blocks[..|blocks| - 1], b);
      ExecAppend(m, b, LowerBlocks(blocks[..|blocks| - 1]), LowerBlock(blocks[|blocks| - 1]));
      BlockEffect(m, ExecStmts(m, b, LowerBlocks(blocks[..|blocks| - 1])), blocks[|blocks| - 1]);
      BlockHolds(m, blocks, ExecStmts(m, b, LowerBlocks(blocks[..|blocks| - 1])));
    }
  }

  lemma {:induction false} BlocksKeep<S, E, C, A>(m: Meaning<S, E, C, A>, blocks: seq<StateBlock>,
                                                  b: BuilderState<S, E, C, A>)
    ensures var b' := ExecStmts(m, b, LowerBlocks(blocks));
            && b'.table.unhandled == b.table.unhandled && b'.initial == b.initial && b'.strict == b.strict
            && b'.table.stateName == b.table.stateName && b'.table.eventName == b.table.eventName
  {
    if blocks != [] {
      var block := blocks[|blocks| - 1];
      var before := ExecStmts(m, b, LowerBlocks(blocks[..|blocks| - 1]));
      BlocksKeep(m, blocks[..|blocks| - 1], b);
      ExecAppend(m, b, LowerBlocks(blocks[..|blocks| - 1]), LowerBlock(block));
      BlockEffect(m, before, block);
      BlockKeeps(m, before, block);
    }
  }

  /** The table the generated code collects for a specification. */
  function Compiled<S, E, C, A>(m: Meaning<S, E, C, A>, spec: FsmSpec): BuilderState<S, E, C, A> {
    Configured(m, Lower(spec))
  }

  ghost predicate Collected<S, E, C, A>(m: Meaning<S, E, C, A>, spec: FsmSpec, t: Table<S, E, C, A>) {
    && Holds(m, spec.states, t)
    && t.unhandled == MapOption(spec.unhandled, m.onUnhandled)
    && t.stateName == m.stateName && t.eventName == m.eventName
  }

  function AfterPrelude<S, E, C, A>(m: Meaning<S, E, C, A>, spec: FsmSpec): BuilderState<S, E, C, A> {
    var b := Fresh(m.initial(spec.initial), m.stateName, m.eventName);
    if spec.unhandled.Some? then SetUnhandled(b, m.onUnhandled(spec.unhandled.value)) else b
  }

  lemma CompiledUnfolds<S, E, C, A>(m: Meaning<S, E, C, A>, spec: FsmSpec)
    ensures Compiled(m, spec) == ExecStmts(m, AfterPrelude(m, spec), LowerBlocks(spec.states))
  {
    var b := Fresh(m.initial(spec.initial), m.stateName, m.eventName);
    var prelude := if spec.unhandled.Some? then [Unhandled(spec.unhandled.value)] else [];
    ExecAppend(m, b, prelude, LowerBlocks(spec.states));
    if spec.unhandled.Some? {
      ExecOne(m, b, Unhandled(spec.unhandled.value));
    }
  }

  lemma CompiledCollects<S, E, C, A>(m: Meaning<S, E, C, A>, spec: FsmSpec)
    ensures Collected(m, spec, Compiled(m, spec).table) && Compiled(m, spec).initial == m.initial(spec.initial)
            && Compiled(m, spec).strict
  {
    CompiledUnfolds(m, spec);
    BlocksHold(m, spec.states, AfterPrelude(m, spec));
    BlocksKeep(m, spec.states, AfterPrelude(m, spec));
  }

  // ---------------------------------------------------------------------------------------------
  // Names against patterns

  /** The names that dispatch goes by are the derived ones. */
  ghost predicate Derived<S(!new), E(!new), C, A>(m: Meaning<S, E, C, A>, scope: Scope<S, E>) {
    && Distinct(scope.states) && Distinct(scope.events)
    && (forall s :: DerivedName(scope.states, scope.stateOf(s), m.stateName(s)))
    && (forall e :: DerivedName(scope.events, scope.eventOf(e), m.eventName(e)))
  }

  /** The path resolves to a variant whose own identifier is the path's last segment: no renaming import. */
  predicate OwnName(variants: seq<string>, resolved: Option<nat>, path: Path) {
    resolved.Some? && resolved.value < |variants| && variants[resolved.value] == LastSegment(path)
  }

  /**
    * Every path ends in the own identifier of the variant it denotes, and no state path ends in the wildcard
    * name, which Rust does not accept as an identifier.
    */
  ghost predicate OwnNames<S, E>(scope: Scope<S, E>, blocks: seq<StateBlock>) {
    forall i :: 0 <= i < |blocks| ==>
      && OwnName(scope.states, scope.state(blocks[i].statePath), blocks[i].statePath)
      && LastSegment(blocks[i].statePath) != "_"
      && OwnEventNames(scope, blocks[i].handlers)
  }

  ghost predicate OwnEventNames<S, E>(scope: Scope<S, E>, rows: seq<OnHandler>) {
    forall j :: 0 <= j < |rows| ==> OwnName(scope.events, scope.event(rows[j].eventPath), rows[j].eventPath)
  }

  /** For a path with its own name, comparing names is comparing variants. */
  lemma OwnNameDecides(variants: seq<string>, resolved: Option<nat>, path: Path, k: nat, name: string)
    requires Distinct(variants) && DerivedName(variants, k, name) && OwnName(variants, resolved, path)
    ensures resolved == Some(k) <==> LastSegment(path) == name
  {
    DerivedNameIsIdentifier(variants, resolved.value, LastSegment(path));
    NamesIdentifyVariants(variants, resolved.value, k, LastSegment(path), name);
  }

  lemma {:induction false} RowScanAgrees<S(!new), E(!new), C, A>(m: Meaning<S, E, C, A>, scope: Scope<S, E>,
      rows: seq<OnHandler>, e: E)
    requires Derived(m, scope) && OwnEventNames(scope, rows)
    ensures RowFor(scope, rows, e) == NamedRow(rows, m.eventName(e))
  {
    if rows != [] {
      var path := rows[|rows| - 1].eventPath;
      RowScanAgrees(m, scope, rows[..|rows| - 1], e);
      OwnNameDecides(scope.events, scope.event(path), path, scope.eventOf(e), m.eventName(e));
    }
  }

  lemma BlockNameDecides<S(!new), E(!new), C, A>(m: Meaning<S, E, C, A>, scope: Scope<S, E>, b: StateBlock, s: S)
    requires Derived(m, scope) && OwnName(scope.states, scope.state(b.statePath), b.statePath)
    ensures InState(scope, b, s) <==> LastSegment(b.statePath) == m.stateName(s)
  {
    OwnNameDecides(scope.states, scope.state(b.statePath), b.statePath, scope.stateOf(s), m.stateName(s));
  }

  lemma {:induction false} ScanAgrees<S(!new), E(!new), C, A>(m: Meaning<S, E, C, A>, scope: Scope<S, E>,
      blocks: seq<StateBlock>, s: S, e: E)
    requires Derived(m, scope) && OwnNames(scope, blocks)
    ensures HandlerFor(scope, blocks, s, e) == NamedHandler(blocks, (m.stateName(s), m.eventName(e)))
    ensures NamedHandler(blocks, ("_", m.eventName(e))) == None
  {
    if blocks != [] {
      ScanAgrees(m, scope, blocks[..|blocks| - 1], s, e);
      RowScanAgrees(m, scope, blocks[|blocks| - 1].handlers, e);
      BlockNameDecides(m, scope, blocks[|blocks| - 1], s);
    }
  }

  lemma {:induction false} ClauseScanAgrees<S(!new), E(!new), C, A, X>(m: Meaning<S, E, C, A>, scope: Scope<S, E>,
      blocks: seq<StateBlock>, s: S, clause: StateBlock -> Option<X>)
    requires Derived(m, scope) && OwnNames(scope, blocks)
    ensures ClauseFor(scope, blocks, s, clause) == NamedClause(blocks, m.stateName(s), clause)
  {
    if blocks != [] {
      ClauseScanAgrees(m, scope, blocks[..|blocks| - 1], s, clause);
      BlockNameDecides(m, scope, blocks[|blocks| - 1], s);
    }
  }

  /** The tables and the scans agree on the hooks of a state and on its deadline. */
  ghost predicate SameClauses<S, E, C, A>(m: Meaning<S, E, C, A>, scope: Scope<S, E>, spec: FsmSpec,
                                          t: Table<S, E, C, A>, s: S) {
    && Lookup(t.exit, t.stateName(s)) == MapOption(ClauseFor(scope, spec.states, s, EXIT_CLAUSE), m.hook)
    && Lookup(t.entry, t.stateName(s)) == MapOption(ClauseFor(scope, spec.states, s, ENTRY_CLAUSE), m.hook)
    && (forall now :: Deadline(t, s, now) == SourceDeadline(m, scope, spec, s, now))
  }

  lemma ClausesAgree<S(!new), E(!new), C, A>(m: Meaning<S, E, C, A>, scope: Scope<S, E>, spec: FsmSpec,
                                             t: Table<S, E, C, A>, s: S)
    requires Collected(m, spec, t) && Derived(m, scope) && OwnNames(scope, spec.states)
    ensures SameClauses(m, scope, spec, t, s)
  {
    ClauseScanAgrees(m, scope, spec.states, s, EXIT_CLAUSE);
    ClauseScanAgrees(m, scope, spec.states, s, ENTRY_CLAUSE);
    ClauseScanAgrees(m, scope, spec.states, s, TIMEOUT_CLAUSE);
    assert Lookup(t.timeouts, t.stateName(s)).Some? <==> NamedClause(spec.states, t.stateName(s), TIMEOUT_CLAUSE).Some?;
  }

  lemma HandlerClausesAgree<S(!new), E(!new), C, A>(m: Meaning<S, E, C, A>, scope: Scope<S, E>,
                                                    spec: FsmSpec, t: Table<S, E, C, A>, cfg: Config<S>,
                                                    ran: Outcome<Transition<S, A>>)
    requires Collected(m, spec, t) && Derived(m, scope) && OwnNames(scope, spec.states)
    ensures SameClauses(m, scope, spec, t, cfg.state)
    ensures ran.Ok? ==> SameClauses(m, scope, spec, t, ran.value.nextState)
  {
    ClausesAgree(m, scope, spec, t, cfg.state);
    if ran.Ok? {
      ClausesAgree(m, scope, spec, t, ran.value.nextState);
    }
  }

  lemma EnterAgrees<S, E, C, A>(m: Meaning<S, E, C, A>, scope: Scope<S, E>, spec: FsmSpec, t: Table<S, E, C, A>,
                                cfg: Config<S>, tr: Transition<S, A>, ctx: C, enterAt: nat, armAt: nat)
    requires SameClauses(m, scope, spec, t, tr.nextState)
    ensures var entry := ClauseFor(scope, spec.states, tr.nextState, ENTRY_CLAUSE);
            var (ctx', entered) := RunHook(m, entry, tr.nextState, ctx);
            var notes := [Entered(tr.nextState, enterAt)] + if entry.Some?
                then [EntryCall(tr.nextState, entered)] else [];
            EnterState(t, cfg, tr, ctx, enterAt, armAt) ==
              if entered.Ok? then Step(Config(tr.nextState, SourceDeadline(m, scope, spec, tr.nextState, armAt)), ctx',
                                       Ok(entered.value + tr.actions), notes)
              else Step(Config(tr.nextState, cfg.deadline), ctx', entered, notes)
  {
    assert [] + tr.actions == tr.actions;
    assert Deadline(t, tr.nextState, armAt) == SourceDeadline(m, scope, spec, tr.nextState, armAt);
  }

  lemma ExitAgrees<S, E, C, A>(m: Meaning<S, E, C, A>, scope: Scope<S, E>, spec: FsmSpec, t: Table<S, E, C, A>,
                               cfg: Config<S>, tr: Transition<S, A>, ctx: C, enterAt: nat, armAt: nat)
    requires SameClauses(m, scope, spec, t, cfg.state)
    ensures var exit := ClauseFor(scope, spec.states, cfg.state, EXIT_CLAUSE);
            var (ctx', exited) := RunHook(m, exit, cfg.state, ctx);
            var notes := if exit.Some? then [ExitCall(cfg.state, exited)] else [];
            ApplyTransition(t, cfg, tr, ctx, enterAt, armAt) ==
              if !exited.Ok? then Step(cfg, ctx', exited, notes)
              else
                var rest := EnterState(t, cfg, tr, ctx', enterAt, armAt);
                Step(rest.cfg, rest.ctx, if rest.result.Ok?
                    then Ok(exited.value + rest.result.value) else rest.result, notes + rest.notes)
  {
    if t.stateName(cfg.state) !in t.exit {
      var rest := EnterState(t, cfg, tr, ctx, enterAt, armAt);
      assert [] + rest.notes == rest.notes;
      if rest.result.Ok? {
        assert [] + rest.result.value == rest.result.value;
      }
    }
  }

  lemma Regroup<X>(a: seq<X>, b: seq<X>, c: seq<X>, d: seq<X>)
    ensures a + (b + (c + d)) == a + b + c + d && b + (c + d) == b + c + d
  {
  }

  lemma TransitionAgrees<S, E, C, A>(m: Meaning<S, E, C, A>, scope: Scope<S, E>, spec: FsmSpec, t: Table<S, E, C, A>,
                                     cfg: Config<S>, call: Note<S, E, A>, ran: (C, Outcome<Transition<S, A>>),
                                     enterAt: nat, armAt: nat)
    requires SameClauses(m, scope, spec, t, cfg.state)
    requires ran.1.Ok? ==> SameClauses(m, scope, spec, t, ran.1.value.nextState)
    ensures AfterHandler(t, cfg, call, ran, enterAt, armAt)
         == SourceTransition(m, scope, spec, cfg, call, ran.0, ran.1, enterAt, armAt)
  {
    if ran.1.Ok? {
      var tr := ran.1.value;
      var exit := ClauseFor(scope, spec.states, cfg.state, EXIT_CLAUSE);
      var (ctx1, exited) := RunHook(m, exit, cfg.state, ran.0);
      ExitAgrees(m, scope, spec, t, cfg, tr, ran.0, enterAt, armAt);
      if exited.Ok? {
        EnterAgrees(m, scope, spec, t, cfg, tr, ctx1, enterAt, armAt);
        var entry := ClauseFor(scope, spec.states, tr.nextState, ENTRY_CLAUSE);
        var (ctx2, entered) := RunHook(m, entry, tr.nextState, ctx1);
        Regroup<Note<S, E, A>>([call], if exit.Some?
            then [ExitCall(cfg.state, exited)] else [], [Entered(tr.nextState, enterAt)],
                               if entry.Some? then [EntryCall(tr.nextState, entered)] else []);
        if entered.Ok? {
          Regroup<A>([], exited.value, entered.value, tr.actions);
        }
      }
    }
  }

  lemma FireAgrees<S(!new), E(!new), C, A>(m: Meaning<S, E, C, A>, scope: Scope<S, E>, spec: FsmSpec,
                                           t: Table<S, E, C, A>, cfg: Config<S>, ctx: C, op: Op<E>)
    requires Collected(m, spec, t) && Derived(m, scope) && OwnNames(scope, spec.states)
    ensures Fire(t, cfg, ctx, op) == SourceFire(m, scope, spec, cfg, ctx, op)
  {
    if op.HandleOp? {
      var exact := (t.stateName(cfg.state), t.eventName(op.event));
      ScanAgrees(m, scope, spec.states, cfg.state, op.event);
      assert Lookup(t.transitions, exact) == MapOption(NamedHandler(spec.states, exact), m.on);
      assert Lookup(t.transitions, ("_", exact.1)) == None;
      var handler := Dispatch(t, cfg.state, op.event);
      if handler.Some? {
        var ran := handler.value(cfg.state, op.event, ctx);
        HandlerClausesAgree(m, scope, spec, t, cfg, ran.1);
        TransitionAgrees(m, scope, spec, t, cfg, OnCall(cfg.state, op.event, ran.1), ran, op.enterAt, op.armAt);
      }
    } else {
      var name := t.stateName(cfg.state);
      ClauseScanAgrees(m, scope, spec.states, cfg.state, TIMEOUT_CLAUSE);
      assert Lookup(t.timeouts, name).Some? <==> NamedClause(spec.states, name, TIMEOUT_CLAUSE).Some?;
      if name in t.timeouts {
        var ran := t.timeouts[name].1(cfg.state, ctx);
        HandlerClausesAgree(m, scope, spec, t, cfg, ran.1);
        TransitionAgrees(m, scope, spec, t, cfg, TimeoutCall(cfg.state, op.now, ran.1), ran, op.enterAt, op.armAt);
      }
    }
  }

  lemma {:induction false} RunAgrees<S(!new), E(!new), C, A>(m: Meaning<S, E, C, A>, scope: Scope<S, E>,
      spec: FsmSpec, t: Table<S, E, C, A>, w: World<S, E, C, A>, ops: seq<Op<E>>)
    requires Collected(m, spec, t) && Derived(m, scope) && OwnNames(scope, spec.states)
    ensures Run(t, w, ops) == SourceRun(m, scope, spec, w, ops)
    decreases |ops|
  {
    if ops != [] {
      FireAgrees(m, scope, spec, t, w.cfg, w.ctx, ops[0]);
      RunAgrees(m, scope, spec, t, Advance(t, w, ops[0]), ops[1..]);
    }
  }

  /**
    * Compiler correctness. The machine the generated code builds goes through the same states, deadlines,
    * contexts, handler calls, returned actions and errors as the source table read directly.
    */
  lemma CompiledMeansSource<S(!new), E(!new), C, A>(m: Meaning<S, E, C, A>, scope: Scope<S, E>,
                                                    spec: FsmSpec, ctx: C, now: nat, ops: seq<Op<E>>)
    requires Derived(m, scope) && OwnNames(scope, spec.states)
    ensures var b := Compiled(m, spec);
            Run(b.table, Boot(b.table, b.initial, ctx, now), ops)
                == SourceRun(m, scope, spec, SourceBoot(m, scope, spec, ctx, now), ops)
  {
    CompiledCollects(m, spec);
    var t, s := Compiled(m, spec).table, m.initial(spec.initial);
    ClauseScanAgrees(m, scope, spec.states, s, TIMEOUT_CLAUSE);
    assert Lookup(t.timeouts, t.stateName(s)).Some? <==> NamedClause(spec.states, t.stateName(s), TIMEOUT_CLAUSE).Some?;
    assert Boot(t, s, ctx, now) == SourceBoot(m, scope, spec, ctx, now);
    RunAgrees(m, scope, spec, t, Boot(t, s, ctx, now), ops);
  }

}
