/** The checks the generated code carries for the compiler, and the tables they let through. */
module Acceptance {
  import opened FsmTypes
  import opened Dsl
  import opened Codegen
  import opened Source

  /** The paths checked to be patterns of the state type, in order. */
  function StatePatterns(body: seq<Stmt>): seq<Path> {
    if body == [] then []
    else
      var rest, last := StatePatterns(body[..|body| - 1]), body[|body| - 1];
      if last.StatePattern? then rest + [last.path] else rest
  }

  /** The paths checked to be patterns of the event type, in order. */
  function EventPatterns(body: seq<Stmt>): seq<Path> {
    if body == [] then []
    else
      var rest, last := EventPatterns(body[..|body| - 1]), body[|body| - 1];
      if last.EventPattern? then rest + [last.path] else rest
  }

  /** The paths a table is written with. */
  function BlockPaths(blocks: seq<StateBlock>): seq<Path> {
    seq(|blocks|, i requires 0 <= i < |blocks| => blocks[i].statePath)
  }

  function RowPaths(rows: seq<OnHandler>): seq<Path> {
    seq(|rows|, i requires 0 <= i < |rows| => rows[i].eventPath)
  }

  function AllRowPaths(blocks: seq<StateBlock>): seq<Path> {
    if blocks == [] then [] else AllRowPaths(blocks[..|blocks| - 1]) + RowPaths(blocks[|blocks| - 1].handlers)
  }

  lemma {:induction false} PatternsAppend(xs: seq<Stmt>, ys: seq<Stmt>)
    ensures StatePatterns(xs + ys) == StatePatterns(xs) + StatePatterns(ys)
    ensures EventPatterns(xs + ys) == EventPatterns(xs) + EventPatterns(ys)
  {
    if ys == [] {
      assert xs + ys == xs;
    } else {
      assert (xs + ys)[..|xs + ys| - 1] == xs + ys[..|ys| - 1];
      PatternsAppend(xs, ys[..|ys| - 1]);
    }
  }

  lemma {:induction false} NoPatterns(stmts: seq<Stmt>)
    requires forall i :: 0 <= i < |stmts| ==> !stmts[i].StatePattern? && !stmts[i].EventPattern?
    ensures StatePatterns(stmts) == [] && EventPatterns(stmts) == []
  {
    if stmts != [] {
      NoPatterns(stmts[..|stmts| - 1]);
    }
  }

  lemma {:induction false} RowPatterns(rows: seq<OnHandler>)
    ensures StatePatterns(Patterns(rows)) == [] && EventPatterns(Patterns(rows)) == RowPaths(rows)
  {
    if rows != [] {
      var all, before := Patterns(rows), rows[..|rows| - 1];
      assert all[..|all| - 1] == Patterns(before);
      RowPatterns(before);
      assert RowPaths(rows) == RowPaths(before) + [rows[|rows| - 1].eventPath];
    }
  }

  /** A path's own check, some checks of events, and statements without checks. */
  lemma PiecesPatterns(path: Path, events: seq<Stmt>, hooks: seq<Stmt>, chain: Stmt)
    requires StatePatterns(events) == [] && StatePatterns(hooks) == [] && EventPatterns(hooks) == [] && chain.Chain?
    ensures var stmts := [StatePattern(path)] + events + hooks + [chain];
            StatePatterns(stmts) == [path] && EventPatterns(stmts) == EventPatterns(events)
  {
    var head: seq<Stmt> := [StatePattern(path)];
    assert head[..0] == [];
    assert StatePatterns(head) == [path] && EventPatterns(head) == [];
    NoPatterns([chain]);
    PatternsAppend(head, events);
    PatternsAppend(head + events, hooks);
    PatternsAppend(head + events + hooks, [chain]);
  }

  /** The patterns come first in a block; what follows has none. */
  lemma BlockPatterns(b: StateBlock)
    ensures StatePatterns(LowerBlock(b)) == [b.statePath] && EventPatterns(LowerBlock(b)) == RowPaths(b.handlers)
  {
    RowPatterns(b.handlers);
    NoPatterns(LowerHooks(b));
    PiecesPatterns(b.statePath, Patterns(b.handlers), LowerHooks(b),
        Chain(LastSegment(b.statePath), b.timeout, Rows(b.handlers)));
  }

  lemma {:induction false} BlocksPatterns(blocks: seq<StateBlock>)
    ensures StatePatterns(LowerBlocks(blocks)) == BlockPaths(blocks)
    ensures EventPatterns(LowerBlocks(blocks)) == AllRowPaths(blocks)
  {
    if blocks != [] {
      var before, last := blocks[..|blocks| - 1], blocks[|blocks| - 1];
      BlocksPatterns(before);
      BlockPatterns(last);
      PatternsAppend(LowerBlocks(before), LowerBlock(last));
      assert BlockPaths(blocks) == BlockPaths(before) + [last.statePath];
    }
  }

  /** The expansion checks every block's path and every row's path, in order, and no other. */
  lemma ChecksExactly(spec: FsmSpec)
    ensures StatePatterns(Lower(spec).body) == BlockPaths(spec.states)
    ensures EventPatterns(Lower(spec).body) == AllRowPaths(spec.states)
    ensures Lower(spec).requiredState == spec.stateTy && Lower(spec).requiredEvent == spec.eventTy
  {
    var prelude: seq<Stmt> := if spec.unhandled.Some? then [Unhandled(spec.unhandled.value)] else [];
    NoPatterns(prelude);
    BlocksPatterns(spec.states);
    PatternsAppend(prelude, LowerBlocks(spec.states));
  }

  // ---------------------------------------------------------------------------------------------
  // What the compiler makes of them

  /** The compiler lets the generated code through: the types derive their names, every pattern is a variant. */
  predicate Accepts<S, E>(scope: Scope<S, E>, code: Expansion) {
    && scope.derivesState(code.requiredState) && scope.derivesEvent(code.requiredEvent)
    && (forall i :: 0 <= i < |code.body| && code.body[i].StatePattern? ==> scope.state(code.body[i].path).Some?)
    && (forall i :: 0 <= i < |code.body| && code.body[i].EventPattern? ==> scope.event(code.body[i].path).Some?)
  }

  /** The same of the table as it is written. */
  predicate Resolves<S, E>(scope: Scope<S, E>, spec: FsmSpec) {
    && scope.derivesState(spec.stateTy) && scope.derivesEvent(spec.eventTy)
    && forall i :: 0 <= i < |spec.states| ==> BlockResolves(scope, spec.states[i])
  }

  predicate BlockResolves<S, E>(scope: Scope<S, E>, b: StateBlock) {
    && scope.state(b.statePath).Some?
    && forall j :: 0 <= j < |b.handlers| ==> scope.event(b.handlers[j].eventPath).Some?
  }

  lemma {:induction false} AllFound(resolve: Path -> Option<nat>, body: seq<Stmt>)
    ensures (forall p :: p in StatePatterns(body) ==> resolve(p).Some?) <==>
              forall i :: 0 <= i < |body| && body[i].StatePattern? ==> resolve(body[i].path).Some?
    ensures (forall p :: p in EventPatterns(body) ==> resolve(p).Some?) <==>
              forall i :: 0 <= i < |body| && body[i].EventPattern? ==> resolve(body[i].path).Some?
  {
    if body != [] {
      var before := body[..|body| - 1];
      AllFound(resolve, before);
      assert forall i :: 0 <= i < |before| ==> before[i] == body[i];
    }
  }

  lemma {:induction false} RowPathsFound(resolve: Path -> Option<nat>, blocks: seq<StateBlock>)
    ensures (forall p :: p in AllRowPaths(blocks) ==> resolve(p).Some?) <==>
              forall i, j :: 0 <= i < |blocks| && 0 <= j < |blocks[i].handlers| ==>
                resolve(blocks[i].handlers[j].eventPath).Some?
  {
    if blocks != [] {
      var before, last := blocks[..|blocks| - 1], blocks[|blocks| - 1];
      RowPathsFound(resolve, before);
      assert forall j :: 0 <= j < |last.handlers| ==> RowPaths(last.handlers)[j] == last.handlers[j].eventPath;
      assert forall p :: p in AllRowPaths(blocks) <==> p in AllRowPaths(before) || p in RowPaths(last.handlers);
      assert forall i :: 0 <= i < |before| ==> before[i] == blocks[i];
    }
  }

  /** Exactly the tables whose blocks and rows all name variants compile. */
  lemma AcceptedExactly<S, E>(scope: Scope<S, E>, spec: FsmSpec)
    ensures Accepts(scope, Lower(spec)) <==> Resolves(scope, spec)
  {
    var body := Lower(spec).body;
    ChecksExactly(spec);
    AllFound(scope.state, body);
    AllFound(scope.event, body);
    RowPathsFound(scope.event, spec.states);
    assert forall i :: 0 <= i < |spec.states| ==> BlockPaths(spec.states)[i] == spec.states[i].statePath;
  }
}
