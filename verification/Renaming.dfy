/** A table whose second block names its state through `use State::Idle as Rest`. */
module Renaming {
  import opened FsmTypes
  import opened Machine
  import opened Runs
  import opened Dsl
  import opened Codegen
  import opened Source
  import opened Compiler
  import opened Derive

  const GO: OnHandler := OnHandler(["Event", "Go"], "flip")
  const BUSY: StateBlock := StateBlock(["State", "Busy"], [GO], None, None, None)
  const REST: StateBlock := StateBlock(["Rest"], [GO], None, None, None)
  const SPEC: FsmSpec := FsmSpec("State", "Event", "Ctx", "Action", "Busy", [BUSY, REST], None)

  const STATES: seq<string> := ["Busy", "Idle", "Rest"]

  function ByName(path: Path): Option<nat> {
    var name := LastSegment(path);
    if name == "Busy" then Some(0) else if name == "Idle" then Some(1) else if name == "Rest" then Some(2) else None
  }

  function Renamed(path: Path): Option<nat> {
    if LastSegment(path) == "Rest" then Some(1) else ByName(path)
  }

  /** Pattern resolution: the path `Rest` denotes the variant Idle. The variant Rest has no values. */
  const RENAMING: Scope<bool, ()> :=
    Scope(STATES, ["Go"], (s: bool) => if s then 0 else 1, (e: ()) => 0, Renamed, (p: Path) => Some(0),
          (ty: Ty) => ty == "State", (ty: Ty) => ty == "Event")

  /** Resolution by last segment, which is what the generated names assume. */
  const BY_NAME: Scope<bool, ()> := RENAMING.(state := ByName)

  function Flipping(): Meaning<bool, (), (), ()> {
    Meaning((s: bool) => if s then "Busy" else "Idle", (e: ()) => "Go", (x: Expr) => true, (x: Expr) => 0,
            (x: Expr) => ((s: bool, e: (), c: ()) => (c, Ok(Transition(!s, [])))),
            (x: Expr) => ((s: bool, c: ()) => (c, Ok(Transition(s, [])))),
            (x: Expr) => ((s: bool, c: ()) => (c, Ok([]))),
            (x: Expr) => ((s: bool, e: (), c: ()) => (c, Ok(()))))
  }

  lemma Scans(scope: Scope<bool, ()>, s: bool)
    requires scope == RENAMING || scope == BY_NAME
    ensures HandlerFor(scope, SPEC.states, s, ()) ==
              if s || scope.state(REST.statePath) == Some(1) then Some("flip") else None
    ensures ClauseFor(scope, SPEC.states, s, ENTRY_CLAUSE) == None
    ensures ClauseFor(scope, SPEC.states, s, EXIT_CLAUSE) == None
    ensures ClauseFor(scope, SPEC.states, s, TIMEOUT_CLAUSE) == None
  {
    assert SPEC.states[..1] == [BUSY] && [BUSY][..0] == [] && [GO][..0] == [];
    assert BUSY.handlers == REST.handlers == [GO];
    assert RowFor(scope, [GO], ()) == Some("flip");
    assert HandlerFor(scope, [BUSY], s, ()) == if s then Some("flip") else None;
    assert ClauseFor(scope, [BUSY], s, ENTRY_CLAUSE) == None;
    assert ClauseFor(scope, [BUSY], s, EXIT_CLAUSE) == None;
    assert ClauseFor(scope, [BUSY], s, TIMEOUT_CLAUSE) == None;
  }

  lemma TwoSteps(scope: Scope<bool, ()>)
    requires scope == RENAMING || scope == BY_NAME
    ensures SourceRun(Flipping(), scope, SPEC, SourceBoot(Flipping(), scope, SPEC, (), 0), [HandleOp((), 0, 0),
              HandleOp((), 0, 0)]).outs
         == [Ok([]), if scope.state(REST.statePath) == Some(1) then Ok([]) else Err(UnhandledEvent("Idle", "Go"))]
  {
    var m := Flipping();
    var op: Op<()> := HandleOp((), 0, 0);
    Scans(scope, true);
    Scans(scope, false);
    assert [op, op][1..] == [op] && [op][1..] == [];
    var w := SourceBoot(m, scope, SPEC, (), 0);
    var first := SourceFire(m, scope, SPEC, w.cfg, (), op);
    assert first.cfg == Config(false, None) && first.result.value == [];
    var w1 := World(first.cfg, first.ctx, w.outs + [first.result], w.trace + first.notes);
    var second := SourceFire(m, scope, SPEC, w1.cfg, w1.ctx, op);
    assert second.result.Ok? ==> second.result.value == [];
    var w2 := World(second.cfg, second.ctx, w1.outs + [second.result], w1.trace + second.notes);
    assert SourceRun(m, scope, SPEC, w, [op, op]) == SourceRun(m, scope, SPEC, w1, [op])
             == SourceRun(m, scope, SPEC, w2, []);
  }

  lemma NamesAreDerived()
    ensures Derived(Flipping(), BY_NAME) && Derived(Flipping(), RENAMING)
    ensures OwnNames(BY_NAME, SPEC.states) && BY_NAME.state(REST.statePath) == Some(2)
  {
    assert STATES[0][0] == 'B' && STATES[1][0] == 'I' && STATES[2][0] == 'R' && "_"[0] == '_';
    forall k: nat | k < 2 {
      DerivedNameIsIdentifier(STATES, k, STATES[k]);
    }
    DerivedNameIsIdentifier(["Go"], 0, "Go");
  }

  /** The naming hypothesis of compiler correctness is needed: here the built machine loses a row. */
  lemma RenamedImportLosesARow()
    ensures var b := Compiled(Flipping(), SPEC);
            var ops := [HandleOp((), 0, 0), HandleOp((), 0, 0)];
            && Run(b.table, Boot(b.table, b.initial, (), 0), ops).outs == [Ok([]), Err(UnhandledEvent("Idle", "Go"))]
            && SourceRun(Flipping(), RENAMING, SPEC, SourceBoot(Flipping(), RENAMING, SPEC, (), 0), ops).outs
                 == [Ok([]), Ok([])]
  {
    var ops: seq<Op<()>> := [HandleOp((), 0, 0), HandleOp((), 0, 0)];
    NamesAreDerived();
    CompiledMeansSource(Flipping(), BY_NAME, SPEC, (), 0, ops);
    TwoSteps(BY_NAME);
    TwoSteps(RENAMING);
  }
}
