/** Exactly when the generated names stand for the patterns they are made from. */
module Naming {
  import opened FsmTypes
  import opened Dsl
  import opened Builder
  import opened Codegen
  import opened Source
  import opened Derive
  import opened Compiler

  // ---------------------------------------------------------------------------------------------
  // One path

  lemma OwnNameExactly(variants: seq<string>, resolved: Option<nat>, path: Path, k: nat, name: string)
    requires Distinct(variants) && DerivedName(variants, k, name) && resolved == Some(k)
    ensures OwnName(variants, resolved, path) <==> LastSegment(path) == name
  {
    DerivedNameIsIdentifier(variants, k, name);
  }

  /** A block's name test is its pattern test exactly when the path ends in the variant's own identifier. */
  lemma StateNameExactly<S(!new), E(!new), C, A>(m: Meaning<S, E, C, A>, scope: Scope<S, E>,
                                                 b: StateBlock, witnessed: S)
    requires Derived(m, scope) && InState(scope, b, witnessed)
    ensures (forall s :: InState(scope, b, s) <==> LastSegment(b.statePath) == m.stateName(s))
       <==> OwnName(scope.states, scope.state(b.statePath), b.statePath)
  {
    OwnNameExactly(scope.states, scope.state(b.statePath), b.statePath, scope.stateOf(witnessed),
        m.stateName(witnessed));
    if OwnName(scope.states, scope.state(b.statePath), b.statePath) {
      forall s ensures InState(scope, b, s) <==> LastSegment(b.statePath) == m.stateName(s) {
        BlockNameDecides(m, scope, b, s);
      }
    }
  }

  /** And a row's name test its pattern test. */
  lemma EventNameExactly<S(!new), E(!new), C, A>(m: Meaning<S, E, C, A>, scope: Scope<S, E>,
                                                 row: OnHandler, witnessed: E)
    requires Derived(m, scope) && OnEvent(scope, row, witnessed)
    ensures (forall e :: OnEvent(scope, row, e) <==> LastSegment(row.eventPath) == m.eventName(e))
       <==> OwnName(scope.events, scope.event(row.eventPath), row.eventPath)
  {
    var resolved := scope.event(row.eventPath);
    OwnNameExactly(scope.events, resolved, row.eventPath, scope.eventOf(witnessed), m.eventName(witnessed));
    if OwnName(scope.events, resolved, row.eventPath) {
      forall e ensures OnEvent(scope, row, e) <==> LastSegment(row.eventPath) == m.eventName(e) {
        OwnNameDecides(scope.events, resolved, row.eventPath, scope.eventOf(e), m.eventName(e));
      }
    }
  }

  // ---------------------------------------------------------------------------------------------
  // A whole table

  /** A row with the state path of its block. */
  datatype FlatRow = FlatRow(state: Path, row: OnHandler)

  function BlockFlat(state: Path, rows: seq<OnHandler>): (flat: seq<FlatRow>)
    ensures |flat| == |rows| && forall i :: 0 <= i < |rows| ==> flat[i] == FlatRow(state, rows[i])
  {
    seq(|rows|, i requires 0 <= i < |rows| => FlatRow(state, rows[i]))
  }

  /** All rows of a table in source order. */
  function Flat(blocks: seq<StateBlock>): seq<FlatRow> {
    if blocks == [] then []
    else
      var b := blocks[|blocks| - 1];
      Flat(blocks[..|blocks| - 1]) + BlockFlat(b.statePath, b.handlers)
  }

  predicate PatternFits<S, E>(scope: Scope<S, E>, r: FlatRow, s: S, e: E) {
    scope.state(r.state) == Some(scope.stateOf(s)) && OnEvent(scope, r.row, e)
  }

  predicate NameFits(r: FlatRow, key: Key) {
    LastSegment(r.state) == key.0 && LastSegment(r.row.eventPath) == key.1
  }

  predicate OwnRow<S, E>(scope: Scope<S, E>, r: FlatRow) {
    OwnName(scope.states, scope.state(r.state), r.state)
      && OwnName(scope.events, scope.event(r.row.eventPath), r.row.eventPath)
  }

  predicate OwnRows<S, E>(scope: Scope<S, E>, rows: seq<FlatRow>) {
    forall i :: 0 <= i < |rows| ==> OwnRow(scope, rows[i])
  }

  /** The last row that fits. */
  function LastFit(rows: seq<FlatRow>, fits: FlatRow -> bool): Option<Expr> {
    if rows == [] then None
    else if fits(rows[|rows| - 1]) then Some(rows[|rows| - 1].row.handler)
    else LastFit(rows[..|rows| - 1], fits)
  }

  lemma {:induction false} LastFitAppend(xs: seq<FlatRow>, ys: seq<FlatRow>, fits: FlatRow -> bool)
    ensures LastFit(xs + ys, fits) == if LastFit(ys, fits).Some? then LastFit(ys, fits) else LastFit(xs, fits)
  {
    if ys == [] {
      assert xs + ys == xs;
    } else {
      assert (xs + ys)[..|xs + ys| - 1] == xs + ys[..|ys| - 1];
      LastFitAppend(xs, ys[..|ys| - 1], fits);
    }
  }

  lemma {:induction false} RowForIsLastFit<S, E>(scope: Scope<S, E>, state: Path, rows: seq<OnHandler>, s: S, e: E)
    ensures LastFit(BlockFlat(state, rows), r => PatternFits(scope, r, s, e))
         == if scope.state(state) == Some(scope.stateOf(s)) then RowFor(scope, rows, e) else None
  {
    if rows != [] {
      var flat := BlockFlat(state, rows);
      assert flat[..|flat| - 1] == BlockFlat(state, rows[..|rows| - 1]);
      RowForIsLastFit(scope, state, rows[..|rows| - 1], s, e);
    }
  }

  lemma {:induction false} NamedRowIsLastFit(state: Path, rows: seq<OnHandler>, key: Key)
    ensures LastFit(BlockFlat(state, rows), r => NameFits(r, key))
         == if LastSegment(state) == key.0 then NamedRow(rows, key.1) else None
  {
    if rows != [] {
      var flat := BlockFlat(state, rows);
      assert flat[..|flat| - 1] == BlockFlat(state, rows[..|rows| - 1]);
      NamedRowIsLastFit(state, rows[..|rows| - 1], key);
    }
  }

  lemma {:induction false} HandlerForIsLastFit<S, E>(scope: Scope<S, E>, blocks: seq<StateBlock>, s: S, e: E)
    ensures HandlerFor(scope, blocks, s, e) == LastFit(Flat(blocks), r => PatternFits(scope, r, s, e))
  {
    if blocks != [] {
      var b := blocks[|blocks| - 1];
      HandlerForIsLastFit(scope, blocks[..|blocks| - 1], s, e);
      RowForIsLastFit(scope, b.statePath, b.handlers, s, e);
      LastFitAppend(Flat(blocks[..|blocks| - 1]), BlockFlat(b.statePath, b.handlers), r => PatternFits(scope, r, s, e));
    }
  }

  lemma {:induction false} NamedHandlerIsLastFit(blocks: seq<StateBlock>, key: Key)
    ensures NamedHandler(blocks, key) == LastFit(Flat(blocks), r => NameFits(r, key))
  {
    if blocks != [] {
      var b := blocks[|blocks| - 1];
      NamedHandlerIsLastFit(blocks[..|blocks| - 1], key);
      NamedRowIsLastFit(b.statePath, b.handlers, key);
      LastFitAppend(Flat(blocks[..|blocks| - 1]), BlockFlat(b.statePath, b.handlers), r => NameFits(r, key));
    }
  }

  /** What is found is the handler of a row that fits. */
  lemma {:induction false} FoundFits(rows: seq<FlatRow>, fits: FlatRow -> bool) returns (k: nat)
    requires LastFit(rows, fits).Some?
    ensures k < |rows| && fits(rows[k]) && rows[k].row.handler == LastFit(rows, fits).value
  {
    if fits(rows[|rows| - 1]) {
      k := |rows| - 1;
    } else {
      k := FoundFits(rows[..|rows| - 1], fits);
    }
  }

  lemma {:induction false} OnlyFitIsFound(rows: seq<FlatRow>, fits: FlatRow -> bool, k: nat)
    requires k < |rows| && forall i :: 0 <= i < |rows| ==> (fits(rows[i]) <==> i == k)
    ensures LastFit(rows, fits) == Some(rows[k].row.handler)
  {
    if k < |rows| - 1 {
      OnlyFitIsFound(rows[..|rows| - 1], fits, k);
    }
  }

  lemma {:induction false} SameFits(rows: seq<FlatRow>, fits: FlatRow -> bool, fits': FlatRow -> bool)
    requires forall i :: 0 <= i < |rows| ==> fits(rows[i]) == fits'(rows[i])
    ensures LastFit(rows, fits) == LastFit(rows, fits')
  {
    if rows != [] {
      SameFits(rows[..|rows| - 1], fits, fits');
    }
  }

  /** Every row's patterns denote variants that have values, and no two rows share a handler or a pair of patterns. */
  ghost predicate ProperRows<S(!new), E(!new)>(scope: Scope<S, E>, rows: seq<FlatRow>) {
    && (forall i :: 0 <= i < |rows| ==> exists s, e :: PatternFits(scope, rows[i], s, e))
    && (forall i, j :: 0 <= i < j < |rows| ==> rows[i].row.handler != rows[j].row.handler)
    && (forall i, j, s, e | 0 <= i < |rows| && 0 <= j < |rows| ::
          PatternFits(scope, rows[i], s, e) && PatternFits(scope, rows[j], s, e) ==> i == j)
  }

  lemma OwnRowsAgree<S(!new), E(!new), C, A>(m: Meaning<S, E, C, A>, scope: Scope<S, E>, rows: seq<FlatRow>, s: S, e: E)
    requires Derived(m, scope) && OwnRows(scope, rows)
    ensures LastFit(rows, r => PatternFits(scope, r, s, e))
              == LastFit(rows, r => NameFits(r, (m.stateName(s), m.eventName(e))))
  {
    var key: Key := (m.stateName(s), m.eventName(e));
    forall i | 0 <= i < |rows| ensures PatternFits(scope, rows[i], s, e) == NameFits(rows[i], key) {
      var r := rows[i];
      OwnNameDecides(scope.states, scope.state(r.state), r.state, scope.stateOf(s), key.0);
      OwnNameDecides(scope.events, scope.event(r.row.eventPath), r.row.eventPath, scope.eventOf(e), key.1);
    }
    SameFits(rows, r => PatternFits(scope, r, s, e), r => NameFits(r, key));
  }

  lemma AgreementNeedsOwnRow<S(!new), E(!new), C, A>(m: Meaning<S, E, C, A>, scope: Scope<S, E>,
                                                     rows: seq<FlatRow>, k: nat, s: S, e: E)
    requires Derived(m, scope) && ProperRows(scope, rows) && k < |rows| && PatternFits(scope, rows[k], s, e)
    requires LastFit(rows, r => PatternFits(scope, r, s, e))
               == LastFit(rows, r => NameFits(r, (m.stateName(s), m.eventName(e))))
    ensures OwnRow(scope, rows[k])
  {
    var key: Key := (m.stateName(s), m.eventName(e));
    OnlyFitIsFound(rows, r => PatternFits(scope, r, s, e), k);
    var found := FoundFits(rows, r => NameFits(r, key));
    assert found == k;
    OwnNameExactly(scope.states, scope.state(rows[k].state), rows[k].state, scope.stateOf(s), key.0);
    OwnNameExactly(scope.events, scope.event(rows[k].row.eventPath), rows[k].row.eventPath, scope.eventOf(e), key.1);
  }

  /** Looking the handler up by name finds what matching patterns finds. */
  predicate Agrees<S, E, C, A>(m: Meaning<S, E, C, A>, scope: Scope<S, E>, blocks: seq<StateBlock>, s: S, e: E) {
    HandlerFor(scope, blocks, s, e) == NamedHandler(blocks, (m.stateName(s), m.eventName(e)))
  }

  lemma AgreesOnFlatRows<S(!new), E(!new), C, A>(m: Meaning<S, E, C, A>, scope: Scope<S, E>,
                                                 blocks: seq<StateBlock>, s: S, e: E)
    ensures var byPattern := LastFit(Flat(blocks), r => PatternFits(scope, r, s, e));
            var byName := LastFit(Flat(blocks), r => NameFits(r, (m.stateName(s), m.eventName(e))));
            Agrees(m, scope, blocks, s, e) <==> byPattern == byName
  {
    HandlerForIsLastFit(scope, blocks, s, e);
    NamedHandlerIsLastFit(blocks, (m.stateName(s), m.eventName(e)));
  }

  lemma RowFits<S(!new), E(!new)>(scope: Scope<S, E>, rows: seq<FlatRow>, i: nat) returns (s: S, e: E)
    requires ProperRows(scope, rows) && i < |rows|
    ensures PatternFits(scope, rows[i], s, e)
  {
    var row := rows[i];
    assert exists s, e :: PatternFits(scope, row, s, e);
    s, e :| PatternFits(scope, row, s, e);
  }

  lemma OwnRowsGiveAgreement<S(!new), E(!new), C, A>(m: Meaning<S, E, C, A>, scope: Scope<S, E>,
                                                     blocks: seq<StateBlock>, s: S, e: E)
    requires Derived(m, scope) && OwnRows(scope, Flat(blocks))
    ensures Agrees(m, scope, blocks, s, e)
  {
    OwnRowsAgree(m, scope, Flat(blocks), s, e);
    AgreesOnFlatRows(m, scope, blocks, s, e);
  }

  lemma AgreementGivesOwnRow<S(!new), E(!new), C, A>(m: Meaning<S, E, C, A>, scope: Scope<S, E>,
                                                     blocks: seq<StateBlock>, i: nat)
    requires Derived(m, scope) && ProperRows(scope, Flat(blocks)) && i < |Flat(blocks)|
    requires forall s, e :: Agrees(m, scope, blocks, s, e)
    ensures OwnRow(scope, Flat(blocks)[i])
  {
    var s, e := RowFits(scope, Flat(blocks), i);
    AgreesOnFlatRows(m, scope, blocks, s, e);
    AgreementNeedsOwnRow(m, scope, Flat(blocks), i, s, e);
  }

  /**
    * For a whole table with distinct handlers, whose patterns denote variants that have values and do not repeat:
    * looking handlers up by name is matching patterns, for every state and event, exactly when every row's paths
    * end in the own identifiers of the variants they denote.
    */
  lemma TableNamesExactly<S(!new), E(!new), C, A>(m: Meaning<S, E, C, A>, scope: Scope<S, E>, blocks: seq<StateBlock>)
    requires Derived(m, scope) && ProperRows(scope, Flat(blocks))
    ensures (forall s, e :: Agrees(m, scope, blocks, s, e)) <==> OwnRows(scope, Flat(blocks))
  {
    if OwnRows(scope, Flat(blocks)) {
      forall s, e ensures Agrees(m, scope, blocks, s, e) {
        OwnRowsGiveAgreement(m, scope, blocks, s, e);
      }
    }
    if forall s, e :: Agrees(m, scope, blocks, s, e) {
      forall i | 0 <= i < |Flat(blocks)| ensures OwnRow(scope, Flat(blocks)[i]) {
        AgreementGivesOwnRow(m, scope, blocks, i);
      }
    }
  }
}
