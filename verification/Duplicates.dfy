/** Which tables the generated code refuses to build. */
module Duplicates {
  import opened FsmTypes
  import opened Machine
  import opened Builder
  import opened Dsl
  import opened Codegen
  import opened Source
  import opened Compiler

  /** A row as emitted: its key, and whether its block has no timeout, so that the builder checks it. */
  datatype Emitted = Emitted(key: Key, checked: bool)

  function BlockRows(state: string, rows: seq<OnHandler>, checked: bool): seq<Emitted> {
    if rows == [] then []
    else BlockRows(state, rows[..|rows| - 1], checked) + [Emitted((state, LastSegment(rows[|rows| - 1].eventPath)),
        checked)]
  }

  function EmittedRows(blocks: seq<StateBlock>): seq<Emitted> {
    if blocks == [] then []
    else
      var b := blocks[|blocks| - 1];
      EmittedRows(blocks[..|blocks| - 1]) + BlockRows(LastSegment(b.statePath), b.handlers, b.timeout.None?)
  }

  predicate Seen(rows: seq<Emitted>, key: Key) {
    exists j :: 0 <= j < |rows| && rows[j].key == key
  }

  /** Row i has the key of an earlier row. */
  predicate Repeats(rows: seq<Emitted>, i: nat)
    requires i < |rows|
  {
    Seen(rows[..i], rows[i].key)
  }

  /** Some row repeats an earlier key where the builder looks for it. */
  predicate AnyCheckedRepeat(rows: seq<Emitted>) {
    exists i :: 0 <= i < |rows| && CheckedRepeat(rows, i)
  }

  predicate AnyRowOf(rows: seq<Emitted>, state: string) {
    exists i :: 0 <= i < |rows| && rows[i].key.0 == state
  }

  /** Row i repeats an earlier key where the builder looks for it. */
  predicate CheckedRepeat(rows: seq<Emitted>, i: nat)
    requires i < |rows|
  {
    rows[i].checked && Repeats(rows, i)
  }

  predicate FirstCheckedRepeat(rows: seq<Emitted>, i: nat)
    requires i < |rows|
  {
    CheckedRepeat(rows, i) && forall j :: 0 <= j < i ==> !CheckedRepeat(rows, j)
  }

  function Flagged(rows: seq<Emitted>): seq<Key> {
    if rows == [] then []
    else
      var last := rows[|rows| - 1];
      Flagged(rows[..|rows| - 1]) + if last.checked && Seen(rows[..|rows| - 1], last.key) then [last.key] else []
  }

  /** The builder has recorded exactly the flagged rows and knows exactly the emitted keys. */
  ghost predicate Records<S, E, C, A>(b: BuilderState<S, E, C, A>, rows: seq<Emitted>) {
    && b.duplicates == Flagged(rows)
    && forall key :: key in b.table.transitions <==> Seen(rows, key)
  }

  lemma RowRecorded<S, E, C, A>(b: BuilderState<S, E, C, A>, rows: seq<Emitted>, key: Key,
                                h: TransitionHandler<S, E, C, A>, checked: bool)
    requires Records(b, rows)
    ensures Records(AddRow(b, key, h, checked), rows + [Emitted(key, checked)])
  {
    var longer := rows + [Emitted(key, checked)];
    assert longer[..|longer| - 1] == rows;
    forall k: Key ensures k in AddRow(b, key, h, checked).table.transitions <==> Seen(longer, k) {
      SeenSnoc(rows, Emitted(key, checked), k);
    }
  }

  lemma {:induction false} RowsRecord<S, E, C, A>(m: Meaning<S, E, C, A>, b: BuilderState<S, E, C, A>,
                                                  earlier: seq<Emitted>, state: string, handlers: seq<OnHandler>,
                                                  checked: bool)
    requires Records(b, earlier)
    ensures Records(ExecRows(m, b, state, Rows(handlers), checked), earlier + BlockRows(state, handlers, checked))
  {
    if handlers == [] {
      assert earlier + [] == earlier;
    } else {
      var rows, front := Rows(handlers), handlers[..|handlers| - 1];
      var key: Key := (state, LastSegment(handlers[|handlers| - 1].eventPath));
      assert rows[..|rows| - 1] == Rows(front);
      RowsRecord(m, b, earlier, state, front, checked);
      RowRecorded(ExecRows(m, b, state, Rows(front), checked), earlier + BlockRows(state, front, checked),
                  key, m.on(rows[|rows| - 1].1), checked);
      assert earlier + BlockRows(state, handlers, checked)
               == earlier + BlockRows(state, front, checked) + [Emitted(key, checked)];
    }
  }

  lemma SeenSnoc(rows: seq<Emitted>, last: Emitted, key: Key)
    ensures Seen(rows + [last], key) <==> Seen(rows, key) || last.key == key
  {
    if Seen(rows, key) {
      var j :| 0 <= j < |rows| && rows[j].key == key;
      assert (rows + [last])[j].key == key;
    }
    if last.key == key {
      assert (rows + [last])[|rows|].key == key;
    }
  }

  lemma {:induction false} BlocksRecord<S, E, C, A>(m: Meaning<S, E, C, A>, blocks: seq<StateBlock>,
                                                    b: BuilderState<S, E, C, A>)
    requires Records(b, [])
    ensures Records(ExecStmts(m, b, LowerBlocks(blocks)), EmittedRows(blocks))
  {
    if blocks != [] {
      var block := blocks[|blocks| - 1];
      var before := ExecStmts(m, b, LowerBlocks(blocks[..|blocks| - 1]));
      BlocksRecord(m, blocks[..|blocks| - 1], b);
      ExecAppend(m, b, LowerBlocks(blocks[..|blocks| - 1]), LowerBlock(block));
      BlockEffect(m, before, block);
      RowsRecord(m, WithTimeout(m, WithHooks(m, before, block), block), EmittedRows(blocks[..|blocks| - 1]),
                 LastSegment(block.statePath), block.handlers, block.timeout.None?);
    }
  }

  lemma RepeatsInFront(rows: seq<Emitted>, i: nat)
    requires i + 1 < |rows|
    ensures CheckedRepeat(rows, i) == CheckedRepeat(rows[..|rows| - 1], i)
  {
    assert rows[..|rows| - 1][..i] == rows[..i];
  }

  lemma FirstInFront(rows: seq<Emitted>, i: nat)
    requires i + 1 < |rows| && FirstCheckedRepeat(rows, i)
    ensures FirstCheckedRepeat(rows[..|rows| - 1], i)
  {
    var front := rows[..|rows| - 1];
    RepeatsInFront(rows, i);
    forall j | 0 <= j < i ensures !CheckedRepeat(front, j) {
      assert !CheckedRepeat(rows, j);
      RepeatsInFront(rows, j);
    }
  }

  lemma {:induction false} NothingFlagged(rows: seq<Emitted>)
    ensures Flagged(rows) == [] <==> forall i :: 0 <= i < |rows| ==> !CheckedRepeat(rows, i)
  {
    if rows != [] {
      var n := |rows| - 1;
      NothingFlagged(rows[..n]);
      assert CheckedRepeat(rows, n) == (rows[n].checked && Seen(rows[..n], rows[n].key));
      forall i | 0 <= i < n ensures CheckedRepeat(rows, i) == CheckedRepeat(rows[..n], i) {
        RepeatsInFront(rows, i);
      }
    }
  }

  lemma {:induction false} FlaggedFirst(rows: seq<Emitted>, i: nat)
    requires i < |rows| && FirstCheckedRepeat(rows, i)
    ensures Flagged(rows) != [] && Flagged(rows)[0] == rows[i].key
  {
    var n := |rows| - 1;
    if i < n {
      FirstInFront(rows, i);
      FlaggedFirst(rows[..n], i);
    } else {
      NothingFlagged(rows[..n]);
      forall j | 0 <= j < n ensures !CheckedRepeat(rows[..n], j) {
        RepeatsInFront(rows, j);
      }
    }
  }

  lemma FirstFlagged(rows: seq<Emitted>)
    ensures Flagged(rows) == [] <==> forall i :: 0 <= i < |rows| ==> !CheckedRepeat(rows, i)
    ensures forall i :: 0 <= i < |rows| && FirstCheckedRepeat(rows, i) ==>
              Flagged(rows) != [] && Flagged(rows)[0] == rows[i].key
  {
    NothingFlagged(rows);
    forall i | 0 <= i < |rows| && FirstCheckedRepeat(rows, i)
      ensures Flagged(rows) != [] && Flagged(rows)[0] == rows[i].key
    {
      FlaggedFirst(rows, i);
    }
  }

  lemma CompiledRecords<S, E, C, A>(m: Meaning<S, E, C, A>, spec: FsmSpec)
    ensures Records(Compiled(m, spec), EmittedRows(spec.states)) && Compiled(m, spec).strict
    ensures Compiled(m, spec).initial == m.initial(spec.initial) && Compiled(m, spec).table.stateName == m.stateName
  {
    CompiledUnfolds(m, spec);
    CompiledCollects(m, spec);
    BlocksRecord(m, spec.states, AfterPrelude(m, spec));
  }

  /** The grounds for refusal, in the order the builder looks at them. */
  predicate RefusedAsDuplicate(refusal: Option<FsmError>) {
    refusal.Some? && refusal.value.DuplicateHandler?
  }

  predicate RefusedForInitial(refusal: Option<FsmError>) {
    refusal.Some? && refusal.value.BuilderError?
  }

  lemma RefusalGrounds<S, E, C, A>(b: BuilderState<S, E, C, A>)
    ensures RefusedAsDuplicate(Refusal(b)) <==> b.duplicates != []
    ensures b.duplicates != [] ==> Refusal(b) == Some(DuplicateHandler(b.duplicates[0].0, b.duplicates[0].1))
    ensures RefusedForInitial(Refusal(b)) ==> Refusal(b) == Some(BuilderError(b.table.stateName(b.initial)))
    ensures Refusal(b).Some? ==> RefusedAsDuplicate(Refusal(b)) || RefusedForInitial(Refusal(b))
    ensures var name := b.table.stateName(b.initial);
            RefusedForInitial(Refusal(b)) <==>
              b.duplicates == [] && b.strict && !HasRow(b, name) && name !in b.table.timeouts
  {
  }

  lemma RecordedExactly<S, E, C, A>(b: BuilderState<S, E, C, A>, rows: seq<Emitted>)
    requires Records(b, rows)
    ensures RefusedAsDuplicate(Refusal(b)) <==> AnyCheckedRepeat(rows)
    ensures forall i :: 0 <= i < |rows| && FirstCheckedRepeat(rows, i) ==>
          Refusal(b) == Some(DuplicateHandler(rows[i].key.0, rows[i].key.1))
  {
    FirstFlagged(rows);
    RefusalGrounds(b);
  }

  lemma UnrecordedExactly<S, E, C, A>(b: BuilderState<S, E, C, A>, rows: seq<Emitted>)
    requires Records(b, rows) && b.strict
    ensures var name := b.table.stateName(b.initial);
            RefusedForInitial(Refusal(b)) <==>
              !AnyCheckedRepeat(rows) && !AnyRowOf(rows, name) && name !in b.table.timeouts
  {
    FirstFlagged(rows);
    RefusalGrounds(b);
    StatesWithRows(b, rows, b.table.stateName(b.initial));
  }

  /**
    * Duplicate detection, exactly. The build is refused for a duplicate iff some row of a block without a
    * timeout repeats the key of an earlier row of any block, and the first such row is the one reported.
    */
  lemma DuplicateDetectionExact<S, E, C, A>(m: Meaning<S, E, C, A>, spec: FsmSpec)
    ensures var rows, refusal := EmittedRows(spec.states), Refusal(Compiled(m, spec));
            && (RefusedAsDuplicate(refusal) <==> AnyCheckedRepeat(rows))
            && forall i :: 0 <= i < |rows| && FirstCheckedRepeat(rows, i)
                           ==> refusal == Some(DuplicateHandler(rows[i].key.0, rows[i].key.1))
  {
    CompiledRecords(m, spec);
    RecordedExactly(Compiled(m, spec), EmittedRows(spec.states));
  }

  /**
    * "Duplicates are always rejected" holds of a table iff no repeat goes through a block with a timeout,
    * or some other repeat does not.
    */
  lemma AlwaysRejectedExactly<S, E, C, A>(m: Meaning<S, E, C, A>, spec: FsmSpec)
    ensures var rows := EmittedRows(spec.states);
            ((exists i :: 0 <= i < |rows| && Repeats(rows, i)) ==> RefusedAsDuplicate(Refusal(Compiled(m, spec)))) <==>
              (forall i :: 0 <= i < |rows| && !rows[i].checked ==> !Repeats(rows, i)) ||
              AnyCheckedRepeat(rows)
  {
    DuplicateDetectionExact(m, spec);
  }

  /** The other ground for refusal: the initial state has neither a row nor a timeout. */
  lemma InitialCheckExact<S, E, C, A>(m: Meaning<S, E, C, A>, spec: FsmSpec)
    ensures var rows, name := EmittedRows(spec.states), m.stateName(m.initial(spec.initial));
            RefusedForInitial(Refusal(Compiled(m, spec))) <==>
              !AnyCheckedRepeat(rows) && !AnyRowOf(rows, name) &&
              NamedClause(spec.states, name, TIMEOUT_CLAUSE).None?
  {
    CompiledRecords(m, spec);
    TimeoutsCollected(m, spec, m.stateName(m.initial(spec.initial)));
    UnrecordedExactly(Compiled(m, spec), EmittedRows(spec.states));
  }

  lemma StatesWithRows<S, E, C, A>(b: BuilderState<S, E, C, A>, rows: seq<Emitted>, name: string)
    requires Records(b, rows)
    ensures HasRow(b, name) <==> AnyRowOf(rows, name)
  {
    if HasRow(b, name) {
      var key :| key in b.table.transitions && key.0 == name;
      assert Seen(rows, key);
    }
    forall i | 0 <= i < |rows| && rows[i].key.0 == name ensures HasRow(b, name) {
      assert Seen(rows, rows[i].key);
    }
  }

  lemma TimeoutsCollected<S, E, C, A>(m: Meaning<S, E, C, A>, spec: FsmSpec, name: string)
    ensures name in Compiled(m, spec).table.timeouts <==> NamedClause(spec.states, name, TIMEOUT_CLAUSE).Some?
  {
    CompiledCollects(m, spec);
    assert Lookup(Compiled(m, spec).table.timeouts, name).Some? <==>
             NamedClause(spec.states, name, TIMEOUT_CLAUSE).Some?;
  }

  /** The key of the first row, from row i on, that repeats an earlier key in a block without a timeout. */
  function FirstRepeat(rows: seq<Emitted>, i: nat): Option<Key>
    requires i <= |rows|
    decreases |rows| - i
  {
    if i == |rows| then None
    else if CheckedRepeat(rows, i) then Some(rows[i].key)
    else FirstRepeat(rows, i + 1)
  }

  lemma {:induction false} FirstRepeatIsFirst(rows: seq<Emitted>, i: nat)
    requires i <= |rows| && forall j :: 0 <= j < i ==> !CheckedRepeat(rows, j)
    ensures FirstRepeat(rows, i).None? <==> !AnyCheckedRepeat(rows)
    ensures FirstRepeat(rows, i).Some? ==>
              exists j :: 0 <= j < |rows| && FirstCheckedRepeat(rows, j) && rows[j].key == FirstRepeat(rows, i).value
    decreases |rows| - i
  {
    if i < |rows| {
      if CheckedRepeat(rows, i) {
        assert FirstCheckedRepeat(rows, i);
      } else {
        FirstRepeatIsFirst(rows, i + 1);
      }
    }
  }

  /** The refusal read off the parsed table: no builder, no maps. */
  function TextRefusal<S, E, C, A>(m: Meaning<S, E, C, A>, spec: FsmSpec): Option<FsmError> {
    var rows, name := EmittedRows(spec.states), m.stateName(m.initial(spec.initial));
    var repeat := FirstRepeat(rows, 0);
    if repeat.Some? then Some(DuplicateHandler(repeat.value.0, repeat.value.1))
    else if !AnyRowOf(rows, name) && NamedClause(spec.states, name, TIMEOUT_CLAUSE).None? then Some(BuilderError(name))
    else None
  }

  /** The generated code is refused exactly as the parsed table says, with the same error. */
  lemma RefusalIsTextual<S, E, C, A>(m: Meaning<S, E, C, A>, spec: FsmSpec)
    ensures Refusal(Compiled(m, spec)) == TextRefusal(m, spec)
  {
    FirstRepeatIsFirst(EmittedRows(spec.states), 0);
    DuplicateDetectionExact(m, spec);
    InitialCheckExact(m, spec);
    CompiledRecords(m, spec);
    RefusalGrounds(Compiled(m, spec));
  }

  const TWICE: FsmSpec := FsmSpec("S", "E", "C", "A", "Idle",
    [StateBlock(["S", "Idle"], [OnHandler(["E", "Go"], "first"), OnHandler(["E", "Go"], "second")],
                Some(TimeoutSpec("1s", "expire")), None, None)], None)

  /** A repeated row under a timeout is accepted, and the later row is the one kept. */
  lemma RepeatUnderTimeoutIsAccepted<S, E, C, A>(m: Meaning<S, E, C, A>)
    requires m.stateName(m.initial("Idle")) == "Idle"
    ensures var b := Compiled(m, TWICE);
            Refusal(b).None? && ("Idle", "Go") in b.table.transitions
              && b.table.transitions[("Idle", "Go")] == m.on("second")
  {
    var blocks := TWICE.states;
    var handlers := blocks[0].handlers;
    var rows := EmittedRows(blocks);
    var key: Key := ("Idle", "Go");
    CompiledCollects(m, TWICE);
    assert blocks[..0] == [] && handlers[..1][..0] == [];
    assert NamedHandler(blocks, key) == Some("second");
    var b := Compiled(m, TWICE);
    assert Lookup(b.table.transitions, key) == MapOption(NamedHandler(blocks, key), m.on);
    assert NamedClause(blocks, "Idle", TIMEOUT_CLAUSE).Some?;
    assert BlockRows("Idle", handlers[..1], false) == [Emitted(key, false)];
    assert rows == [Emitted(key, false), Emitted(key, false)];
    DuplicateDetectionExact(m, TWICE);
    InitialCheckExact(m, TWICE);
  }
}
