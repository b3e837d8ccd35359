/** A ledger machine under at-least-once delivery: deduplication lives in its state. */
module Beast {
  import opened FsmTypes
  import opened Machine
  import opened Runs
  import opened Replay
  import opened Builder
  import opened Saturating

  /** The recorded operations, kept as data where the source formats them into text. */
  datatype Operation =
    | CreditBy(id: string, amount: Int64)
    | DebitBy(id: string, amount: Int64)
    | SubtractBy(id: string, value: Int64)
    | Appended(text: string)

  datatype BeastState =
    | Counting(balance: Int64, operations: seq<Operation>, ids: set<string>)
    | Corrupted(reason: string)

  datatype BeastEvent =
    | Credit(id: string, amount: Int64)
    | Debit(id: string, amount: Int64)
    | Append(id: string, text: string)
    | Subtract(id: string, value: Int64)
    | NaiveAverageOf(id: string, value: Int64)
    | MarkOfBeast

  datatype Deed =
    | Credited(amount: Int64)
    | Debited(amount: Int64)
    | AppendedText(text: string)
    | Subtracted(value: Int64)

  datatype BeastAction = RecordOperation(deed: Deed) | ApocalypseNow

  datatype LogEntry = ByHandler(id: string, deed: Deed) | ByAction(deed: Deed)

  const WORD: nat := 0x1_0000_0000_0000_0000

  /** A machine word. */
  type Word = x: nat | x < WORD

  datatype BeastContext = BeastContext(duplicates: Word, log: seq<LogEntry>)

  type Ran = (BeastContext, Outcome<Transition<BeastState, BeastAction>>)

  function StateName(s: BeastState): string {
    if s.Counting? then "Counting" else "Corrupted"
  }

  function EventName(e: BeastEvent): string {
    match e
    case Credit(_, _) => "Credit"
    case Debit(_, _) => "Debit"
    case Append(_, _) => "Append"
    case Subtract(_, _) => "Subtract"
    case NaiveAverageOf(_, _) => "NaiveAverage"
    case MarkOfBeast => "MarkOfBeast"
  }

  /** A handler called with a state or event it does not expect panics: nothing after the await runs. */
  function Unreachable(c: BeastContext): Ran {
    (c, Dropped)
  }

  function Done(c: BeastContext, id: string, deed: Deed, next: BeastState): Ran {
    (c.(log := c.log + [ByHandler(id, deed)]), Ok(Transition(next, [RecordOperation(deed)])))
  }

  function OnCredit(s: BeastState, e: BeastEvent, c: BeastContext): Ran {
    if s.Counting? && e.Credit? then
      if e.id in s.ids then
        (c.(duplicates := (c.duplicates + 1) % WORD), Ok(Transition(s, [])))
      else
        Done(c, e.id, Credited(e.amount),
             Counting(SaturatingAdd(s.balance, e.amount), s.operations + [CreditBy(e.id, e.amount)], s.ids + {e.id}))
    else Unreachable(c)
  }

  function OnDebit(s: BeastState, e: BeastEvent, c: BeastContext): Ran {
    if s.Counting? && e.Debit? then
      Done(c, e.id, Debited(e.amount),
           Counting(SaturatingSub(s.balance, e.amount), s.operations + [DebitBy(e.id, e.amount)], s.ids))
    else Unreachable(c)
  }

  function OnAppend(s: BeastState, e: BeastEvent, c: BeastContext): Ran {
    if s.Counting? && e.Append? then
      Done(c, e.id, AppendedText(e.text), s.(operations := s.operations + [Appended(e.text)]))
    else Unreachable(c)
  }

  function OnSubtract(s: BeastState, e: BeastEvent, c: BeastContext): Ran {
    if s.Counting? && e.Subtract? then
      Done(c, e.id, Subtracted(e.value),
           Counting(SaturatingSub(s.balance, e.value), s.operations + [SubtractBy(e.id, e.value)], s.ids))
    else Unreachable(c)
  }

  function OnMark(s: BeastState, e: BeastEvent, c: BeastContext): Ran {
    if s.Counting? then
      if s.balance == 666 || c.duplicates == 666 || |s.operations| == 666 then
        (c, Ok(Transition(Corrupted("The number of the beast!"), [ApocalypseNow])))
      else (c, Ok(Transition(s, [])))
    else Unreachable(c)
  }

  function Execute(a: BeastAction, c: BeastContext): (BeastContext, Outcome<()>) {
    (if a.RecordOperation? then c.(log := c.log + [ByAction(a.deed)]) else c, Ok(()))
  }

  const EMPTY: BeastState := Counting(0, [], {})

  type BeastTable = Table<BeastState, BeastEvent, BeastContext, BeastAction>

  const BUILDER: BuilderState<BeastState, BeastEvent, BeastContext, BeastAction> :=
    AddRow(AddRow(AddRow(AddRow(AddRow(Fresh(EMPTY, StateName, EventName),
      ("Counting", "Credit"), OnCredit, true),
      ("Counting", "Debit"), OnDebit, true),
      ("Counting", "Append"), OnAppend, true),
      ("Counting", "Subtract"), OnSubtract, true),
      ("Counting", "MarkOfBeast"), OnMark, true)

  const BEAST: BeastTable := BUILDER.table

  type BeastOp = Op<BeastEvent>
  type BeastWorld = World<BeastState, BeastEvent, BeastContext, BeastAction>

  // ---------------------------------------------------------------------------------------------
  // What one call does

  lemma TableIs()
    ensures BEAST.stateName == StateName && BEAST.eventName == EventName
    ensures BEAST.transitions
         == map[("Counting", "Credit") := OnCredit, ("Counting", "Debit") := OnDebit,
                ("Counting", "Append") := OnAppend, ("Counting", "Subtract") := OnSubtract,
                ("Counting", "MarkOfBeast") := OnMark]
    ensures BEAST.unhandled == None && BEAST.entry == map[] && BEAST.exit == map[] && BEAST.timeouts == map[]
  {
  }

  lemma EventNamesDiffer(e: BeastEvent)
    ensures EventName(e)[0] == match e
                               case Credit(_, _) => 'C'
                               case Debit(_, _) => 'D'
                               case Append(_, _) => 'A'
                               case Subtract(_, _) => 'S'
                               case NaiveAverageOf(_, _) => 'N'
                               case MarkOfBeast => 'M'
    ensures "Credit"[0] == 'C' && "Debit"[0] == 'D' && "Append"[0] == 'A' && "Subtract"[0] == 'S'
    ensures "NaiveAverage"[0] == 'N' && "MarkOfBeast"[0] == 'M'
  {
  }

  /** Which handler the engine reaches: the one written for the event, and none once Corrupted. */
  lemma DispatchesByName(s: BeastState, e: BeastEvent)
    ensures Dispatch(BEAST, s, e)
         == if s.Corrupted? || e.NaiveAverageOf? then None
            else Some(match e
                      case Credit(_, _) => OnCredit
                      case Debit(_, _) => OnDebit
                      case Append(_, _) => OnAppend
                      case Subtract(_, _) => OnSubtract
                      case MarkOfBeast => OnMark)
    ensures !BEAST.unhandled.Some? && BEAST.entry == map[] && BEAST.exit == map[] && BEAST.timeouts == map[]
  {
    TableIs();
    assert "Counting"[0] == 'C' && "_"[0] == '_' && "Counting"[2] == 'u' && "Corrupted"[2] == 'r';
    EventNamesDiffer(e);
  }

  /** Without hooks and timeouts a call is its handler, or an error that changes nothing. */
  lemma FireIsHandler(s: BeastState, c: BeastContext, op: BeastOp)
    ensures var step := Fire(BEAST, Config(s, None), c, op);
            if op.CheckOp? then step.cfg == Config(s, None) && step.ctx == c && step.result == Ok([])
            else
              var h := Dispatch(BEAST, s, op.event);
              if h.None? then
                step.cfg == Config(s, None) && step.ctx == c
                && step.result == Err(UnhandledEvent(StateName(s), EventName(op.event)))
              else
                var ran := h.value(s, op.event, c);
                ran.1.Ok? && step.cfg == Config(ran.1.value.nextState, None) && step.ctx == ran.0
                && step.result == Ok(ran.1.value.actions)
  {
    if op.HandleOp? {
      DispatchesByName(s, op.event);
    } else {
      DispatchesByName(s, MarkOfBeast);
    }
  }

  predicate IsDuplicate(seen: set<string>, e: BeastEvent) {
    e.Credit? && e.id in seen
  }

  function Seen(seen: set<string>, e: BeastEvent): set<string> {
    if e.Credit? then seen + {e.id} else seen
  }

  predicate IsRepeat(seen: set<string>, op: BeastOp) {
    op.HandleOp? && IsDuplicate(seen, op.event)
  }

  function SeenAfter(seen: set<string>, op: BeastOp): set<string> {
    if op.HandleOp? then Seen(seen, op.event) else seen
  }

  /** The stream with every Credit removed whose id has been delivered before. */
  function FirstDeliveries(seen: set<string>, ops: seq<BeastOp>): seq<BeastOp>
    decreases |ops|
  {
    if ops == [] then []
    else if IsRepeat(seen, ops[0]) then FirstDeliveries(seen, ops[1..])
    else [ops[0]] + FirstDeliveries(SeenAfter(seen, ops[0]), ops[1..])
  }

  function Emitted(outs: seq<Outcome<seq<BeastAction>>>): seq<BeastAction> {
    if outs == [] then []
    else Emitted(outs[..|outs| - 1]) + if outs[|outs| - 1].Ok? then outs[|outs| - 1].value else []
  }

  /** Equal but for the local duplicate counter, the calls made and their clock readings. */
  predicate SameWork(w: BeastWorld, w': BeastWorld) {
    w.cfg == w'.cfg && w.ctx.log == w'.ctx.log && Emitted(w.outs) == Emitted(w'.outs)
  }

  predicate Plain(w: BeastWorld) {
    w.cfg.deadline == None
  }

  predicate Knows(w: BeastWorld, seen: set<string>) {
    w.cfg.state.Counting? ==> w.cfg.state.ids == seen
  }

  /** One live delivery. */
  function Next(w: BeastWorld, op: BeastOp): BeastWorld {
    LiveAdvance(BEAST, Execute, w, op)
  }

  function Live(w: BeastWorld, ops: seq<BeastOp>): BeastWorld {
    LiveRun(BEAST, Execute, w, ops)
  }

  lemma EmittedSnoc(outs: seq<Outcome<seq<BeastAction>>>, o: Outcome<seq<BeastAction>>)
    ensures Emitted(outs + [o]) == Emitted(outs) + if o.Ok? then o.value else []
  {
    assert (outs + [o])[..|outs|] == outs;
  }

  lemma ExecutionAppends(actions: seq<BeastAction>, c: BeastContext, d: BeastContext)
    requires |actions| <= 1 && c.log == d.log
    ensures ExecuteActions(Execute, actions, c).0.log == ExecuteActions(Execute, actions, d).0.log
    ensures ExecuteActions(Execute, actions, c).0.duplicates == c.duplicates
  {
  }

  /** What the mark finds in a Counting state, apart from the duplicate counter. */
  predicate MarkedAnyway(s: BeastState)
    requires s.Counting?
  {
    s.balance == 666 || |s.operations| == 666
  }

  /** The mark is looked for, and only the duplicate counters, one of which is 666, decide whether it is found. */
  predicate SplitsAt(w: BeastWorld, other: Word, op: BeastOp) {
    && op.HandleOp? && op.event.MarkOfBeast? && w.cfg.state.Counting? && !MarkedAnyway(w.cfg.state)
    && (w.ctx.duplicates == 666) != (other == 666)
  }

  /** Somewhere in the stream a ledger at w and one whose duplicate counter stays at `other` split. */
  predicate Splits(w: BeastWorld, other: Word, ops: seq<BeastOp>)
    decreases |ops|
  {
    ops != [] && (SplitsAt(w, other, ops[0]) || Splits(Next(w, ops[0]), other, ops[1..]))
  }

  /** The mark, exactly: Corrupted is entered or nothing changes, and only that event reads the counter. */
  lemma MarkExactly(w: BeastWorld, op: BeastOp)
    requires Plain(w) && w.cfg.state.Counting? && op.HandleOp? && op.event.MarkOfBeast?
    ensures var found := MarkedAnyway(w.cfg.state) || w.ctx.duplicates == 666;
            && Next(w, op).cfg == w.cfg.(state := if found then Corrupted("The number of the beast!") else w.cfg.state)
            && Next(w, op).ctx == w.ctx
            && Next(w, op).outs == w.outs + [Ok(if found then [ApocalypseNow] else [])]
  {
    FireIsHandler(w.cfg.state, w.ctx, op);
    DispatchesByName(w.cfg.state, op.event);
    var step := Fire(BEAST, w.cfg, w.ctx, op);
    assert ExecuteActions(Execute, [ApocalypseNow], step.ctx).0 == step.ctx by {
      assert [ApocalypseNow][1..] == [];
    }
  }

  /** Two ledgers that have done the same work react alike, unless they split. */
  lemma SameReaction(w: BeastWorld, w': BeastWorld, op: BeastOp)
    requires SameWork(w, w') && Plain(w)
    ensures SameWork(Next(w, op), Next(w', op)) <==> !SplitsAt(w, w'.ctx.duplicates, op)
    ensures Plain(Next(w, op))
  {
    if op.HandleOp? && op.event.MarkOfBeast? && w.cfg.state.Counting? {
      MarkExactly(w, op);
      MarkExactly(w', op);
      EmittedSnoc(w.outs, Fire(BEAST, w.cfg, w.ctx, op).result);
      EmittedSnoc(w'.outs, Fire(BEAST, w'.cfg, w'.ctx, op).result);
    } else {
      SameUnmarkedReaction(w, w', op);
    }
  }

  lemma SameUnmarkedReaction(w: BeastWorld, w': BeastWorld, op: BeastOp)
    requires SameWork(w, w') && Plain(w)
    requires !(op.HandleOp? && op.event.MarkOfBeast? && w.cfg.state.Counting?)
    ensures SameWork(Next(w, op), Next(w', op)) && Plain(Next(w, op))
  {
    var s := w.cfg.state;
    FireIsHandler(s, w.ctx, op);
    FireIsHandler(s, w'.ctx, op);
    if op.HandleOp? {
      DispatchesByName(s, op.event);
    }
    var step, step' := Fire(BEAST, w.cfg, w.ctx, op), Fire(BEAST, w'.cfg, w'.ctx, op);
    assert step.result == step'.result && step.cfg == step'.cfg && step.ctx.log == step'.ctx.log;
    if step.result.Ok? {
      ExecutionAppends(step.result.value, step.ctx, step'.ctx);
    }
    EmittedSnoc(w.outs, step.result);
    EmittedSnoc(w'.outs, step.result);
  }

  /** How a delivery moves the set of known ids and the duplicate counter. */
  lemma Bookkeeping(w: BeastWorld, seen: set<string>, op: BeastOp)
    requires Plain(w) && Knows(w, seen)
    ensures var v := Next(w, op);
            && Knows(v, SeenAfter(seen, op))
            && v.ctx.duplicates == if w.cfg.state.Counting? && IsRepeat(seen, op) then (w.ctx.duplicates + 1) % WORD
                                   else w.ctx.duplicates
  {
    FireIsHandler(w.cfg.state, w.ctx, op);
    if op.HandleOp? {
      DispatchesByName(w.cfg.state, op.event);
    }
    var step := Fire(BEAST, w.cfg, w.ctx, op);
    if step.result.Ok? {
      ExecutionAppends(step.result.value, step.ctx, step.ctx);
    }
  }

  /** A duplicate delivery changes nothing but the counter. */
  lemma DuplicateIsInvisible(w: BeastWorld, seen: set<string>, op: BeastOp)
    requires Plain(w) && Knows(w, seen) && IsRepeat(seen, op)
    ensures SameWork(Next(w, op), w)
  {
    FireIsHandler(w.cfg.state, w.ctx, op);
    DispatchesByName(w.cfg.state, op.event);
    EmittedSnoc(w.outs, Fire(BEAST, w.cfg, w.ctx, op).result);
  }

  lemma LiveCons(w: BeastWorld, ops: seq<BeastOp>)
    requires ops != []
    ensures Live(w, ops) == Live(Next(w, ops[0]), ops[1..])
  {
  }

  /** The two live runs, one without the repeated deliveries, have done the same work at every point. */
  predicate Throughout(w: BeastWorld, w': BeastWorld, seen: set<string>, ops: seq<BeastOp>)
    decreases |ops|
  {
    && SameWork(w, w')
    && (ops != [] ==>
          if IsRepeat(seen, ops[0]) then Throughout(Next(w, ops[0]), w', seen, ops[1..])
          else Throughout(Next(w, ops[0]), Next(w', ops[0]), SeenAfter(seen, ops[0]), ops[1..]))
  }

  /** A first delivery to both ledgers. */
  lemma FirstDelivery(w: BeastWorld, w': BeastWorld, seen: set<string>, op: BeastOp)
    requires SameWork(w, w') && Plain(w) && Knows(w, seen) && !IsRepeat(seen, op)
    ensures SameWork(Next(w, op), Next(w', op)) <==> !SplitsAt(w, w'.ctx.duplicates, op)
    ensures Plain(Next(w, op)) && Knows(Next(w, op), SeenAfter(seen, op))
            && Next(w', op).ctx.duplicates == w'.ctx.duplicates
  {
    SameReaction(w, w', op);
    Bookkeeping(w, seen, op);
    Bookkeeping(w', seen, op);
  }

  /** A repeated delivery to the first ledger alone. */
  lemma RepeatedDelivery(w: BeastWorld, w': BeastWorld, seen: set<string>, op: BeastOp)
    requires SameWork(w, w') && Plain(w) && Knows(w, seen) && IsRepeat(seen, op)
    ensures SameWork(Next(w, op), w') && Plain(Next(w, op)) && Knows(Next(w, op), seen)
  {
    DuplicateIsInvisible(w, seen, op);
    Bookkeeping(w, seen, op);
    assert SeenAfter(seen, op) == seen;
  }

  /**
    * At-least-once is exactly-once, exactly: the ledger that gets every delivery and the one that gets only the
    * first delivery of each Credit agree on state, operation log and emitted actions at every point of the
    * stream if and only if they never split.
    */
  lemma {:induction false} DuplicatesMatterExactly(w: BeastWorld, w': BeastWorld, seen: set<string>, ops: seq<BeastOp>)
    requires SameWork(w, w') && Plain(w) && Knows(w, seen)
    ensures Throughout(w, w', seen, ops) <==> !Splits(w, w'.ctx.duplicates, ops)
    decreases |ops|
  {
    if ops != [] {
      var op := ops[0];
      if IsRepeat(seen, op) {
        RepeatedDelivery(w, w', seen, op);
        DuplicatesMatterExactly(Next(w, op), w', seen, ops[1..]);
      } else {
        FirstDelivery(w, w', seen, op);
        if !SplitsAt(w, w'.ctx.duplicates, op) {
          DuplicatesMatterExactly(Next(w, op), Next(w', op), SeenAfter(seen, op), ops[1..]);
        }
      }
    }
  }

  lemma {:induction false} ThroughoutToTheEnd(w: BeastWorld, w': BeastWorld, seen: set<string>, ops: seq<BeastOp>)
    requires Throughout(w, w', seen, ops)
    ensures SameWork(Live(w, ops), Live(w', FirstDeliveries(seen, ops)))
    decreases |ops|
  {
    if ops != [] {
      LiveCons(w, ops);
      if IsRepeat(seen, ops[0]) {
        ThroughoutToTheEnd(Next(w, ops[0]), w', seen, ops[1..]);
      } else {
        var rest := FirstDeliveries(SeenAfter(seen, ops[0]), ops[1..]);
        ThroughoutToTheEnd(Next(w, ops[0]), Next(w', ops[0]), SeenAfter(seen, ops[0]), ops[1..]);
        assert ([ops[0]] + rest)[1..] == rest;
        LiveCons(w', [ops[0]] + rest);
      }
    }
  }

  /** Unless they split, deleting the repeated deliveries changes nothing in the end either. */
  lemma DuplicatesDoNotMatter(w: BeastWorld, w': BeastWorld, seen: set<string>, ops: seq<BeastOp>)
    requires SameWork(w, w') && Plain(w) && Knows(w, seen) && !Splits(w, w'.ctx.duplicates, ops)
    ensures SameWork(Live(w, ops), Live(w', FirstDeliveries(seen, ops)))
  {
    DuplicatesMatterExactly(w, w', seen, ops);
    ThroughoutToTheEnd(w, w', seen, ops);
  }

  /** Streams that never look for the mark do not split. */
  lemma {:induction false} UnmarkedStreamsNeverSplit(w: BeastWorld, other: Word, ops: seq<BeastOp>)
    requires forall i :: 0 <= i < |ops| ==> ops[i].HandleOp? ==> !ops[i].event.MarkOfBeast?
    ensures !Splits(w, other, ops)
    decreases |ops|
  {
    if ops != [] {
      UnmarkedStreamsNeverSplit(Next(w, ops[0]), other, ops[1..]);
    }
  }
}
