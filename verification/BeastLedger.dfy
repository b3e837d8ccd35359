/** What the ledger logs, emits and holds after any stream of deliveries, read off the events alone. */
module BeastLedger {
  import opened FsmTypes
  import opened Machine
  import opened Runs
  import opened Replay
  import opened Saturating
  import opened Beast

  predicate HasDeed(e: BeastEvent) {
    e.Credit? || e.Debit? || e.Append? || e.Subtract?
  }

  /** An event that the ledger books. */
  type Booked = e: BeastEvent | HasDeed(e) witness Append("", "")

  function DeedOf(e: Booked): Deed {
    match e
    case Credit(_, amount) => Credited(amount)
    case Debit(_, amount) => Debited(amount)
    case Append(_, text) => AppendedText(text)
    case Subtract(_, value) => Subtracted(value)
  }

  function OperationOf(e: Booked): Operation {
    match e
    case Credit(id, amount) => CreditBy(id, amount)
    case Debit(id, amount) => DebitBy(id, amount)
    case Append(_, text) => Appended(text)
    case Subtract(id, value) => SubtractBy(id, value)
  }

  /** By how much the event moves the balance. */
  function Signed(e: Booked): int {
    match e
    case Credit(_, amount) => amount
    case Debit(_, amount) => 0 - amount
    case Append(_, _) => 0
    case Subtract(_, value) => 0 - value
  }

  // ---------------------------------------------------------------------------------------------
  // First deliveries, by position

  predicate Credits(op: BeastOp, id: string) {
    op.HandleOp? && op.event.Credit? && op.event.id == id
  }

  /** The k-th call delivers a credit that is known already or was delivered by an earlier call. */
  predicate Repeated(known: set<string>, ops: seq<BeastOp>, k: nat)
    requires k < |ops|
  {
    && ops[k].HandleOp? && ops[k].event.Credit?
    && (ops[k].event.id in known || exists j :: 0 <= j < k && Credits(ops[j], ops[k].event.id))
  }

  predicate Books(known: set<string>, ops: seq<BeastOp>, k: nat)
    requires k < |ops|
  {
    ops[k].HandleOp? && HasDeed(ops[k].event) && !Repeated(known, ops, k)
  }

  /** The events the stream has the ledger book, in order. */
  function Deliveries(known: set<string>, ops: seq<BeastOp>): seq<Booked> {
    if ops == [] then []
    else
      var n := |ops| - 1;
      if Books(known, ops, n) then Deliveries(known, ops[..n]) + [ops[n].event] else Deliveries(known, ops[..n])
  }

  function Repeats(known: set<string>, ops: seq<BeastOp>): nat {
    if ops == [] then 0
    else
      var n := |ops| - 1;
      if Repeated(known, ops, n) then Repeats(known, ops[..n]) + 1 else Repeats(known, ops[..n])
  }

  /** What the host gets from the k-th call. */
  function OutOf(known: set<string>, ops: seq<BeastOp>, k: nat): Outcome<seq<BeastAction>>
    requires k < |ops|
  {
    if Books(known, ops, k) then Ok([RecordOperation(DeedOf(ops[k].event))])
    else if ops[k].HandleOp? && !HasDeed(ops[k].event) then Err(UnhandledEvent("Counting", EventName(ops[k].event)))
    else Ok([])
  }

  // ---------------------------------------------------------------------------------------------
  // The ledger of a sequence of booked events

  function Actions(booked: seq<Booked>): seq<BeastAction> {
    if booked == [] then []
    else Actions(booked[..|booked| - 1]) + [RecordOperation(DeedOf(booked[|booked| - 1]))]
  }

  /** Per event, the entry its handler writes and the entry its executed action writes. */
  function Log(booked: seq<Booked>): seq<LogEntry> {
    if booked == [] then []
    else
      var e := booked[|booked| - 1];
      Log(booked[..|booked| - 1]) + [ByHandler(e.id, DeedOf(e)), ByAction(DeedOf(e))]
  }

  function Operations(booked: seq<Booked>): seq<Operation> {
    if booked == [] then [] else Operations(booked[..|booked| - 1]) + [OperationOf(booked[|booked| - 1])]
  }

  function Balance(balance: Int64, booked: seq<Booked>): Int64 {
    if booked == [] then balance
    else Clamp(Balance(balance, booked[..|booked| - 1]) + Signed(booked[|booked| - 1]))
  }

  /** The ledger that started at w and has booked exactly these events. */
  ghost predicate Holds(w: BeastWorld, v: BeastWorld, booked: seq<Booked>)
    requires w.cfg.state.Counting?
  {
    && v.cfg.state.Counting? && v.cfg.deadline == None
    && v.cfg.state.balance == Balance(w.cfg.state.balance, booked)
    && v.cfg.state.operations == w.cfg.state.operations + Operations(booked)
    && v.ctx.log == w.ctx.log + Log(booked)
    && Emitted(v.outs) == Emitted(w.outs) + Actions(booked)
  }

  predicate Unmarked(ops: seq<BeastOp>) {
    forall i :: 0 <= i < |ops| && ops[i].HandleOp? ==> !ops[i].event.MarkOfBeast?
  }

  ghost predicate Knowing(known: set<string>, ids: set<string>, ops: seq<BeastOp>) {
    forall id :: id in ids <==> id in known || exists j :: 0 <= j < |ops| && Credits(ops[j], id)
  }

  lemma {:induction false} LiveSnoc(w: BeastWorld, ops: seq<BeastOp>, op: BeastOp)
    ensures Live(w, ops + [op]) == Next(Live(w, ops), op)
    decreases |ops|
  {
    if ops == [] {
      assert ops + [op] == [op] && [op][1..] == [];
      assert Live(Next(w, op), []) == Next(w, op);
    } else {
      assert (ops + [op])[1..] == ops[1..] + [op];
      LiveCons(w, ops + [op]);
      LiveCons(w, ops);
      LiveSnoc(Next(w, ops[0]), ops[1..], op);
    }
  }

  /** The effect of one call on a ledger: a delivery is booked, or nothing but a repeat is counted. */
  ghost predicate Effect(v: BeastWorld, u: BeastWorld, op: BeastOp)
    requires v.cfg.state.Counting?
  {
    var s, deliveries := v.cfg.state, op.HandleOp? && HasDeed(op.event);
    if deliveries && !(op.event.Credit? && op.event.id in s.ids) then
      var e := op.event;
      && u.cfg == Config(Counting(Clamp(s.balance + Signed(e)), s.operations + [OperationOf(e)],
                                  if e.Credit? then s.ids + {e.id} else s.ids), None)
      && u.ctx == v.ctx.(log := v.ctx.log + [ByHandler(e.id, DeedOf(e)), ByAction(DeedOf(e))])
      && u.outs == v.outs + [Ok([RecordOperation(DeedOf(e))])]
    else
      && u.cfg == v.cfg && u.ctx.log == v.ctx.log
      && u.ctx.duplicates == (if deliveries then (v.ctx.duplicates + 1) % WORD else v.ctx.duplicates)
      && u.outs == v.outs + [if op.HandleOp? && !deliveries then
                               Err(UnhandledEvent("Counting", EventName(op.event))) else Ok([])]
  }

  /** The delivery is in the ledger already, or there is nothing to book. */
  predicate Idle(v: BeastWorld, op: BeastOp)
    requires v.cfg.state.Counting?
  {
    op.HandleOp? && HasDeed(op.event) ==> op.event.Credit? && op.event.id in v.cfg.state.ids
  }

  lemma CallEffect(v: BeastWorld, op: BeastOp)
    requires Plain(v) && v.cfg.state.Counting? && (op.HandleOp? ==> !op.event.MarkOfBeast?)
    ensures Effect(v, Next(v, op), op)
  {
    if Idle(v, op) {
      FireIsHandler(v.cfg.state, v.ctx, op);
      if op.HandleOp? {
        DispatchesByName(v.cfg.state, op.event);
      }
    } else {
      BookedEffect(v, op);
    }
  }

  lemma BookedEffect(v: BeastWorld, op: BeastOp)
    requires Plain(v) && v.cfg.state.Counting? && !Idle(v, op)
    ensures Effect(v, Next(v, op), op)
  {
    var e := op.event;
    var log, deed := v.ctx.log, DeedOf(e);
    FireIsHandler(v.cfg.state, v.ctx, op);
    DispatchesByName(v.cfg.state, e);
    RecordingExecuted(deed, v.ctx.(log := log + [ByHandler(e.id, deed)]));
    assert log + [ByHandler(e.id, deed)] + [ByAction(deed)] == log + [ByHandler(e.id, deed), ByAction(deed)];
  }

  lemma RecordingExecuted(deed: Deed, c: BeastContext)
    ensures ExecuteActions(Execute, [RecordOperation(deed)], c).0 == c.(log := c.log + [ByAction(deed)])
  {
    assert [RecordOperation(deed)][1..] == [];
  }

  // ---------------------------------------------------------------------------------------------
  // Streams

  ghost predicate Answered(w: BeastWorld, v: BeastWorld, ops: seq<BeastOp>) {
    && w.cfg.state.Counting? && |v.outs| == |w.outs| + |ops| && v.outs[..|w.outs|] == w.outs
    && forall i :: |w.outs| <= i < |v.outs| ==> v.outs[i] == OutOf(w.cfg.state.ids, ops, i - |w.outs|)
  }

  /** The whole ledger that started at w and was given the stream. */
  ghost predicate Ledger(w: BeastWorld, v: BeastWorld, ops: seq<BeastOp>) {
    && w.cfg.state.Counting?
    && var known := w.cfg.state.ids;
       && Holds(w, v, Deliveries(known, ops)) && Knowing(known, v.cfg.state.ids, ops) && Answered(w, v, ops)
       && v.ctx.duplicates == (w.ctx.duplicates + Repeats(known, ops)) % WORD
  }

  lemma Extend(w: BeastWorld, v: BeastWorld, u: BeastWorld, booked: seq<Booked>, op: BeastOp)
    requires w.cfg.state.Counting? && Holds(w, v, booked) && Effect(v, u, op) && !Idle(v, op)
    ensures Holds(w, u, booked + [op.event])
  {
    assert (booked + [op.event])[..|booked|] == booked;
    EmittedSnoc(v.outs, Ok([RecordOperation(DeedOf(op.event))]));
  }

  lemma Stay(w: BeastWorld, v: BeastWorld, u: BeastWorld, booked: seq<Booked>, op: BeastOp)
    requires w.cfg.state.Counting? && Holds(w, v, booked) && Effect(v, u, op) && Idle(v, op)
    ensures Holds(w, u, booked)
  {
    EmittedSnoc(v.outs, u.outs[|v.outs|]);
  }

  lemma KnowingSnoc(known: set<string>, ids: set<string>, ids': set<string>, ops: seq<BeastOp>, op: BeastOp)
    requires Knowing(known, ids, ops)
    requires ids' == if op.HandleOp? && op.event.Credit? then ids + {op.event.id} else ids
    ensures Knowing(known, ids', ops + [op])
  {
    var all := ops + [op];
    forall id ensures id in ids' <==> id in known || exists j :: 0 <= j < |all| && Credits(all[j], id) {
      assert Credits(op, id) ==> Credits(all[|ops|], id);
      if j :| 0 <= j < |ops| && Credits(ops[j], id) {
        assert Credits(all[j], id);
      }
      if j :| 0 <= j < |all| && Credits(all[j], id) {
        assert j < |ops| ==> Credits(ops[j], id);
      }
    }
  }

  lemma SamePrefix(known: set<string>, ops: seq<BeastOp>, n: nat, k: nat)
    requires k < n <= |ops|
    ensures Repeated(known, ops[..n], k) == Repeated(known, ops, k)
    ensures OutOf(known, ops[..n], k) == OutOf(known, ops, k)
  {
    assert forall j :: 0 <= j <= k ==> ops[..n][j] == ops[j];
  }

  lemma AnswersSnoc(w: BeastWorld, v: BeastWorld, u: BeastWorld, ops: seq<BeastOp>, n: nat)
    requires |ops| == n + 1 && Answered(w, v, ops[..n]) && u.outs == v.outs + [OutOf(w.cfg.state.ids, ops, n)]
    ensures Answered(w, u, ops)
  {
    var known := w.cfg.state.ids;
    forall i | |w.outs| <= i < |u.outs| ensures u.outs[i] == OutOf(known, ops, i - |w.outs|) {
      if i < |v.outs| {
        SamePrefix(known, ops, n, i - |w.outs|);
      }
    }
    assert u.outs[..|w.outs|] == v.outs[..|w.outs|];
  }

  lemma WordAdd(a: nat)
    ensures (a % WORD + 1) % WORD == (a + 1) % WORD
  {
    assert a == WORD * (a / WORD) + a % WORD;
  }

  lemma RepeatsAreKnown(known: set<string>, ids: set<string>, ops: seq<BeastOp>, n: nat)
    requires |ops| == n + 1 && Knowing(known, ids, ops[..n]) && ops[n].HandleOp? && ops[n].event.Credit?
    ensures ops[n].event.id in ids <==> Repeated(known, ops, n)
  {
    assert forall j :: 0 <= j < n ==> ops[..n][j] == ops[j];
  }

  /** One more call: what is booked and what is answered. */
  lemma HoldsSnoc(w: BeastWorld, v: BeastWorld, u: BeastWorld, ops: seq<BeastOp>, n: nat)
    requires |ops| == n + 1 && Ledger(w, v, ops[..n]) && Effect(v, u, ops[n])
    requires ops[n].HandleOp? ==> !ops[n].event.MarkOfBeast?
    ensures Holds(w, u, Deliveries(w.cfg.state.ids, ops)) && Answered(w, u, ops)
  {
    var known, op := w.cfg.state.ids, ops[n];
    var booked := Deliveries(known, ops[..n]);
    if op.HandleOp? && op.event.Credit? {
      RepeatsAreKnown(known, v.cfg.state.ids, ops, n);
    }
    assert Books(known, ops, n) <==> !Idle(v, op);
    if Idle(v, op) {
      Stay(w, v, u, booked, op);
    } else {
      Extend(w, v, u, booked, op);
    }
    AnswersSnoc(w, v, u, ops, n);
  }

  /** One more call: how many repeats are counted. */
  lemma RepeatsSnoc(known: set<string>, base: nat, v: BeastWorld, u: BeastWorld, ops: seq<BeastOp>, n: nat)
    requires |ops| == n + 1 && v.cfg.state.Counting? && Knowing(known, v.cfg.state.ids, ops[..n])
    requires v.ctx.duplicates == (base + Repeats(known, ops[..n])) % WORD && Effect(v, u, ops[n])
    ensures u.ctx.duplicates == (base + Repeats(known, ops)) % WORD
  {
    if ops[n].HandleOp? && ops[n].event.Credit? {
      RepeatsAreKnown(known, v.cfg.state.ids, ops, n);
    }
    WordAdd(base + Repeats(known, ops[..n]));
  }

  lemma LedgerSnoc(w: BeastWorld, v: BeastWorld, u: BeastWorld, ops: seq<BeastOp>, n: nat)
    requires |ops| == n + 1 && Ledger(w, v, ops[..n]) && Effect(v, u, ops[n])
    requires ops[n].HandleOp? ==> !ops[n].event.MarkOfBeast?
    ensures Ledger(w, u, ops)
  {
    HoldsSnoc(w, v, u, ops, n);
    assert ops == ops[..n] + [ops[n]];
    KnowingSnoc(w.cfg.state.ids, v.cfg.state.ids, u.cfg.state.ids, ops[..n], ops[n]);
    RepeatsSnoc(w.cfg.state.ids, w.ctx.duplicates, v, u, ops, n);
  }

  lemma LedgerStart(w: BeastWorld)
    requires Plain(w) && w.cfg.state.Counting?
    ensures Ledger(w, w, [])
  {
    assert Knowing(w.cfg.state.ids, w.cfg.state.ids, []);
    assert Repeats(w.cfg.state.ids, []) == 0;
  }

  lemma LiveEffect(w: BeastWorld, ops: seq<BeastOp>, n: nat)
    requires |ops| == n + 1 && Plain(Live(w, ops[..n])) && Live(w, ops[..n]).cfg.state.Counting?
    requires ops[n].HandleOp? ==> !ops[n].event.MarkOfBeast?
    ensures Effect(Live(w, ops[..n]), Live(w, ops), ops[n])
  {
    CallEffect(Live(w, ops[..n]), ops[n]);
    LiveSnoc(w, ops[..n], ops[n]);
    assert ops[..n] + [ops[n]] == ops;
  }

  /**
    * The ledger after any stream without the mark. It has booked the first deliveries, in order, and nothing
    * else: balance, operations, log and emitted actions are theirs, every call returns its own delivery's action
    * or none, every repeated credit is counted, and the known ids are those delivered.
    */
  lemma {:induction false} LedgerExactly(w: BeastWorld, ops: seq<BeastOp>)
    requires Plain(w) && w.cfg.state.Counting? && Unmarked(ops)
    ensures Ledger(w, Live(w, ops), ops)
  {
    if ops == [] {
      LedgerStart(w);
    } else {
      var n := |ops| - 1;
      LedgerExactly(w, ops[..n]);
      LiveEffect(w, ops, n);
      LedgerSnoc(w, Live(w, ops[..n]), Live(w, ops), ops, n);
    }
  }
}
