/** The trials the ledger machine is put through: redelivery, order, regrouping, saturation and the mark. */
module BeastTrials {
  import opened FsmTypes
  import opened Machine
  import opened Runs
  import opened Replay
  import opened Builder
  import opened Saturating
  import opened Beast

  // ---------------------------------------------------------------------------------------------
  // Redelivery

  /**
    * Two streams with the same first deliveries leave a fresh ledger in the same state, with the same effects,
    * if neither splits from the stream of first deliveries.
    */
  lemma RedeliveriesAgree(c: BeastContext, ops: seq<BeastOp>, ops': seq<BeastOp>)
    requires FirstDeliveries({}, ops) == FirstDeliveries({}, ops')
    requires var w := Boot(BEAST, EMPTY, c, 0); !Splits(w, c.duplicates, ops) && !Splits(w, c.duplicates, ops')
    ensures var w := Boot(BEAST, EMPTY, c, 0); SameWork(Live(w, ops), Live(w, ops'))
  {
    var w := Boot(BEAST, EMPTY, c, 0);
    DispatchesByName(EMPTY, MarkOfBeast);
    DuplicatesDoNotMatter(w, w, {}, ops);
    DuplicatesDoNotMatter(w, w, {}, ops');
  }

  lemma LiveOne(w: BeastWorld, op: BeastOp)
    ensures Live(w, [op]) == Next(w, op)
  {
    var v := Next(w, op);
    assert [op][1..] == [];
    assert Live(v, []) == v;
  }

  /**
    * A split, concretely: with 665 duplicates counted, one more redelivery
    * decides between Corrupted and Counting.
    */
  lemma MarkReadsTheCounter(c: BeastContext, id: string, amount: Int64)
    requires c.duplicates == 665
    ensures var w := World(Config(Counting(0, [], {id}), None), c, [], []);
            var again, mark := HandleOp(Credit(id, amount), 0, 0), HandleOp(MarkOfBeast, 0, 0);
            && FirstDeliveries({id}, [again, mark]) == [mark] && Splits(w, c.duplicates, [again, mark])
            && Live(w, [again, mark]).cfg.state == Corrupted("The number of the beast!")
            && Live(w, [mark]).cfg.state == Counting(0, [], {id})
  {
    var w: BeastWorld := World(Config(Counting(0, [], {id}), None), c, [], []);
    var again, mark := HandleOp(Credit(id, amount), 0, 0), HandleOp(MarkOfBeast, 0, 0);
    assert [again, mark][1..] == [mark] && [mark][1..] == [];
    var w1 := Next(w, again);
    DuplicateIsInvisible(w, {id}, again);
    Bookkeeping(w, {id}, again);
    MarkExactly(w1, mark);
    MarkExactly(w, mark);
    LiveOne(w1, mark);
    LiveOne(w, mark);
    assert Live(w, [again, mark]) == Live(w1, [mark]);
    assert FirstDeliveries({id}, [again, mark]) == FirstDeliveries({id}, [mark]) == [mark] + [];
  }

  /** Once Corrupted, always Corrupted: nothing is handled, changed, recorded or emitted any more. */
  lemma {:induction false} CorruptedForEver(w: BeastWorld, ops: seq<BeastOp>)
    requires Plain(w) && w.cfg.state.Corrupted?
    ensures Live(w, ops).cfg == w.cfg && Live(w, ops).ctx == w.ctx && Emitted(Live(w, ops).outs) == Emitted(w.outs)
    decreases |ops|
  {
    if ops != [] {
      FireIsHandler(w.cfg.state, w.ctx, ops[0]);
      if ops[0].HandleOp? {
        DispatchesByName(w.cfg.state, ops[0].event);
      }
      EmittedSnoc(w.outs, Fire(BEAST, w.cfg, w.ctx, ops[0]).result);
      CorruptedForEver(Next(w, ops[0]), ops[1..]);
    }
  }

  // ---------------------------------------------------------------------------------------------
  // Streams of one kind

  /** The stream lowers the balance by these values, as Subtract or Debit events. */
  predicate Lowering(ops: seq<BeastOp>, values: seq<Int64>) {
    && |ops| == |values|
    && forall i :: 0 <= i < |ops| ==>
         && ops[i].HandleOp?
         && (ops[i].event.Subtract? || ops[i].event.Debit?)
         && values[i] == if ops[i].event.Subtract? then ops[i].event.value else ops[i].event.amount
  }

  lemma {:induction false} LoweringRun(w: BeastWorld, ops: seq<BeastOp>, values: seq<Int64>)
    requires Plain(w) && w.cfg.state.Counting? && Lowering(ops, values)
    ensures var v := Live(w, ops);
            && Plain(v) && v.cfg.state.Counting? && v.ctx.duplicates == w.ctx.duplicates
               && v.cfg.state.ids == w.cfg.state.ids
            && v.cfg.state.balance == SubtractEach(w.cfg.state.balance, values)
            && |v.cfg.state.operations| == |w.cfg.state.operations| + |values|
    decreases |ops|
  {
    if ops != [] {
      FireIsHandler(w.cfg.state, w.ctx, ops[0]);
      DispatchesByName(w.cfg.state, ops[0].event);
      Bookkeeping(w, w.cfg.state.ids, ops[0]);
      LoweringRun(Next(w, ops[0]), ops[1..], values[1..]);
    }
  }

  /**
    * Two ledgers of equal balance, one given the debits one by one and one given a single saturating sum per
    * batch, end with equal balances exactly when every batch fits or the batches alone exhaust the balance.
    */
  lemma RegroupedLedgersAgreeExactly(w: BeastWorld, w': BeastWorld, ops: seq<BeastOp>, ops': seq<BeastOp>,
                                     batches: seq<seq<Int64>>)
    requires Plain(w) && Plain(w') && w.cfg.state.Counting? && w'.cfg.state.Counting?
    requires w.cfg.state.balance == w'.cfg.state.balance && AllNonNegative(batches)
    requires Lowering(ops, Flatten(batches)) && Lowering(ops', Batched(batches))
    ensures var v, v' := Live(w, ops), Live(w', ops');
            && v.cfg.state.Counting? && v'.cfg.state.Counting?
            && (v.cfg.state.balance == v'.cfg.state.balance
                <==> BatchesFit(batches) || w.cfg.state.balance - Sum(Batched(batches)) <= MIN)
  {
    LoweringRun(w, ops, Flatten(batches));
    LoweringRun(w', ops', Batched(batches));
    RegroupingExactly(w.cfg.state.balance, batches);
  }

  /** Debits of the same non-negative values in any order leave the same balance. */
  lemma ReorderedLedgersAgree(w: BeastWorld, ops: seq<BeastOp>, ops': seq<BeastOp>, values: seq<Int64>,
                              permuted: seq<Int64>)
    requires Plain(w) && w.cfg.state.Counting? && NonNegative(values) && multiset(values) == multiset(permuted)
    requires Lowering(ops, values) && Lowering(ops', permuted)
    ensures var v, v' := Live(w, ops).cfg.state, Live(w, ops').cfg.state;
            v.Counting? && v'.Counting? && v.balance == v'.balance
  {
    LoweringRun(w, ops, values);
    LoweringRun(w, ops', permuted);
    OrderIrrelevant(w.cfg.state.balance, values, permuted);
  }

  predicate Appending(ops: seq<BeastOp>, texts: seq<string>) {
    && |ops| == |texts|
    && forall i :: 0 <= i < |ops| ==> ops[i].HandleOp? && ops[i].event.Append? && ops[i].event.text == texts[i]
  }

  function AllAppended(texts: seq<string>): (r: seq<Operation>)
    ensures |r| == |texts| && forall i :: 0 <= i < |r| ==> r[i] == Appended(texts[i])
  {
    if texts == [] then [] else [Appended(texts[0])] + AllAppended(texts[1..])
  }

  lemma {:induction false} AppendingRun(w: BeastWorld, ops: seq<BeastOp>, texts: seq<string>)
    requires Plain(w) && w.cfg.state.Counting? && Appending(ops, texts)
    ensures Live(w, ops).cfg.state == w.cfg.state.(operations := w.cfg.state.operations + AllAppended(texts))
    decreases |ops|
  {
    if ops == [] {
      assert w.cfg.state.operations + AllAppended([]) == w.cfg.state.operations;
    } else {
      var v := AppendStep(w, ops[0]);
      AppendingRun(v, ops[1..], texts[1..]);
      LiveCons(w, ops);
      AllAppendedCons(w.cfg.state.operations, texts);
    }
  }

  lemma AllAppendedCons(before: seq<Operation>, texts: seq<string>)
    requires texts != []
    ensures before + [Appended(texts[0])] + AllAppended(texts[1..]) == before + AllAppended(texts)
  {
  }

  lemma AppendStep(w: BeastWorld, op: BeastOp) returns (v: BeastWorld)
    requires Plain(w) && w.cfg.state.Counting? && op.HandleOp? && op.event.Append?
    ensures v == Next(w, op) && Plain(v)
    ensures v.cfg.state == w.cfg.state.(operations := w.cfg.state.operations + [Appended(op.event.text)])
  {
    v := Next(w, op);
    FireIsHandler(w.cfg.state, w.ctx, op);
    DispatchesByName(w.cfg.state, op.event);
  }

  /** Appends do not commute: two streams agree only if they append the same texts in the same order. */
  lemma AppendsAgreeExactly(w: BeastWorld, ops: seq<BeastOp>, ops': seq<BeastOp>, texts: seq<string>,
                            texts': seq<string>)
    requires Plain(w) && w.cfg.state.Counting? && Appending(ops, texts) && Appending(ops', texts')
    ensures Live(w, ops).cfg.state == Live(w, ops').cfg.state <==> texts == texts'
  {
    AppendingRun(w, ops, texts);
    AppendingRun(w, ops', texts');
    if Live(w, ops).cfg.state == Live(w, ops').cfg.state {
      var n := |w.cfg.state.operations|;
      var all, all' := Live(w, ops).cfg.state.operations, Live(w, ops').cfg.state.operations;
      assert all[n..] == AllAppended(texts) && all'[n..] == AllAppended(texts');
      forall i | 0 <= i < |texts| ensures texts[i] == texts'[i] {
        assert AllAppended(texts)[i] == AllAppended(texts')[i];
      }
    }
  }

  /** A credit and a debit, in the two orders. */
  lemma ExchangedLedgersAgreeExactly(w: BeastWorld, credit: BeastOp, debit: BeastOp)
    requires Plain(w) && w.cfg.state.Counting? && credit.HandleOp? && debit.HandleOp?
    requires credit.event.Credit? && debit.event.Debit? && credit.event.id !in w.cfg.state.ids
    ensures var v, v' := Live(w, [credit, debit]).cfg.state, Live(w, [debit, credit]).cfg.state;
            var b, x, y := w.cfg.state.balance, credit.event.amount, debit.event.amount;
            && v.Counting? && v'.Counting? && v.operations != v'.operations
            && (v.balance == v'.balance <==> Exchangeable(b, x, y))
  {
    var c := CreditStep(w, credit);
    var d := DebitStep(w, debit);
    var cd := DebitStep(c, debit);
    var dc := CreditStep(d, credit);
    assert [credit, debit][1..] == [debit] && [debit, credit][1..] == [credit];
    LiveOne(c, debit);
    LiveOne(d, credit);
    assert Live(w, [credit, debit]) == Live(c, [debit]) && Live(w, [debit, credit]) == Live(d, [credit]);
    var n := |w.cfg.state.operations|;
    assert cd.cfg.state.operations[n].CreditBy? && dc.cfg.state.operations[n].DebitBy?;
    CreditDebitCommute(w.cfg.state.balance, credit.event.amount, debit.event.amount);
  }

  lemma CreditStep(w: BeastWorld, op: BeastOp) returns (v: BeastWorld)
    requires Plain(w) && w.cfg.state.Counting? && op.HandleOp? && op.event.Credit? && op.event.id !in w.cfg.state.ids
    ensures v == Next(w, op) && Plain(v)
    ensures var s, e := w.cfg.state, op.event;
            v.cfg.state == WithCredit(s, e)
  {
    v := Next(w, op);
    FireIsHandler(w.cfg.state, w.ctx, op);
    DispatchesByName(w.cfg.state, op.event);
  }

  lemma DebitStep(w: BeastWorld, op: BeastOp) returns (v: BeastWorld)
    requires Plain(w) && w.cfg.state.Counting? && op.HandleOp? && op.event.Debit?
    ensures v == Next(w, op) && Plain(v)
    ensures var s, e := w.cfg.state, op.event;
            v.cfg.state == Counting(SaturatingSub(s.balance, e.amount), s.operations + [DebitBy(e.id, e.amount)], s.ids)
  {
    v := Next(w, op);
    FireIsHandler(w.cfg.state, w.ctx, op);
    DispatchesByName(w.cfg.state, op.event);
  }

  /** Looking for the mark after a stream of debits. */
  lemma MarkAfterDebits(w: BeastWorld, ops: seq<BeastOp>, values: seq<Int64>, mark: BeastOp)
    requires Plain(w) && w.cfg.state.Counting? && Lowering(ops, values) && mark.HandleOp? && mark.event.MarkOfBeast?
    ensures var s := w.cfg.state;
            var left := SubtractEach(s.balance, values);
            var found := left == 666 || w.ctx.duplicates == 666 || |s.operations| + |values| == 666;
            Next(Live(w, ops), mark).cfg.state.Corrupted? <==> found
  {
    LoweringRun(w, ops, values);
    MarkExactly(Live(w, ops), mark);
  }

  // ---------------------------------------------------------------------------------------------
  // Driving the machine

  lemma LedgerIsAccepted()
    ensures Refusal(BUILDER) == None && BUILDER.initial == EMPTY && Start(BEAST, EMPTY, 0) == Config(EMPTY, None)
  {
    assert "Credit" != "Debit" && "Credit" != "Append" && "Debit" != "Append" && "Credit" != "Subtract"
           && "Debit" != "Subtract";
    assert "Append" != "Subtract" && "MarkOfBeast" != "Credit" && "MarkOfBeast" != "Debit"
           && "MarkOfBeast" != "Append" && "MarkOfBeast" != "Subtract";
    assert BUILDER.duplicates == [];
    assert ("Counting", "MarkOfBeast") in BUILDER.table.transitions;
  }

  /** The builder calls that make the ledger machine. */
  method BuildBeast()
    returns (machine: StateMachine<BeastState, BeastEvent, BeastContext, BeastAction>)
    ensures fresh(machine) && machine.TableOf() == BEAST && machine.Now() == Config(EMPTY, None)
  {
    var b := new FsmBuilder(EMPTY, StateName, EventName);
    var w := b.When("Counting");
    w.On("Credit", OnCredit);
    w.On("Debit", OnDebit);
    w.On("Append", OnAppend);
    w.On("Subtract", OnSubtract);
    w.On("MarkOfBeast", OnMark);
    assert b.View() == BUILDER;
    LedgerIsAccepted();
    var built := b.TryBuild(0);
    machine := built.machine;
  }

  lemma OneMore(base: nat, n: nat)
    ensures ((base + n) % WORD + 1) % WORD == (base + (n + 1)) % WORD
  {
  }

  lemma ManyMore(base: nat, i: nat, n: nat)
    ensures ((base + i * n) % WORD + n) % WORD == (base + (i + 1) * n) % WORD
  {
    assert base + (i + 1) * n == (base + i * n) + n;
    ModAdd(base + i * n, n);
  }

  lemma ModAdd(a: nat, n: nat)
    ensures (a % WORD + n) % WORD == (a + n) % WORD
  {
    assert a == WORD * (a / WORD) + a % WORD;
  }

  ghost predicate Ready(t: Table<BeastState, BeastEvent, BeastContext, BeastAction>, cfg: Config<BeastState>) {
    t == BEAST && cfg.deadline == None && cfg.state.Counting?
  }

  /** The ledger after its first delivery of a credit. */
  function WithCredit(s: BeastState, e: BeastEvent): BeastState
    requires s.Counting? && e.Credit?
  {
    Counting(SaturatingAdd(s.balance, e.amount), s.operations + [CreditBy(e.id, e.amount)], s.ids + {e.id})
  }

  /** A credit delivered several times over counts once; the other deliveries are counted as duplicates. */
  method RedeliverOne(machine: StateMachine<BeastState, BeastEvent, BeastContext, BeastAction>, event: BeastEvent,
                      times: nat, c: BeastContext)
    returns (c': BeastContext)
    requires Ready(machine.TableOf(), machine.Now()) && event.Credit? && event.id !in machine.currentState.ids
             && times >= 1
    modifies machine
    ensures Ready(machine.TableOf(), machine.Now()) && c'.duplicates == (c.duplicates + (times - 1)) % WORD
    ensures machine.currentState == WithCredit(old(machine.currentState), event)
  {
    c' := Redeliver(machine, event, c);
    for k := 1 to times
      invariant Ready(machine.TableOf(), machine.Now()) && c'.duplicates == (c.duplicates + (k - 1)) % WORD
      invariant machine.currentState == WithCredit(old(machine.currentState), event)
    {
      c' := Redeliver(machine, event, c');
      OneMore(c.duplicates, k - 1);
    }
  }

  /** The ledger and the duplicate counter after the first i credits. */
  ghost predicate Progress(s: BeastState, counted: nat, base: nat, ids: seq<string>, amounts: seq<Int64>, times: nat,
                           i: nat)
    requires i <= |amounts| == |ids| && times >= 1
  {
    && s.Counting? && AddEach(s.balance, amounts[i..]) == AddEach(0, amounts) && |s.operations| == i
    && (forall id :: id in s.ids <==> id in ids[..i])
    && counted == (base + i * (times - 1)) % WORD
  }

  lemma NextCredit(s: BeastState, counted: nat, base: nat, ids: seq<string>, amounts: seq<Int64>, times: nat, i: nat)
    requires i < |ids| == |amounts| && times >= 1 && Progress(s, counted, base, ids, amounts, times, i)
    requires forall i, j :: 0 <= i < j < |ids| ==> ids[i] != ids[j]
    ensures ids[i] !in s.ids
    ensures Progress(WithCredit(s, Credit(ids[i], amounts[i])), (counted + (times - 1)) % WORD, base, ids, amounts,
              times, i + 1)
  {
    assert ids[..i + 1] == ids[..i] + [ids[i]];
    assert amounts[i..][1..] == amounts[i + 1..];
    ManyMore(base, i, times - 1);
  }

  lemma AllCredited(s: BeastState, counted: nat, base: nat, ids: seq<string>, amounts: seq<Int64>, times: nat)
    requires |ids| == |amounts| && times >= 1
    ensures Progress(s, counted, base, ids, amounts, times, |ids|) ==>
              s.Counting? && s.balance == AddEach(0, amounts) && |s.operations| == |amounts|
              && counted == (base + |amounts| * (times - 1)) % WORD
  {
    assert amounts[|ids|..] == [];
  }

  lemma NothingCredited(counted: Word, ids: seq<string>, amounts: seq<Int64>, times: nat)
    requires |ids| == |amounts| && times >= 1
    ensures Progress(EMPTY, counted, counted, ids, amounts, times, 0)
  {
    assert amounts[0..] == amounts;
  }

  /** Every credit delivered several times over. */
  method RedeliverCredits(ids: seq<string>, amounts: seq<Int64>, times: nat, c: BeastContext)
    returns (machine: StateMachine<BeastState, BeastEvent, BeastContext, BeastAction>, c': BeastContext)
    requires |ids| == |amounts| && times >= 1 && forall i, j :: 0 <= i < j < |ids| ==> ids[i] != ids[j]
    ensures fresh(machine) && machine.currentState.Counting?
    ensures machine.currentState.balance == AddEach(0, amounts) && |machine.currentState.operations| == |amounts|
    ensures c'.duplicates == (c.duplicates + |amounts| * (times - 1)) % WORD
  {
    machine := BuildBeast();
    c' := c;
    NothingCredited(c.duplicates, ids, amounts, times);
    for i := 0 to |ids|
      invariant fresh(machine) && Ready(machine.TableOf(), machine.Now())
      invariant Progress(machine.currentState, c'.duplicates, c.duplicates, ids, amounts, times, i)
    {
      NextCredit(machine.currentState, c'.duplicates, c.duplicates, ids, amounts, times, i);
      c' := RedeliverOne(machine, Credit(ids[i], amounts[i]), times, c');
    }
    AllCredited(machine.currentState, c'.duplicates, c.duplicates, ids, amounts, times);
  }

  /** One delivery of a credit, its actions executed. */
  method Redeliver(machine: StateMachine<BeastState, BeastEvent, BeastContext, BeastAction>, event: BeastEvent,
                   c: BeastContext)
    returns (c': BeastContext)
    requires Ready(machine.TableOf(), machine.Now()) && event.Credit?
    modifies machine
    ensures Ready(machine.TableOf(), machine.Now())
    ensures var s := old(machine.Now().state);
            if event.id in s.ids then machine.currentState == s && c'.duplicates == (c.duplicates + 1) % WORD
            else machine.currentState == WithCredit(s, event) && c'.duplicates == c.duplicates
  {
    FireIsHandler(machine.currentState, c, HandleOp(event, 0, 0));
    DispatchesByName(machine.currentState, event);
    var out;
    c', out := machine.HandleEvent(event, c, 0, 0);
    if out.Ok? {
      ghost var handled := c';
      var done;
      c', done := machine.Execute(Execute, out.value, c');
      ExecutionAppends(out.value, handled, handled);
    }
  }
}
