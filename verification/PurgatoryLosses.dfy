/** No accepted message is silently lost. */
module PurgatoryLosses {
  import opened FsmTypes
  import opened Machine
  import opened Runs
  import opened Builder
  import opened Purgatory
  import opened PurgatoryActions

  // ---------------------------------------------------------------------------------------------
  // No loss

  predicate AllHold(channels: seq<Channel>, messages: seq<string>) {
    forall k :: 0 <= k < |channels| ==> channels[k].delivered == messages
  }

  /** Every accepted message is buffered, or has reached every channel once and in order, or the poison has gone out. */
  predicate Accounted(w: PurgatoryWorld) {
    match w.cfg.state
    case Materializing(buffer, _) => buffer == w.ctx.accepted
    case Processing(_, _) => AllHold(w.ctx.downstream, w.ctx.accepted)
    case Dead => AllHold(w.ctx.downstream, w.ctx.accepted)
    case DrinkingKoolAid(_) => Poisonings(w.outs) == 1
  }

  /** Channels before c hold m + 1 messages, the others m. */
  predicate Prefixes(channels: seq<Channel>, buffer: seq<string>, m: nat, c: nat)
    requires m <= |buffer| && (c > 0 ==> m < |buffer|)
  {
    forall k :: 0 <= k < |channels| ==> channels[k].delivered == buffer[..if k < c then m + 1 else m]
  }

  /** A fan-out of the buffer got somewhere. */
  ghost predicate PartlyDelivered(channels: seq<Channel>, buffer: seq<string>) {
    exists m: nat, c: nat | m <= |buffer| && (c > 0 ==> m < |buffer|) :: Prefixes(channels, buffer, m, c)
  }

  /** The accepted messages are some that were overwritten, then those of the last completed start. */
  ghost predicate Ledger(w: PurgatoryWorld, lost: seq<string>, last: seq<string>) {
    && w.ctx.accepted == lost + last && w.ctx.drops == []
    && match w.cfg.state
       case Materializing(buffer, inFlight) => buffer == last && inFlight == |last| && AllHold(w.ctx.downstream, [])
       case Processing(processed, pending) => processed == |last| && pending == [] && AllHold(w.ctx.downstream, last)
       case Dead => AllHold(w.ctx.downstream, last)
       case DrinkingKoolAid(_) => PartlyDelivered(w.ctx.downstream, last)
  }

  lemma BatchKeepsLedger(w: PurgatoryWorld, lost: seq<string>, last: seq<string>, op: PurgatoryOp)
    requires Ledger(w, lost, last) && w.cfg.state.Materializing? && op.HandleOp? && op.event.ProcessBatch?
    ensures Ledger(Advance(PURGATORY, w, op), lost, last)
    ensures |Advance(PURGATORY, w, op).ctx.downstream| == |w.ctx.downstream|
  {
    FireIsHandler(w.cfg, w.ctx, op);
    FanOutExactly(w.ctx.downstream, last, None);
    var sent := FanOut(w.ctx.downstream, last, None);
    match sent.ending
    case Broken(m, c) =>
      forall k | 0 <= k < |sent.channels| ensures sent.channels[k].delivered == last[..if k < c then m + 1 else m] {
        assert [] + last[..if k < c then m + 1 else m] == last[..if k < c then m + 1 else m];
      }
      assert Prefixes(sent.channels, last, m, c);
    case Finished =>
      assert [] + last == last;
  }

  lemma TimeoutKeepsLedger(w: PurgatoryWorld, lost: seq<string>, last: seq<string>, op: PurgatoryOp)
    requires Ledger(w, lost, last) && op.CheckOp?
    ensures Ledger(Advance(PURGATORY, w, op), lost, last)
    ensures |Advance(PURGATORY, w, op).ctx.downstream| == |w.ctx.downstream|
  {
    FireIsHandler(w.cfg, w.ctx, op);
    if w.cfg.state.Materializing? {
      assert last[..0] == [];
      assert Prefixes(w.ctx.downstream, last, 0, 0);
    }
  }

  /** Every undropped run splits what it has accepted into overwritten messages and the last start's, accounted for. */
  lemma {:induction false} RunKeepsLedger(w: PurgatoryWorld, lost: seq<string>, last: seq<string>,
                                          ops: seq<PurgatoryOp>)
    returns (lost': seq<string>, last': seq<string>)
    requires Ledger(w, lost, last)
    ensures Ledger(Run(PURGATORY, w, ops), lost', last')
            && |Run(PURGATORY, w, ops).ctx.downstream| == |w.ctx.downstream|
    ensures lost' == [] <==> lost == [] && !Overwrites(w, ops)
    decreases |ops|
  {
    if ops == [] {
      return lost, last;
    }
    var op := ops[0];
    var v := Advance(PURGATORY, w, op);
    var lost1, last1 := lost, last;
    FireIsHandler(w.cfg, w.ctx, op);
    if IsStart(w, op) {
      lost1, last1 := lost + last, op.event.data;
      assert Ledger(v, lost1, last1);
    } else if w.cfg.state.Materializing? && op.HandleOp? && op.event.ProcessBatch? {
      BatchKeepsLedger(w, lost, last, op);
    } else if op.CheckOp? {
      TimeoutKeepsLedger(w, lost, last, op);
    }
    lost', last' := RunKeepsLedger(v, lost1, last1, ops[1..]);
  }

  /**
    * No loss under timeout or failure, exactly, for a host that drops no future: at the end of every run each
    * accepted message is buffered, has reached every channel in order, or the machine is drinking the kool-aid,
    * if and only if no start overwrote a non-empty buffer. In the last case exactly one call has returned the
    * poison, and each channel holds a prefix of the last buffer, some of the first channels one message more than
    * the rest. Without overwriting, the calls have returned every accepted message for buffering, and, once the
    * batch got through, for processing, in order.
    */
  lemma NoLossExactly(channels: seq<Channel>, now: nat, ops: seq<PurgatoryOp>)
    requires channels != [] && AllHold(channels, [])
    ensures var w0 := Begin(channels, [], now);
            var w := Run(PURGATORY, w0, ops);
            && (Accounted(w) <==> w.cfg.state.DrinkingKoolAid? || !Overwrites(w0, ops))
            && (w.cfg.state.DrinkingKoolAid? && !Overwrites(w0, ops) ==>
                  PartlyDelivered(w.ctx.downstream, w.ctx.accepted))
            && Poisonings(w.outs) == (if w.cfg.state.DrinkingKoolAid? then 1 else 0)
            && (!Overwrites(w0, ops) ==>
                  Returned(w.outs) == BufferAll(w.ctx.accepted) + Outcomes(w.cfg.state, w.ctx.accepted))
  {
    var w0 := Begin(channels, [], now);
    var before, latest := ActionsExactly(channels, [], now, ops);
    var lost, last := RunKeepsLedger(w0, [], [], ops);
    var w := Run(PURGATORY, w0, ops);
    if lost == [] {
      assert w.ctx.accepted == last;
    } else {
      assert |w.ctx.accepted| > |last|;
      assert !w.cfg.state.DrinkingKoolAid? && !w.cfg.state.Materializing? ==> w.ctx.downstream[0].delivered == last;
    }
  }

  // ---------------------------------------------------------------------------------------------
  // No loss when the host drops futures

  /** A concatenation of prefixes of the buffer: what abandoned fan-outs leave behind. */
  ghost predicate Repeats(delivered: seq<string>, buffer: seq<string>)
    decreases |delivered|
  {
    delivered == [] ||
    exists n :: 0 < n <= |delivered| && n <= |buffer|
                && delivered[|delivered| - n..] == buffer[..n] && Repeats(delivered[..|delivered| - n], buffer)
  }

  lemma RepeatsOnceMore(delivered: seq<string>, buffer: seq<string>, n: nat)
    requires Repeats(delivered, buffer) && n <= |buffer|
    ensures Repeats(delivered + buffer[..n], buffer)
  {
    var longer := delivered + buffer[..n];
    if n == 0 {
      assert longer == delivered;
    } else {
      assert longer[|longer| - n..] == buffer[..n] && longer[..|longer| - n] == delivered;
    }
  }

  ghost predicate AllRepeat(channels: seq<Channel>, buffer: seq<string>) {
    forall k :: 0 <= k < |channels| ==> Repeats(channels[k].delivered, buffer)
  }

  /** After some repeated prefixes, the whole buffer in order. */
  ghost predicate EndsWithAll(delivered: seq<string>, buffer: seq<string>) {
    |delivered| >= |buffer|
    && delivered[|delivered| - |buffer|..] == buffer && Repeats(delivered[..|delivered| - |buffer|], buffer)
  }

  ghost predicate AllEndWithAll(channels: seq<Channel>, buffer: seq<string>) {
    forall k :: 0 <= k < |channels| ==> EndsWithAll(channels[k].delivered, buffer)
  }

  /** Every accepted message is buffered, or delivered to each channel, after prefixes of the buffer perhaps. */
  ghost predicate Located(w: PurgatoryWorld) {
    match w.cfg.state
    case Materializing(buffer, inFlight) =>
      buffer == w.ctx.accepted && inFlight == |buffer| && AllRepeat(w.ctx.downstream, buffer)
    case Processing(processed, _) => processed == |w.ctx.accepted| && AllEndWithAll(w.ctx.downstream, w.ctx.accepted)
    case Dead => AllEndWithAll(w.ctx.downstream, w.ctx.accepted)
    case DrinkingKoolAid(_) => AllRepeat(w.ctx.downstream, w.ctx.accepted)
  }

  /**
    * Every accepted message is buffered, with repeated prefixes of the buffer delivered; or each channel has, after
    * such prefixes, received them all in order; or the poison has gone out once, with only such prefixes delivered.
    */
  ghost predicate AccountedWithRepeats(w: PurgatoryWorld) {
    Located(w) && (w.cfg.state.DrinkingKoolAid? ==> Poisonings(w.outs) == 1)
  }

  lemma StoppedRepeats(before: seq<Channel>, sent: Sent, buffer: seq<string>, m: nat, c: nat)
    requires AllRepeat(before, buffer) && StoppedAt(before, sent, buffer, m, c)
    ensures AllRepeat(sent.channels, buffer)
  {
    forall k | 0 <= k < |sent.channels| ensures Repeats(sent.channels[k].delivered, buffer) {
      RepeatsOnceMore(before[k].delivered, buffer, if k < c then m + 1 else m);
    }
  }

  lemma FinishedEndsWithAll(before: seq<Channel>, after: seq<Channel>, buffer: seq<string>)
    requires AllRepeat(before, buffer) && |after| == |before|
    requires forall k :: 0 <= k < |before| ==> after[k] == before[k].(delivered := before[k].delivered + buffer)
    ensures AllEndWithAll(after, buffer)
  {
    forall k | 0 <= k < |after| ensures EndsWithAll(after[k].delivered, buffer) {
      var d := after[k].delivered;
      assert d[|d| - |buffer|..] == buffer && d[..|d| - |buffer|] == before[k].delivered;
    }
  }

  lemma BatchAccounts(w: PurgatoryWorld, op: PurgatoryOp)
    requires Located(w) && w.cfg.state.Materializing? && op.HandleOp? && op.event.ProcessBatch?
    ensures Located(Advance(PURGATORY, w, op))
  {
    var before, buffer, p := w.ctx.downstream, w.cfg.state.buffer, PatienceNow(w.ctx);
    FireIsHandler(w.cfg, w.ctx, op);
    FanOutExactly(before, buffer, p);
    var sent := FanOut(before, buffer, p);
    match sent.ending
    case Finished => FinishedEndsWithAll(before, sent.channels, buffer);
    case Broken(m, c) => StoppedRepeats(before, sent, buffer, m, c);
    case Abandoned(m, c) => StoppedRepeats(before, sent, buffer, m, c);
  }

  /** A start that completes on an empty buffer. */
  lemma StartAccounts(w: PurgatoryWorld, op: PurgatoryOp)
    requires Located(w) && IsStart(w, op) && (Completes(w) ==> w.cfg.state.buffer == [])
    ensures Located(Advance(PURGATORY, w, op))
  {
    FireIsHandler(w.cfg, w.ctx, op);
    if Completes(w) {
      assert [] + op.event.data == op.event.data;
      forall k | 0 <= k < |w.ctx.downstream| ensures w.ctx.downstream[k].delivered == [] {
        assert Repeats(w.ctx.downstream[k].delivered, []);
      }
    }
  }

  lemma TimeoutAccounts(w: PurgatoryWorld, op: PurgatoryOp)
    requires Located(w) && op.CheckOp?
    ensures Located(Advance(PURGATORY, w, op))
  {
    FireIsHandler(w.cfg, w.ctx, op);
    if w.cfg.state.Materializing? && w.cfg.state.buffer == [] {
      forall k | 0 <= k < |w.ctx.downstream| ensures EndsWithAll(w.ctx.downstream[k].delivered, []) {
        var d := w.ctx.downstream[k].delivered;
        assert d[..|d|] == d && Repeats(d, []);
      }
    }
  }

  lemma {:induction false} RunAccounts(w: PurgatoryWorld, ops: seq<PurgatoryOp>)
    requires Located(w) && !Overwrites(w, ops)
    ensures Located(Run(PURGATORY, w, ops))
    decreases |ops|
  {
    if ops != [] {
      var op := ops[0];
      if IsStart(w, op) {
        StartAccounts(w, op);
      } else if w.cfg.state.Materializing? && op.HandleOp? && op.event.ProcessBatch? {
        BatchAccounts(w, op);
      } else if op.CheckOp? {
        TimeoutAccounts(w, op);
      } else {
        FireIsHandler(w.cfg, w.ctx, op);
      }
      RunAccounts(Advance(PURGATORY, w, op), ops[1..]);
    }
  }

  /** Overwritten messages and the last completed start's, whatever the host drops. */
  predicate Divided(w: PurgatoryWorld, lost: seq<string>, last: seq<string>) {
    && w.ctx.accepted == lost + last
    && (w.cfg.state.Materializing? ==> w.cfg.state.buffer == last)
    && (w.cfg.state.Processing? ==> w.cfg.state.processed == |last|)
  }

  lemma {:induction false} RunDivides(w: PurgatoryWorld, lost: seq<string>, last: seq<string>, ops: seq<PurgatoryOp>)
    returns (lost': seq<string>, last': seq<string>)
    requires Divided(w, lost, last)
    ensures Divided(Run(PURGATORY, w, ops), lost', last')
    ensures lost' == [] <==> lost == [] && !Overwrites(w, ops)
    decreases |ops|
  {
    if ops == [] {
      return lost, last;
    }
    var op := ops[0];
    FireIsHandler(w.cfg, w.ctx, op);
    var overwriting := IsStart(w, op) && Completes(w);
    lost', last' := RunDivides(Advance(PURGATORY, w, op), if overwriting then lost + last else lost,
                               if overwriting then op.event.data else last, ops[1..]);
  }

  /**
    * A host may drop any call at any await: as long as no completed start overwrites a non-empty buffer, no
    * accepted message is lost, though the channels may see prefixes of the buffer again; and while the machine is
    * in Materializing or Processing this is exact.
    */
  lemma NoLossWhenDropped(channels: seq<Channel>, drops: seq<Patience>, now: nat, ops: seq<PurgatoryOp>)
    requires AllHold(channels, [])
    ensures var w0 := Begin(channels, drops, now);
            var w := Run(PURGATORY, w0, ops);
            && (!Overwrites(w0, ops) ==> AccountedWithRepeats(w))
            && (w.cfg.state.Materializing? || w.cfg.state.Processing? ==>
                  (AccountedWithRepeats(w) <==> !Overwrites(w0, ops)))
            && Poisonings(w.outs) == (if w.cfg.state.DrinkingKoolAid? then 1 else 0)
            && (!Overwrites(w0, ops) ==>
                  Returned(w.outs) == BufferAll(w.ctx.accepted) + Outcomes(w.cfg.state, w.ctx.accepted))
  {
    var w0 := Begin(channels, drops, now);
    var before, latest := ActionsExactly(channels, drops, now, ops);
    if !Overwrites(w0, ops) {
      RunAccounts(w0, ops);
    }
    var lost, last := RunDivides(w0, [], [], ops);
    assert lost != [] ==> |lost + last| > |last|;
  }

  lemma RunOne(w: PurgatoryWorld, op: PurgatoryOp, ops: seq<PurgatoryOp>)
    ensures Run(PURGATORY, w, [op] + ops) == Run(PURGATORY, Advance(PURGATORY, w, op), ops)
    ensures Overwrites(Advance(PURGATORY, w, op), ops) ==> Overwrites(w, [op] + ops)
  {
    assert ([op] + ops)[1..] == ops;
  }

  /** A batch of two equal messages, dropped after the first send to the only channel. */
  lemma DroppedBatch(w: PurgatoryWorld)
    requires w.cfg.state == Materializing(["a", "a"], 2) && |w.ctx.downstream| == 1 && w.ctx.downstream[0].accepts.None?
    requires |w.ctx.drops| > 0 && w.ctx.drops[0] == Some(3)
    ensures var v := Advance(PURGATORY, w, BATCH);
            && v.cfg.state == w.cfg.state && v.ctx.accepted == w.ctx.accepted && v.ctx.drops == w.ctx.drops[1..]
            && v.ctx.downstream == [Push(w.ctx.downstream[0], "a")]
  {
    FireIsHandler(w.cfg, w.ctx, BATCH);
    var channels, buffer := w.ctx.downstream, ["a", "a"];
    assert Spend(Some(3)) == Some(2) && Spend(Some(2)) == Some(1) && Spend(Some(1)) == Some(0);
    var sent := channels[0 := Push(channels[0], "a")];
    assert SendRow(sent, buffer, 0, 1, Some(0)) == Sent(sent, Some(0), Finished);
    assert SendRow(channels, buffer, 0, 0, Some(1)) == Sent(sent, Some(0), Finished);
    assert SendRows(sent, buffer, 1, Some(0)) == Sent(sent, Some(0), Abandoned(1, 0));
    assert FanOut(channels, buffer, Some(3)) == Sent(sent, Some(0), Abandoned(1, 0));
  }

  const TWO_EQUAL: PurgatoryOp := HandleOp(StartMaterialization(["a", "a"]), 0, 0)
  const BATCH: PurgatoryOp := HandleOp(ProcessBatch, 0, 0)
  const NOTHING: PurgatoryOp := HandleOp(StartMaterialization([]), 0, 0)
  const EXPIRY: PurgatoryOp := CheckOp(10, 10, 10)

  /** Two equal messages have been accepted, and each sent to the only channel in a batch that was then dropped. */
  lemma TwoDroppedBatches(w0: PurgatoryWorld) returns (w: PurgatoryWorld)
    requires w0 == Begin([Channel([], None)], [None, Some(3), Some(3)], 0)
    ensures w == Advance(PURGATORY, Advance(PURGATORY, Advance(PURGATORY, w0, TWO_EQUAL), BATCH), BATCH)
    ensures w.cfg.state == Materializing(["a", "a"], 2) && w.ctx.accepted == ["a", "a"]
    ensures w.ctx.drops == [] && w.ctx.downstream == [Channel(["a", "a"], None)]
  {
    var w1 := Advance(PURGATORY, w0, TWO_EQUAL);
    var w2 := Advance(PURGATORY, w1, BATCH);
    w := Advance(PURGATORY, w2, BATCH);
    FireIsHandler(w0.cfg, w0.ctx, TWO_EQUAL);
    assert w1.ctx.drops == [Some(3), Some(3)] && w1.ctx.accepted == ["a", "a"];
    DroppedBatch(w1);
    var none: seq<string> := [];
    assert none + ["a"] == ["a"] && ["a"] + ["a"] == ["a", "a"];
    assert w2.ctx.drops == [Some(3)] && w2.ctx.downstream == [Channel(["a"], None)];
    DroppedBatch(w2);
    assert w.ctx.drops == [] && w.ctx.downstream == [Channel(["a", "a"], None)];
  }

  /** An empty start overwrites them, and the timeout finds nothing to poison. */
  lemma OverwriteAndExpire(w: PurgatoryWorld)
    requires w.cfg.state == Materializing(["a", "a"], 2) && w.ctx.accepted == ["a", "a"]
    requires w.ctx.drops == [] && w.ctx.downstream == [Channel(["a", "a"], None)]
    ensures IsStart(w, NOTHING) && Completes(w)
    ensures var v := Advance(PURGATORY, Advance(PURGATORY, w, NOTHING), EXPIRY);
            v.cfg.state.Dead? && v.ctx.accepted == ["a", "a"] && v.ctx.downstream == [Channel(["a", "a"], None)]
  {
    var w1 := Advance(PURGATORY, w, NOTHING);
    FireIsHandler(w.cfg, w.ctx, NOTHING);
    assert ["a", "a"] + [] == ["a", "a"];
    assert w1.cfg.state == Materializing([], 0) && w1.ctx.accepted == ["a", "a"];
    FiresWhenArmed(w, NOTHING);
    FireIsHandler(w1.cfg, w1.ctx, EXPIRY);
  }

  lemma RunFive(w: PurgatoryWorld, a: PurgatoryOp, b: PurgatoryOp, c: PurgatoryOp, d: PurgatoryOp, e: PurgatoryOp)
    ensures var w1 := Advance(PURGATORY, w, a);
            var w3 := Advance(PURGATORY, Advance(PURGATORY, w1, b), c);
            && Run(PURGATORY, w, [a, b, c, d, e]) == Advance(PURGATORY, Advance(PURGATORY, w3, d), e)
            && (IsStart(w3, d) && Completes(w3) && w3.cfg.state.buffer != [] ==> Overwrites(w, [a, b, c, d, e]))
  {
    assert [a, b, c, d, e] == [a] + [b, c, d, e] && [b, c, d, e] == [b] + [c, d, e] && [c, d, e] == [c] + [d, e];
    assert [d, e] == [d] + [e] && [e] == [e] + [];
    var w1 := Advance(PURGATORY, w, a);
    var w2 := Advance(PURGATORY, w1, b);
    var w3 := Advance(PURGATORY, w2, c);
    RunOne(w, a, [b, c, d, e]);
    RunOne(w1, b, [c, d, e]);
    RunOne(w2, c, [d, e]);
    RunOne(w3, d, [e]);
    RunOne(Advance(PURGATORY, w3, d), e, []);
  }

  lemma AllAtOnce(messages: seq<string>)
    ensures EndsWithAll(messages, messages)
  {
    assert messages[..0] == [] && messages[0..] == messages;
  }

  /** In Dead it is not exact: two dropped batches have delivered, piece by piece, what an empty start overwrites. */
  lemma OverwrittenYetDelivered() returns (drops: seq<Patience>, ops: seq<PurgatoryOp>)
    ensures var w0 := Begin([Channel([], None)], drops, 0);
            var w := Run(PURGATORY, w0, ops);
            Overwrites(w0, ops) && w.cfg.state.Dead? && AccountedWithRepeats(w)
  {
    drops := [None, Some(3), Some(3)];
    ops := [TWO_EQUAL, BATCH, BATCH, NOTHING, EXPIRY];
    var w0 := Begin([Channel([], None)], drops, 0);
    var w := TwoDroppedBatches(w0);
    OverwriteAndExpire(w);
    RunFive(w0, TWO_EQUAL, BATCH, BATCH, NOTHING, EXPIRY);
    AllAtOnce(["a", "a"]);
  }

  /** A completed start arms the timer of Materializing. */
  lemma FiresWhenArmed(w: PurgatoryWorld, op: PurgatoryOp)
    requires IsStart(w, op) && Completes(w)
    ensures Advance(PURGATORY, w, op).cfg.deadline == Some(op.armAt + 10)
  {
    Wiring(w.cfg.state, op.event);
    Wiring(Materializing(op.event.data, |op.event.data|), op.event);
    assert PURGATORY.timeouts["Materializing"].0 == 10 by { assert "Materializing"[0] != "Processing"[0]; }
  }

  /** A batch that the host lets finish gets through exactly when every channel takes the whole buffer. */
  lemma BatchSucceedsExactly(w: PurgatoryWorld, op: PurgatoryOp)
    requires w.cfg.state.Materializing? && op.HandleOp? && op.event.ProcessBatch? && PatienceNow(w.ctx).None?
    ensures var v, buffer := Advance(PURGATORY, w, op), w.cfg.state.buffer;
            if forall k :: 0 <= k < |w.ctx.downstream| ==> CanTake(w.ctx.downstream[k], |buffer|)
            then v.cfg.state == Processing(|buffer|, [])
            else v.cfg.state == DrinkingKoolAid(ChannelBroken)
  {
    FireIsHandler(w.cfg, w.ctx, op);
    FanOutExactly(w.ctx.downstream, w.cfg.state.buffer, None);
  }
}
