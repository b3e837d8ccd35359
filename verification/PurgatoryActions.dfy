/** What the calls return over whole runs: the buffered messages, then their processing or the poison. */
module PurgatoryActions {
  import opened FsmTypes
  import opened Machine
  import opened Runs
  import opened Purgatory

  /** The actions of all successful calls, in order. */
  function Returned(outs: seq<Outcome<seq<PurgatoryAction>>>): seq<PurgatoryAction> {
    if outs == [] then []
    else Returned(outs[..|outs| - 1]) + if outs[|outs| - 1].Ok? then outs[|outs| - 1].value else []
  }

  lemma ReturnedSnoc(outs: seq<Outcome<seq<PurgatoryAction>>>, out: Outcome<seq<PurgatoryAction>>)
    ensures Returned(outs + [out]) == Returned(outs) + if out.Ok? then out.value else []
  {
    assert (outs + [out])[..|outs|] == outs;
  }

  function BufferAll(messages: seq<string>): seq<PurgatoryAction> {
    seq(|messages|, i requires 0 <= i < |messages| => BufferData(messages[i]))
  }

  function ProcessAll(messages: seq<string>): seq<PurgatoryAction> {
    seq(|messages|, i requires 0 <= i < |messages| => ProcessData(messages[i]))
  }

  /** What a run returns after the buffering, given the messages of the last completed start. */
  function Outcomes(s: PurgatoryState, last: seq<string>): seq<PurgatoryAction> {
    match s
    case Materializing(_, _) => []
    case Processing(_, _) => ProcessAll(last)
    case Dead => ProcessAll(last)
    case DrinkingKoolAid(_) => [PoisonDownstream]
  }

  /** How many timeouts have met the machine in Materializing. */
  function Expiries(trace: seq<Note<PurgatoryState, PurgatoryEvent, PurgatoryAction>>): nat {
    if trace == [] then 0
    else
      var note := trace[|trace| - 1];
      Expiries(trace[..|trace| - 1]) + if note.TimeoutCall? && note.state.Materializing? then 1 else 0
  }

  // ---------------------------------------------------------------------------------------------
  // Single calls

  /** A start that completes buffers its messages and returns them in order; a dropped one changes no state. */
  lemma StartReturns(w: PurgatoryWorld, op: PurgatoryOp)
    requires IsStart(w, op)
    ensures var v, data := Advance(PURGATORY, w, op), op.event.data;
            if Completes(w) then
              && v.cfg == Config(Materializing(data, |data|), Some(op.armAt + 10))
              && v.ctx.accepted == w.ctx.accepted + data && v.ctx.seen == w.ctx.seen + data
              && v.outs == w.outs + [Ok(BufferAll(data))]
            else
              && v.cfg == w.cfg && v.ctx.accepted == w.ctx.accepted && v.outs == w.outs + [Dropped]
              && v.ctx.seen == if PatienceNow(w.ctx) == Some(0) then w.ctx.seen else w.ctx.seen + data
  {
    var data := op.event.data;
    FireIsHandler(w.cfg, w.ctx, op);
    Wiring(w.cfg.state, op.event);
    Wiring(Materializing(data, |data|), op.event);
    if Completes(w) {
      var ran := OnStart(w.cfg.state, op.event, w.ctx);
      assert ran.1.value.actions == BufferAll(data);
    }
  }

  predicate IsBatch(w: PurgatoryWorld, op: PurgatoryOp) {
    w.cfg.state.Materializing? && op.HandleOp? && op.event.ProcessBatch?
  }

  /** A finished batch returns its messages in order, a broken channel the poison, a dropped batch nothing. */
  lemma BatchReturns(w: PurgatoryWorld, op: PurgatoryOp)
    requires IsBatch(w, op)
    ensures var v, buffer := Advance(PURGATORY, w, op), w.cfg.state.buffer;
            var takeAll := forall k :: 0 <= k < |w.ctx.downstream| ==> CanTake(w.ctx.downstream[k], |buffer|);
            && v.ctx.accepted == w.ctx.accepted
            && (|| (&& takeAll && v.cfg == Config(Processing(|buffer|, []), Some(op.armAt + 50))
                    && v.outs == w.outs + [Ok(ProcessAll(buffer))])
                || (&& !takeAll && v.cfg == Config(DrinkingKoolAid(ChannelBroken), None)
                    && v.outs == w.outs + [Ok([PoisonDownstream])])
                || (PatienceNow(w.ctx).Some? && v.cfg == w.cfg && v.outs == w.outs + [Dropped]))
  {
    var buffer := w.cfg.state.buffer;
    FireIsHandler(w.cfg, w.ctx, op);
    FanOutExactly(w.ctx.downstream, buffer, PatienceNow(w.ctx));
    Wiring(w.cfg.state, op.event);
    Wiring(Processing(|buffer|, []), op.event);
    Wiring(DrinkingKoolAid(ChannelBroken), op.event);
    assert ProcessActions(buffer) == ProcessAll(buffer);
  }

  predicate IsExpiry(w: PurgatoryWorld, op: PurgatoryOp) {
    op.CheckOp? && w.cfg.deadline.Some? && op.now >= w.cfg.deadline.value
    && (w.cfg.state.Materializing? || w.cfg.state.Processing?)
  }

  /** A timeout that meets undelivered messages returns the poison; with none left, or after the batch, nothing. */
  lemma ExpiryReturns(w: PurgatoryWorld, op: PurgatoryOp)
    requires IsExpiry(w, op)
    ensures var v, s := Advance(PURGATORY, w, op), w.cfg.state;
            var undelivered := s.Materializing? && (s.buffer != [] || s.inFlight > 0);
            && v.ctx == w.ctx.(timeouts := w.ctx.timeouts + if s.Materializing? then 1 else 0)
            && if undelivered then
                 v.cfg == Config(DrinkingKoolAid(TimedOut(|s.buffer| + s.inFlight)), None)
                 && v.outs == w.outs + [Ok([PoisonDownstream])]
               else v.cfg == Config(Dead, None) && v.outs == w.outs + [Ok([])]
  {
    var s := w.cfg.state;
    FireIsHandler(w.cfg, w.ctx, op);
    Wiring(s, ProcessBatch);
    Wiring(Dead, ProcessBatch);
    if s.Materializing? {
      Wiring(DrinkingKoolAid(TimedOut(|s.buffer| + s.inFlight)), ProcessBatch);
    }
  }

  /** Every other call changes nothing: an event nobody handles is an error, a check before the deadline is not. */
  lemma OtherwiseNothing(w: PurgatoryWorld, op: PurgatoryOp)
    requires !IsStart(w, op) && !IsBatch(w, op) && !IsExpiry(w, op)
    ensures var v := Advance(PURGATORY, w, op);
            && v.cfg == w.cfg && v.ctx == w.ctx
            && v.outs == w.outs + [if op.CheckOp? then Ok([]) else
                                   Err(UnhandledEvent(StateName(w.cfg.state), EventName(op.event)))]
  {
    FireIsHandler(w.cfg, w.ctx, op);
    Wiring(w.cfg.state, if op.HandleOp? then op.event else ProcessBatch);
  }

  // ---------------------------------------------------------------------------------------------
  // Whole runs

  /**
    * What has been returned so far: one BufferData per accepted message, in order; then, once the batch got
    * through, one ProcessData per message of the last buffer, or the poison once the machine is drinking it.
    */
  ghost predicate Story(w: PurgatoryWorld, lost: seq<string>, last: seq<string>) {
    && w.ctx.accepted == lost + last
    && Returned(w.outs) == BufferAll(w.ctx.accepted) + Outcomes(w.cfg.state, last)
    && match w.cfg.state
       case Materializing(buffer, inFlight) => buffer == last && inFlight == |last|
       case Processing(processed, pending) => processed == |last| && pending == []
       case DrinkingKoolAid(reason) => last != [] && (reason.TimedOut? ==> reason.uncommitted == 2 * |last|)
       case Dead => true
  }

  lemma StoryGoesOn(w: PurgatoryWorld, v: PurgatoryWorld, lost: seq<string>, last: seq<string>, data: seq<string>)
    requires Story(w, lost, last) && w.cfg.state.Materializing? && v.cfg.state == Materializing(data, |data|)
    requires v.ctx.accepted == w.ctx.accepted + data && v.outs == w.outs + [Ok(BufferAll(data))]
    ensures Story(v, lost + last, data)
  {
    ReturnedSnoc(w.outs, Ok(BufferAll(data)));
    assert BufferAll(w.ctx.accepted + data) == BufferAll(w.ctx.accepted) + BufferAll(data);
  }

  lemma StartTells(w: PurgatoryWorld, lost: seq<string>, last: seq<string>, op: PurgatoryOp)
    requires Story(w, lost, last) && IsStart(w, op)
    ensures var v := Advance(PURGATORY, w, op);
            if Completes(w) then Story(v, lost + last, op.event.data) else Story(v, lost, last)
  {
    StartReturns(w, op);
    if Completes(w) {
      StoryGoesOn(w, Advance(PURGATORY, w, op), lost, last, op.event.data);
    } else {
      ReturnedSnoc(w.outs, Dropped);
    }
  }

  lemma CallTells(w: PurgatoryWorld, lost: seq<string>, last: seq<string>, op: PurgatoryOp)
    requires Story(w, lost, last) && !IsStart(w, op)
    ensures Story(Advance(PURGATORY, w, op), lost, last)
  {
    var v := Advance(PURGATORY, w, op);
    if IsBatch(w, op) {
      BatchTells(w, lost, last, op);
    } else {
      if IsExpiry(w, op) {
        ExpiryReturns(w, op);
        assert ProcessAll([]) == [];
      } else {
        OtherwiseNothing(w, op);
      }
      ReturnedSnoc(w.outs, v.outs[|w.outs|]);
    }
  }

  lemma BatchTells(w: PurgatoryWorld, lost: seq<string>, last: seq<string>, op: PurgatoryOp)
    requires Story(w, lost, last) && IsBatch(w, op)
    ensures Story(Advance(PURGATORY, w, op), lost, last)
  {
    var v := Advance(PURGATORY, w, op);
    BatchReturns(w, op);
    ReturnedSnoc(w.outs, v.outs[|w.outs|]);
  }

  /** What a run brings over the messages of the last completed start, and those that later starts overwrote. */
  lemma {:induction false} RunTells(w: PurgatoryWorld, lost: seq<string>, last: seq<string>, ops: seq<PurgatoryOp>)
    returns (lost': seq<string>, last': seq<string>)
    requires Story(w, lost, last)
    ensures Story(Run(PURGATORY, w, ops), lost', last')
    ensures lost' == [] <==> lost == [] && !Overwrites(w, ops)
    decreases |ops|
  {
    if ops == [] {
      return lost, last;
    }
    var op := ops[0];
    if IsStart(w, op) {
      StartTells(w, lost, last, op);
      var overwriting := Completes(w);
      lost', last' := RunTells(Advance(PURGATORY, w, op), if overwriting then lost + last else lost,
                               if overwriting then op.event.data else last, ops[1..]);
    } else {
      CallTells(w, lost, last, op);
      lost', last' := RunTells(Advance(PURGATORY, w, op), lost, last, ops[1..]);
    }
  }

  /** How many calls have returned exactly the poison. */
  function Poisonings(outs: seq<Outcome<seq<PurgatoryAction>>>): nat {
    if outs == [] then 0
    else Poisonings(outs[..|outs| - 1]) + if outs[|outs| - 1] == Ok([PoisonDownstream]) then 1 else 0
  }

  lemma PoisoningsSnoc(outs: seq<Outcome<seq<PurgatoryAction>>>, out: Outcome<seq<PurgatoryAction>>)
    ensures Poisonings(outs + [out]) == Poisonings(outs) + if out == Ok([PoisonDownstream]) then 1 else 0
  {
    assert (outs + [out])[..|outs|] == outs;
  }

  type PurgatoryNote = Note<PurgatoryState, PurgatoryEvent, PurgatoryAction>

  lemma {:induction false} ExpiriesAppend(trace: seq<PurgatoryNote>, notes: seq<PurgatoryNote>)
    ensures Expiries(trace + notes) == Expiries(trace) + Expiries(notes)
  {
    if notes == [] {
      assert trace + notes == trace;
    } else {
      assert (trace + notes)[..|trace + notes| - 1] == trace + notes[..|notes| - 1];
      ExpiriesAppend(trace, notes[..|notes| - 1]);
    }
  }

  /** The counters of a run, of whose calls the host drops none if `kept`. */
  ghost predicate Counted(w: PurgatoryWorld, kept: bool) {
    && Poisonings(w.outs) == (if w.cfg.state.DrinkingKoolAid? then 1 else 0)
    && w.ctx.timeouts == Expiries(w.trace)
    && (kept ==> w.ctx.drops == [] && w.ctx.seen == w.ctx.accepted)
  }

  lemma FirstNoteExpires(notes: seq<PurgatoryNote>)
    requires forall i :: 1 <= i < |notes| ==> !notes[i].TimeoutCall?
    ensures Expiries(notes) == if notes != [] && notes[0].TimeoutCall? && notes[0].state.Materializing? then 1 else 0
  {
    if |notes| > 1 {
      FirstNoteExpires(notes[..|notes| - 1]);
    }
  }

  /** A call notes a timeout exactly when it is one, first of all. */
  lemma FirstNote(w: PurgatoryWorld, op: PurgatoryOp)
    ensures var notes := Fire(PURGATORY, w.cfg, w.ctx, op).notes;
            && (notes != [] && notes[0].TimeoutCall? <==> IsExpiry(w, op))
            && (notes != [] && notes[0].TimeoutCall? ==> notes[0].state == w.cfg.state)
  {
    Wiring(w.cfg.state, ProcessBatch);
  }

  lemma TimeoutsCounted(w: PurgatoryWorld, op: PurgatoryOp)
    ensures Advance(PURGATORY, w, op).ctx.timeouts
         == w.ctx.timeouts + if IsExpiry(w, op) && w.cfg.state.Materializing? then 1 else 0
  {
    if IsStart(w, op) || IsBatch(w, op) {
      FireIsHandler(w.cfg, w.ctx, op);
    } else if IsExpiry(w, op) {
      ExpiryReturns(w, op);
    } else {
      OtherwiseNothing(w, op);
    }
  }

  lemma ExpiriesCount(w: PurgatoryWorld, op: PurgatoryOp)
    requires w.ctx.timeouts == Expiries(w.trace)
    ensures var v := Advance(PURGATORY, w, op); v.ctx.timeouts == Expiries(v.trace)
  {
    var notes := Fire(PURGATORY, w.cfg, w.ctx, op).notes;
    StepShape(PURGATORY, w.cfg, w.ctx, op);
    FirstNote(w, op);
    TimeoutsCounted(w, op);
    FirstNoteExpires(notes);
    ExpiriesAppend(w.trace, notes);
  }

  lemma CallCounts(w: PurgatoryWorld, op: PurgatoryOp, kept: bool)
    requires Counted(w, kept)
    ensures Counted(Advance(PURGATORY, w, op), kept)
  {
    var v := Advance(PURGATORY, w, op);
    ExpiriesCount(w, op);
    FireIsHandler(w.cfg, w.ctx, op);
    if IsStart(w, op) {
      StartReturns(w, op);
      assert BufferAll(op.event.data) != [PoisonDownstream] by {
        assert op.event.data != [] ==> BufferAll(op.event.data)[0].BufferData?;
      }
    } else if IsBatch(w, op) {
      BatchReturns(w, op);
      assert ProcessAll(w.cfg.state.buffer) != [PoisonDownstream] by {
        assert w.cfg.state.buffer != [] ==> ProcessAll(w.cfg.state.buffer)[0].ProcessData?;
      }
    } else if IsExpiry(w, op) {
      ExpiryReturns(w, op);
    } else {
      OtherwiseNothing(w, op);
    }
    PoisoningsSnoc(w.outs, v.outs[|w.outs|]);
  }

  lemma {:induction false} RunCounts(w: PurgatoryWorld, ops: seq<PurgatoryOp>, kept: bool)
    requires Counted(w, kept)
    ensures Counted(Run(PURGATORY, w, ops), kept)
    decreases |ops|
  {
    if ops != [] {
      CallCounts(w, ops[0], kept);
      RunCounts(Advance(PURGATORY, w, ops[0]), ops[1..], kept);
    }
  }

  /**
    * Whatever the host calls and drops: the successful calls together return one BufferData per accepted message
    * in order, then one ProcessData per message of the last buffer in order if the batch got through. Exactly one
    * of them returns the poison if the machine is drinking the kool-aid, and none otherwise. The timeout counter
    * counts the timeouts taken in Materializing, and without drops exactly the accepted messages were seen.
    */
  lemma ActionsExactly(channels: seq<Channel>, drops: seq<Patience>, now: nat, ops: seq<PurgatoryOp>)
    returns (lost: seq<string>, last: seq<string>)
    ensures var w0 := Begin(channels, drops, now);
            var w := Run(PURGATORY, w0, ops);
            && Story(w, lost, last) && (lost == [] <==> !Overwrites(w0, ops))
            && Poisonings(w.outs) == (if w.cfg.state.DrinkingKoolAid? then 1 else 0)
            && w.ctx.timeouts == Expiries(w.trace)
            && (drops == [] ==> w.ctx.seen == w.ctx.accepted)
  {
    var w0 := Begin(channels, drops, now);
    lost, last := RunTells(w0, [], [], ops);
    assert Counted(w0, drops == []);
    RunCounts(w0, ops, drops == []);
  }
}
