/** Materialising, fanning out and timing out. */
module Purgatory {
  import opened FsmTypes
  import opened Machine
  import opened Runs
  import opened Builder

  datatype Reason = TimedOut(uncommitted: nat) | ChannelBroken

  datatype PurgatoryState =
    | Materializing(buffer: seq<string>, inFlight: nat)
    | Processing(processed: nat, pending: seq<string>)
    | DrinkingKoolAid(reason: Reason)
    | Dead

  datatype PurgatoryEvent = StartMaterialization(data: seq<string>) | ProcessBatch | DrinkKoolAid

  datatype PurgatoryAction = BufferData(data: string) | ProcessData(data: string) | PoisonDownstream | Terminate

  /** A channel, and how many messages in all it takes before its receiver goes away, if ever. */
  datatype Channel = Channel(delivered: seq<string>, accepts: Option<nat>)

  /**
    * `seen` is what starts have recorded, `accepted` what completed ones have brought. `drops` is the host's
    * mind: at which await it drops the future of each call in turn, if at all.
    */
  datatype PurgatoryContext = PurgatoryContext(
    downstream: seq<Channel>,
    seen: seq<string>,
    accepted: seq<string>,
    timeouts: nat,
    drops: seq<Patience>
  )

  /** How many more awaits of a call complete before its future is dropped. */
  type Patience = Option<nat>

  function Spend(p: Patience): Patience {
    if p.Some? && p.value > 0 then Some(p.value - 1) else p
  }

  // ---------------------------------------------------------------------------------------------
  // Fanning out

  predicate Accepting(ch: Channel) {
    ch.accepts.None? || |ch.delivered| < ch.accepts.value
  }

  function Push(ch: Channel, message: string): Channel {
    ch.(delivered := ch.delivered + [message])
  }

  /** How a fan-out ends: all sent, a broken channel, or dropped; with the message and channel it was at. */
  datatype Ending = Finished | Broken(message: nat, channel: nat) | Abandoned(message: nat, channel: nat)

  datatype Sent = Sent(channels: seq<Channel>, patience: Patience, ending: Ending)

  /** Send message m of the buffer to the channels from c on. */
  function SendRow(channels: seq<Channel>, buffer: seq<string>, m: nat, c: nat, p: Patience): Sent
    requires m < |buffer| && c <= |channels|
    decreases |channels| - c
  {
    if c == |channels| then Sent(channels, p, Finished)
    else if p == Some(0) then Sent(channels, p, Abandoned(m, c))
    else if Accepting(channels[c]) then SendRow(channels[c := Push(channels[c], buffer[m])], buffer, m, c + 1, Spend(p))
    else Sent(channels, p, Broken(m, c))
  }

  /** Send the buffer from message m on, row by row, with a delay before each. */
  function SendRows(channels: seq<Channel>, buffer: seq<string>, m: nat, p: Patience): Sent
    requires m <= |buffer|
    decreases |buffer| - m
  {
    if m == |buffer| then Sent(channels, p, Finished)
    else if p == Some(0) then Sent(channels, p, Abandoned(m, 0))
    else
      var row := SendRow(channels, buffer, m, 0, Spend(p));
      if row.ending.Finished? then SendRows(row.channels, buffer, m + 1, row.patience) else row
  }

  /** The whole fan-out, once the list of channels has been locked. */
  function FanOut(channels: seq<Channel>, buffer: seq<string>, p: Patience): Sent {
    if p == Some(0) then Sent(channels, p, Abandoned(0, 0)) else SendRows(channels, buffer, 0, Spend(p))
  }

  function ProcessActions(buffer: seq<string>): (r: seq<PurgatoryAction>)
    ensures |r| == |buffer| && forall i :: 0 <= i < |r| ==> r[i] == ProcessData(buffer[i])
  {
    seq(|buffer|, i requires 0 <= i < |buffer| => ProcessData(buffer[i]))
  }

  /** The handler's nested loops over an array of channels; each await is a point where they may stop for good. */
  method SendAll(downstream: array<Channel>, buffer: seq<string>, patience: Patience)
    returns (ending: Ending, actions: seq<PurgatoryAction>)
    modifies downstream
    ensures var sent := FanOut(old(downstream[..]), buffer, patience);
            downstream[..] == sent.channels && ending == sent.ending
    ensures ending.Finished? ==> actions == ProcessActions(buffer)
    ensures ending.Broken? ==> actions == [PoisonDownstream]
  {
    actions := [];
    if patience == Some(0) {
      return Abandoned(0, 0), [];
    }
    var p := Spend(patience);
    for m := 0 to |buffer|
      invariant SendRows(downstream[..], buffer, m, p) == FanOut(old(downstream[..]), buffer, patience)
      invariant actions == ProcessActions(buffer)[..m]
    {
      if p == Some(0) {
        return Abandoned(m, 0), [];
      }
      p := Spend(p);
      ghost var row := SendRow(downstream[..], buffer, m, 0, p);
      for c := 0 to downstream.Length
        invariant SendRow(downstream[..], buffer, m, c, p) == row
      {
        if p == Some(0) {
          return Abandoned(m, c), [];
        }
        if !Accepting(downstream[c]) {
          return Broken(m, c), [PoisonDownstream];
        }
        downstream[c], p := Push(downstream[c], buffer[m]), Spend(p);
      }
      actions := actions + [ProcessData(buffer[m])];
    }
    ending := Finished;
  }

  /** The channel takes n more messages. */
  predicate CanTake(ch: Channel, n: nat) {
    n == 0 || ch.accepts.None? || |ch.delivered| + n <= ch.accepts.value
  }

  /** Channels before c hold m + 1 messages of the buffer, the others m, each as far as it was willing. */
  predicate Delivered(before: seq<Channel>, after: seq<Channel>, buffer: seq<string>, m: nat, c: nat)
    requires m <= |buffer| && (c > 0 ==> m < |buffer|)
  {
    && |after| == |before|
    && forall k :: 0 <= k < |before| ==>
         var n := if k < c then m + 1 else m;
         after[k] == before[k].(delivered := before[k].delivered + buffer[..n]) && CanTake(before[k], n)
  }

  lemma {:induction false} RowDelivers(before: seq<Channel>, channels: seq<Channel>, buffer: seq<string>, m: nat,
                                       c: nat, p: Patience)
    requires m < |buffer| && c <= |channels| && Delivered(before, channels, buffer, m, c)
    ensures var row := SendRow(channels, buffer, m, c, p);
            match row.ending
            case Finished => Delivered(before, row.channels, buffer, m + 1, 0) && (p.None? ==> row.patience.None?)
            case Broken(n, d) =>
              n == m && d < |before| && Delivered(before, row.channels, buffer, m, d) && !Accepting(row.channels[d])
            case Abandoned(n, d) => n == m && d < |before| && Delivered(before, row.channels, buffer, m, d) && p.Some?
    decreases |channels| - c
  {
    if c < |channels| && p != Some(0) && Accepting(channels[c]) {
      assert buffer[..m + 1] == buffer[..m] + [buffer[m]];
      assert Push(channels[c], buffer[m]).delivered == before[c].delivered + buffer[..m + 1];
      RowDelivers(before, channels[c := Push(channels[c], buffer[m])], buffer, m, c + 1, Spend(p));
    }
  }

  lemma {:induction false} RowsDeliver(before: seq<Channel>, channels: seq<Channel>, buffer: seq<string>, m: nat,
                                       p: Patience)
    requires m <= |buffer| && Delivered(before, channels, buffer, m, 0)
    ensures var sent := SendRows(channels, buffer, m, p);
            match sent.ending
            case Finished => Delivered(before, sent.channels, buffer, |buffer|, 0)
            case Broken(n, c) =>
              n < |buffer| && c < |before| && Delivered(before, sent.channels, buffer, n, c)
                && !Accepting(sent.channels[c])
            case Abandoned(n, c) => n < |buffer| && Delivered(before, sent.channels, buffer, n, c) && p.Some?
    decreases |buffer| - m
  {
    if m < |buffer| && p != Some(0) {
      RowDelivers(before, channels, buffer, m, 0, Spend(p));
      var row := SendRow(channels, buffer, m, 0, Spend(p));
      if row.ending.Finished? {
        RowsDeliver(before, row.channels, buffer, m + 1, row.patience);
      }
    }
  }

  /** Where it stopped, if it did; each channel holds a prefix of the buffer, those before the last one message more. */
  predicate StoppedAt(before: seq<Channel>, sent: Sent, buffer: seq<string>, m: nat, c: nat) {
    m <= |buffer| && (c > 0 ==> m < |buffer|) && Delivered(before, sent.channels, buffer, m, c)
  }

  /**
    * The fan-out delivers the whole buffer to every channel, or stops with each channel holding a prefix of it,
    * those before the one it was at exactly one message more than the rest. It stops at a broken channel only if
    * some channel does not take the whole buffer, and, if the host does not drop it, exactly then.
    */
  lemma FanOutExactly(channels: seq<Channel>, buffer: seq<string>, p: Patience)
    ensures var sent := FanOut(channels, buffer, p);
            var takeAll := forall k :: 0 <= k < |channels| ==> CanTake(channels[k], |buffer|);
            && |sent.channels| == |channels|
            && (p.None? ==> !sent.ending.Abandoned? && (sent.ending.Finished? <==> takeAll))
            && match sent.ending
               case Finished =>
                 takeAll && forall k :: 0 <= k < |channels| ==>
                   sent.channels[k] == channels[k].(delivered := channels[k].delivered + buffer)
               case Broken(m, c) => !takeAll && m < |buffer| && c < |channels|
                 && StoppedAt(channels, sent, buffer, m, c)
               case Abandoned(m, c) => StoppedAt(channels, sent, buffer, m, c)
  {
    forall k | 0 <= k < |channels| ensures channels[k]
        == channels[k].(delivered := channels[k].delivered + buffer[..0]) {
      assert buffer[..0] == [];
    }
    RowsDeliver(channels, channels, buffer, 0, Spend(p));
    assert buffer[..|buffer|] == buffer;
    var sent := FanOut(channels, buffer, p);
    if sent.ending.Broken? {
      assert !CanTake(channels[sent.ending.channel], |buffer|);
    }
  }

  // ---------------------------------------------------------------------------------------------
  // The machine

  type Ran = (PurgatoryContext, Outcome<Transition<PurgatoryState, PurgatoryAction>>)

  function Unreachable(c: PurgatoryContext): Ran {
    (c, Dropped)
  }

  /** When the host drops the current call, and the context with that decision used up. */
  function PatienceNow(c: PurgatoryContext): Patience {
    if c.drops == [] then None else c.drops[0]
  }

  function Decided(c: PurgatoryContext): PurgatoryContext {
    c.(drops := if c.drops == [] then [] else c.drops[1..])
  }

  /** Two awaits: the lock before the messages are recorded, and the delay after. */
  function OnStart(s: PurgatoryState, e: PurgatoryEvent, c: PurgatoryContext): Ran {
    if e.StartMaterialization? then
      var recorded := Decided(c).(seen := c.seen + e.data);
      match PatienceNow(c)
      case Some(0) => (Decided(c), Dropped)
      case Some(1) => (recorded, Dropped)
      case _ =>
        (recorded.(accepted := c.accepted + e.data),
         Ok(Transition(Materializing(e.data, |e.data|),
                       seq(|e.data|, i requires 0 <= i < |e.data| => BufferData(e.data[i])))))
    else Unreachable(c)
  }

  function OnProcessBatch(s: PurgatoryState, e: PurgatoryEvent, c: PurgatoryContext): Ran {
    if s.Materializing? then
      var sent := FanOut(c.downstream, s.buffer, PatienceNow(c));
      (Decided(c).(downstream := sent.channels),
       match sent.ending
       case Abandoned(_, _) => Dropped
       case Broken(_, _) => Ok(Transition(DrinkingKoolAid(ChannelBroken), [PoisonDownstream]))
       case Finished => Ok(Transition(Processing(|s.buffer|, []), ProcessActions(s.buffer))))
    else Unreachable(c)
  }

  function MaterializingTimeout(s: PurgatoryState, c: PurgatoryContext): Ran {
    if s.Materializing? then
      (c.(timeouts := c.timeouts + 1),
       Ok(if s.buffer != [] ||
           s.inFlight > 0 then Transition(DrinkingKoolAid(TimedOut(|s.buffer| + s.inFlight)), [PoisonDownstream])
          else Transition(Dead, [])))
    else Unreachable(c)
  }

  function ProcessingTimeout(s: PurgatoryState, c: PurgatoryContext): Ran {
    (c, Ok(Transition(Dead, [])))
  }

  function StateName(s: PurgatoryState): string {
    match s
    case Materializing(_, _) => "Materializing"
    case Processing(_, _) => "Processing"
    case DrinkingKoolAid(_) => "DrinkingKoolAid"
    case Dead => "Dead"
  }

  function EventName(e: PurgatoryEvent): string {
    match e
    case StartMaterialization(_) => "StartMaterialization"
    case ProcessBatch => "ProcessBatch"
    case DrinkKoolAid => "DrinkKoolAid"
  }

  const EMPTY: PurgatoryState := Materializing([], 0)

  const BUILDER: BuilderState<PurgatoryState, PurgatoryEvent, PurgatoryContext, PurgatoryAction> :=
    SetTimeout(AddRow(AddRow(SetTimeout(Fresh(EMPTY, StateName, EventName),
      "Materializing", 10, MaterializingTimeout),
      ("Materializing", "StartMaterialization"), OnStart, false),
      ("Materializing", "ProcessBatch"), OnProcessBatch, false),
      "Processing", 50, ProcessingTimeout)

  const PURGATORY: Table<PurgatoryState, PurgatoryEvent, PurgatoryContext, PurgatoryAction> := BUILDER.table

  type PurgatoryOp = Op<PurgatoryEvent>
  type PurgatoryWorld = World<PurgatoryState, PurgatoryEvent, PurgatoryContext, PurgatoryAction>

  lemma Wiring(s: PurgatoryState, e: PurgatoryEvent)
    ensures Dispatch(PURGATORY, s, e)
         == if !s.Materializing? || e.DrinkKoolAid? then None
            else Some(if e.ProcessBatch? then OnProcessBatch else OnStart)
    ensures !PURGATORY.unhandled.Some? && PURGATORY.entry == map[] && PURGATORY.exit == map[]
    ensures StateName(s) in PURGATORY.timeouts <==> s.Materializing? || s.Processing?
    ensures StateName(s) in PURGATORY.timeouts ==>
              PURGATORY.timeouts[StateName(s)]
              == if s.Materializing? then (10, MaterializingTimeout) else (50, ProcessingTimeout)
  {
    assert "Materializing"[0] == 'M' && "Processing"[0] == 'P' && "DrinkingKoolAid"[0] == 'D' && "Dead"[0] == 'D'
           && "_"[0] == '_';
    assert "StartMaterialization"[0] == 'S' && "ProcessBatch"[0] == 'P' && "DrinkKoolAid"[0] == 'D';
  }

  /** What a call does to state and context: nothing, or what its handler says; a dropped one keeps the state. */
  lemma FireIsHandler(cfg: Config<PurgatoryState>, c: PurgatoryContext, op: PurgatoryOp)
    ensures var step, s := Fire(PURGATORY, cfg, c, op), cfg.state;
            var due := op.CheckOp? && cfg.deadline.Some? && op.now >= cfg.deadline.value;
            var ran: Ran :=
              if s.Materializing? && op.HandleOp? && op.event.StartMaterialization? then OnStart(s, op.event, c)
              else if s.Materializing? && op.HandleOp? && op.event.ProcessBatch? then OnProcessBatch(s, op.event, c)
              else if due && s.Materializing? then MaterializingTimeout(s, c)
              else if due && s.Processing? then ProcessingTimeout(s, c)
              else (c, Ok(Transition(s, [])));
            && !ran.1.Err? && step.ctx == ran.0
            && step.cfg.state == (if ran.1.Ok? then ran.1.value.nextState else s)
            && step.result == (if ran.1.Dropped? then Dropped
                               else if op.CheckOp? || (s.Materializing? && !op.event.DrinkKoolAid?)
                               then Ok(ran.1.value.actions)
                               else Err(UnhandledEvent(StateName(s), EventName(op.event))))
  {
    Wiring(cfg.state, if op.HandleOp? then op.event else ProcessBatch);
  }

  // ---------------------------------------------------------------------------------------------
  // Runs

  predicate IsStart(w: PurgatoryWorld, op: PurgatoryOp) {
    w.cfg.state.Materializing? && op.HandleOp? && op.event.StartMaterialization?
  }

  /** The host lets this start finish. */
  predicate Completes(w: PurgatoryWorld) {
    PatienceNow(w.ctx) != Some(0) && PatienceNow(w.ctx) != Some(1)
  }

  /** Along the run, a StartMaterialization completes while an earlier one's messages are still buffered. */
  predicate Overwrites(w: PurgatoryWorld, ops: seq<PurgatoryOp>)
    decreases |ops|
  {
    ops != [] &&
    (|| (IsStart(w, ops[0]) && Completes(w) && w.cfg.state.buffer != [])
     || Overwrites(Advance(PURGATORY, w, ops[0]), ops[1..]))
  }

  function Begin(channels: seq<Channel>, drops: seq<Patience>, now: nat): PurgatoryWorld {
    Boot(PURGATORY, EMPTY, PurgatoryContext(channels, [], [], 0, drops), now)
  }
}
