/** Which handler a call reaches, and that what the called handlers and hooks return is what the host gets. */
module Outcomes {
  import opened FsmTypes
  import opened Machine
  import opened Runs

  // ---------------------------------------------------------------------------------------------
  // Which handler is called, and what it returning an error, or nothing, does

  /** The first handler of a step returned this; an error or a dropped await ends the call there. */
  ghost predicate Started<S, E, C, A>(s: Step<S, E, C, A>, cfg: Config<S>, call: Note<S, E, A>, ctx: C,
                                      ran: Outcome<Transition<S, A>>) {
    && s.notes != [] && s.notes[0] == call
    && (ran.Err? ==> s == Step(cfg, ctx, Err(ran.error), [call]))
    && (ran.Dropped? ==> s == Step(cfg, ctx, Dropped, [call]))
  }

  /** An exact row wins, whatever wildcard row there is. */
  lemma ExactRowRuns<S, E, C, A>(t: Table<S, E, C, A>, cfg: Config<S>, ctx: C, op: Op<E>)
    requires op.HandleOp? && (t.stateName(cfg.state), t.eventName(op.event)) in t.transitions
    ensures var (ctx', ran) := t.transitions[(t.stateName(cfg.state), t.eventName(op.event))](cfg.state, op.event, ctx);
            Started(Fire(t, cfg, ctx, op), cfg, OnCall(cfg.state, op.event, ran), ctx', ran)
  {
  }

  /** Without one the wildcard row is called, in whatever state. */
  lemma WildcardRowRuns<S, E, C, A>(t: Table<S, E, C, A>, cfg: Config<S>, ctx: C, op: Op<E>)
    requires op.HandleOp? && (t.stateName(cfg.state), t.eventName(op.event)) !in t.transitions
    requires ("_", t.eventName(op.event)) in t.transitions
    ensures var (ctx', ran) := t.transitions[("_", t.eventName(op.event))](cfg.state, op.event, ctx);
            Started(Fire(t, cfg, ctx, op), cfg, OnCall(cfg.state, op.event, ran), ctx', ran)
  {
  }

  predicate NoRow<S, E, C, A>(t: Table<S, E, C, A>, cfg: Config<S>, event: E) {
    && (t.stateName(cfg.state), t.eventName(event)) !in t.transitions
    && ("_", t.eventName(event)) !in t.transitions
  }

  /** Without a row the unhandled hook decides, and the state stays. */
  lemma UnhandledHookRuns<S, E, C, A>(t: Table<S, E, C, A>, cfg: Config<S>, ctx: C, op: Op<E>)
    requires op.HandleOp? && NoRow(t, cfg, op.event) && t.unhandled.Some?
    ensures var (ctx', r) := t.unhandled.value(cfg.state, op.event, ctx);
            var s := Fire(t, cfg, ctx, op);
            && s.cfg == cfg && s.ctx == ctx' && s.notes == [UnhandledCall(cfg.state, op.event, r)]
            && (r.Ok? ==> s.result == Ok([])) && (r.Err? ==> s.result == Err(r.error))
            && (r.Dropped? ==> s.result == Dropped)
  {
  }

  /** And without a hook the call is an error that names state and event, and changes nothing. */
  lemma NobodyRuns<S, E, C, A>(t: Table<S, E, C, A>, cfg: Config<S>, ctx: C, op: Op<E>)
    requires op.HandleOp? && NoRow(t, cfg, op.event) && t.unhandled.None?
    ensures Fire(t, cfg, ctx, op)
         == Step(cfg, ctx, Err(UnhandledEvent(t.stateName(cfg.state), t.eventName(op.event))), [])
  {
  }

  /** A check before the deadline, or without one, is nothing at all. */
  lemma CheckTooSoon<S, E, C, A>(t: Table<S, E, C, A>, cfg: Config<S>, ctx: C, op: Op<E>)
    requires op.CheckOp? && (cfg.deadline.None? || op.now < cfg.deadline.value)
    ensures Fire(t, cfg, ctx, op) == Step(cfg, ctx, Ok([]), [])
  {
  }

  lemma TimeoutRuns<S, E, C, A>(t: Table<S, E, C, A>, cfg: Config<S>, ctx: C, op: Op<E>)
    requires op.CheckOp? && cfg.deadline.Some? && op.now >= cfg.deadline.value && t.stateName(cfg.state) in t.timeouts
    ensures var (ctx', ran) := t.timeouts[t.stateName(cfg.state)].1(cfg.state, ctx);
            Started(Fire(t, cfg, ctx, op), cfg, TimeoutCall(cfg.state, op.now, ran), ctx', ran)
  {
  }

  // ---------------------------------------------------------------------------------------------
  // Hooks that fail

  /** The handler whose transition a call goes on with. */
  ghost predicate Transits<S, E, C, A>(t: Table<S, E, C, A>, cfg: Config<S>, ctx: C, op: Op<E>, tr: Transition<S, A>,
                                       ctx': C) {
    var name := t.stateName(cfg.state);
    if op.HandleOp? then
      var exact, wildcard := (name, t.eventName(op.event)), ("_", t.eventName(op.event));
      if exact in t.transitions then t.transitions[exact](cfg.state, op.event, ctx) == (ctx', Ok(tr))
      else wildcard in t.transitions && t.transitions[wildcard](cfg.state, op.event, ctx) == (ctx', Ok(tr))
    else
      cfg.deadline.Some? && op.now >= cfg.deadline.value && name in t.timeouts
      && t.timeouts[name].1(cfg.state, ctx) == (ctx', Ok(tr))
  }

  /** A failing exit hook ends the call with its error, in the old state with the old deadline. */
  lemma ExitFails<S, E, C, A>(t: Table<S, E, C, A>, cfg: Config<S>, ctx: C, op: Op<E>, tr: Transition<S, A>, c: C)
    requires Transits(t, cfg, ctx, op, tr, c) && t.stateName(cfg.state) in t.exit
    ensures var (ctx', r) := t.exit[t.stateName(cfg.state)](cfg.state, c);
            var s := Fire(t, cfg, ctx, op);
            && (r.Err? ==> s.cfg == cfg && s.ctx == ctx' && s.result == Err(r.error))
            && (r.Dropped? ==> s.cfg == cfg && s.ctx == ctx' && s.result == Dropped)
            && (!r.Ok? ==> |s.notes| == 2 && s.notes[1] == ExitCall(cfg.state, r))
  {
  }

  /** The context the entry hook gets, if the exit hook lets the call go on. */
  ghost predicate Leaves<S, E, C, A>(t: Table<S, E, C, A>, cfg: Config<S>, c: C, c': C) {
    if t.stateName(cfg.state) in t.exit then
      var (ctx', r) := t.exit[t.stateName(cfg.state)](cfg.state, c); r.Ok? && c' == ctx'
    else c' == c
  }

  /** A failing entry hook ends the call with its error, in the new state with the old deadline. */
  lemma EntryFails<S, E, C, A>(t: Table<S, E, C, A>, cfg: Config<S>, ctx: C, op: Op<E>, tr: Transition<S, A>, c: C,
                               c': C)
    requires Transits(t, cfg, ctx, op, tr, c) && Leaves(t, cfg, c, c') && t.stateName(tr.nextState) in t.entry
    ensures var (ctx', r) := t.entry[t.stateName(tr.nextState)](tr.nextState, c');
            var s := Fire(t, cfg, ctx, op);
            && (r.Err? ==> s.cfg == Config(tr.nextState, cfg.deadline) && s.ctx == ctx' && s.result == Err(r.error))
            && (r.Dropped? ==> s.cfg == Config(tr.nextState, cfg.deadline) && s.ctx == ctx' && s.result == Dropped)
  {
  }

  // ---------------------------------------------------------------------------------------------
  // Whole runs

  /** What the called handler or hook returned. */
  function Verdict<S, E, A>(n: Note<S, E, A>): Outcome<()> {
    match n
    case OnCall(_, _, ran) => (match ran case Ok(_) => Ok(()) case Err(x) => Err(x) case Dropped => Dropped)
    case TimeoutCall(_, _, ran) => (match ran case Ok(_) => Ok(()) case Err(x) => Err(x) case Dropped => Dropped)
    case UnhandledCall(_, _, ran) => ran
    case ExitCall(_, r) => (match r case Ok(_) => Ok(()) case Err(x) => Err(x) case Dropped => Dropped)
    case EntryCall(_, r) => (match r case Ok(_) => Ok(()) case Err(x) => Err(x) case Dropped => Dropped)
    case Entered(_, _) => Ok(())
  }

  /** The host gets what the last called handler or hook returned; all before it succeeded. */
  predicate Answers<S, E, A>(notes: seq<Note<S, E, A>>, result: Outcome<seq<A>>) {
    && notes != []
    && (forall i :: 0 <= i < |notes| - 1 ==> Verdict(notes[i]).Ok?)
    && match Verdict(notes[|notes| - 1])
       case Ok(_) => result.Ok?
       case Err(x) => result == Err(x)
       case Dropped => result == Dropped
  }

  lemma EnterAnswers<S, E, C, A>(t: Table<S, E, C, A>, cfg: Config<S>, tr: Transition<S, A>, ctx: C,
                                 enterAt: nat, armAt: nat)
    ensures var s := EnterState(t, cfg, tr, ctx, enterAt, armAt); Answers(s.notes, s.result)
  {
  }

  lemma ApplyAnswers<S, E, C, A>(t: Table<S, E, C, A>, cfg: Config<S>, tr: Transition<S, A>, ctx: C,
                                 enterAt: nat, armAt: nat)
    ensures var s := ApplyTransition(t, cfg, tr, ctx, enterAt, armAt); Answers(s.notes, s.result)
  {
    var name := t.stateName(cfg.state);
    if name !in t.exit {
      EnterAnswers(t, cfg, tr, ctx, enterAt, armAt);
    } else {
      EnterAnswers(t, cfg, tr, t.exit[name](cfg.state, ctx).0, enterAt, armAt);
    }
  }

  lemma AfterAnswers<S, E, C, A>(t: Table<S, E, C, A>, cfg: Config<S>, call: Note<S, E, A>,
                                 ran: (C, Outcome<Transition<S, A>>), enterAt: nat, armAt: nat)
    requires (call.OnCall? || call.TimeoutCall?) && call.ran == ran.1
    ensures var s := AfterHandler(t, cfg, call, ran, enterAt, armAt); Answers(s.notes, s.result)
  {
    if ran.1.Ok? {
      ApplyAnswers(t, cfg, ran.1.value, ran.0, enterAt, armAt);
    }
  }

  /** One call: an answer of those called, or, if nobody is, an error for an event and nothing for a check. */
  predicate Answered<S, E, C, A>(t: Table<S, E, C, A>, cfg: Config<S>, op: Op<E>, notes: seq<Note<S, E, A>>,
                                 result: Outcome<seq<A>>) {
    if notes != [] then Answers(notes, result)
    else if op.CheckOp? then result == Ok([])
    else result == Err(UnhandledEvent(t.stateName(cfg.state), t.eventName(op.event)))
  }

  lemma CallAnswers<S, E, C, A>(t: Table<S, E, C, A>, cfg: Config<S>, ctx: C, op: Op<E>)
    ensures Answered(t, cfg, op, Fire(t, cfg, ctx, op).notes, Fire(t, cfg, ctx, op).result)
  {
    if op.HandleOp? {
      var handler := Dispatch(t, cfg.state, op.event);
      if handler.Some? {
        var ran := handler.value(cfg.state, op.event, ctx);
        AfterAnswers(t, cfg, OnCall(cfg.state, op.event, ran.1), ran, op.enterAt, op.armAt);
      }
    } else if Fire(t, cfg, ctx, op).notes != [] {
      var ran := t.timeouts[t.stateName(cfg.state)].1(cfg.state, ctx);
      AfterAnswers(t, cfg, TimeoutCall(cfg.state, op.now, ran.1), ran, op.enterAt, op.armAt);
    }
  }

  /** The configuration each call starts from, and the notes it leaves. */
  function Calls<S, E, C, A>(t: Table<S, E, C, A>, w: World<S, E, C, A>, ops: seq<Op<E>>):
    seq<(Config<S>, seq<Note<S, E, A>>)>
    decreases |ops|
  {
    if ops == [] then [] else [(w.cfg, Fire(t, w.cfg, w.ctx, ops[0]).notes)] + Calls(t, Advance(t, w, ops[0]), ops[1..])
  }

  function Joined<S, E, A>(calls: seq<(Config<S>, seq<Note<S, E, A>>)>): seq<Note<S, E, A>> {
    if calls == [] then [] else calls[0].1 + Joined(calls[1..])
  }

  /** The outs from position n on answer the calls, one each. */
  predicate AllAnswered<S, E, C, A>(t: Table<S, E, C, A>, calls: seq<(Config<S>, seq<Note<S, E, A>>)>, ops: seq<Op<E>>,
                                    outs: seq<Outcome<seq<A>>>, n: nat) {
    && |calls| == |ops| && |outs| == n + |ops|
    && forall i :: 0 <= i < |ops| ==> Answered(t, calls[i].0, ops[i], calls[i].1, outs[n + i])
  }

  lemma AnswersCons<S, E, C, A>(t: Table<S, E, C, A>, first: (Config<S>, seq<Note<S, E, A>>),
                                rest: seq<(Config<S>, seq<Note<S, E, A>>)>, ops: seq<Op<E>>,
                                outs: seq<Outcome<seq<A>>>, n: nat)
    requires ops != [] && AllAnswered(t, rest, ops[1..], outs, n + 1) && Answered(t, first.0, ops[0], first.1, outs[n])
    ensures AllAnswered(t, [first] + rest, ops, outs, n)
  {
    var calls := [first] + rest;
    forall i | 0 <= i < |ops| ensures Answered(t, calls[i].0, ops[i], calls[i].1, outs[n + i]) {
      if i > 0 {
        assert calls[i] == rest[i - 1] && ops[i] == ops[1..][i - 1] && outs[n + i] == outs[(n + 1) + (i - 1)];
      }
    }
  }

  lemma {:induction false} RunJoins<S, E, C, A>(t: Table<S, E, C, A>, w: World<S, E, C, A>, ops: seq<Op<E>>)
    ensures Run(t, w, ops).trace == w.trace + Joined(Calls(t, w, ops)) && w.outs <= Run(t, w, ops).outs
    decreases |ops|
  {
    if ops != [] {
      var u := Advance(t, w, ops[0]);
      RunJoins(t, u, ops[1..]);
      JoinedCons((w.cfg, Fire(t, w.cfg, w.ctx, ops[0]).notes), Calls(t, u, ops[1..]));
    }
  }

  lemma {:induction false} RunIsAnswered<S, E, C, A>(t: Table<S, E, C, A>, w: World<S, E, C, A>, ops: seq<Op<E>>)
    ensures AllAnswered(t, Calls(t, w, ops), ops, Run(t, w, ops).outs, |w.outs|)
    decreases |ops|
  {
    if ops != [] {
      var s, u := Fire(t, w.cfg, w.ctx, ops[0]), Advance(t, w, ops[0]);
      CallAnswers(t, w.cfg, w.ctx, ops[0]);
      RunIsAnswered(t, u, ops[1..]);
      RunJoins(t, u, ops[1..]);
      var outs := Run(t, u, ops[1..]).outs;
      assert u.outs[|w.outs|] == s.result && outs[|w.outs|] == s.result;
      AnswersCons(t, (w.cfg, s.notes), Calls(t, u, ops[1..]), ops, outs, |w.outs|);
    }
  }

  /**
    * Over a whole run the trace splits into the notes of the calls, and each result the host gets is what those
    * called in that call returned: it holds an error exactly where a handler or hook returned that very error, or
    * nobody was called for an event.
    */
  lemma RunAnswers<S, E, C, A>(t: Table<S, E, C, A>, w: World<S, E, C, A>, ops: seq<Op<E>>)
    ensures var calls, v := Calls(t, w, ops), Run(t, w, ops);
            && v.trace == w.trace + Joined(calls) && w.outs <= v.outs
            && AllAnswered(t, calls, ops, v.outs, |w.outs|)
  {
    RunJoins(t, w, ops);
    RunIsAnswered(t, w, ops);
  }

  lemma JoinedCons<S, E, A>(first: (Config<S>, seq<Note<S, E, A>>), rest: seq<(Config<S>, seq<Note<S, E, A>>)>)
    ensures Joined([first] + rest) == first.1 + Joined(rest)
  {
    assert ([first] + rest)[1..] == rest;
  }

  // ---------------------------------------------------------------------------------------------
  // Executing actions

  /**
    * Execution is a fold: there are contexts, from the given one on, each the effect of the next action on the one
    * before; every action but the last executed one succeeds; the result is the last one's, and if it succeeds
    * no action is left.
    */
  lemma {:induction false} ExecutionIsAFold<C, A>(execute: (A, C) -> (C, Outcome<()>), actions: seq<A>, ctx: C)
    returns (contexts: seq<C>)
    ensures contexts != [] && contexts[0] == ctx && |contexts| <= |actions| + 1
    ensures forall i :: 0 <= i < |contexts| - 1 ==> contexts[i + 1] == execute(actions[i], contexts[i]).0
    ensures forall i :: 0 <= i < |contexts| - 2 ==> execute(actions[i], contexts[i]).1.Ok?
    ensures var (ctx', r) := ExecuteActions(execute, actions, ctx);
            var n := |contexts| - 1;
            && ctx' == contexts[n]
            && r == (if n == 0 then Ok(()) else execute(actions[n - 1], contexts[n - 1]).1)
            && (r.Ok? ==> n == |actions|)
  {
    if actions == [] {
      contexts := [ctx];
    } else {
      var (ctx', r) := execute(actions[0], ctx);
      if r.Ok? {
        var rest := ExecutionIsAFold(execute, actions[1..], ctx');
        contexts := [ctx] + rest;
        assert forall i :: 0 < i < |contexts| ==> contexts[i] == rest[i - 1];
        assert forall i :: 0 < i < |actions| ==> actions[i] == actions[1..][i - 1];
        assert r.value == ();
      } else {
        contexts := [ctx, ctx'];
      }
    }
  }
}
