/** The effects a live host brings about over a whole run. */
module Effects {
  import opened FsmTypes
  import opened Machine
  import opened Runs
  import opened Hooks
  import opened Replay

  /** The actions executed: all up to the first that fails, that one included. */
  function Performed<C, A>(execute: (A, C) -> (C, Outcome<()>), actions: seq<A>, ctx: C): seq<A> {
    if actions == [] then []
    else
      var (ctx', r) := execute(actions[0], ctx);
      [actions[0]] + if r.Ok? then Performed(execute, actions[1..], ctx') else []
  }

  /** What one call of a live host shows: the calls it made, its result, and what was executed of it. */
  datatype Effect<S, E, A> = Effect(notes: seq<Note<S, E, A>>, out: Outcome<seq<A>>, performed: seq<A>, finished: bool)

  function EffectOf<S, E, C, A>(t: Table<S, E, C, A>, execute: (A, C) -> (C, Outcome<()>), w: World<S, E, C, A>,
                                op: Op<E>): Effect<S, E, A>
  {
    var step := Fire(t, w.cfg, w.ctx, op);
    if !step.result.Ok? then Effect(step.notes, step.result, [], true)
    else
      Effect(step.notes, step.result, Performed(execute, step.result.value, step.ctx),
             ExecuteActions(execute, step.result.value, step.ctx).1.Ok?)
  }

  function LiveEffects<S, E, C, A>(t: Table<S, E, C, A>, execute: (A, C) -> (C, Outcome<()>), w: World<S, E, C, A>,
                                   ops: seq<Op<E>>): seq<Effect<S, E, A>>
    decreases |ops|
  {
    if ops == [] then []
    else [EffectOf(t, execute, w, ops[0])] + LiveEffects(t, execute, LiveAdvance(t, execute, w, ops[0]), ops[1..])
  }

  function AllNotes<S, E, A>(effects: seq<Effect<S, E, A>>): seq<Note<S, E, A>> {
    if effects == [] then [] else effects[0].notes + AllNotes(effects[1..])
  }

  function AllOuts<S, E, A>(effects: seq<Effect<S, E, A>>): seq<Outcome<seq<A>>> {
    if effects == [] then [] else [effects[0].out] + AllOuts(effects[1..])
  }

  /** Everything the host executed, in order. */
  function AllPerformed<S, E, A>(effects: seq<Effect<S, E, A>>): seq<A> {
    if effects == [] then [] else effects[0].performed + AllPerformed(effects[1..])
  }

  /** Exit, entry and transition actions of every successful call, in order. */
  function AllEmitted<S, E, A>(effects: seq<Effect<S, E, A>>): seq<A> {
    if effects == [] then []
    else (if effects[0].out.Ok? then Emitted(effects[0].notes) else []) + AllEmitted(effects[1..])
  }

  /** Executing the actions is executing the performed ones; they are all of them unless the last one failed. */
  lemma {:induction false} PerformedIsEnough<C, A>(execute: (A, C) -> (C, Outcome<()>), actions: seq<A>, ctx: C)
    ensures var performed := Performed(execute, actions, ctx);
            && performed <= actions
            && ExecuteActions(execute, performed, ctx) == ExecuteActions(execute, actions, ctx)
            && (ExecuteActions(execute, actions, ctx).1.Ok? ==> performed == actions)
            && (!ExecuteActions(execute, actions, ctx).1.Ok? ==> performed != [])
  {
    if actions != [] {
      var (ctx', r) := execute(actions[0], ctx);
      var rest := if r.Ok? then Performed(execute, actions[1..], ctx') else [];
      assert ([actions[0]] + rest)[1..] == rest;
      if r.Ok? {
        PerformedIsEnough(execute, actions[1..], ctx');
        assert actions == [actions[0]] + actions[1..];
      }
    }
  }

  /** What holds of each call of a live run. */
  predicate ProperEffect<S, E, A(==)>(e: Effect<S, E, A>) {
    if e.out.Ok? then
      && e.performed <= Emitted(e.notes)
      && (if e.finished then e.performed == Emitted(e.notes) else e.performed != [])
    else e.performed == [] && e.finished
  }

  lemma EffectIsProper<S, E, C, A>(t: Table<S, E, C, A>, execute: (A, C) -> (C, Outcome<()>), w: World<S, E, C, A>,
                                   op: Op<E>)
    ensures ProperEffect(EffectOf(t, execute, w, op))
  {
    var step := Fire(t, w.cfg, w.ctx, op);
    ActionsFollowHooks(t, w.cfg, w.ctx, op);
    if step.result.Ok? {
      PerformedIsEnough(execute, step.result.value, step.ctx);
    }
  }

  lemma EffectIsSeen<S, E, C, A>(t: Table<S, E, C, A>, execute: (A, C) -> (C, Outcome<()>), w: World<S, E, C, A>,
                                 op: Op<E>)
    ensures var v, e := LiveAdvance(t, execute, w, op), EffectOf(t, execute, w, op);
            v.trace == w.trace + e.notes && v.outs == w.outs + [e.out]
  {
  }

  /** The run has added the effects' notes and results, and nothing else, to trace and results. */
  predicate Seen<S(==), E(==), C, A(==)>(w: World<S, E, C, A>, live: World<S, E, C, A>, effects: seq<Effect<S, E, A>>) {
    live.trace == w.trace + AllNotes(effects) && live.outs == w.outs + AllOuts(effects)
  }

  lemma SeenCons<S, E, C, A>(w: World<S, E, C, A>, v: World<S, E, C, A>, live: World<S, E, C, A>,
                             first: Effect<S, E, A>, rest: seq<Effect<S, E, A>>)
    requires v.trace == w.trace + first.notes && v.outs == w.outs + [first.out] && Seen(v, live, rest)
    ensures Seen(w, live, [first] + rest)
  {
    assert ([first] + rest)[1..] == rest;
    assert w.trace + (first.notes + AllNotes(rest)) == v.trace + AllNotes(rest);
    assert w.outs + ([first.out] + AllOuts(rest)) == v.outs + AllOuts(rest);
  }

  /**
    * Over a whole live run the trace and the results are those of its calls, and what the host executes is, call
    * by call, the exit, entry and transition actions in that order, cut after the first that fails, and nothing
    * of a call that fails.
    */
  lemma {:induction false} WholeRunEffects<S, E, C, A>(t: Table<S, E, C, A>, execute: (A, C) -> (C, Outcome<()>),
                                                      w: World<S, E, C, A>, ops: seq<Op<E>>)
    ensures var effects, live := LiveEffects(t, execute, w, ops), LiveRun(t, execute, w, ops);
            && |effects| == |ops| && Seen(w, live, effects)
            && forall i :: 0 <= i < |effects| ==> ProperEffect(effects[i])
    decreases |ops|
  {
    if ops != [] {
      var v := LiveAdvance(t, execute, w, ops[0]);
      var first, rest := EffectOf(t, execute, w, ops[0]), LiveEffects(t, execute, v, ops[1..]);
      EffectIsProper(t, execute, w, ops[0]);
      EffectIsSeen(t, execute, w, ops[0]);
      WholeRunEffects(t, execute, v, ops[1..]);
      SeenCons(w, v, LiveRun(t, execute, v, ops[1..]), first, rest);
    }
  }

  /** If no execution fails, that is the concatenation of all emitted actions. */
  lemma {:induction false} NothingCut<S, E, A>(effects: seq<Effect<S, E, A>>)
    requires forall i :: 0 <= i < |effects| ==> ProperEffect(effects[i]) && effects[i].finished
    ensures AllPerformed(effects) == AllEmitted(effects)
  {
    if effects != [] {
      NothingCut(effects[1..]);
    }
  }

  /** In general it is all that was emitted exactly if no call was cut short of its last action. */
  lemma {:induction false} CutShortens<S, E, A>(effects: seq<Effect<S, E, A>>)
    requires forall i :: 0 <= i < |effects| ==> ProperEffect(effects[i])
    ensures |AllPerformed(effects)| <= |AllEmitted(effects)|
    ensures AllPerformed(effects) == AllEmitted(effects)
       <==> forall i :: 0 <= i < |effects| && effects[i].out.Ok? ==> effects[i].performed == Emitted(effects[i].notes)
  {
    if effects != [] {
      var rest := effects[1..];
      CutShortens(rest);
      var first := if effects[0].out.Ok? then Emitted(effects[0].notes) else [];
      assert forall i :: 0 < i < |effects| ==> effects[i] == rest[i - 1];
      if AllPerformed(effects) == AllEmitted(effects) {
        assert |effects[0].performed| == |first|;
        assert AllPerformed(effects)[|first|..] == AllPerformed(rest);
        assert AllEmitted(effects)[|first|..] == AllEmitted(rest);
      }
    }
  }

  /** The context a live run ends in is the one that executing only the performed actions leads to. */
  lemma LiveContext<S, E, C, A>(t: Table<S, E, C, A>, execute: (A, C) -> (C, Outcome<()>), w: World<S, E, C, A>,
                                op: Op<E>)
    ensures var step, performed := Fire(t, w.cfg, w.ctx, op), EffectOf(t, execute, w, op).performed;
            LiveAdvance(t, execute, w, op).ctx == ExecuteActions(execute, performed, step.ctx).0
  {
    var step := Fire(t, w.cfg, w.ctx, op);
    if step.result.Ok? {
      PerformedIsEnough(execute, step.result.value, step.ctx);
    }
  }
}
