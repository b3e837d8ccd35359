/** From tokens to a running machine: parse, generate, build, drive. */
module Macro {
  import opened FsmTypes
  import opened Machine
  import opened Runs
  import opened Builder
  import opened Dsl
  import opened Parser
  import opened Codegen
  import opened Source
  import opened Compiler
  import opened Duplicates
  import opened Acceptance

  /** A host loop: the calls in order, on one machine, with one context. */
  method Drive<S(==), E, C, A>(machine: StateMachine<S, E, C, A>, ctx: C, ops: seq<Op<E>>)
    returns (ctx': C, outs: seq<Outcome<seq<A>>>)
    modifies machine
    ensures World(machine.Now(), ctx', outs, machine.trace)
         == Run(machine.TableOf(), World(old(machine.Now()), ctx, [], old(machine.trace)), ops)
  {
    ctx', outs := ctx, [];
    ghost var t := machine.TableOf();
    ghost var start := World(machine.Now(), ctx, [], machine.trace);
    for i := 0 to |ops|
      invariant Run(t, start, ops) == Run(t, World(machine.Now(), ctx', outs, machine.trace), ops[i..])
    {
      assert ops[i..][1..] == ops[i + 1..] && ops[i..][0] == ops[i];
      var out;
      match ops[i] {
        case HandleOp(event, enterAt, armAt) => ctx', out := machine.HandleEvent(event, ctx', enterAt, armAt);
        case CheckOp(now, enterAt, armAt) => ctx', out := machine.Check(ctx', now, enterAt, armAt);
      }
      outs := outs + [out];
    }
  }

  datatype Finished<S, E, C, A> =
    | CompileError(parse: ParseError)
    | CheckError
    | BuildPanic(error: FsmError)
    | Finished(cfg: Config<S>, ctx: C, outs: seq<Outcome<seq<A>>>)

  /** The host's calls on the tables the specification compiles to. */
  function TableRun<S, E, C, A>(m: Meaning<S, E, C, A>, spec: FsmSpec, ctx: C, now: nat,
                                ops: seq<Op<E>>): Finished<S, E, C, A> {
    var b := Compiled(m, spec);
    var refusal := Refusal(b);
    if refusal.Some? then BuildPanic(refusal.value)
    else
      var w := Run(b.table, Boot(b.table, b.initial, ctx, now), ops);
      Finished.Finished(w.cfg, w.ctx, w.outs)
  }

  /** The same calls, the compile errors and the refusals, answered by reading the parsed table directly. */
  function TextRun<S, E, C, A>(m: Meaning<S, E, C, A>, scope: Scope<S, E>, tokens: seq<Token>, ctx: C, now: nat,
                               ops: seq<Op<E>>):
    Finished<S, E, C, A>
  {
    var parsed := ParseSpec(tokens);
    if parsed.Failed? then CompileError(parsed.error)
    else if !Resolves(scope, parsed.value) then CheckError
    else
      var refusal := TextRefusal(m, parsed.value);
      if refusal.Some? then BuildPanic(refusal.value)
      else
        var w := SourceRun(m, scope, parsed.value, SourceBoot(m, scope, parsed.value, ctx, now), ops);
        Finished.Finished(w.cfg, w.ctx, w.outs)
  }

  /** Generate, let the compiler check the code, build, and drive the machine with the host's calls. */
  method BuildAndDrive<S(==), E, C, A>(m: Meaning<S, E, C, A>, scope: Scope<S, E>, spec: FsmSpec, ctx: C, now: nat,
                                       ops: seq<Op<E>>)
    returns (r: Finished<S, E, C, A>)
    ensures r == if Resolves(scope, spec) then TableRun(m, spec, ctx, now, ops) else CheckError
  {
    var code := ExpandFsmSpec(spec);
    AcceptedExactly(scope, spec);
    if !Accepts(scope, code) {
      return CheckError;
    }
    var built := RunExpansion(m, code, now);
    CompiledCollects(m, spec);
    if built.Refused? {
      return BuildPanic(built.error);
    }
    var ctx', outs := Drive(built.machine, ctx, ops);
    r := Finished.Finished(Config(built.machine.currentState, built.machine.stateTimeout), ctx', outs);
  }

  /**
    * The whole toolchain. Tokens that do not parse are a compile error, and so is a table with a path that names
    * no variant; a table that does not build panics; otherwise the machine behaves, call for call, as the parsed
    * table read directly.
    */
  method CompileAndDrive<S(==, !new), E(!new), C, A>(m: Meaning<S, E, C, A>, scope: Scope<S, E>, tokens: seq<Token>,
                                                     ctx: C, now: nat, ops: seq<Op<E>>)
    returns (r: Finished<S, E, C, A>)
    ensures r.CompileError? <==> ParseSpec(tokens).Failed?
    ensures r.CheckError? <==> ParseSpec(tokens).Parsed? && !Resolves(scope, ParseSpec(tokens).value)
    ensures r.BuildPanic? <==>
              ParseSpec(tokens).Parsed? && Resolves(scope, ParseSpec(tokens).value)
              && TextRefusal(m, ParseSpec(tokens).value).Some?
    ensures ParseSpec(tokens).Failed? || !Resolves(scope, ParseSpec(tokens).value)
            || (Derived(m, scope) && OwnNames(scope, ParseSpec(tokens).value.states)) ==>
              r == TextRun(m, scope, tokens, ctx, now, ops)
  {
    var parsed := Parse(tokens);
    if parsed.Failed? {
      return CompileError(parsed.error);
    }
    r := BuildAndDrive(m, scope, parsed.value, ctx, now, ops);
    RefusalIsTextual(m, parsed.value);
    if Derived(m, scope) && OwnNames(scope, parsed.value.states) {
      CompiledMeansSource(m, scope, parsed.value, ctx, now, ops);
    }
  }
}
