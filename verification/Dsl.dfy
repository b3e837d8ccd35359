/** The parsed form of the `fsm!` language. Types and expressions are opaque source text. */
module Dsl {
  import opened FsmTypes

  type Expr = string
  type Ty = string

  /** A path such as `State::Idle`, as its non-empty list of segments. */
  type Path = p: seq<string> | p != [] witness ["Idle"]

  function LastSegment(p: Path): string {
    p[|p| - 1]
  }

  datatype OnHandler = OnHandler(eventPath: Path, handler: Expr)

  datatype TimeoutSpec = TimeoutSpec(duration: Expr, handler: Expr)

  datatype StateBlock = StateBlock(
    statePath: Path,
    handlers: seq<OnHandler>,
    timeout: Option<TimeoutSpec>,
    entry: Option<Expr>,
    exit: Option<Expr>
  )

  datatype FsmSpec = FsmSpec(
    stateTy: Ty,
    eventTy: Ty,
    contextTy: Ty,
    actionTy: Ty,
    initial: Expr,
    states: seq<StateBlock>,
    unhandled: Option<Expr>
  )
}
