/** Values shared by the builder, the engine and the protocols written on top of them. */
module FsmTypes {

  datatype Option<+T> = None | Some(value: T)

  /** The errors the builder and the engine can report. */
  datatype FsmError =
    | DuplicateHandler(state: string, event: string)
    | HandlerError(message: string)
    | UnhandledEvent(state: string, event: string)
    | BuilderError(state: string)

  /**
    * What awaiting a handler yields: its own result, or nothing at all because the host dropped the
    * future while the handler was suspended. A dropped future runs no later statement of its caller,
    * so the engine treats it exactly like an early return.
    */
  datatype Outcome<+T> = Ok(value: T) | Err(error: FsmError) | Dropped

  /** A failed or dropped await, seen at another result type (the `?` operator). */
  function Propagate<T, U>(o: Outcome<T>): (r: Outcome<U>)
    requires !o.Ok?
  {
    if o.Err? then Err(o.error) else Dropped
  }

  datatype Transition<S, A> = Transition(nextState: S, actions: seq<A>)

  // Handlers take the context by value and return its new value. The context type is arbitrary, so it
  // may hold whatever a handler consults, the host's decision to drop a future included.
  type TransitionHandler<!S, !E, !C, !A> = (S, E, C) -> (C, Outcome<Transition<S, A>>)
  type TimeoutHandler<!S, !C, !A> = (S, C) -> (C, Outcome<Transition<S, A>>)
  type StateHandler<!S, !C, !A> = (S, C) -> (C, Outcome<seq<A>>)
  type UnhandledHandler<!S, !E, !C> = (S, E, C) -> (C, Outcome<()>)
}
