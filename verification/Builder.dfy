/** The string-keyed builder that `fsm!` expands to. */
module Builder {
  import opened FsmTypes
  import opened Machine

  type Key = (string, string)

  datatype BuilderState<!S, !E, !C, !A> =
    BuilderState(initial: S, table: Table<S, E, C, A>, duplicates: seq<Key>, strict: bool)

  function Fresh<S, E, C, A>(initial: S, stateName: S -> string, eventName: E -> string): BuilderState<S, E, C, A> {
    BuilderState(initial, Table(stateName, eventName, map[], map[], map[], map[], None), [], true)
  }

  function SetUnhandled<S, E, C, A>(b: BuilderState<S, E, C, A>,
                                    h: UnhandledHandler<S, E, C>): BuilderState<S, E, C, A> {
    b.(table := b.table.(unhandled := Some(h)))
  }

  function SetEntry<S, E, C, A>(b: BuilderState<S, E, C, A>, name: string,
                                h: StateHandler<S, C, A>): BuilderState<S, E, C, A> {
    b.(table := b.table.(entry := b.table.entry[name := h]))
  }

  function SetExit<S, E, C, A>(b: BuilderState<S, E, C, A>, name: string,
                               h: StateHandler<S, C, A>): BuilderState<S, E, C, A> {
    b.(table := b.table.(exit := b.table.exit[name := h]))
  }

  function SetTimeout<S, E, C, A>(b: BuilderState<S, E, C, A>, name: string, d: nat, h: TimeoutHandler<S, C, A>):
    BuilderState<S, E, C, A>
  {
    b.(table := b.table.(timeouts := b.table.timeouts[name := (d, h)]))
  }

  /** Insert a row; only the builder of a state without a timeout looks for an earlier one. */
  function AddRow<S, E, C, A>(b: BuilderState<S, E, C, A>, key: Key, h: TransitionHandler<S, E, C, A>, checked: bool):
    BuilderState<S, E, C, A>
  {
    b.(table := b.table.(transitions := b.table.transitions[key := h]),
       duplicates := if checked && key in b.table.transitions then b.duplicates + [key] else b.duplicates)
  }

  predicate HasRow<S, E, C, A>(b: BuilderState<S, E, C, A>, name: string) {
    exists key :: key in b.table.transitions && key.0 == name
  }

  /** Why a build fails, if it does. */
  function Refusal<S, E, C, A>(b: BuilderState<S, E, C, A>): Option<FsmError> {
    var name := b.table.stateName(b.initial);
    if b.duplicates != [] then Some(DuplicateHandler(b.duplicates[0].0, b.duplicates[0].1))
    else if b.strict && !HasRow(b, name) && name !in b.table.timeouts then Some(BuilderError(name))
    else None
  }

  datatype Built<!S(==), !E, !C, !A> = Built(machine: StateMachine<S, E, C, A>) | Refused(error: FsmError)

  class FsmBuilder<!S(==), !E, !C, !A> {
    const initialState: S
    const stateName: S -> string
    const eventName: E -> string
    var transitions: map<Key, TransitionHandler<S, E, C, A>>
    var entryHandlers: map<string, StateHandler<S, C, A>>
    var exitHandlers: map<string, StateHandler<S, C, A>>
    var timeoutHandlers: map<string, (nat, TimeoutHandler<S, C, A>)>
    var duplicateHandlers: seq<Key>
    var strictValidation: bool
    var unhandledHandler: Option<UnhandledHandler<S, E, C>>

    ghost function View(): BuilderState<S, E, C, A>
      reads this
    {
      BuilderState(initialState,
                   Table(stateName, eventName, transitions, entryHandlers, exitHandlers, timeoutHandlers,
                       unhandledHandler),
                   duplicateHandlers, strictValidation)
    }

    constructor (initial: S, stateName: S -> string, eventName: E -> string)
      ensures View() == Fresh(initial, stateName, eventName)
    {
      this.initialState, this.stateName, this.eventName := initial, stateName, eventName;
      transitions, entryHandlers, exitHandlers, timeoutHandlers := map[], map[], map[], map[];
      duplicateHandlers, strictValidation, unhandledHandler := [], true, None;
    }

    method Strict()
      modifies this
      ensures View() == old(View()).(strict := true)
    {
      strictValidation := true;
    }

    method When(name: string) returns (w: WhenBuilder<S, E, C, A>)
      ensures fresh(w) && w.builder == this && w.state == name
    {
      w := new WhenBuilder(this, name);
    }

    method FromAny() returns (w: WhenBuilder<S, E, C, A>)
      ensures fresh(w) && w.builder == this && w.state == "_"
    {
      w := new WhenBuilder(this, "_");
    }

    method WhenUnhandled(h: UnhandledHandler<S, E, C>)
      modifies this
      ensures View() == SetUnhandled(old(View()), h)
      ensures View() == old(View()).(table := old(View()).table.(unhandled := Some(h)))
    {
      unhandledHandler := Some(h);
    }

    method OnEntry(name: string, h: StateHandler<S, C, A>)
      modifies this
      ensures View() == SetEntry(old(View()), name, h)
      ensures View() == old(View()).(table := old(View()).table.(entry := old(entryHandlers)[name := h]))
    {
      entryHandlers := entryHandlers[name := h];
    }

    method OnExit(name: string, h: StateHandler<S, C, A>)
      modifies this
      ensures View() == SetExit(old(View()), name, h)
      ensures View() == old(View()).(table := old(View()).table.(exit := old(exitHandlers)[name := h]))
    {
      exitHandlers := exitHandlers[name := h];
    }

    /** Refused exactly as `Refusal` says; otherwise a fresh machine started on the collected tables. */
    method TryBuild(now: nat) returns (r: Built<S, E, C, A>)
      ensures r.Refused? <==> Refusal(View()).Some?
      ensures r.Refused? ==> Refusal(View()) == Some(r.error)
      ensures r.Built? ==> fresh(r.machine) && r.machine.TableOf() == View().table
                           && r.machine.Now() == Start(View().table, initialState, now)
                           && r.machine.trace == [Entered(initialState, now)]
    {
      if duplicateHandlers != [] {
        return Refused(DuplicateHandler(duplicateHandlers[0].0, duplicateHandlers[0].1));
      }
      if strictValidation {
        var name := stateName(initialState);
        var hasTransition := exists key :: key in transitions && key.0 == name;
        if !hasTransition && name !in timeoutHandlers {
          return Refused(BuilderError(name));
        }
      }
      var t := Table(stateName, eventName, transitions, entryHandlers, exitHandlers, timeoutHandlers, unhandledHandler);
      var machine := new StateMachine(t, initialState, now);
      r := Built(machine);
    }
  }

  class WhenBuilder<!S(==), !E, !C, !A> {
    const builder: FsmBuilder<S, E, C, A>
    const state: string

    constructor (builder: FsmBuilder<S, E, C, A>, state: string)
      ensures this.builder == builder && this.state == state
    {
      this.builder, this.state := builder, state;
    }

    method On(event: string, h: TransitionHandler<S, E, C, A>)
      modifies builder
      ensures builder.View() == AddRow(old(builder.View()), (state, event), h, true)
      ensures builder.transitions == old(builder.transitions)[(state, event) := h]
      ensures var repeated := (state, event) in old(builder.transitions);
              builder.duplicateHandlers == old(builder.duplicateHandlers) + if repeated then [(state, event)] else []
    {
      var key := (state, event);
      if key in builder.transitions {
        builder.duplicateHandlers := builder.duplicateHandlers + [key];
      }
      builder.transitions := builder.transitions[key := h];
    }

    method Timeout(d: nat, h: TimeoutHandler<S, C, A>) returns (tb: TimeoutBuilder<S, E, C, A>)
      modifies builder
      ensures builder.View() == SetTimeout(old(builder.View()), state, d, h)
      ensures builder.timeoutHandlers == old(builder.timeoutHandlers)[state := (d, h)]
      ensures fresh(tb) && tb.builder == builder && tb.state == state
    {
      builder.timeoutHandlers := builder.timeoutHandlers[state := (d, h)];
      tb := new TimeoutBuilder(builder, state);
    }
  }

  class TimeoutBuilder<!S(==), !E, !C, !A> {
    const builder: FsmBuilder<S, E, C, A>
    const state: string

    constructor (builder: FsmBuilder<S, E, C, A>, state: string)
      ensures this.builder == builder && this.state == state
    {
      this.builder, this.state := builder, state;
    }

    method On(event: string, h: TransitionHandler<S, E, C, A>)
      modifies builder
      ensures builder.View() == AddRow(old(builder.View()), (state, event), h, false)
      ensures builder.transitions == old(builder.transitions)[(state, event) := h]
      ensures builder.duplicateHandlers == old(builder.duplicateHandlers)
    {
      builder.transitions := builder.transitions[(state, event) := h];
    }
  }
}
