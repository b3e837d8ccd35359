/** The grammar of `fsm!` and its parser. */
module Parser {
  import opened FsmTypes
  import opened Dsl

  /** Types, expressions and paths are single opaque tokens; a braced group holds its own tokens. */
  datatype Token =
    | Ident(name: string)
    | TyTok(ty: Ty)
    | ExprTok(expr: Expr)
    | PathTok(path: Path)
    | Colon
    | Semi
    | FatArrow
    | Braces(body: seq<Token>)

  datatype ParseError =
    | ExpectedToken
    | ExpectedHeader(keyword: string)
    | ExpectedClause
    | ExpectedItem
    | Duplicate(keyword: string)

  datatype Result<+T> = Parsed(value: T) | Failed(error: ParseError)

  // ---------------------------------------------------------------------------------------------
  // What the parser computes, as a function of the remaining tokens

  /** `=> handler ;` */
  function TakeArrowHandler(ts: seq<Token>): Result<(Expr, seq<Token>)> {
    if |ts| >= 3 && ts[0] == FatArrow && ts[1].ExprTok? && ts[2] == Semi then Parsed((ts[1].expr, ts[3..]))
    else Failed(ExpectedToken)
  }

  /** `handler ;` */
  function TakeHandler(ts: seq<Token>): Result<(Expr, seq<Token>)> {
    if |ts| >= 2 && ts[0].ExprTok? && ts[1] == Semi then Parsed((ts[0].expr, ts[2..])) else Failed(ExpectedToken)
  }

  /** One clause of a state block, added to what the block has so far. */
  function TakeClause(ts: seq<Token>, b: StateBlock): (r: Result<(StateBlock, seq<Token>)>)
    requires ts != []
    ensures r.Parsed? ==> |r.value.1| < |ts|
  {
    if !ts[0].Ident? then Failed(ExpectedToken)
    else if ts[0].name == "on" then
      if |ts| < 2 || !ts[1].PathTok? then Failed(ExpectedToken) else
      (match TakeArrowHandler(ts[2..])
       case Failed(e) => Failed(e)
       case Parsed((h, rest)) => Parsed((b.(handlers := b.handlers + [OnHandler(ts[1].path, h)]), rest)))
    else if ts[0].name == "timeout" then
      if b.timeout.Some? then Failed(Duplicate("timeout")) else
      if |ts| < 2 || !ts[1].ExprTok? then Failed(ExpectedToken) else
      (match TakeArrowHandler(ts[2..])
       case Failed(e) => Failed(e)
       case Parsed((h, rest)) => Parsed((b.(timeout := Some(TimeoutSpec(ts[1].expr, h))), rest)))
    else if ts[0].name == "on_entry" then
      if b.entry.Some? then Failed(Duplicate("on_entry")) else
      (match TakeHandler(ts[1..])
       case Failed(e) => Failed(e)
       case Parsed((h, rest)) => Parsed((b.(entry := Some(h)), rest)))
    else if ts[0].name == "on_exit" then
      if b.exit.Some? then Failed(Duplicate("on_exit")) else
      (match TakeHandler(ts[1..])
       case Failed(e) => Failed(e)
       case Parsed((h, rest)) => Parsed((b.(exit := Some(h)), rest)))
    else Failed(ExpectedClause)
  }

  function ParseClauses(ts: seq<Token>, b: StateBlock): Result<StateBlock>
    decreases |ts|
  {
    if ts == [] then Parsed(b) else
    match TakeClause(ts, b)
    case Failed(e) => Failed(e)
    case Parsed((b', rest)) => ParseClauses(rest, b')
  }

  function EmptyBlock(path: Path): StateBlock {
    StateBlock(path, [], None, None, None)
  }

  function TakeItem(ts: seq<Token>, spec: FsmSpec): (r: Result<(FsmSpec, seq<Token>)>)
    requires ts != []
    ensures r.Parsed? ==> |r.value.1| < |ts|
  {
    if !ts[0].Ident? then Failed(ExpectedToken)
    else if ts[0].name == "state" then
      if |ts| < 3 || !ts[1].PathTok? || !ts[2].Braces? then Failed(ExpectedToken) else
      (match ParseClauses(ts[2].body, EmptyBlock(ts[1].path))
       case Failed(e) => Failed(e)
       case Parsed(b) => Parsed((spec.(states := spec.states + [b]), ts[3..])))
    else if ts[0].name == "unhandled" then
      if spec.unhandled.Some? then Failed(Duplicate("unhandled")) else
      (match TakeArrowHandler(ts[1..])
       case Failed(e) => Failed(e)
       case Parsed((h, rest)) => Parsed((spec.(unhandled := Some(h)), rest)))
    else Failed(ExpectedItem)
  }

  function ParseItems(ts: seq<Token>, spec: FsmSpec): Result<FsmSpec>
    decreases |ts|
  {
    if ts == [] then Parsed(spec) else
    match TakeItem(ts, spec)
    case Failed(e) => Failed(e)
    case Parsed((spec', rest)) => ParseItems(rest, spec')
  }

  /** `keyword : Type ;` */
  function TakeField(ts: seq<Token>, keyword: string): (r: Result<(Ty, seq<Token>)>) {
    if ts == [] || !ts[0].Ident? then Failed(ExpectedToken)
    else if ts[0].name != keyword then Failed(ExpectedHeader(keyword))
    else if |ts| >= 4 && ts[1] == Colon && ts[2].TyTok? && ts[3] == Semi then Parsed((ts[2].ty, ts[4..]))
    else Failed(ExpectedToken)
  }

  function TakeInitial(ts: seq<Token>): Result<(Expr, seq<Token>)> {
    if ts == [] || !ts[0].Ident? then Failed(ExpectedToken)
    else if ts[0].name != "initial" then Failed(ExpectedHeader("initial"))
    else if |ts| >= 4 && ts[1] == Colon && ts[2].ExprTok? && ts[3] == Semi then Parsed((ts[2].expr, ts[4..]))
    else Failed(ExpectedToken)
  }

  function ParseSpec(ts: seq<Token>): Result<FsmSpec> {
    match TakeField(ts, "state") case Failed(e) => Failed(e) case Parsed((s, ts1)) =>
    match TakeField(ts1, "event") case Failed(e) => Failed(e) case Parsed((ev, ts2)) =>
    match TakeField(ts2, "context") case Failed(e) => Failed(e) case Parsed((c, ts3)) =>
    match TakeField(ts3, "action") case Failed(e) => Failed(e) case Parsed((a, ts4)) =>
    match TakeInitial(ts4) case Failed(e) => Failed(e) case Parsed((init, ts5)) =>
    ParseItems(ts5, FsmSpec(s, ev, c, a, init, [], None))
  }

  // ---------------------------------------------------------------------------------------------
  // The parser itself: loops over a consuming stream

  class ParseStream {
    var rest: seq<Token>

    constructor (tokens: seq<Token>)
      ensures rest == tokens
    {
      rest := tokens;
    }

    /** Consume the next token, if there is one. */
    method Next() returns (t: Option<Token>)
      modifies this
      ensures old(rest) == [] ==> t == None && rest == []
      ensures old(rest) != [] ==> t == Some(old(rest)[0]) && rest == old(rest)[1..]
    {
      if rest == [] {
        return None;
      }
      t, rest := Some(rest[0]), rest[1..];
    }

    method HandlerClause() returns (r: Result<Expr>)
      modifies this
      ensures r.Parsed? <==> TakeHandler(old(rest)).Parsed?
      ensures r.Parsed? ==> (r.value, rest) == TakeHandler(old(rest)).value
      ensures r.Failed? ==> r.error == ExpectedToken
    {
      var handler := Next();
      var semi := Next();
      if handler.Some? && handler.value.ExprTok? && semi == Some(Semi) {
        return Parsed(handler.value.expr);
      }
      r := Failed(ExpectedToken);
    }

    method ArrowClause() returns (r: Result<Expr>)
      modifies this
      ensures r.Parsed? <==> TakeArrowHandler(old(rest)).Parsed?
      ensures r.Parsed? ==> (r.value, rest) == TakeArrowHandler(old(rest)).value
      ensures r.Failed? ==> r.error == ExpectedToken
    {
      var arrow := Next();
      if arrow != Some(FatArrow) {
        return Failed(ExpectedToken);
      }
      r := HandlerClause();
    }

    /** `keyword : Type ;` of the header. */
    method Field(keyword: string) returns (r: Result<Ty>)
      modifies this
      ensures match TakeField(old(rest), keyword)
              case Failed(e) => r == Failed(e)
              case Parsed((ty, rest')) => r == Parsed(ty) && rest == rest'
    {
      var kw := Next();
      if kw.None? || !kw.value.Ident? {
        return Failed(ExpectedToken);
      }
      if kw.value.name != keyword {
        return Failed(ExpectedHeader(keyword));
      }
      var colon := Next();
      var ty := Next();
      var semi := Next();
      if colon == Some(Colon) && ty.Some? && ty.value.TyTok? && semi == Some(Semi) {
        return Parsed(ty.value.ty);
      }
      r := Failed(ExpectedToken);
    }

    method Initial() returns (r: Result<Expr>)
      modifies this
      ensures match TakeInitial(old(rest))
              case Failed(e) => r == Failed(e)
              case Parsed((x, rest')) => r == Parsed(x) && rest == rest'
    {
      var kw := Next();
      if kw.None? || !kw.value.Ident? {
        return Failed(ExpectedToken);
      }
      if kw.value.name != "initial" {
        return Failed(ExpectedHeader("initial"));
      }
      var colon := Next();
      var x := Next();
      var semi := Next();
      if colon == Some(Colon) && x.Some? && x.value.ExprTok? && semi == Some(Semi) {
        return Parsed(x.value.expr);
      }
      r := Failed(ExpectedToken);
    }

    /** The inner loop: the clauses between the braces of a state block. */
    method Block(path: Path) returns (r: Result<StateBlock>)
      modifies this
      ensures r == ParseClauses(old(rest), EmptyBlock(path))
    {
      var handlers: seq<OnHandler> := [];
      var timeout: Option<TimeoutSpec> := None;
      var entry: Option<Expr> := None;
      var exit: Option<Expr> := None;
      while rest != []
        invariant ParseClauses(old(rest), EmptyBlock(path))
                    == ParseClauses(rest, StateBlock(path, handlers, timeout, entry, exit))
        decreases |rest|
      {
        var kw := Next();
        if !kw.value.Ident? {
          return Failed(ExpectedToken);
        }
        if kw.value.name == "on" {
          var event := Next();
          if event.None? || !event.value.PathTok? {
            return Failed(ExpectedToken);
          }
          var handler := ArrowClause();
          if handler.Failed? {
            return Failed(handler.error);
          }
          handlers := handlers + [OnHandler(event.value.path, handler.value)];
        } else if kw.value.name == "timeout" {
          if timeout.Some? {
            return Failed(Duplicate("timeout"));
          }
          var duration := Next();
          if duration.None? || !duration.value.ExprTok? {
            return Failed(ExpectedToken);
          }
          var handler := ArrowClause();
          if handler.Failed? {
            return Failed(handler.error);
          }
          timeout := Some(TimeoutSpec(duration.value.expr, handler.value));
        } else if kw.value.name == "on_entry" {
          if entry.Some? {
            return Failed(Duplicate("on_entry"));
          }
          var handler := HandlerClause();
          if handler.Failed? {
            return Failed(handler.error);
          }
          entry := Some(handler.value);
        } else if kw.value.name == "on_exit" {
          if exit.Some? {
            return Failed(Duplicate("on_exit"));
          }
          var handler := HandlerClause();
          if handler.Failed? {
            return Failed(handler.error);
          }
          exit := Some(handler.value);
        } else {
          return Failed(ExpectedClause);
        }
      }
      r := Parsed(StateBlock(path, handlers, timeout, entry, exit));
    }
  }

  /** The outer loop, after the five header fields. */
  method Parse(tokens: seq<Token>) returns (r: Result<FsmSpec>)
    ensures r == ParseSpec(tokens)
  {
    var input := new ParseStream(tokens);
    var state := input.Field("state");
    if state.Failed? { return Failed(state.error); }
    var event := input.Field("event");
    if event.Failed? { return Failed(event.error); }
    var context := input.Field("context");
    if context.Failed? { return Failed(context.error); }
    var action := input.Field("action");
    if action.Failed? { return Failed(action.error); }
    var initial := input.Initial();
    if initial.Failed? { return Failed(initial.error); }

    var states: seq<StateBlock> := [];
    var unhandled: Option<Expr> := None;
    ghost var header := FsmSpec(state.value, event.value, context.value, action.value, initial.value, [], None);
    ghost var items := ParseItems(input.rest, header);
    assert ParseSpec(tokens) == items;
    while input.rest != []
      invariant fresh(input)
      invariant items == ParseItems(input.rest, header.(states := states, unhandled := unhandled))
      decreases |input.rest|
    {
      var kw := input.Next();
      if !kw.value.Ident? {
        return Failed(ExpectedToken);
      }
      if kw.value.name == "state" {
        var path := input.Next();
        var braces := input.Next();
        if path.None? || !path.value.PathTok? || braces.None? || !braces.value.Braces? {
          return Failed(ExpectedToken);
        }
        var content := new ParseStream(braces.value.body);
        var block := content.Block(path.value.path);
        if block.Failed? {
          return Failed(block.error);
        }
        states := states + [block.value];
      } else if kw.value.name == "unhandled" {
        if unhandled.Some? {
          return Failed(Duplicate("unhandled"));
        }
        var handler := input.ArrowClause();
        if handler.Failed? {
          return Failed(handler.error);
        }
        unhandled := Some(handler.value);
      } else {
        return Failed(ExpectedItem);
      }
    }
    r := Parsed(FsmSpec(state.value, event.value, context.value, action.value, initial.value, states, unhandled));
  }
}
