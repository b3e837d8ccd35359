/** The sentences of `fsm!`, what they mean, and that the parser accepts exactly those. */
module Grammar {
  import opened FsmTypes
  import opened Dsl
  import opened Parser

  datatype Clause =
    | OnClause(path: Path, handler: Expr)
    | TimeoutClause(duration: Expr, handler: Expr)
    | EntryClause(handler: Expr)
    | ExitClause(handler: Expr)

  datatype Item = BlockItem(path: Path, clauses: seq<Clause>) | UnhandledItem(handler: Expr)

  function PrintClause(c: Clause): (ts: seq<Token>)
    ensures ts != []
  {
    match c
    case OnClause(p, h) => [Ident("on"), PathTok(p), FatArrow, ExprTok(h), Semi]
    case TimeoutClause(d, h) => [Ident("timeout"), ExprTok(d), FatArrow, ExprTok(h), Semi]
    case EntryClause(h) => [Ident("on_entry"), ExprTok(h), Semi]
    case ExitClause(h) => [Ident("on_exit"), ExprTok(h), Semi]
  }

  function PrintClauses(cs: seq<Clause>): seq<Token> {
    if cs == [] then [] else PrintClause(cs[0]) + PrintClauses(cs[1..])
  }

  function PrintItem(i: Item): (ts: seq<Token>)
    ensures ts != []
  {
    match i
    case BlockItem(p, cs) => [Ident("state"), PathTok(p), Braces(PrintClauses(cs))]
    case UnhandledItem(h) => [Ident("unhandled"), FatArrow, ExprTok(h), Semi]
  }

  function PrintItems(items: seq<Item>): seq<Token> {
    if items == [] then [] else PrintItem(items[0]) + PrintItems(items[1..])
  }

  function FieldTokens(keyword: string, value: Token): seq<Token> {
    [Ident(keyword), Colon, value, Semi]
  }

  function PrintHeader(spec: FsmSpec): seq<Token> {
    FieldTokens("state", TyTok(spec.stateTy)) + FieldTokens("event", TyTok(spec.eventTy))
    + FieldTokens("context", TyTok(spec.contextTy)) + FieldTokens("action", TyTok(spec.actionTy))
    + FieldTokens("initial", ExprTok(spec.initial))
  }

  // ---------------------------------------------------------------------------------------------
  // What a sentence means, without any parsing

  /** The pieces picked from each element, in order. */
  function Collect<T, X>(xs: seq<T>, pick: T -> seq<X>): seq<X> {
    if xs == [] then [] else pick(xs[0]) + Collect(xs[1..], pick)
  }

  function OnOf(c: Clause): seq<OnHandler> {
    if c.OnClause? then [OnHandler(c.path, c.handler)] else []
  }

  function TimeoutOf(c: Clause): seq<TimeoutSpec> {
    if c.TimeoutClause? then [TimeoutSpec(c.duration, c.handler)] else []
  }

  function EntryOf(c: Clause): seq<Expr> {
    if c.EntryClause? then [c.handler] else []
  }

  function ExitOf(c: Clause): seq<Expr> {
    if c.ExitClause? then [c.handler] else []
  }

  function UnhandledOf(i: Item): seq<Expr> {
    if i.UnhandledItem? then [i.handler] else []
  }

  function BlocksOf(i: Item): seq<StateBlock> {
    if i.BlockItem? then [BlockOf(i.path, i.clauses)] else []
  }

  function Ons(cs: seq<Clause>): seq<OnHandler> { Collect(cs, OnOf) }
  function Timeouts(cs: seq<Clause>): seq<TimeoutSpec> { Collect(cs, TimeoutOf) }
  function Entries(cs: seq<Clause>): seq<Expr> { Collect(cs, EntryOf) }
  function Exits(cs: seq<Clause>): seq<Expr> { Collect(cs, ExitOf) }
  function Unhandleds(items: seq<Item>): seq<Expr> { Collect(items, UnhandledOf) }
  function Blocks(items: seq<Item>): seq<StateBlock> { Collect(items, BlocksOf) }

  lemma CollectOne<T, X>(x: T, pick: T -> seq<X>)
    ensures Collect([x], pick) == pick(x)
  {
    assert [x][1..] == [] && pick(x) + [] == pick(x);
  }

  lemma {:induction false} CollectAppend<T, X>(xs: seq<T>, ys: seq<T>, pick: T -> seq<X>)
    ensures Collect(xs + ys, pick) == Collect(xs, pick) + Collect(ys, pick)
  {
    if xs == [] {
      assert xs + ys == ys;
    } else {
      assert (xs + ys)[1..] == xs[1..] + ys;
      CollectAppend(xs[1..], ys, pick);
    }
  }

  function Head<X>(xs: seq<X>): Option<X> {
    if xs == [] then None else Some(xs[0])
  }

  /** The block that a clause list denotes: its rows in order, and its clauses of each other kind. */
  function BlockOf(path: Path, cs: seq<Clause>): StateBlock {
    StateBlock(path, Ons(cs), Head(Timeouts(cs)), Head(Entries(cs)), Head(Exits(cs)))
  }

  predicate AtMostOneEach(cs: seq<Clause>) {
    |Timeouts(cs)| <= 1 && |Entries(cs)| <= 1 && |Exits(cs)| <= 1
  }

  predicate BlocksFit(items: seq<Item>) {
    items != [] ==> (items[0].BlockItem? ==> AtMostOneEach(items[0].clauses)) && BlocksFit(items[1..])
  }

  /** No clause that may occur once occurs twice. */
  predicate WellFormed(items: seq<Item>) {
    |Unhandleds(items)| <= 1 && BlocksFit(items)
  }

  function SpecOf(header: FsmSpec, items: seq<Item>): FsmSpec {
    header.(states := Blocks(items), unhandled := Head(Unhandleds(items)))
  }

  // ---------------------------------------------------------------------------------------------
  // Clauses

  function OrElse<X>(o: Option<X>, xs: seq<X>): Option<X> {
    if o.Some? then o else Head(xs)
  }

  function Count<X>(o: Option<X>): nat {
    if o.Some? then 1 else 0
  }

  /** What parsing adds to a block that already has some clauses. */
  function Extended(b: StateBlock, cs: seq<Clause>): StateBlock {
    StateBlock(b.statePath, b.handlers + Ons(cs), OrElse(b.timeout, Timeouts(cs)), OrElse(b.entry, Entries(cs)),
               OrElse(b.exit, Exits(cs)))
  }

  predicate RoomFor(b: StateBlock, cs: seq<Clause>) {
    Count(b.timeout) + |Timeouts(cs)| <= 1 && Count(b.entry) + |Entries(cs)| <= 1 && Count(b.exit) + |Exits(cs)| <= 1
  }

  lemma KeywordsDiffer()
    ensures "on" != "timeout" && "on" != "on_entry" && "on" != "on_exit"
    ensures "timeout" != "on_entry" && "timeout" != "on_exit" && "on_entry" != "on_exit"
    ensures "state" != "unhandled"
  {
    assert "timeout"[0] != "on_exit"[0];
  }

  lemma SingleClause(c: Clause)
    ensures Ons([c]) == OnOf(c) && Timeouts([c]) == TimeoutOf(c) && Entries([c]) == EntryOf(c)
            && Exits([c]) == ExitOf(c)
  {
    CollectOne(c, OnOf);
    CollectOne(c, TimeoutOf);
    CollectOne(c, EntryOf);
    CollectOne(c, ExitOf);
  }

  function Keyword(c: Clause): string {
    match c
    case OnClause(_, _) => "on"
    case TimeoutClause(_, _) => "timeout"
    case EntryClause(_) => "on_entry"
    case ExitClause(_) => "on_exit"
  }

  /** The keyword of the first clause that repeats one of a kind that may occur once. */
  function FirstRepeat(seen: set<string>, cs: seq<Clause>): Option<string>
    decreases |cs|
  {
    if cs == [] then None
    else
      var keyword := Keyword(cs[0]);
      if keyword != "on" && keyword in seen then Some(keyword) else FirstRepeat(seen + {keyword}, cs[1..])
  }

  /** The block has clauses of these kinds, rows apart. */
  predicate Has(b: StateBlock, seen: set<string>) {
    && (b.timeout.Some? <==> "timeout" in seen) && (b.entry.Some? <==> "on_entry" in seen)
    && (b.exit.Some? <==> "on_exit" in seen)
  }

  lemma HasOneMore(b: StateBlock, seen: set<string>, c: Clause)
    requires Has(b, seen)
    ensures RoomFor(b, [c]) <==> !(Keyword(c) != "on" && Keyword(c) in seen)
    ensures Has(Extended(b, [c]), seen + {Keyword(c)})
  {
    SingleClause(c);
    KeywordsDiffer();
  }

  lemma TakePrinted(c: Clause, rest: seq<Token>, b: StateBlock)
    ensures var taken := TakeClause(PrintClause(c) + rest, b);
            if RoomFor(b, [c]) then taken == Parsed((Extended(b, [c]), rest))
            else taken == Failed(Duplicate(Keyword(c)))
  {
    var ts := PrintClause(c) + rest;
    SingleClause(c);
    KeywordsDiffer();
    assert b.handlers + [] == b.handlers;
    if |PrintClause(c)| == 5 {
      assert ts[2..] == [FatArrow, ExprTok(c.handler), Semi] + rest && ts[2..][3..] == rest;
    } else {
      assert ts[1..] == [ExprTok(c.handler), Semi] + rest && ts[1..][2..] == rest;
    }
  }

  lemma OrElseMore<X>(o: Option<X>, xs: seq<X>, ys: seq<X>)
    requires |xs| <= 1
    ensures OrElse(OrElse(o, xs), ys) == OrElse(o, xs + ys)
    ensures Count(o) + |xs + ys| <= 1 <==> Count(o) + |xs| <= 1 && Count(OrElse(o, xs)) + |ys| <= 1
  {
  }

  lemma ExtendedByOneMore(b: StateBlock, cs: seq<Clause>)
    requires cs != []
    ensures var b' := Extended(b, [cs[0]]);
            && Extended(b', cs[1..]) == Extended(b, cs)
            && (RoomFor(b, cs) <==> RoomFor(b, [cs[0]]) && RoomFor(b', cs[1..]))
  {
    SingleClause(cs[0]);
    assert b.handlers + OnOf(cs[0]) + Ons(cs[1..]) == b.handlers + (OnOf(cs[0]) + Ons(cs[1..]));
    OrElseMore(b.timeout, TimeoutOf(cs[0]), Timeouts(cs[1..]));
    OrElseMore(b.entry, EntryOf(cs[0]), Entries(cs[1..]));
    OrElseMore(b.exit, ExitOf(cs[0]), Exits(cs[1..]));
  }

  /**
    * Printed clauses parse to their block, and parsing goes on behind them, unless a kind other than `on` occurs
    * twice: then the first repetition is reported, whatever follows.
    */
  lemma {:induction false} ParsePrintedClauses(cs: seq<Clause>, b: StateBlock, seen: set<string>, rest: seq<Token>)
    requires Has(b, seen)
    ensures RoomFor(b, cs) <==> FirstRepeat(seen, cs) == None
    ensures ParseClauses(PrintClauses(cs) + rest, b)
         == if RoomFor(b, cs) then ParseClauses(rest, Extended(b, cs))
            else Failed(Duplicate(FirstRepeat(seen, cs).value))
    decreases |cs|
  {
    if cs == [] {
      assert b.handlers + [] == b.handlers;
      assert [] + rest == rest;
    } else {
      var more := PrintClauses(cs[1..]) + rest;
      assert PrintClauses(cs) + rest == PrintClause(cs[0]) + more;
      TakePrinted(cs[0], more, b);
      HasOneMore(b, seen, cs[0]);
      ExtendedByOneMore(b, cs);
      ParsePrintedClauses(cs[1..], Extended(b, [cs[0]]), seen + {Keyword(cs[0])}, rest);
    }
  }

  /** Between the braces, a whole clause list. */
  lemma ParsePrintedBlock(cs: seq<Clause>, path: Path)
    ensures AtMostOneEach(cs) <==> FirstRepeat({}, cs) == None
    ensures ParseClauses(PrintClauses(cs), EmptyBlock(path))
         == if AtMostOneEach(cs) then Parsed(BlockOf(path, cs)) else Failed(Duplicate(FirstRepeat({}, cs).value))
  {
    var b := EmptyBlock(path);
    ParsePrintedClauses(cs, b, {}, []);
    assert PrintClauses(cs) + [] == PrintClauses(cs);
    assert [] + Ons(cs) == Ons(cs);
  }

  predicate StartsClause(t: Token) {
    t.Ident? && (t.name == "on" || t.name == "timeout" || t.name == "on_entry" || t.name == "on_exit")
  }

  /** The first token that starts no clause, where one is due, is what is reported. */
  lemma OffendingClause(cs: seq<Clause>, t: Token, rest: seq<Token>, path: Path)
    requires AtMostOneEach(cs) && !StartsClause(t)
    ensures ParseClauses(PrintClauses(cs) + ([t] + rest), EmptyBlock(path))
         == Failed(if t.Ident? then ExpectedClause else ExpectedToken)
  {
    ParsePrintedClauses(cs, EmptyBlock(path), {}, [t] + rest);
  }

  /** Whatever the parser accepts between the braces is the printed form of some clause list. */
  lemma {:induction false} AcceptedClausesArePrinted(ts: seq<Token>, b: StateBlock) returns (cs: seq<Clause>)
    requires ParseClauses(ts, b).Parsed?
    ensures ts == PrintClauses(cs)
    decreases |ts|
  {
    if ts == [] {
      cs := [];
    } else {
      var c := match ts[0].name
        case "on" => OnClause(ts[1].path, ts[3].expr)
        case "timeout" => TimeoutClause(ts[1].expr, ts[3].expr)
        case "on_entry" => EntryClause(ts[1].expr)
        case _ => ExitClause(ts[1].expr);
      var (b', rest) := TakeClause(ts, b).value;
      var tail := AcceptedClausesArePrinted(rest, b');
      assert ts == PrintClause(c) + rest;
      cs := [c] + tail;
    }
  }

  /** The tokens begin with a clause. */
  ghost predicate BeginsClause(ts: seq<Token>) {
    exists c :: PrintClause(c) <= ts
  }

  lemma TakenClause(ts: seq<Token>, b: StateBlock) returns (c: Clause)
    requires ts != [] && TakeClause(ts, b).Parsed?
    ensures PrintClause(c) <= ts
  {
    c := match ts[0].name
      case "on" => OnClause(ts[1].path, ts[3].expr)
      case "timeout" => TimeoutClause(ts[1].expr, ts[3].expr)
      case "on_entry" => EntryClause(ts[1].expr)
      case _ => ExitClause(ts[1].expr);
  }

  /** Without a clause to begin with, a repeated keyword is reported before anything that is missing. */
  lemma NoClauseTaken(ts: seq<Token>, b: StateBlock, seen: set<string>)
    requires ts != [] && StartsClause(ts[0]) && !BeginsClause(ts) && Has(b, seen)
    ensures TakeClause(ts, b)
         == Failed(if ts[0].name != "on" && ts[0].name in seen then Duplicate(ts[0].name) else ExpectedToken)
  {
    KeywordsDiffer();
    if TakeClause(ts, b).Parsed? {
      var c := TakenClause(ts, b);
    }
  }

  function Keywords(cs: seq<Clause>): set<string> {
    set i | 0 <= i < |cs| :: Keyword(cs[i])
  }

  lemma {:induction false} ExtendedHas(cs: seq<Clause>, b: StateBlock, seen: set<string>)
    requires Has(b, seen)
    ensures Has(Extended(b, cs), seen + Keywords(cs))
    decreases |cs|
  {
    if cs == [] {
      assert seen + Keywords(cs) == seen;
    } else {
      HasOneMore(b, seen, cs[0]);
      ExtendedByOneMore(b, cs);
      ExtendedHas(cs[1..], Extended(b, [cs[0]]), seen + {Keyword(cs[0])});
      KeywordsCons(cs);
      assert seen + {Keyword(cs[0])} + Keywords(cs[1..]) == seen + Keywords(cs);
    }
  }

  lemma KeywordsCons(cs: seq<Clause>)
    requires cs != []
    ensures Keywords(cs) == {Keyword(cs[0])} + Keywords(cs[1..])
  {
    forall k ensures k in Keywords(cs) <==> k == Keyword(cs[0]) || k in Keywords(cs[1..]) {
      if k in Keywords(cs) && k != Keyword(cs[0]) {
        var i :| 0 <= i < |cs| && Keyword(cs[i]) == k;
        assert cs[1..][i - 1] == cs[i];
      }
      if k in Keywords(cs[1..]) {
        var i :| 0 <= i < |cs[1..]| && Keyword(cs[1..][i]) == k;
        assert cs[i + 1] == cs[1..][i];
      }
    }
  }

  /** A clause that is begun and not completed is a missing token, or a repetition if it is one. */
  lemma BrokenClause(cs: seq<Clause>, ts: seq<Token>, path: Path)
    requires AtMostOneEach(cs) && ts != [] && StartsClause(ts[0]) && !BeginsClause(ts)
    ensures ParseClauses(PrintClauses(cs) + ts, EmptyBlock(path))
         == Failed(if ts[0].name != "on" && ts[0].name in Keywords(cs) then Duplicate(ts[0].name) else ExpectedToken)
  {
    var b := EmptyBlock(path);
    ParsePrintedClauses(cs, b, {}, ts);
    ExtendedHas(cs, b, {});
    assert {} + Keywords(cs) == Keywords(cs);
    NoClauseTaken(ts, Extended(b, cs), Keywords(cs));
  }

  // ---------------------------------------------------------------------------------------------
  // Whole sentences

  predicate ItemsFit(spec: FsmSpec, items: seq<Item>) {
    Count(spec.unhandled) + |Unhandleds(items)| <= 1 && BlocksFit(items)
  }

  function ExtendedSpec(spec: FsmSpec, items: seq<Item>): FsmSpec {
    spec.(states := spec.states + Blocks(items), unhandled := OrElse(spec.unhandled, Unhandleds(items)))
  }

  lemma SingleItem(item: Item)
    ensures Blocks([item]) == BlocksOf(item) && Unhandleds([item]) == UnhandledOf(item)
    ensures BlocksFit([item]) == (item.BlockItem? ==> AtMostOneEach(item.clauses))
  {
    CollectOne(item, BlocksOf);
    CollectOne(item, UnhandledOf);
    assert [item][1..] == [];
  }

  /** The keyword of the first clause, in a block or outside, that occurs once too often. */
  function FirstRepeatIn(unhandled: bool, items: seq<Item>): Option<string>
    decreases |items|
  {
    if items == [] then None
    else
      match items[0]
      case UnhandledItem(_) => if unhandled then Some("unhandled") else FirstRepeatIn(true, items[1..])
      case BlockItem(_, cs) =>
        if FirstRepeat({}, cs).Some? then FirstRepeat({}, cs) else FirstRepeatIn(unhandled, items[1..])
  }

  lemma OneItemRepeats(item: Item, unhandled: bool)
    ensures FirstRepeatIn(unhandled, [item])
         == match item
            case UnhandledItem(_) => if unhandled then Some("unhandled") else None
            case BlockItem(_, cs) => FirstRepeat({}, cs)
  {
    assert [item][1..] == [];
  }

  lemma TakePrintedItem(item: Item, rest: seq<Token>, spec: FsmSpec)
    ensures ItemsFit(spec, [item]) <==> FirstRepeatIn(spec.unhandled.Some?, [item]) == None
    ensures TakeItem(PrintItem(item) + rest, spec)
         == if ItemsFit(spec, [item]) then Parsed((ExtendedSpec(spec, [item]), rest))
            else Failed(Duplicate(FirstRepeatIn(spec.unhandled.Some?, [item]).value))
  {
    var ts := PrintItem(item) + rest;
    SingleItem(item);
    OneItemRepeats(item, spec.unhandled.Some?);
    KeywordsDiffer();
    assert spec.states + [] == spec.states;
    match item
    case BlockItem(path, cs) =>
      ParsePrintedBlock(cs, path);
      assert ts[3..] == rest;
    case UnhandledItem(h) =>
      assert ts[1..] == [FatArrow, ExprTok(h), Semi] + rest && ts[1..][3..] == rest;
  }

  lemma ExtendedByOneMoreItem(spec: FsmSpec, items: seq<Item>)
    requires items != []
    ensures var spec' := ExtendedSpec(spec, [items[0]]);
            && ExtendedSpec(spec', items[1..]) == ExtendedSpec(spec, items)
            && (ItemsFit(spec, items) <==> ItemsFit(spec, [items[0]]) && ItemsFit(spec', items[1..]))
  {
    SingleItem(items[0]);
    assert spec.states + BlocksOf(items[0]) + Blocks(items[1..])
             == spec.states + (BlocksOf(items[0]) + Blocks(items[1..]));
    OrElseMore(spec.unhandled, UnhandledOf(items[0]), Unhandleds(items[1..]));
  }

  /**
    * Printed items parse to their specification, and parsing goes on behind them, unless a clause that may occur
    * once occurs twice: then the first such repetition is reported.
    */
  lemma {:induction false} ParsePrintedItems(items: seq<Item>, spec: FsmSpec, rest: seq<Token>)
    ensures ItemsFit(spec, items) <==> FirstRepeatIn(spec.unhandled.Some?, items) == None
    ensures ParseItems(PrintItems(items) + rest, spec)
         == if ItemsFit(spec, items) then ParseItems(rest, ExtendedSpec(spec, items))
            else Failed(Duplicate(FirstRepeatIn(spec.unhandled.Some?, items).value))
    decreases |items|
  {
    if items == [] {
      assert spec.states + [] == spec.states;
      assert [] + rest == rest;
    } else {
      var more := PrintItems(items[1..]) + rest;
      assert PrintItems(items) + rest == PrintItem(items[0]) + more;
      TakePrintedItem(items[0], more, spec);
      OneItemRepeats(items[0], spec.unhandled.Some?);
      ExtendedByOneMoreItem(spec, items);
      SingleItem(items[0]);
      ParsePrintedItems(items[1..], ExtendedSpec(spec, [items[0]]), rest);
    }
  }

  lemma FieldParses(keyword: string, ty: Ty, rest: seq<Token>)
    ensures TakeField(FieldTokens(keyword, TyTok(ty)) + rest, keyword) == Parsed((ty, rest))
  {
    assert (FieldTokens(keyword, TyTok(ty)) + rest)[4..] == rest;
  }

  lemma HeaderUnfolds(header: FsmSpec, rest: seq<Token>)
    ensures PrintHeader(header) + rest
         == FieldTokens("state", TyTok(header.stateTy)) + (FieldTokens("event", TyTok(header.eventTy))
            + (FieldTokens("context", TyTok(header.contextTy)) + (FieldTokens("action", TyTok(header.actionTy))
            + (FieldTokens("initial", ExprTok(header.initial)) + rest))))
  {
  }

  lemma HeaderParses(header: FsmSpec, rest: seq<Token>)
    ensures ParseSpec(PrintHeader(header) + rest) == ParseItems(rest, header.(states := [], unhandled := None))
  {
    var h5 := FieldTokens("initial", ExprTok(header.initial)) + rest;
    var h4 := FieldTokens("action", TyTok(header.actionTy)) + h5;
    var h3 := FieldTokens("context", TyTok(header.contextTy)) + h4;
    var h2 := FieldTokens("event", TyTok(header.eventTy)) + h3;
    HeaderUnfolds(header, rest);
    assert h5[4..] == rest;
    FieldParses("action", header.actionTy, h5);
    FieldParses("context", header.contextTy, h4);
    FieldParses("event", header.eventTy, h3);
    FieldParses("state", header.stateTy, h2);
  }

  /** The whole parser on a printed sentence: its meaning, or the first clause that repeats. */
  lemma ParsePrinted(header: FsmSpec, items: seq<Item>)
    ensures WellFormed(items) <==> FirstRepeatIn(false, items) == None
    ensures ParseSpec(PrintHeader(header) + PrintItems(items))
         == if WellFormed(items) then Parsed(SpecOf(header, items))
            else Failed(Duplicate(FirstRepeatIn(false, items).value))
  {
    var empty := header.(states := [], unhandled := None);
    HeaderParses(header, PrintItems(items));
    ParsePrintedItems(items, empty, []);
    assert PrintItems(items) + [] == PrintItems(items);
    assert [] + Blocks(items) == Blocks(items);
  }

  /** Behind well-formed items, the first token that starts no item is what is reported. */
  lemma OffendingItem(header: FsmSpec, items: seq<Item>, t: Token, rest: seq<Token>)
    requires WellFormed(items) && t != Ident("state") && t != Ident("unhandled")
    ensures ParseSpec(PrintHeader(header) + (PrintItems(items) + ([t] + rest)))
         == Failed(if t.Ident? then ExpectedItem else ExpectedToken)
  {
    var empty := header.(states := [], unhandled := None);
    HeaderParses(header, PrintItems(items) + ([t] + rest));
    ParsePrintedItems(items, empty, [t] + rest);
  }

  /** An offending clause, in whichever block, is reported for the whole sentence. */
  lemma OffendingBlock(header: FsmSpec, items: seq<Item>, path: Path, cs: seq<Clause>, t: Token, more: seq<Token>,
                       rest: seq<Token>)
    requires WellFormed(items) && AtMostOneEach(cs) && !StartsClause(t)
    ensures var block := [Ident("state"), PathTok(path), Braces(PrintClauses(cs) + ([t] + more))];
            ParseSpec(PrintHeader(header) + (PrintItems(items) + (block + rest)))
            == Failed(if t.Ident? then ExpectedClause else ExpectedToken)
  {
    var empty := header.(states := [], unhandled := None);
    var block := [Ident("state"), PathTok(path), Braces(PrintClauses(cs) + ([t] + more))];
    HeaderParses(header, PrintItems(items) + (block + rest));
    ParsePrintedItems(items, empty, block + rest);
    OffendingClause(cs, t, more, path);
    KeywordsDiffer();
    assert (block + rest)[0] == Ident("state") && (block + rest)[1] == PathTok(path) && (block + rest)[2] == block[2];
  }

  /** The tokens begin with an item, whatever is between its braces. */
  ghost predicate BeginsItem(ts: seq<Token>) {
    || (exists h :: PrintItem(UnhandledItem(h)) <= ts)
    || (|ts| >= 3 && ts[0] == Ident("state") && ts[1].PathTok? && ts[2].Braces?)
  }

  lemma TakenItem(ts: seq<Token>, spec: FsmSpec)
    requires ts != [] && TakeItem(ts, spec).Parsed?
    ensures BeginsItem(ts)
  {
    if ts[0].name == "unhandled" {
      assert PrintItem(UnhandledItem(ts[2].expr)) <= ts;
    }
  }

  /** An item that is begun and not completed is a missing token, or a repeated `unhandled`. */
  lemma BrokenItem(header: FsmSpec, items: seq<Item>, ts: seq<Token>)
    requires WellFormed(items) && ts != [] && (ts[0] == Ident("state") || ts[0] == Ident("unhandled"))
             && !BeginsItem(ts)
    ensures ParseSpec(PrintHeader(header) + (PrintItems(items) + ts))
         == Failed(if ts[0] == Ident("unhandled") && Unhandleds(items) != [] then Duplicate("unhandled")
                   else ExpectedToken)
  {
    var spec := ExtendedSpec(header.(states := [], unhandled := None), items);
    HeaderParses(header, PrintItems(items) + ts);
    ParsePrintedItems(items, header.(states := [], unhandled := None), ts);
    KeywordsDiffer();
    if TakeItem(ts, spec).Parsed? {
      TakenItem(ts, spec);
    }
  }

  const HEADER: seq<string> := ["state", "event", "context", "action", "initial"]

  /** The first n fields of a header, then something else. */
  function AfterFields(spec: FsmSpec, n: nat, rest: seq<Token>): seq<Token> {
    if n == 0 then rest
    else FieldTokens("state", TyTok(spec.stateTy)) + if n == 1 then rest
    else FieldTokens("event", TyTok(spec.eventTy)) + if n == 2 then rest
    else FieldTokens("context", TyTok(spec.contextTy)) + if n == 3 then rest
    else FieldTokens("action", TyTok(spec.actionTy)) + rest
  }

  /** Fields come in the one order: any other keyword, and the one that was due is reported. */
  lemma OffendingHeader(header: FsmSpec, n: nat, keyword: string, rest: seq<Token>)
    requires n < 5 && keyword != HEADER[n]
    ensures ParseSpec(AfterFields(header, n, [Ident(keyword)] + rest)) == Failed(ExpectedHeader(HEADER[n]))
  {
    var t0 := [Ident(keyword)] + rest;
    var t1 := if n > 3 then FieldTokens("action", TyTok(header.actionTy)) + t0 else t0;
    var t2 := if n > 2 then FieldTokens("context", TyTok(header.contextTy)) + t1 else t1;
    var t3 := if n > 1 then FieldTokens("event", TyTok(header.eventTy)) + t2 else t2;
    FieldParses("action", header.actionTy, t0);
    FieldParses("context", header.contextTy, t1);
    FieldParses("event", header.eventTy, t2);
    FieldParses("state", header.stateTy, t3);
  }

  /** A field that has its keyword and is not completed is a missing token; so is a missing keyword. */
  lemma BrokenHeader(header: FsmSpec, n: nat, ts: seq<Token>)
    requires n < 5 && (ts != [] && ts[0].Ident? ==> ts[0].name == HEADER[n])
    requires if n < 4 then forall ty :: !(FieldTokens(HEADER[n], TyTok(ty)) <= ts)
             else forall x :: !(FieldTokens(HEADER[n], ExprTok(x)) <= ts)
    ensures ParseSpec(AfterFields(header, n, ts)) == Failed(ExpectedToken)
  {
    var t1 := if n > 3 then FieldTokens("action", TyTok(header.actionTy)) + ts else ts;
    var t2 := if n > 2 then FieldTokens("context", TyTok(header.contextTy)) + t1 else t1;
    var t3 := if n > 1 then FieldTokens("event", TyTok(header.eventTy)) + t2 else t2;
    FieldParses("action", header.actionTy, ts);
    FieldParses("context", header.contextTy, t1);
    FieldParses("event", header.eventTy, t2);
    FieldParses("state", header.stateTy, t3);
    if n < 4 {
      NoField(ts, HEADER[n]);
    } else if TakeInitial(ts).Parsed? {
      var initial, rest := AcceptedInitial(ts);
    }
  }

  lemma NoField(ts: seq<Token>, keyword: string)
    requires ts != [] && ts[0].Ident? ==> ts[0].name == keyword
    requires forall ty :: !(FieldTokens(keyword, TyTok(ty)) <= ts)
    ensures TakeField(ts, keyword) == Failed(ExpectedToken)
  {
    if TakeField(ts, keyword).Parsed? {
      var ty, rest := AcceptedField(ts, keyword);
    }
  }

  lemma {:induction false} AcceptedItemsArePrinted(ts: seq<Token>, spec: FsmSpec) returns (items: seq<Item>)
    requires ParseItems(ts, spec).Parsed?
    ensures ts == PrintItems(items)
    decreases |ts|
  {
    if ts == [] {
      items := [];
    } else {
      var (spec', rest) := TakeItem(ts, spec).value;
      var item: Item;
      if ts[0].name == "state" {
        var cs := AcceptedClausesArePrinted(ts[2].body, EmptyBlock(ts[1].path));
        item := BlockItem(ts[1].path, cs);
      } else {
        item := UnhandledItem(ts[2].expr);
      }
      var tail := AcceptedItemsArePrinted(rest, spec');
      assert ts == PrintItem(item) + rest;
      items := [item] + tail;
    }
  }

  lemma AcceptedField(ts: seq<Token>, keyword: string) returns (ty: Ty, rest: seq<Token>)
    requires TakeField(ts, keyword).Parsed?
    ensures TakeField(ts, keyword) == Parsed((ty, rest)) && ts == FieldTokens(keyword, TyTok(ty)) + rest
  {
    ty, rest := ts[2].ty, ts[4..];
  }

  lemma AcceptedInitial(ts: seq<Token>) returns (initial: Expr, rest: seq<Token>)
    requires TakeInitial(ts).Parsed?
    ensures TakeInitial(ts) == Parsed((initial, rest)) && ts == FieldTokens("initial", ExprTok(initial)) + rest
  {
    initial, rest := ts[2].expr, ts[4..];
  }

  /** An accepted header is the printed header of what was parsed. */
  lemma AcceptedHeader(ts: seq<Token>) returns (header: FsmSpec, rest: seq<Token>)
    requires ParseSpec(ts).Parsed?
    ensures header.states == [] && header.unhandled == None
    ensures ts == PrintHeader(header) + rest && ParseSpec(ts) == ParseItems(rest, header)
  {
    var s, ts1 := AcceptedField(ts, "state");
    var e, ts2 := AcceptedField(ts1, "event");
    var c, ts3 := AcceptedField(ts2, "context");
    var a, ts4 := AcceptedField(ts3, "action");
    var i, ts5 := AcceptedInitial(ts4);
    header, rest := FsmSpec(s, e, c, a, i, [], None), ts5;
    HeaderUnfolds(header, rest);
  }

  /**
    * The parser accepts exactly the printed forms of well-formed sentences, and gives each its meaning:
    * whatever it accepts was printed from some well-formed item list, whose meaning is the result.
    */
  lemma AcceptsExactlyTheGrammar(ts: seq<Token>) returns (header: FsmSpec, items: seq<Item>)
    requires ParseSpec(ts).Parsed?
    ensures ts == PrintHeader(header) + PrintItems(items) && WellFormed(items)
    ensures ParseSpec(ts) == Parsed(SpecOf(header, items))
  {
    var rest;
    header, rest := AcceptedHeader(ts);
    items := AcceptedItemsArePrinted(rest, header);
    ParsePrinted(header, items);
  }

  // ---------------------------------------------------------------------------------------------
  // Consequences

  function TimeoutClauses(b: StateBlock): seq<Clause> {
    if b.timeout.Some? then [TimeoutClause(b.timeout.value.duration, b.timeout.value.handler)] else []
  }

  function HookClauses(b: StateBlock): seq<Clause> {
    (if b.entry.Some? then [EntryClause(b.entry.value)] else []) + (if b.exit.Some?
        then [ExitClause(b.exit.value)] else [])
  }

  function RowClauses(rows: seq<OnHandler>): seq<Clause> {
    if rows == [] then [] else [OnClause(rows[0].eventPath, rows[0].handler)] + RowClauses(rows[1..])
  }

  /** One way to write a block: timeout, hooks, then rows. */
  function CanonicalClauses(b: StateBlock): seq<Clause> {
    TimeoutClauses(b) + (HookClauses(b) + RowClauses(b.handlers))
  }

  function CanonicalItems(blocks: seq<StateBlock>): seq<Item> {
    if blocks == []
        then [] else [BlockItem(blocks[0].statePath, CanonicalClauses(blocks[0]))] + CanonicalItems(blocks[1..])
  }

  function Canonical(spec: FsmSpec): seq<Item> {
    (if spec.unhandled.Some? then [UnhandledItem(spec.unhandled.value)] else []) + CanonicalItems(spec.states)
  }

  function Print(spec: FsmSpec): seq<Token> {
    PrintHeader(spec) + PrintItems(Canonical(spec))
  }

  lemma ReadingsAppend(xs: seq<Clause>, ys: seq<Clause>)
    ensures Ons(xs + ys) == Ons(xs) + Ons(ys) && Timeouts(xs + ys) == Timeouts(xs) + Timeouts(ys)
    ensures Entries(xs + ys) == Entries(xs) + Entries(ys) && Exits(xs + ys) == Exits(xs) + Exits(ys)
  {
    CollectAppend(xs, ys, OnOf);
    CollectAppend(xs, ys, TimeoutOf);
    CollectAppend(xs, ys, EntryOf);
    CollectAppend(xs, ys, ExitOf);
  }

  lemma {:induction false} RowReadings(rows: seq<OnHandler>)
    ensures var cs := RowClauses(rows); Ons(cs) == rows && Timeouts(cs) == [] && Entries(cs) == [] && Exits(cs) == []
  {
    if rows != [] {
      RowReadings(rows[1..]);
    }
  }

  lemma HookReadings(b: StateBlock)
    ensures var cs := HookClauses(b);
            && Ons(cs) == [] && Timeouts(cs) == [] && |Entries(cs)| <= 1 && |Exits(cs)| <= 1
            && Head(Entries(cs)) == b.entry && Head(Exits(cs)) == b.exit
  {
    var entry := if b.entry.Some? then [EntryClause(b.entry.value)] else [];
    var exit := if b.exit.Some? then [ExitClause(b.exit.value)] else [];
    ReadingsAppend(entry, exit);
    if b.entry.Some? { SingleClause(entry[0]); }
    if b.exit.Some? { SingleClause(exit[0]); }
  }

  lemma CanonicalReadings(b: StateBlock)
    ensures BlockOf(b.statePath, CanonicalClauses(b)) == b && AtMostOneEach(CanonicalClauses(b))
  {
    var timeout, hooks, rows := TimeoutClauses(b), HookClauses(b), RowClauses(b.handlers);
    ReadingsAppend(timeout, hooks + rows);
    ReadingsAppend(hooks, rows);
    HookReadings(b);
    RowReadings(b.handlers);
    if b.timeout.Some? { SingleClause(timeout[0]); }
    assert Ons(timeout) == [] && Entries(timeout) == [] && Exits(timeout) == [];
    assert [] + ([] + b.handlers) == b.handlers;
    assert [] + (Entries(hooks) + []) == Entries(hooks) && [] + (Exits(hooks) + []) == Exits(hooks);
    assert Timeouts(timeout) + ([] + []) == Timeouts(timeout);
  }

  lemma {:induction false} CanonicalItemReadings(blocks: seq<StateBlock>)
    ensures var items := CanonicalItems(blocks); Blocks(items) == blocks && Unhandleds(items) == [] && BlocksFit(items)
  {
    if blocks != [] {
      CanonicalReadings(blocks[0]);
      CanonicalItemReadings(blocks[1..]);
      var items := CanonicalItems(blocks);
      assert items[1..] == CanonicalItems(blocks[1..]);
      assert [blocks[0]] + blocks[1..] == blocks;
    }
  }

  /** Round trip: parsing the printed form of any specification gives that specification back. */
  lemma ParsePrintRoundTrip(spec: FsmSpec)
    ensures ParseSpec(Print(spec)) == Parsed(spec)
  {
    CanonicalItemReadings(spec.states);
    var items, blocks := Canonical(spec), CanonicalItems(spec.states);
    if spec.unhandled.Some? {
      assert items == [items[0]] + blocks;
      SingleItem(items[0]);
      CollectAppend([items[0]], blocks, BlocksOf);
      CollectAppend([items[0]], blocks, UnhandledOf);
      assert items[1..] == blocks && [] + spec.states == spec.states;
    } else {
      assert items == blocks;
    }
    ParsePrinted(spec, items);
  }

  /** How clauses of different kinds are interleaved within a block does not matter. */
  lemma InterleavingIrrelevant(path: Path, cs: seq<Clause>, cs': seq<Clause>)
    requires Ons(cs) == Ons(cs') && Timeouts(cs) == Timeouts(cs') && Entries(cs) == Entries(cs')
             && Exits(cs) == Exits(cs')
    ensures var r, r' := ParseClauses(PrintClauses(cs), EmptyBlock(path)), ParseClauses(PrintClauses(cs'),
              EmptyBlock(path));
            r.Parsed? == r'.Parsed? && (r.Parsed? ==> r == r' == Parsed(BlockOf(path, cs)))
  {
    ParsePrintedBlock(cs, path);
    ParsePrintedBlock(cs', path);
  }
}
