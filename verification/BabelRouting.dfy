/** Who is offered what: a subscriber gets the messages its filter matches, and no others. */
module BabelRouting {
  import opened Babel
  import opened BabelOrder
  import opened BabelTheorems
  import opened BabelDrops

  // ---------------------------------------------------------------------------------------------
  // The clocks a filter selects

  /** The text has the part somewhere in it. */
  ghost predicate Occurs(part: string, text: string) {
    exists before, after :: text == before + part + after
  }

  /** A filter is the star, a language, or a piece of text. */
  ghost predicate Hears(filter: string, language: string, message: string) {
    filter == "*" || filter == language || Occurs(filter, message)
  }

  /** The clocks above lo up to hi whose message the filter selects; the message of clock k is script[k - 1]. */
  ghost function Heard(filter: string, language: string, script: seq<string>, lo: nat, hi: int): seq<nat>
    requires hi <= |script|
    decreases hi
  {
    if hi <= lo then []
    else Heard(filter, language, script, lo, hi - 1) + if Hears(filter, language, script[hi - 1]) then [hi] else []
  }

  lemma {:induction false} HeardMembers(filter: string, language: string, script: seq<string>, lo: nat, hi: int)
    requires hi <= |script|
    ensures forall k: nat :: k in Heard(filter, language, script, lo, hi) <==>
              lo < k <= hi && Hears(filter, language, script[k - 1])
    decreases hi
  {
    if lo < hi {
      HeardMembers(filter, language, script, lo, hi - 1);
    }
  }

  lemma {:induction false} HeardRises(filter: string, language: string, script: seq<string>, lo: nat, hi: int)
    requires hi <= |script|
    ensures Rising(Heard(filter, language, script, lo, hi))
    decreases hi
  {
    if lo < hi {
      HeardRises(filter, language, script, lo, hi - 1);
      HeardMembers(filter, language, script, lo, hi - 1);
      var front := Heard(filter, language, script, lo, hi - 1);
      assert forall a :: 0 <= a < |front| ==> front[a] in front;
    }
  }

  /** Exactly those clocks, in rising order. */
  lemma HeardExactly(filter: string, language: string, script: seq<string>, lo: nat, hi: int)
    requires hi <= |script|
    ensures var heard := Heard(filter, language, script, lo, hi);
            && Rising(heard)
            && forall k: nat :: k in heard <==> lo < k <= hi && Hears(filter, language, script[k - 1])
  {
    HeardMembers(filter, language, script, lo, hi);
    HeardRises(filter, language, script, lo, hi);
  }

  /** The star and the speaker's own language select every clock. */
  lemma {:induction false} EverythingHeard(filter: string, language: string, script: seq<string>, hi: nat)
    requires hi <= |script| && (filter == "*" || filter == language)
    ensures Heard(filter, language, script, 0, hi) == UpTo(hi)
    decreases hi
  {
    if hi > 0 {
      EverythingHeard(filter, language, script, hi - 1);
    }
  }

  lemma ContainedOccurs(part: string, text: string)
    requires Contains(text, part)
    ensures Occurs(part, text)
  {
    var k :| 0 <= k <= |text| && part <= text[k..];
    var after := text[k..][|part|..];
    assert text[k..] == part + after;
    assert text == text[..k] + part + after;
  }

  lemma OccurringIsContained(part: string, text: string)
    requires Occurs(part, text)
    ensures Contains(text, part)
  {
    var before, after :| text == before + part + after;
    assert text[|before|..] == part + after;
    assert part <= text[|before|..];
  }

  lemma WantedIsHeard(filter: string, language: string, message: string)
    ensures Wanted(filter, language, message) <==> Hears(filter, language, message)
  {
    if Contains(message, filter) {
      ContainedOccurs(filter, message);
    }
    if Occurs(filter, message) {
      OccurringIsContained(filter, message);
    }
  }

  // ---------------------------------------------------------------------------------------------
  // Offers

  function Script(s: System, i: nat): seq<string>
    requires i < |s.speakers|
  {
    s.speakers[i].script
  }

  /** The subscriber has been offered, of every speaker, the clocks above `since` that it hears, without gap. */
  ghost predicate Routed(s: System, f: string, since: seq<nat>) {
    && f in s.subscribers && |since| == |s.speakers|
    && forall i :: 0 <= i < |s.speakers| ==>
         && since[i] <= Offered(s, i, f) <= |Script(s, i)|
         && Marks(s.subscribers[f].offered, Language(s, i))
            == Heard(f, Language(s, i), Script(s, i), since[i], Offered(s, i, f))
  }

  /** Nothing about the offers to that subscriber changes. */
  ghost predicate OffersStay(s: System, s': System, f: string) {
    && f in s.subscribers && f in s'.subscribers && s'.subscribers[f].offered == s.subscribers[f].offered
    && |s'.speakers| == |s.speakers|
    && forall i :: 0 <= i < |s.speakers| ==>
         && Language(s', i) == Language(s, i) && Script(s', i) == Script(s, i)
         && Offered(s', i, f) == Offered(s, i, f)
  }

  lemma StampOffers(s: System, i: nat, f: string)
    requires Inv(s) && f in s.subscribers && Enabled(s, Stamp(i))
    ensures OffersStay(s, Do(s, Stamp(i)), f)
  {
    var s' := Do(s, Stamp(i));
    assert SpeakerOk(s, i);
    forall j | 0 <= j < |s.speakers|
      ensures Language(s', j) == Language(s, j) && Script(s', j) == Script(s, j)
              && Offered(s', j, f) == Offered(s, j, f)
    {
      assert j != i ==> Language(s, j) != Language(s, i);
    }
  }

  /** A speaker that moves on without stamping or offering anything to that subscriber. */
  lemma OneSpeakerOffers(s: System, s': System, i: nat, g: Speaker, f: string)
    requires i < |s.speakers| && s'.speakers == s.speakers[i := g] && s'.clocks == s.clocks
    requires g.language == Language(s, i) && g.script == Script(s, i)
    requires f in s.subscribers && f in s'.subscribers && s'.subscribers[f].offered == s.subscribers[f].offered
    requires Offered(s', i, f) == Offered(s, i, f)
    ensures OffersStay(s, s', f)
  {
  }

  lemma SendToOthersLeaves(s: System, i: nat, f: string, g: string)
    requires Inv(s) && f in s.subscribers && Enabled(s, Send(i, g)) && g != f
    ensures var s', p := Do(s, Send(i, g)), s.speakers[i].phase;
            && f in s'.subscribers && s'.subscribers[f] == s.subscribers[f] && s'.clocks == s.clocks
            && s'.speakers == s.speakers[i := s.speakers[i].(phase := Notifying(p.clock, p.todo - {g}))]
            && Offered(s', i, f) == Offered(s, i, f)
  {
    SendFacts(s, i, g);
  }

  lemma SendToOthersOffers(s: System, i: nat, f: string, g: string)
    requires Inv(s) && f in s.subscribers && Enabled(s, Send(i, g)) && g != f
    ensures OffersStay(s, Do(s, Send(i, g)), f)
  {
    var s' := Do(s, Send(i, g));
    SendToOthersLeaves(s, i, f, g);
    OneSpeakerOffers(s, s', i, s'.speakers[i], f);
  }

  lemma WritingOffers(s: System, m: Move, f: string)
    requires Inv(s) && f in s.subscribers && Enabled(s, m) && (m.Push? || m.Lock?)
    ensures OffersStay(s, Do(s, m), f)
  {
    assert SpeakerOk(s, m.speaker);
    OneSpeakerOffers(s, Do(s, m), m.speaker, Do(s, m).speakers[m.speaker], f);
  }

  lemma TurnOffers(s: System, m: Move, f: string)
    requires Inv(s) && f in s.subscribers && Enabled(s, m) && (m.Return? || m.Overflow?)
    ensures OffersStay(s, Do(s, m), f)
  {
    assert SpeakerOk(s, m.speaker);
    OneSpeakerOffers(s, Do(s, m), m.speaker, Do(s, m).speakers[m.speaker], f);
  }

  lemma ConfusedOffers(s: System, m: Move, f: string)
    requires Inv(s) && f in s.subscribers && Enabled(s, m) && (m.Mumble? || m.Silence?)
    ensures OffersStay(s, Do(s, m), f)
  {
    assert SpeakerOk(s, m.speaker);
    OneSpeakerOffers(s, Do(s, m), m.speaker, Do(s, m).speakers[m.speaker], f);
  }

  lemma ListenerOffers(s: System, m: Move, f: string)
    requires f in s.subscribers && Enabled(s, m) && (m.Register? || m.Receive? || m.GiveUp?)
    ensures OffersStay(s, Do(s, m), f)
  {
    var s' := Do(s, m);
    assert s'.speakers == s.speakers && s'.clocks == s.clocks;
  }

  lemma OffersCarryOver(s: System, s': System, f: string, since: seq<nat>)
    requires Routed(s, f, since) && OffersStay(s, s', f)
    ensures Routed(s', f, since)
  {
    forall i | 0 <= i < |s'.speakers|
      ensures since[i] <= Offered(s', i, f) <= |Script(s', i)|
      ensures Marks(s'.subscribers[f].offered, Language(s', i))
           == Heard(f, Language(s', i), Script(s', i), since[i], Offered(s', i, f))
    {
      assert Language(s', i) == Language(s, i) && Script(s', i) == Script(s, i)
             && Offered(s', i, f) == Offered(s, i, f);
    }
  }

  /** A send adds the entry in hand to the subscriber's offers if the subscriber hears its message. */
  lemma SendAddsOffer(s: System, i: nat, f: string)
    requires Inv(s) && Enabled(s, Send(i, f))
    ensures var s', e := Do(s, Send(i, f)), Entry(s.speakers[i].phase.clock);
            && f in s'.subscribers
            && s'.subscribers[f].offered
               == (if Hears(f, Language(s, i), Script(s, i)[s.speakers[i].round]) then s.subscribers[f].offered + [e]
                   else s.subscribers[f].offered)
  {
    WantedIsHeard(f, s.speakers[i].language, s.speakers[i].script[s.speakers[i].round]);
  }

  /** What the offers become by that. */
  ghost function OfferedNext(s: System, i: nat, f: string): seq<Entry>
    requires Inv(s) && Enabled(s, Send(i, f))
  {
    if Hears(f, Language(s, i), Script(s, i)[s.speakers[i].round])
    then s.subscribers[f].offered + [Entry(s.speakers[i].phase.clock)]
    else s.subscribers[f].offered
  }

  /** The sender's marks grow by its clock if the message is heard. */
  lemma SenderMarks(s: System, i: nat, f: string, since: seq<nat>)
    requires Inv(s) && Routed(s, f, since) && Enabled(s, Send(i, f))
    ensures since[i] <= Stamps(s, i) <= |Script(s, i)|
    ensures Marks(OfferedNext(s, i, f), Language(s, i))
         == Heard(f, Language(s, i), Script(s, i), since[i], Stamps(s, i))
  {
    EntryInHand(s, i, f);
    assert SpeakerOk(s, i);
    assert Marks(s.subscribers[f].offered, Language(s, i))
        == Heard(f, Language(s, i), Script(s, i), since[i], Stamps(s, i) - 1);
    MarksSnoc(s.subscribers[f].offered, Entry(s.speakers[i].phase.clock), Language(s, i));
  }

  /** Those of the others stay. */
  lemma OtherMarks(s: System, i: nat, f: string, j: nat, since: seq<nat>)
    requires Inv(s) && Routed(s, f, since) && Enabled(s, Send(i, f)) && j < |s.speakers| && j != i
    ensures Marks(OfferedNext(s, i, f), Language(s, j)) == Marks(s.subscribers[f].offered, Language(s, j))
  {
    EntryInHand(s, i, f);
    MarksSnoc(s.subscribers[f].offered, Entry(s.speakers[i].phase.clock), Language(s, j));
  }

  lemma SendOffers(s: System, i: nat, f: string, since: seq<nat>)
    requires Inv(s) && Routed(s, f, since) && Enabled(s, Send(i, f))
    ensures Routed(Do(s, Send(i, f)), f, since)
  {
    var s' := Do(s, Send(i, f));
    SendFacts(s, i, f);
    SendAddsOffer(s, i, f);
    assert s'.subscribers[f].offered == OfferedNext(s, i, f);
    forall j | 0 <= j < |s'.speakers|
      ensures since[j] <= Offered(s', j, f) <= |Script(s', j)|
      ensures Marks(s'.subscribers[f].offered, Language(s', j))
           == Heard(f, Language(s', j), Script(s', j), since[j], Offered(s', j, f))
    {
      OfferedAfterSend(s, i, f, j);
      if j == i {
        SenderMarks(s, i, f, since);
      } else {
        OtherMarks(s, i, f, j, since);
        assert Script(s', j) == Script(s, j);
      }
    }
  }

  lemma MoveRoutes(s: System, m: Move, f: string, since: seq<nat>)
    requires Inv(s) && Routed(s, f, since) && Enabled(s, m)
    ensures Routed(Do(s, m), f, since)
  {
    if m.Send? && m.filter == f {
      SendOffers(s, m.speaker, f, since);
    } else {
      match m {
        case Stamp(i) => StampOffers(s, i, f);
        case Send(i, g) => SendToOthersOffers(s, i, f, g);
        case Push(_) => WritingOffers(s, m, f);
        case Lock(_) => WritingOffers(s, m, f);
        case Return(_) => TurnOffers(s, m, f);
        case Overflow(_) => TurnOffers(s, m, f);
        case Mumble(_, _) => ConfusedOffers(s, m, f);
        case Silence(_) => ConfusedOffers(s, m, f);
        case _ => ListenerOffers(s, m, f);
      }
      OffersCarryOver(s, Do(s, m), f, since);
    }
  }

  lemma {:induction false} RunRoutes(s: System, moves: seq<Move>, f: string, since: seq<nat>)
    requires Inv(s) && Counted(s) && Routed(s, f, since) && IsRun(s, moves)
    ensures Inv(After(s, moves)) && Counted(After(s, moves)) && Routed(After(s, moves), f, since)
    decreases |moves|
  {
    if moves != [] {
      MoveKeeps(s, moves[0]);
      MoveCounts(s, moves[0]);
      MoveRoutes(s, moves[0], f, since);
      RunRoutes(Do(s, moves[0]), moves[1..], f, since);
    }
  }

  // ---------------------------------------------------------------------------------------------
  // Where a subscription starts

  /** How often speaker i has started to notify in these moves. */
  function Locks(moves: seq<Move>, i: nat): nat {
    if moves == [] then 0 else Count(moves[0] == Lock(i)) + Locks(moves[1..], i)
  }

  /** The last clock of speaker i for which it has started to notify. */
  function Announced(s: System, i: nat): int
    requires i < |s.speakers|
  {
    var p := s.speakers[i].phase;
    Stamps(s, i) - if p.Stamped? || p.Journaled? then 1 else 0
  }

  lemma StampAnnounces(s: System, i: nat, j: nat)
    requires Inv(s) && Enabled(s, Stamp(j)) && i < |s.speakers|
    ensures Announced(Do(s, Stamp(j)), i) == Announced(s, i)
  {
    assert SpeakerOk(s, j);
    assert i != j ==> Language(s, i) != Language(s, j);
  }

  lemma TurnAnnounces(s: System, m: Move, i: nat)
    requires Inv(s) && Enabled(s, m) && i < |s.speakers| && (m.Return? || m.Overflow? || m.Mumble? || m.Silence?)
    ensures |Do(s, m).speakers| == |s.speakers| && Announced(Do(s, m), i) == Announced(s, i)
  {
    assert SpeakerOk(s, m.speaker);
    assert Do(s, m).clocks == s.clocks;
  }

  lemma MoveAnnounces(s: System, m: Move, i: nat)
    requires Inv(s) && Enabled(s, m) && i < |s.speakers|
    ensures |Do(s, m).speakers| == |s.speakers| && Announced(Do(s, m), i) == Announced(s, i) + Count(m == Lock(i))
  {
    match m
    case Stamp(j) => StampAnnounces(s, i, j);
    case Push(j) => assert Do(s, m).clocks == s.clocks;
    case Lock(j) => assert Do(s, m).clocks == s.clocks;
    case Send(j, f) => SendFacts(s, j, f);
    case Return(_) => TurnAnnounces(s, m, i);
    case Overflow(_) => TurnAnnounces(s, m, i);
    case Mumble(_, _) => TurnAnnounces(s, m, i);
    case Silence(_) => TurnAnnounces(s, m, i);
    case _ => assert Do(s, m).speakers == s.speakers && Do(s, m).clocks == s.clocks;
  }

  lemma SendKeepsScripts(s: System, j: nat, f: string, i: nat)
    requires Enabled(s, Send(j, f)) && i < |s.speakers|
    ensures var s' := Do(s, Send(j, f)); |s'.speakers| == |s.speakers| && Script(s', i) == Script(s, i)
  {
  }

  lemma TurnKeepsScripts(s: System, m: Move, i: nat)
    requires Enabled(s, m) && i < |s.speakers| && (m.Return? || m.Overflow? || m.Mumble? || m.Silence?)
    ensures |Do(s, m).speakers| == |s.speakers| && Script(Do(s, m), i) == Script(s, i)
  {
  }

  lemma ScriptsStay(s: System, m: Move, i: nat)
    requires Enabled(s, m) && i < |s.speakers|
    ensures |Do(s, m).speakers| == |s.speakers| && Script(Do(s, m), i) == Script(s, i)
  {
    if m.Send? {
      SendKeepsScripts(s, m.speaker, m.filter, i);
    } else if m.Return? || m.Overflow? || m.Mumble? || m.Silence? {
      TurnKeepsScripts(s, m, i);
    }
  }

  lemma {:induction false} RunAnnounces(s: System, moves: seq<Move>, i: nat)
    requires Inv(s) && IsRun(s, moves) && i < |s.speakers|
    ensures var v := After(s, moves);
            && |v.speakers| == |s.speakers| && Script(v, i) == Script(s, i)
            && Announced(v, i) == Announced(s, i) + Locks(moves, i)
    decreases |moves|
  {
    if moves != [] {
      MoveKeeps(s, moves[0]);
      MoveAnnounces(s, moves[0], i);
      ScriptsStay(s, moves[0], i);
      RunAnnounces(Do(s, moves[0]), moves[1..], i);
    }
  }

  lemma {:induction false} RunSplits(s: System, xs: seq<Move>, ys: seq<Move>)
    requires IsRun(s, xs + ys)
    ensures IsRun(s, xs) && IsRun(After(s, xs), ys) && After(s, xs + ys) == After(After(s, xs), ys)
    decreases |xs|
  {
    if xs == [] {
      assert xs + ys == ys;
    } else {
      assert (xs + ys)[1..] == xs[1..] + ys;
      RunSplits(Do(s, xs[0]), xs[1..], ys);
    }
  }

  predicate Castable(languages: seq<string>, scripts: seq<seq<string>>) {
    && |languages| == |scripts|
    && (forall i, j :: 0 <= i < j < |languages| ==> languages[i] != languages[j])
    && (forall i :: 0 <= i < |scripts| ==> |scripts[i]| > OVERFLOW_AFTER)
  }

  /** What the subscriber still has to be sent of speaker i's announced entries. */
  function Outstanding(s: System, i: nat, f: string): nat
    requires i < |s.speakers|
  {
    var p := s.speakers[i].phase;
    Count(p.Notifying? && f in p.todo)
  }

  /** The clocks from which on a subscriber that registers after these moves is notified. */
  function Start(moves: seq<Move>, n: nat): (since: seq<nat>)
    ensures |since| == n && forall i :: 0 <= i < n ==> since[i] == Locks(moves, i)
  {
    seq(n, i requires 0 <= i < n => Locks(moves, i))
  }

  lemma RegisterRoutes(s: System, f: string, since: seq<nat>)
    requires Inv(s) && Enabled(s, Register(f)) && |since| == |s.speakers|
    requires forall i :: 0 <= i < |s.speakers| ==> since[i] == Announced(s, i)
    ensures Routed(Do(s, Register(f)), f, since)
  {
    var s' := Do(s, Register(f));
    forall i | 0 <= i < |s'.speakers|
      ensures since[i] <= Offered(s', i, f) <= |Script(s', i)|
      ensures Marks(s'.subscribers[f].offered, Language(s', i))
           == Heard(f, Language(s', i), Script(s', i), since[i], Offered(s', i, f))
    {
      assert SpeakerOk(s, i) && Written(s, i) >= 0;
      assert Offered(s', i, f) == Announced(s, i);
    }
  }

  /** What holds after a run from the start, the speakers' own numbers included. */
  ghost predicate Played(s: System, languages: seq<string>, scripts: seq<seq<string>>, moves: seq<Move>)
    requires |languages| == |scripts|
  {
    && Inv(s) && Counted(s) && |s.speakers| == |languages|
    && forall i :: 0 <= i < |languages| ==>
         Language(s, i) == languages[i] && Script(s, i) == scripts[i] && Announced(s, i) == Locks(moves, i)
  }

  lemma RunIsPlayed(languages: seq<string>, scripts: seq<seq<string>>, moves: seq<Move>)
    requires Castable(languages, scripts) && IsRun(Initial(languages, scripts), moves)
    ensures Played(After(Initial(languages, scripts), moves), languages, scripts, moves)
  {
    var s0 := Initial(languages, scripts);
    InitialOk(languages, scripts);
    RunCounts(s0, moves);
    RunKeeps(s0, moves);
    var s := After(s0, moves);
    assert |Languages(s)| == |s.speakers|;
    forall i | 0 <= i < |languages|
      ensures Language(s, i) == languages[i] && Script(s, i) == scripts[i] && Announced(s, i) == Locks(moves, i)
    {
      assert Languages(s)[i] == languages[i];
      RunAnnounces(s0, moves, i);
    }
  }

  lemma SubscriptionRoutes(s: System, f: string, since: seq<nat>, after: seq<Move>)
    requires Inv(s) && Counted(s) && IsRun(s, [Register(f)] + after) && |since| == |s.speakers|
    requires forall i :: 0 <= i < |s.speakers| ==> since[i] == Announced(s, i)
    ensures Routed(After(s, [Register(f)] + after), f, since)
  {
    assert ([Register(f)] + after)[1..] == after;
    RegisterRoutes(s, f, since);
    MoveKeeps(s, Register(f));
    MoveCounts(s, Register(f));
    RunRoutes(Do(s, Register(f)), after, f, since);
  }

  /** A run from the start with one subscription in it. */
  lemma SubscribedRun(languages: seq<string>, scripts: seq<seq<string>>, before: seq<Move>, f: string,
                      after: seq<Move>)
    returns (s: System)
    requires Castable(languages, scripts) && IsRun(Initial(languages, scripts), before + [Register(f)] + after)
    ensures s == After(Initial(languages, scripts), before + [Register(f)] + after)
    ensures Played(s, languages, scripts, before + [Register(f)] + after) && Routed(s, f, Start(before, |languages|))
  {
    var s0, all := Initial(languages, scripts), before + [Register(f)] + after;
    s := After(s0, all);
    RunIsPlayed(languages, scripts, all);
    assert all == before + ([Register(f)] + after);
    RunSplits(s0, before, [Register(f)] + after);
    RunIsPlayed(languages, scripts, before);
    SubscriptionRoutes(After(s0, before), f, Start(before, |languages|), after);
  }

  /**
    * The subscriber has been offered, of speaker i, exactly the clocks announced since `before` that its filter
    * selects, in order; only an entry that is just being sent round may still be outstanding.
    */
  ghost predicate OfferedSince(s: System, f: string, i: nat, language: string, script: seq<string>,
                               before: seq<Move>, all: seq<Move>)
  {
    && f in s.subscribers && i < |s.speakers|
    && var hi := Locks(all, i) - Outstanding(s, i, f);
       && hi <= |script|
       && Marks(s.subscribers[f].offered, language) == Heard(f, language, script, Locks(before, i), hi)
  }

  lemma RoutedIsOffered(s: System, f: string, i: nat, before: seq<Move>, all: seq<Move>)
    requires f in s.subscribers && i < |s.speakers| && Announced(s, i) == Locks(all, i)
    requires Offered(s, i, f) <= |Script(s, i)|
    requires Marks(s.subscribers[f].offered, Language(s, i))
          == Heard(f, Language(s, i), Script(s, i), Locks(before, i), Offered(s, i, f))
    ensures OfferedSince(s, f, i, Language(s, i), Script(s, i), before, all)
  {
    assert Offered(s, i, f) == Announced(s, i) - Outstanding(s, i, f);
  }

  /**
    * Whenever a subscriber registers, at every point after that it has been offered, of each speaker, exactly the
    * clocks announced since whose message its filter selects: the filter is the star, the speaker's language, or
    * occurs in the message.
    */
  lemma OfferedExactly(languages: seq<string>, scripts: seq<seq<string>>, before: seq<Move>, f: string,
                       after: seq<Move>)
    requires Castable(languages, scripts) && IsRun(Initial(languages, scripts), before + [Register(f)] + after)
    ensures var all := before + [Register(f)] + after;
            var s := After(Initial(languages, scripts), all);
            forall i :: 0 <= i < |languages| ==> OfferedSince(s, f, i, languages[i], scripts[i], before, all)
  {
    var all := before + [Register(f)] + after;
    var s := SubscribedRun(languages, scripts, before, f, after);
    forall i | 0 <= i < |languages| ensures OfferedSince(s, f, i, languages[i], scripts[i], before, all) {
      assert Language(s, i) == languages[i] && Script(s, i) == scripts[i];
      RoutedIsOffered(s, f, i, before, all);
    }
  }

  // ---------------------------------------------------------------------------------------------
  // The very entries

  /** A mark comes from an entry of that language. */
  lemma {:induction false} MarkHasEntry(entries: seq<Entry>, language: string, k: nat) returns (e: Entry)
    requires k < |Marks(entries, language)|
    ensures e in entries && language in e.clock && e.clock[language] == Marks(entries, language)[k]
  {
    var n := |entries| - 1;
    var front := Marks(entries[..n], language);
    if k < |front| {
      e := MarkHasEntry(entries[..n], language, k);
    } else {
      e := entries[n];
    }
  }

  lemma {:induction false} EntryHasMark(entries: seq<Entry>, language: string, i: nat) returns (k: nat)
    requires i < |entries| && language in entries[i].clock
    ensures k < |Marks(entries, language)| && Marks(entries, language)[k] == entries[i].clock[language]
  {
    var n := |entries| - 1;
    if i == n {
      k := |Marks(entries[..n], language)|;
    } else {
      k := EntryHasMark(entries[..n], language, i);
    }
  }

  /** Speaker i's message of that clock is one that the subscriber has registered in time for, and hears. */
  ghost predicate Selected(s: System, f: string, since: seq<nat>, e: Entry, i: nat) {
    && OfSpeaker(s, e, i) && i < |since|
    && var k := e.clock[Language(s, i)];
       since[i] < k <= |Script(s, i)| && Hears(f, Language(s, i), Script(s, i)[k - 1])
  }

  lemma OfferedIsSelected(s: System, f: string, since: seq<nat>, e: Entry)
    requires Inv(s) && Counted(s) && Routed(s, f, since) && e in s.subscribers[f].offered
    ensures e in s.journal && exists i: nat :: Selected(s, f, since, e, i)
  {
    var offered := s.subscribers[f].offered;
    assert SubscriberCounted(s, f);
    var i: nat :| OfSpeaker(s, e, i);
    var l := Language(s, i);
    var at :| 0 <= at < |offered| && offered[at] == e;
    var k := EntryHasMark(offered, l, at);
    HeardExactly(f, l, Script(s, i), since[i], Offered(s, i, f));
    assert Marks(offered, l)[k] in Heard(f, l, Script(s, i), since[i], Offered(s, i, f));
    assert Selected(s, f, since, e, i);
  }

  lemma SelectedIsOffered(s: System, f: string, since: seq<nat>, e: Entry, i: nat)
    requires Inv(s) && Counted(s) && Routed(s, f, since) && AllSilenced(s)
    requires e in s.journal && Selected(s, f, since, e, i)
    ensures e in s.subscribers[f].offered
  {
    var offered, l := s.subscribers[f].offered, Language(s, i);
    assert SpeakerOk(s, i);
    var at :| 0 <= at < |s.journal| && s.journal[at] == e;
    var k := EntryHasMark(s.journal, l, at);
    assert Marks(s.journal, l) == UpTo(Written(s, i)) && Written(s, i) == Offered(s, i, f);
    var heard := Heard(f, l, Script(s, i), since[i], Offered(s, i, f));
    HeardExactly(f, l, Script(s, i), since[i], Offered(s, i, f));
    assert e.clock[l] in heard;
    var n :| 0 <= n < |heard| && heard[n] == e.clock[l];
    assert Marks(offered, l) == heard;
    var d := MarkHasEntry(offered, l, n);
    OfferedIsSelected(s, f, since, d);
    var h: nat :| Selected(s, f, since, d, h);
    assert Language(s, h) == l;
  }

  /**
    * Once all speakers are silent, a subscriber has been offered exactly the journal entries that its filter selects
    * and that were announced after it registered, and no clock twice.
    */
  lemma RoutedExactly(languages: seq<string>, scripts: seq<seq<string>>, before: seq<Move>, f: string, after: seq<Move>)
    requires Castable(languages, scripts) && IsRun(Initial(languages, scripts), before + [Register(f)] + after)
    requires AllSilenced(After(Initial(languages, scripts), before + [Register(f)] + after))
    ensures var s := After(Initial(languages, scripts), before + [Register(f)] + after);
            && f in s.subscribers
            && (forall e :: e in s.subscribers[f].offered <==>
                  e in s.journal && exists i: nat :: Selected(s, f, Start(before, |languages|), e, i))
            && forall i :: 0 <= i < |languages| ==> Rising(Marks(s.subscribers[f].offered, languages[i]))
  {
    var since := Start(before, |languages|);
    var s := SubscribedRun(languages, scripts, before, f, after);
    forall e ensures e in s.subscribers[f].offered <==>
                     e in s.journal && exists i: nat :: Selected(s, f, since, e, i) {
      if e in s.subscribers[f].offered {
        OfferedIsSelected(s, f, since, e);
      }
      if e in s.journal && exists i: nat :: Selected(s, f, since, e, i) {
        var i: nat :| Selected(s, f, since, e, i);
        SelectedIsOffered(s, f, since, e, i);
      }
    }
    forall i | 0 <= i < |languages| ensures Rising(Marks(s.subscribers[f].offered, languages[i])) {
      assert Language(s, i) == languages[i];
      HeardExactly(f, languages[i], Script(s, i), since[i], Offered(s, i, f));
    }
  }

  /** Who registers first under a speaker's language has, in the end, been offered all its journal entries. */
  lemma LanguageSubscriber(languages: seq<string>, scripts: seq<seq<string>>, n: nat, moves: seq<Move>)
    requires Castable(languages, scripts) && n < |languages|
    requires IsRun(Initial(languages, scripts), [Register(languages[n])] + moves)
    requires AllSilenced(After(Initial(languages, scripts), [Register(languages[n])] + moves))
    ensures var s := After(Initial(languages, scripts), [Register(languages[n])] + moves);
            && languages[n] in s.subscribers && n < |s.speakers|
            && Marks(s.subscribers[languages[n]].offered, languages[n]) == UpTo(81)
            && forall e :: e in s.journal && OfSpeaker(s, e, n) ==> e in s.subscribers[languages[n]].offered
  {
    var f := languages[n];
    assert [] + [Register(f)] + moves == [Register(f)] + moves;
    var s := SubscribedRun(languages, scripts, [], f, moves);
    var since := Start([], |languages|);
    assert Language(s, n) == f && Script(s, n) == scripts[n];
    assert SpeakerOk(s, n);
    EverythingHeard(f, f, scripts[n], 81);
    forall e | e in s.journal && OfSpeaker(s, e, n) ensures e in s.subscribers[f].offered {
      EntryOffered(s, f, since, e, n);
    }
  }

  const ALL: string := "*"

  /** The subscriber to everything since the start. */
  ghost predicate HearsAll(s: System) {
    Inv(s) && Counted(s) && Routed(s, ALL, Start([], |s.speakers|)) && AllSilenced(s)
  }

  lemma AsManyOffered(s: System)
    requires HearsAll(s)
    ensures |s.subscribers[ALL].offered| == |s.journal|
  {
    var offered := s.subscribers[ALL].offered;
    SilencedJournal(s);
    assert SubscriberCounted(s, ALL);
    forall k | 0 <= k < |offered| ensures HasSpeaker(s, offered[k]) {
      assert offered[k] in offered;
    }
    EveryEntryCounted(s, offered);
    forall i | 0 <= i < |s.speakers| ensures |Marks(offered, Languages(s)[i])| == 81 {
      assert SpeakerOk(s, i);
      EverythingHeard(ALL, Language(s, i), Script(s, i), 81);
    }
    EqualTotals(offered, Languages(s), 81);
  }

  /** Not only as many: the very entries of the journal. */
  lemma EachOffered(s: System, e: Entry)
    requires HearsAll(s) && e in s.journal
    ensures e in s.subscribers[ALL].offered
  {
    var i: nat :| OfSpeaker(s, e, i);
    EntryOffered(s, ALL, Start([], |s.speakers|), e, i);
  }

  /** An entry of a speaker all of whose clocks the subscriber hears. */
  lemma EntryOffered(s: System, f: string, since: seq<nat>, e: Entry, i: nat)
    requires Inv(s) && Counted(s) && Routed(s, f, since) && AllSilenced(s) && e in s.journal && OfSpeaker(s, e, i)
    requires since[i] == 0 && (f == ALL || f == Language(s, i))
    ensures e in s.subscribers[f].offered
  {
    var at :| 0 <= at < |s.journal| && s.journal[at] == e;
    var k := EntryHasMark(s.journal, Language(s, i), at);
    assert SpeakerOk(s, i) && Marks(s.journal, Language(s, i)) == UpTo(Written(s, i));
    assert Selected(s, f, since, e, i);
    SelectedIsOffered(s, f, since, e, i);
  }

  /**
    * If the subscriber to everything registers first, then once all speakers are silent it has been offered every
    * journal entry, and as many as it has neither received nor queued were counted as dropped.
    */
  lemma FirstSubscriberMissesNothing(languages: seq<string>, scripts: seq<seq<string>>, moves: seq<Move>)
    requires Castable(languages, scripts) && IsRun(Initial(languages, scripts), [Register(ALL)] + moves)
    requires AllSilenced(After(Initial(languages, scripts), [Register(ALL)] + moves))
    ensures var s := After(Initial(languages, scripts), [Register(ALL)] + moves);
            && ALL in s.subscribers
            && var sub := s.subscribers[ALL];
               && |sub.offered| == |s.journal| && (forall e :: e in s.journal ==> e in sub.offered)
               && IsSubsequence(sub.received + sub.queue, sub.offered)
               && |sub.received| + |sub.queue| + s.lost[ALL] == |s.journal|
               && s.lost[ALL] <= s.dropped
  {
    assert [] + [Register(ALL)] + moves == [Register(ALL)] + moves;
    var s := SubscribedRun(languages, scripts, [], ALL, moves);
    AsManyOffered(s);
    assert SubscriberCounted(s, ALL);
    CountWithin(s.lost, ALL);
    forall e | e in s.journal ensures e in s.subscribers[ALL].offered {
      EachOffered(s, e);
    }
  }

  lemma CountWithin<X>(m: multiset<X>, x: X)
    ensures m[x] <= |m|
  {
    assert m == m[x := 0] + multiset{}[x := m[x]];
    assert |multiset{}[x := m[x]]| == m[x];
  }
}
