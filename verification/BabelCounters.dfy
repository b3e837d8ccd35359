/** What the shared counters have counted in a run, and who has been told of the entry in hand. */
module BabelCounters {
  import opened Babel
  import opened BabelOrder
  import opened BabelTheorems
  import opened BabelDrops
  import opened BabelRouting

  // ---------------------------------------------------------------------------------------------
  // Counters

  /** The move sends a message that the subscriber hears to a queue that is closed or full. */
  ghost predicate Loses(s: System, m: Move, f: string)
    requires Enabled(s, m)
  {
    && m.Send? && m.filter == f
    && Hears(f, Language(s, m.speaker), Script(s, m.speaker)[s.speakers[m.speaker].round])
    && (!s.subscribers[f].open || |s.subscribers[f].queue| >= 100)
  }

  ghost function Losses(s: System, moves: seq<Move>, f: string): nat
    requires IsRun(s, moves)
    decreases |moves|
  {
    if moves == [] then 0 else Count(Loses(s, moves[0], f)) + Losses(Do(s, moves[0]), moves[1..], f)
  }

  function Mumbles(moves: seq<Move>): nat {
    if moves == [] then 0 else Count(moves[0].Mumble? && moves[0].lost) + Mumbles(moves[1..])
  }

  lemma SendLoses(s: System, i: nat, g: string, f: string)
    requires Inv(s) && Enabled(s, Send(i, g))
    ensures Do(s, Send(i, g)).lost[f] == s.lost[f] + Count(Loses(s, Send(i, g), f))
    ensures Do(s, Send(i, g)).mumbled == s.mumbled
  {
    WantedIsHeard(g, Language(s, i), Script(s, i)[s.speakers[i].round]);
  }

  lemma MoveLoses(s: System, m: Move, f: string)
    requires Inv(s) && Enabled(s, m)
    ensures Do(s, m).lost[f] == s.lost[f] + Count(Loses(s, m, f))
    ensures Do(s, m).mumbled == s.mumbled + Count(m.Mumble? && m.lost)
  {
    if m.Send? {
      SendLoses(s, m.speaker, m.filter, f);
    } else if m.Mumble? {
      assert SpeakerOk(s, m.speaker);
    }
  }

  lemma {:induction false} RunLoses(s: System, moves: seq<Move>, f: string)
    requires Inv(s) && IsRun(s, moves)
    ensures After(s, moves).lost[f] == s.lost[f] + Losses(s, moves, f)
    ensures After(s, moves).mumbled == s.mumbled + Mumbles(moves)
    decreases |moves|
  {
    if moves != [] {
      MoveKeeps(s, moves[0]);
      MoveLoses(s, moves[0], f);
      RunLoses(Do(s, moves[0]), moves[1..], f);
    }
  }

  // ---------------------------------------------------------------------------------------------
  // Chaos

  /** Chaos begins with the first speaker that is confused. */
  predicate ChaosOk(s: System) {
    s.chaos <==> exists i :: 0 <= i < |s.speakers| && s.speakers[i].state != Speaking
  }

  lemma ChaosFrame(s: System, s': System, i: nat, g: Speaker)
    requires ChaosOk(s) && i < |s.speakers| && s'.speakers == s.speakers[i := g]
    requires g.state == s.speakers[i].state && s'.chaos == s.chaos
    ensures ChaosOk(s')
  {
    assert forall j :: 0 <= j < |s.speakers| ==> s'.speakers[j].state == s.speakers[j].state;
  }

  lemma StateChanges(s: System, m: Move)
    requires Inv(s) && ChaosOk(s) && Enabled(s, m) && (m.Overflow? || m.Silence?)
    ensures ChaosOk(Do(s, m))
  {
    var s' := Do(s, m);
    assert SpeakerOk(s, m.speaker);
    assert s.speakers[m.speaker].state == if m.Overflow? then Speaking else Confused;
    assert s'.speakers[m.speaker].state != Speaking;
  }

  lemma MoveChaos(s: System, m: Move)
    requires Inv(s) && ChaosOk(s) && Enabled(s, m)
    ensures ChaosOk(Do(s, m))
  {
    match m
    case Send(i, f) =>
      SendFacts(s, i, f);
      ChaosFrame(s, Do(s, m), i, Do(s, m).speakers[i]);
    case Stamp(i) => ChaosFrame(s, Do(s, m), i, Do(s, m).speakers[i]);
    case Push(i) => ChaosFrame(s, Do(s, m), i, Do(s, m).speakers[i]);
    case Lock(i) => ChaosFrame(s, Do(s, m), i, Do(s, m).speakers[i]);
    case Return(i) => ChaosFrame(s, Do(s, m), i, Do(s, m).speakers[i]);
    case Mumble(i, _) =>
      assert SpeakerOk(s, i);
      ChaosFrame(s, Do(s, m), i, Do(s, m).speakers[i]);
    case Overflow(_) => StateChanges(s, m);
    case Silence(_) => StateChanges(s, m);
    case _ => assert Do(s, m).speakers == s.speakers && Do(s, m).chaos == s.chaos;
  }

  // ---------------------------------------------------------------------------------------------
  // The entry in hand

  /** The subscriber that speaker i need not send the entry in hand any more has been offered it, if it hears it. */
  ghost predicate Told(s: System, i: nat, f: string)
    requires i < |s.speakers|
  {
    var g := s.speakers[i];
    g.phase.Notifying? && g.round < |g.script| && f in s.subscribers && f !in g.phase.todo
      && Hears(f, g.language, g.script[g.round]) ==>
      Entry(g.phase.clock) in s.subscribers[f].offered
  }

  ghost predicate AllTold(s: System) {
    forall i, f :: 0 <= i < |s.speakers| && f in s.subscribers ==> Told(s, i, f)
  }

  /** What nobody is told by one speaker's move that is no send. */
  lemma SpeakerTells(s: System, s': System, i: nat, g: Speaker)
    requires AllTold(s) && i < |s.speakers| && s'.speakers == s.speakers[i := g] && s'.subscribers == s.subscribers
    requires !g.phase.Notifying? || g.phase.todo == s.subscribers.Keys
    ensures AllTold(s')
  {
    forall j, f | 0 <= j < |s'.speakers| && f in s'.subscribers ensures Told(s', j, f) {
      assert Told(s, j, f);
    }
  }

  lemma SendTells(s: System, i: nat, g: string)
    requires Inv(s) && AllTold(s) && Enabled(s, Send(i, g))
    ensures AllTold(Do(s, Send(i, g)))
  {
    var s' := Do(s, Send(i, g));
    SendFacts(s, i, g);
    SendAddsOffer(s, i, g);
    forall j, f | 0 <= j < |s'.speakers| && f in s'.subscribers ensures Told(s', j, f) {
      assert Told(s, j, f);
    }
  }

  /** Nobody can register while a speaker is notifying. */
  lemma ListenersTell(s: System, m: Move)
    requires AllTold(s) && Enabled(s, m) && (m.Register? || m.Receive? || m.GiveUp?)
    ensures AllTold(Do(s, m))
  {
    var s' := Do(s, m);
    forall j, f | 0 <= j < |s'.speakers| && f in s'.subscribers ensures Told(s', j, f) {
      if f in s.subscribers {
        assert Told(s, j, f);
      }
    }
  }

  lemma MoveTells(s: System, m: Move)
    requires Inv(s) && AllTold(s) && Enabled(s, m)
    ensures AllTold(Do(s, m))
  {
    match m
    case Send(i, f) => SendTells(s, i, f);
    case Stamp(i) => SpeakerTells(s, Do(s, m), i, Do(s, m).speakers[i]);
    case Push(i) => SpeakerTells(s, Do(s, m), i, Do(s, m).speakers[i]);
    case Lock(i) => SpeakerTells(s, Do(s, m), i, Do(s, m).speakers[i]);
    case Return(i) => SpeakerTells(s, Do(s, m), i, Do(s, m).speakers[i]);
    case Overflow(i) =>
      assert SpeakerOk(s, i);
      SpeakerTells(s, Do(s, m), i, Do(s, m).speakers[i]);
    case Mumble(i, _) =>
      assert SpeakerOk(s, i);
      SpeakerTells(s, Do(s, m), i, Do(s, m).speakers[i]);
    case Silence(i) =>
      assert SpeakerOk(s, i);
      SpeakerTells(s, Do(s, m), i, Do(s, m).speakers[i]);
    case _ => ListenersTell(s, m);
  }

  // ---------------------------------------------------------------------------------------------
  // Giving up

  /** A listener gives up only on an empty queue, and nothing reaches it after that. */
  predicate GoneIsEmpty(s: System) {
    forall f :: f in s.subscribers && !s.subscribers[f].open ==> s.subscribers[f].queue == []
  }

  lemma MoveGone(s: System, m: Move)
    requires Inv(s) && GoneIsEmpty(s) && Enabled(s, m)
    ensures GoneIsEmpty(Do(s, m))
    ensures forall f :: f in s.subscribers && !s.subscribers[f].open ==>
              && f in Do(s, m).subscribers && !Do(s, m).subscribers[f].open
              && Do(s, m).subscribers[f].received == s.subscribers[f].received
  {
    match m
    case Send(i, f) => SendGone(s, i, f);
    case Register(_) =>
    case Receive(_) =>
    case GiveUp(_) =>
    case _ => assert Do(s, m).subscribers == s.subscribers;
  }

  lemma SendGone(s: System, i: nat, g: string)
    requires Inv(s) && GoneIsEmpty(s) && Enabled(s, Send(i, g))
    ensures var s' := Do(s, Send(i, g));
            && GoneIsEmpty(s')
            && forall f :: f in s.subscribers && !s.subscribers[f].open ==>
                 && f in s'.subscribers && !s'.subscribers[f].open
                 && s'.subscribers[f].received == s.subscribers[f].received
  {
    SendFacts(s, i, g);
  }

  /** So what it has received is final. */
  lemma {:induction false} GoneForEver(s: System, moves: seq<Move>)
    requires Inv(s) && GoneIsEmpty(s) && IsRun(s, moves)
    ensures var v := After(s, moves);
            && GoneIsEmpty(v)
            && forall f :: f in s.subscribers && !s.subscribers[f].open ==>
                 && f in v.subscribers && !v.subscribers[f].open
                 && v.subscribers[f].received == s.subscribers[f].received
    decreases |moves|
  {
    if moves != [] {
      MoveKeeps(s, moves[0]);
      MoveGone(s, moves[0]);
      GoneForEver(Do(s, moves[0]), moves[1..]);
    }
  }

  // ---------------------------------------------------------------------------------------------
  // Runs

  lemma {:induction false} RunTells(s: System, moves: seq<Move>)
    requires Inv(s) && AllTold(s) && ChaosOk(s) && IsRun(s, moves)
    ensures AllTold(After(s, moves)) && ChaosOk(After(s, moves)) && Inv(After(s, moves))
    decreases |moves|
  {
    if moves != [] {
      MoveKeeps(s, moves[0]);
      MoveTells(s, moves[0]);
      MoveChaos(s, moves[0]);
      RunTells(Do(s, moves[0]), moves[1..]);
    }
  }

  /**
    * In every state of every run: what a subscriber has lost are exactly the messages it hears that were sent while
    * its queue was full or closed; what was mumbled is what confused speakers chose to lose; chaos has begun exactly
    * if somebody is confused or silent; and while a speaker is notifying, every registered subscriber that hears
    * the message is still to be sent the entry or has been offered it. A listener that has given up has nothing
    * left in its queue.
    */
  lemma CountersExactly(languages: seq<string>, scripts: seq<seq<string>>, moves: seq<Move>)
    requires Castable(languages, scripts) && IsRun(Initial(languages, scripts), moves)
    ensures var s0 := Initial(languages, scripts);
            var s := After(s0, moves);
            && (forall f :: s.lost[f] == Losses(s0, moves, f)) && s.mumbled == Mumbles(moves)
            && ChaosOk(s) && AllTold(s) && GoneIsEmpty(s)
  {
    var s0 := Initial(languages, scripts);
    InitialOk(languages, scripts);
    RunTells(s0, moves);
    RunLoses(s0, moves, "");
    GoneForEver(s0, moves);
    forall f ensures After(s0, moves).lost[f] == Losses(s0, moves, f) {
      RunLoses(s0, moves, f);
    }
  }
}
