/** Nothing that was to be sent goes uncounted, and speakers come to an end. */
module BabelDrops {
  import opened Babel
  import opened BabelOrder
  import opened BabelTheorems
  import opened Sets

  // ---------------------------------------------------------------------------------------------
  // Every offer is delivered or lost, and every loss counted

  /** The entries xs are some of the entries ys, in the same order. */
  predicate IsSubsequence(xs: seq<Entry>, ys: seq<Entry>) {
    if ys == [] then xs == []
    else
      var n := |ys| - 1;
      || (xs != [] && xs[|xs| - 1] == ys[n] && IsSubsequence(xs[..|xs| - 1], ys[..n]))
      || IsSubsequence(xs, ys[..n])
  }

  lemma TakenOver(xs: seq<Entry>, ys: seq<Entry>, e: Entry)
    requires IsSubsequence(xs, ys)
    ensures IsSubsequence(xs + [e], ys + [e]) && IsSubsequence(xs, ys + [e])
  {
    assert (xs + [e])[..|xs|] == xs && (ys + [e])[..|ys|] == ys;
  }

  predicate SubscriberCounted(s: System, f: string)
    requires f in s.subscribers
  {
    var sub := s.subscribers[f];
    && IsSubsequence(sub.received + sub.queue, sub.offered)
    && |sub.offered| == |sub.received| + |sub.queue| + s.lost[f]
    && forall e :: e in sub.offered ==> e in s.journal
  }

  predicate Counted(s: System) {
    && s.dropped == s.mumbled + |s.lost|
    && (forall f :: f in s.subscribers ==> SubscriberCounted(s, f))
    && forall f :: f in s.lost ==> f in s.subscribers
  }

  /** Counting depends on the counters, the subscribers and a journal that can only grow. */
  lemma CountsCarryOver(s: System, s': System)
    requires Counted(s) && s'.subscribers == s.subscribers && s'.lost == s.lost && s.journal <= s'.journal
    requires s'.dropped - s'.mumbled == s.dropped - s.mumbled
    ensures Counted(s')
  {
    forall f | f in s'.subscribers ensures SubscriberCounted(s', f) {
      assert SubscriberCounted(s, f);
    }
  }

  /** A subscriber that is sent an entry takes it or loses it. */
  lemma TakeCounts(s: System, s': System, f: string, e: Entry)
    requires f in s.subscribers && SubscriberCounted(s, f) && e in s.journal && s'.journal == s.journal
    requires var sub := s.subscribers[f];
             && f in s'.subscribers && s'.lost == s.lost
             && s'.subscribers[f] == sub.(offered := sub.offered + [e], queue := sub.queue + [e])
    ensures SubscriberCounted(s', f)
  {
    var sub := s.subscribers[f];
    TakenOver(sub.received + sub.queue, sub.offered, e);
    assert sub.received + (sub.queue + [e]) == sub.received + sub.queue + [e];
  }

  lemma LossCounts(s: System, s': System, f: string, e: Entry)
    requires f in s.subscribers && SubscriberCounted(s, f) && e in s.journal && s'.journal == s.journal
    requires var sub := s.subscribers[f];
             && f in s'.subscribers && s'.lost[f] == s.lost[f] + 1
             && s'.subscribers[f] == sub.(offered := sub.offered + [e])
    ensures SubscriberCounted(s', f)
  {
    var sub := s.subscribers[f];
    TakenOver(sub.received + sub.queue, sub.offered, e);
  }

  lemma OfferCounts(s: System, f: string, e: Entry)
    requires Counted(s) && f in s.subscribers && e in s.journal
    ensures SubscriberCounted(TrySend(s, f, e), f)
  {
    var sub := s.subscribers[f];
    assert SubscriberCounted(s, f);
    if sub.open && |sub.queue| < CAPACITY {
      TakeCounts(s, TrySend(s, f, e), f, e);
    } else {
      LossCounts(s, TrySend(s, f, e), f, e);
    }
  }

  lemma TrySendCounts(s: System, f: string, e: Entry)
    requires Counted(s) && f in s.subscribers && e in s.journal
    ensures Counted(TrySend(s, f, e))
  {
    var s' := TrySend(s, f, e);
    OfferCounts(s, f, e);
    forall g | g in s'.subscribers && g != f ensures SubscriberCounted(s', g) {
      assert SubscriberCounted(s, g);
    }
    assert |s.lost + multiset{f}| == |s.lost| + 1;
  }

  lemma SendCounts(s: System, i: nat, f: string)
    requires Inv(s) && Counted(s) && Enabled(s, Send(i, f))
    ensures Counted(Do(s, Send(i, f)))
  {
    var g := s.speakers[i];
    var s1 := With(s, i, g.(phase := Notifying(g.phase.clock, g.phase.todo - {f})));
    assert SpeakerOk(s, i);
    CountsCarryOver(s, s1);
    TrySendCounts(s1, f, Entry(g.phase.clock));
  }

  lemma RegisterCounts(s: System, filter: string)
    requires Counted(s) && Enabled(s, Register(filter))
    ensures Counted(Do(s, Register(filter)))
  {
    var s' := Do(s, Register(filter));
    forall f | f in s'.subscribers ensures SubscriberCounted(s', f) {
      if f == filter {
        var none: seq<Entry> := [];
        assert none + none == none;
      } else {
        assert SubscriberCounted(s, f);
      }
    }
  }

  lemma ReceiveCounts(s: System, filter: string)
    requires Counted(s) && Enabled(s, Receive(filter))
    ensures Counted(Do(s, Receive(filter)))
  {
    var s' := Do(s, Receive(filter));
    var sub, sub' := s.subscribers[filter], s'.subscribers[filter];
    assert SubscriberCounted(s, filter);
    assert sub'.received + sub'.queue == sub.received + sub.queue;
    forall f | f in s'.subscribers && f != filter ensures SubscriberCounted(s', f) {
      assert SubscriberCounted(s, f);
    }
  }

  lemma GiveUpCounts(s: System, filter: string)
    requires Counted(s) && Enabled(s, GiveUp(filter))
    ensures Counted(Do(s, GiveUp(filter)))
  {
    var s' := Do(s, GiveUp(filter));
    forall f | f in s'.subscribers ensures SubscriberCounted(s', f) {
      assert SubscriberCounted(s, f);
    }
  }

  lemma WritingCounts(s: System, m: Move)
    requires Counted(s) && Enabled(s, m) && (m.Stamp? || m.Push? || m.Lock?)
    ensures Counted(Do(s, m))
  {
    CountsCarryOver(s, Do(s, m));
  }

  lemma TurnCounts(s: System, m: Move)
    requires Counted(s) && Enabled(s, m) && (m.Return? || m.Overflow?)
    ensures Counted(Do(s, m))
  {
    CountsCarryOver(s, Do(s, m));
  }

  lemma MumbleCounts(s: System, i: nat, lost: bool)
    requires Counted(s) && Enabled(s, Mumble(i, lost))
    ensures Counted(Do(s, Mumble(i, lost)))
  {
    CountsCarryOver(s, Do(s, Mumble(i, lost)));
  }

  lemma SilenceCounts(s: System, i: nat)
    requires Counted(s) && Enabled(s, Silence(i))
    ensures Counted(Do(s, Silence(i)))
  {
    CountsCarryOver(s, Do(s, Silence(i)));
  }

  lemma MoveCounts(s: System, m: Move)
    requires Inv(s) && Counted(s) && Enabled(s, m)
    ensures Counted(Do(s, m))
  {
    match m
    case Send(i, f) => SendCounts(s, i, f);
    case Register(f) => RegisterCounts(s, f);
    case Receive(f) => ReceiveCounts(s, f);
    case GiveUp(f) => GiveUpCounts(s, f);
    case Stamp(_) => WritingCounts(s, m);
    case Push(_) => WritingCounts(s, m);
    case Lock(_) => WritingCounts(s, m);
    case Return(_) => TurnCounts(s, m);
    case Overflow(_) => TurnCounts(s, m);
    case Mumble(i, lost) => MumbleCounts(s, i, lost);
    case Silence(i) => SilenceCounts(s, i);
  }

  lemma {:induction false} RunCounts(s: System, moves: seq<Move>)
    requires Inv(s) && Counted(s) && IsRun(s, moves)
    ensures Inv(After(s, moves)) && Counted(After(s, moves))
    decreases |moves|
  {
    if moves != [] {
      MoveKeeps(s, moves[0]);
      MoveCounts(s, moves[0]);
      RunCounts(Do(s, moves[0]), moves[1..]);
    }
  }

  /**
    * In every state of every run a subscriber has received or queued some of what it was offered, in the order it
    * was offered, and lost the rest; and the dropped counter is what was mumbled away and what was lost.
    */
  lemma NothingUncounted(languages: seq<string>, scripts: seq<seq<string>>, moves: seq<Move>)
    requires |languages| == |scripts|
    requires forall i, j :: 0 <= i < j < |languages| ==> languages[i] != languages[j]
    requires forall i :: 0 <= i < |scripts| ==> |scripts[i]| > OVERFLOW_AFTER
    requires IsRun(Initial(languages, scripts), moves)
    ensures var s := After(Initial(languages, scripts), moves);
            && s.dropped == s.mumbled + |s.lost|
            && forall f :: f in s.subscribers ==>
                 var sub := s.subscribers[f];
                 && IsSubsequence(sub.received + sub.queue, sub.offered)
                 && |sub.offered| == |sub.received| + |sub.queue| + s.lost[f]
  {
    InitialOk(languages, scripts);
    RunCounts(Initial(languages, scripts), moves);
    var s := After(Initial(languages, scripts), moves);
    forall f | f in s.subscribers
      ensures var sub := s.subscribers[f];
              && IsSubsequence(sub.received + sub.queue, sub.offered)
              && |sub.offered| == |sub.received| + |sub.queue| + s.lost[f]
    {
      assert SubscriberCounted(s, f);
    }
  }

  // ---------------------------------------------------------------------------------------------
  // Speakers come to an end

  predicate IsSpeakerMove(m: Move) {
    !m.Register? && !m.Receive? && !m.GiveUp?
  }

  function SpeakerMoves(moves: seq<Move>): nat {
    if moves == [] then 0 else Count(IsSpeakerMove(moves[0])) + SpeakerMoves(moves[1..])
  }

  /** The moves this many rounds can take with at most b subscribers. */
  function Budget(b: nat, rounds: nat): nat {
    if rounds == 0 then 0 else Budget(b, rounds - 1) + b + 6
  }

  /** The moves left in the current round. */
  function Left(p: Phase, b: nat): nat {
    match p
    case Ready => b + 6
    case Stamped(_) => b + 5
    case Journaled(_) => b + 4
    case Notifying(_, todo) => |todo| + 2
    case Overflowing => 1
  }

  function Remaining(g: Speaker, b: nat): nat {
    (if g.round < |g.script|
        then Budget(b, |g.script| - g.round - 1) + Left(g.phase, b) else 0) + Count(g.state != Silenced)
  }

  function TotalRemaining(speakers: seq<Speaker>, b: nat): nat {
    if speakers == [] then 0 else Remaining(speakers[0], b) + TotalRemaining(speakers[1..], b)
  }

  lemma {:induction false} TotalAfterUpdate(speakers: seq<Speaker>, i: nat, g: Speaker, b: nat)
    requires i < |speakers|
    ensures TotalRemaining(speakers[i := g], b) + Remaining(speakers[i], b)
              == TotalRemaining(speakers, b) + Remaining(g, b)
  {
    if i == 0 {
      assert speakers[0 := g][1..] == speakers[1..];
    } else {
      assert speakers[i := g][1..] == speakers[1..][i - 1 := g];
      TotalAfterUpdate(speakers[1..], i - 1, g, b);
    }
  }

  /** Going on to the next round costs what was left of this one. */
  lemma NextRoundUses(g: Speaker, b: nat)
    requires g.round < |g.script|
    ensures Remaining(g.(phase := Ready, round := g.round + 1), b) + Left(g.phase, b) <= Remaining(g, b)
  {
  }

  predicate Uses(s: System, s': System, i: nat, b: nat) {
    && i < |s.speakers| == |s'.speakers| && s'.speakers == s.speakers[i := s'.speakers[i]]
    && Remaining(s'.speakers[i], b) < Remaining(s.speakers[i], b)
  }

  /** Moving on within the round. */
  lemma PhaseUses(s: System, s': System, i: nat, p: Phase, b: nat)
    requires i < |s.speakers| && s'.speakers == s.speakers[i := s.speakers[i].(phase := p)]
    requires s.speakers[i].round < |s.speakers[i].script| && Left(p, b) < Left(s.speakers[i].phase, b)
    ensures Uses(s, s', i, b)
  {
  }

  lemma WritingUses(s: System, m: Move, b: nat)
    requires Inv(s) && Enabled(s, m) && |s.subscribers.Keys| <= b && (m.Stamp? || m.Push? || m.Lock?)
    ensures Uses(s, Do(s, m), m.speaker, b)
  {
    assert SpeakerOk(s, m.speaker);
    PhaseUses(s, Do(s, m), m.speaker, Do(s, m).speakers[m.speaker].phase, b);
  }

  lemma SendUses(s: System, i: nat, f: string, b: nat)
    requires Inv(s) && Enabled(s, Send(i, f))
    ensures Uses(s, Do(s, Send(i, f)), i, b)
  {
    var p := s.speakers[i].phase;
    assert SpeakerOk(s, i);
    SendFacts(s, i, f);
    assert |p.todo - {f}| == |p.todo| - 1;
    PhaseUses(s, Do(s, Send(i, f)), i, Notifying(p.clock, p.todo - {f}), b);
  }

  lemma LoopUses(s: System, m: Move, b: nat)
    requires Inv(s) && Enabled(s, m) && (m.Return? || m.Overflow?)
    ensures Uses(s, Do(s, m), m.speaker, b)
  {
    var g := s.speakers[m.speaker];
    assert SpeakerOk(s, m.speaker);
    NextRoundUses(g, b);
    NextRoundUses(g.(state := Confused), b);
  }

  lemma ConfusedUses(s: System, m: Move, b: nat)
    requires Inv(s) && Enabled(s, m) && (m.Mumble? || m.Silence?)
    ensures Uses(s, Do(s, m), m.speaker, b)
  {
    var g := s.speakers[m.speaker];
    assert SpeakerOk(s, m.speaker);
    if m.Mumble? {
      NextRoundUses(g, b);
    }
  }

  /** Each move of a speaker uses up at least one of what remains to it. */
  lemma SpeakerMoveUses(s: System, m: Move, b: nat)
    requires Inv(s) && Enabled(s, m) && IsSpeakerMove(m) && |s.subscribers.Keys| <= b
    ensures Uses(s, Do(s, m), m.speaker, b)
  {
    if m.Stamp? || m.Push? || m.Lock? {
      WritingUses(s, m, b);
    } else if m.Send? {
      SendUses(s, m.speaker, m.filter, b);
    } else if m.Return? || m.Overflow? {
      LoopUses(s, m, b);
    } else {
      ConfusedUses(s, m, b);
    }
  }

  lemma SubscribersGrow(s: System, m: Move)
    requires Enabled(s, m)
    ensures s.subscribers.Keys <= Do(s, m).subscribers.Keys
    ensures !IsSpeakerMove(m) ==> Do(s, m).speakers == s.speakers
  {
  }

  lemma {:induction false} SubscribersGrowAlong(s: System, moves: seq<Move>)
    requires IsRun(s, moves)
    ensures s.subscribers.Keys <= After(s, moves).subscribers.Keys
    decreases |moves|
  {
    if moves != [] {
      SubscribersGrow(s, moves[0]);
      SubscribersGrowAlong(Do(s, moves[0]), moves[1..]);
    }
  }

  /**
    * Speakers make finitely many moves: no more than their scripts allow, in any run that ends with at most b
    * subscribers, whatever the listeners do in between.
    */
  lemma {:induction false} SpeakerMovesBounded(s: System, moves: seq<Move>, b: nat)
    requires Inv(s) && IsRun(s, moves) && |After(s, moves).subscribers.Keys| <= b
    ensures SpeakerMoves(moves) + TotalRemaining(After(s, moves).speakers, b) <= TotalRemaining(s.speakers, b)
    decreases |moves|
  {
    if moves != [] {
      var m, s' := moves[0], Do(s, moves[0]);
      MoveKeeps(s, m);
      SubscribersGrow(s, m);
      SubscribersGrowAlong(s, moves);
      SubsetSize(s.subscribers.Keys, After(s, moves).subscribers.Keys);
      if IsSpeakerMove(m) {
        SpeakerMoveUses(s, m, b);
        TotalAfterUpdate(s.speakers, m.speaker, s'.speakers[m.speaker], b);
      }
      SpeakerMovesBounded(s', moves[1..], b);
    }
  }

  // ---------------------------------------------------------------------------------------------
  // Silence can always be reached

  lemma SubscribersStay(s: System, m: Move)
    requires Enabled(s, m) && IsSpeakerMove(m)
    ensures Do(s, m).subscribers.Keys == s.subscribers.Keys
  {
  }

  /** From every reachable state the speakers alone can go on until all are silent, whoever listens or does not. */
  lemma {:induction false} SilenceIsReachable(s: System) returns (moves: seq<Move>)
    requires Inv(s)
    ensures IsRun(s, moves) && AllSilenced(After(s, moves)) && forall i :: 0 <= i < |moves| ==> IsSpeakerMove(moves[i])
    decreases TotalRemaining(s.speakers, |s.subscribers.Keys|)
  {
    moves := [];
    if i: nat :| i < |s.speakers| && s.speakers[i].state != Silenced {
      var m := SpeakersNeverWait(s, i);
      var s', b := Do(s, m), |s.subscribers.Keys|;
      MoveKeeps(s, m);
      SubscribersStay(s, m);
      SpeakerMoveUses(s, m, b);
      TotalAfterUpdate(s.speakers, i, s'.speakers[i], b);
      var rest := SilenceIsReachable(s');
      moves := [m] + rest;
      assert moves[1..] == rest;
    }
  }

  /** Every run from the start can go on from where it is until all speakers are silent. */
  lemma EveryRunCanEnd(languages: seq<string>, scripts: seq<seq<string>>, moves: seq<Move>) returns (more: seq<Move>)
    requires |languages| == |scripts|
    requires forall i, j :: 0 <= i < j < |languages| ==> languages[i] != languages[j]
    requires forall i :: 0 <= i < |scripts| ==> |scripts[i]| > OVERFLOW_AFTER
    requires IsRun(Initial(languages, scripts), moves)
    ensures var s := After(Initial(languages, scripts), moves);
            IsRun(s, more) && AllSilenced(After(s, more)) && forall i :: 0 <= i < |more| ==> IsSpeakerMove(more[i])
  {
    InitialOk(languages, scripts);
    RunKeeps(Initial(languages, scripts), moves);
    more := SilenceIsReachable(After(Initial(languages, scripts), moves));
  }
}
