/** Per-speaker clocks in the journal and at every subscriber, in every interleaving. */
module BabelOrder {
  import opened Babel

  /** The clock values of one language among the entries, in order. */
  function Marks(entries: seq<Entry>, language: string): seq<nat> {
    if entries == [] then []
    else
      var n := |entries| - 1;
      Marks(entries[..n], language) + if language in entries[n].clock then [entries[n].clock[language]] else []
  }

  /** 1, 2, ..., n. */
  function UpTo(n: nat): (r: seq<nat>)
    ensures |r| == n && forall k :: 0 <= k < n ==> r[k] == k + 1
  {
    if n == 0 then [] else UpTo(n - 1) + [n]
  }

  predicate Ascending(xs: seq<nat>, bound: int) {
    && (forall a, b :: 0 <= a < b < |xs| ==> xs[a] < xs[b])
    && (forall a :: 0 <= a < |xs| ==> xs[a] <= bound)
  }

  function Language(s: System, i: nat): string
    requires i < |s.speakers|
  {
    s.speakers[i].language
  }

  /** How often speaker i has stamped. */
  function Stamps(s: System, i: nat): nat
    requires i < |s.speakers|
  {
    var l := Language(s, i);
    if l in s.clocks && l in s.clocks[l] then s.clocks[l][l] else 0
  }

  /** How many of its stamps are in the journal. */
  function Written(s: System, i: nat): int
    requires i < |s.speakers|
  {
    Stamps(s, i) - if s.speakers[i].phase.Stamped? then 1 else 0
  }

  /** The last stamp of speaker i that has been offered to the subscriber. */
  function Offered(s: System, i: nat, filter: string): int
    requires i < |s.speakers|
  {
    var p := s.speakers[i].phase;
    Stamps(s, i) - if p.Stamped? || p.Journaled? || (p.Notifying? && filter in p.todo) then 1 else 0
  }

  predicate OfSpeaker(s: System, e: Entry, i: nat) {
    i < |s.speakers| && Language(s, i) in e.clock && e.clock == map[Language(s, i) := e.clock[Language(s, i)]]
  }

  predicate SpeakerOk(s: System, i: nat)
    requires i < |s.speakers|
  {
    var g, n := s.speakers[i], Stamps(s, i);
    && (g.language in s.clocks ==> s.clocks[g.language] == map[g.language := n])
    && (g.state == Silenced ==> g.phase.Ready? && g.round >= |g.script|)
    && match g.phase
       case Ready => if g.state == Speaking then n == g.round <= OVERFLOW_AFTER else n == OVERFLOW_AFTER + 1 <= g.round
       case Overflowing => g.state == Speaking && g.round == OVERFLOW_AFTER && n == OVERFLOW_AFTER + 1
       case Stamped(clock) =>
         g.state == Speaking && n == g.round + 1 && g.round <= OVERFLOW_AFTER && g.round < |g.script|
           && clock == map[g.language := n]
       case Journaled(clock) =>
         && g.state == Speaking && n == g.round + 1 && g.round <= OVERFLOW_AFTER && g.round < |g.script|
            && clock == map[g.language := n]
         && Entry(clock) in s.journal
       case Notifying(clock, todo) =>
         && g.state == Speaking && n == g.round + 1 && g.round <= OVERFLOW_AFTER && g.round < |g.script|
            && clock == map[g.language := n]
         && Entry(clock) in s.journal && todo <= s.subscribers.Keys
  }

  predicate SpeakersOk(s: System) {
    forall i :: 0 <= i < |s.speakers| ==> SpeakerOk(s, i)
  }

  /** Every speaker's clocks are in the journal without gap, and the journal holds nothing else. */
  ghost predicate JournalOk(s: System) {
    && (forall i :: 0 <= i < |s.speakers| ==>
          Written(s, i) >= 0 && Marks(s.journal, Language(s, i)) == UpTo(Written(s, i)))
    && (forall e :: e in s.journal ==> exists i: nat :: OfSpeaker(s, e, i))
  }

  function Delivered(s: System, filter: string): seq<Entry>
    requires filter in s.subscribers
  {
    s.subscribers[filter].received + s.subscribers[filter].queue
  }

  predicate SubscriberOk(s: System, filter: string)
    requires filter in s.subscribers
  {
    && |s.subscribers[filter].queue| <= CAPACITY
    && (forall e :: e in Delivered(s, filter) ==> e in s.journal)
    && (forall i :: 0 <= i < |s.speakers| ==>
         Ascending(Marks(Delivered(s, filter), Language(s, i)), Offered(s, i, filter)))
  }

  predicate SubscribersOk(s: System) {
    forall filter :: filter in s.subscribers ==> SubscriberOk(s, filter)
  }

  /** The languages are distinct, and every script is long enough to reach the overflow. */
  predicate Staged(s: System) {
    && (forall i, j :: 0 <= i < j < |s.speakers| ==> Language(s, i) != Language(s, j))
    && (forall i :: 0 <= i < |s.speakers| ==> |s.speakers[i].script| > OVERFLOW_AFTER)
  }

  ghost predicate Inv(s: System) {
    !s.panicked && Staged(s) && SpeakersOk(s) && JournalOk(s) && SubscribersOk(s)
  }

  // ---------------------------------------------------------------------------------------------
  // Frames

  /** Only speaker i and its own clock change; the journal and the set of subscribers can only grow. */
  ghost predicate OnlySpeaker(s: System, s': System, i: nat) {
    && i < |s.speakers| == |s'.speakers| && s'.speakers == s.speakers[i := s'.speakers[i]]
    && s'.speakers[i].language == s.speakers[i].language && s'.speakers[i].script == s.speakers[i].script
    && (forall l :: l != s.speakers[i].language ==>
          (l in s'.clocks <==> l in s.clocks) && (l in s.clocks ==> s'.clocks[l] == s.clocks[l]))
    && s.journal <= s'.journal && s.subscribers.Keys <= s'.subscribers.Keys
  }

  lemma SpeakersFrame(s: System, s': System, i: nat)
    requires Inv(s) && OnlySpeaker(s, s', i) && SpeakerOk(s', i)
    ensures Staged(s') && SpeakersOk(s')
    ensures forall j :: 0 <= j < |s.speakers| && j != i ==> Stamps(s', j) == Stamps(s, j)
  {
    forall j | 0 <= j < |s.speakers| && j != i ensures Stamps(s', j) == Stamps(s, j) {
      assert Language(s, j) != Language(s, i);
    }
    forall j | 0 <= j < |s.speakers| ensures SpeakerOk(s', j) && Language(s', j) == Language(s, j)
      && |s'.speakers[j].script| > OVERFLOW_AFTER {
      assert SpeakerOk(s, j);
    }
  }

  lemma JournalFrame(s: System, s': System, i: nat)
    requires Inv(s) && OnlySpeaker(s, s', i) && s'.journal == s.journal && Written(s', i) == Written(s, i)
    requires forall j :: 0 <= j < |s.speakers| && j != i ==> Stamps(s', j) == Stamps(s, j)
    ensures JournalOk(s')
  {
    forall e | e in s'.journal ensures exists j: nat :: OfSpeaker(s', e, j) {
      var j: nat :| OfSpeaker(s, e, j);
      assert OfSpeaker(s', e, j);
    }
    forall j | 0 <= j < |s'.speakers| ensures Written(s', j) == Written(s, j) && Language(s', j) == Language(s, j) {
    }
  }

  lemma SubscriberFrame(s: System, s': System, i: nat, filter: string)
    requires Inv(s) && OnlySpeaker(s, s', i) && filter in s.subscribers && filter in s'.subscribers
    requires s'.subscribers[filter].queue == s.subscribers[filter].queue
    requires s'.subscribers[filter].received == s.subscribers[filter].received
    requires Offered(s', i, filter) >= Offered(s, i, filter)
    requires forall j :: 0 <= j < |s.speakers| && j != i ==> Stamps(s', j) == Stamps(s, j)
    ensures SubscriberOk(s', filter)
  {
    assert SubscriberOk(s, filter);
    forall j | 0 <= j < |s'.speakers|
      ensures Ascending(Marks(Delivered(s', filter), Language(s', j)), Offered(s', j, filter))
    {
      assert Offered(s', j, filter) >= Offered(s, j, filter);
      assert Ascending(Marks(Delivered(s, filter), Language(s, j)), Offered(s, j, filter));
    }
  }

  /** A move of speaker i that neither writes to the journal nor sends. */
  lemma SpeakerMove(s: System, s': System, i: nat)
    requires Inv(s) && OnlySpeaker(s, s', i) && SpeakerOk(s', i) && !s'.panicked
    requires s'.journal == s.journal && s'.subscribers == s.subscribers
    requires Written(s', i) == Written(s, i)
    requires forall filter :: filter in s.subscribers ==> Offered(s', i, filter) >= Offered(s, i, filter)
    ensures Inv(s')
  {
    SpeakersFrame(s, s', i);
    JournalFrame(s, s', i);
    forall filter | filter in s'.subscribers ensures SubscriberOk(s', filter) {
      SubscriberFrame(s, s', i, filter);
    }
  }

  // ---------------------------------------------------------------------------------------------
  // Moves

  lemma StampTicks(s: System, i: nat)
    requires Inv(s) && i < |s.speakers|
    ensures Tick(s.clocks, Language(s, i)) == map[Language(s, i) := Stamps(s, i) + 1]
  {
    assert SpeakerOk(s, i);
  }

  lemma StampKeeps(s: System, i: nat)
    requires Inv(s) && Enabled(s, Stamp(i))
    ensures Inv(Do(s, Stamp(i)))
  {
    var s' := Do(s, Stamp(i));
    StampTicks(s, i);
    assert SpeakerOk(s, i);
    assert Stamps(s', i) == Stamps(s, i) + 1;
    SpeakerMove(s, s', i);
  }

  lemma MarksSnoc(entries: seq<Entry>, e: Entry, language: string)
    ensures Marks(entries + [e], language)
              == Marks(entries, language) + if language in e.clock then [e.clock[language]] else []
  {
    assert (entries + [e])[..|entries|] == entries;
  }

  lemma PushedMarks(s: System, i: nat, j: nat)
    requires Inv(s) && Enabled(s, Push(i)) && j < |s.speakers|
    ensures var s' := Do(s, Push(i));
            Written(s', j) >= 0 && Marks(s'.journal, Language(s', j)) == UpTo(Written(s', j))
  {
    var s' := Do(s, Push(i));
    var e := Entry(s.speakers[i].phase.clock);
    assert SpeakerOk(s, i) && SpeakerOk(s, j) && Language(s', j) == Language(s, j);
    assert Marks(s.journal, Language(s, j)) == UpTo(Written(s, j));
    MarksSnoc(s.journal, e, Language(s, j));
    assert Language(s, j) in e.clock <==> j == i;
  }

  lemma PushWrites(s: System, i: nat)
    requires Inv(s) && Enabled(s, Push(i))
    ensures JournalOk(Do(s, Push(i)))
  {
    var s' := Do(s, Push(i));
    assert SpeakerOk(s, i);
    forall j | 0 <= j < |s'.speakers| ensures Written(s', j) >= 0
      && Marks(s'.journal, Language(s', j)) == UpTo(Written(s', j)) {
      PushedMarks(s, i, j);
    }
    forall d | d in s'.journal ensures exists j: nat :: OfSpeaker(s', d, j) {
      if d == Entry(s.speakers[i].phase.clock) {
        assert OfSpeaker(s', d, i);
      } else {
        var j: nat :| OfSpeaker(s, d, j);
        assert OfSpeaker(s', d, j);
      }
    }
  }

  lemma PushKeeps(s: System, i: nat)
    requires Inv(s) && Enabled(s, Push(i))
    ensures Inv(Do(s, Push(i)))
  {
    var s' := Do(s, Push(i));
    assert SpeakerOk(s, i);
    assert s'.journal[|s.journal|] == Entry(s.speakers[i].phase.clock);
    SpeakersFrame(s, s', i);
    PushWrites(s, i);
    forall filter | filter in s'.subscribers ensures SubscriberOk(s', filter) {
      SubscriberFrame(s, s', i, filter);
    }
  }

  /** A send changes at most the one subscriber's queue, by the speaker's entry. */
  lemma SendFacts(s: System, i: nat, filter: string)
    requires Inv(s) && Enabled(s, Send(i, filter))
    ensures var s', g := Do(s, Send(i, filter)), s.speakers[i];
            && s'.speakers == s.speakers[i := g.(phase := Notifying(g.phase.clock, g.phase.todo - {filter}))]
            && s'.journal == s.journal && s'.clocks == s.clocks && !s'.panicked
               && s'.subscribers.Keys == s.subscribers.Keys
            && (forall f :: f in s.subscribers && f != filter ==> s'.subscribers[f] == s.subscribers[f])
            && var sub := s.subscribers[filter];
               var sub' := s'.subscribers[filter];
               && sub'.received == sub.received
               && (sub'.queue == sub.queue ||
                    (sub'.queue == sub.queue + [Entry(g.phase.clock)] && |sub.queue| < CAPACITY))
  {
  }

  lemma AscendingSnoc(xs: seq<nat>, bound: int, x: nat)
    requires Ascending(xs, bound) && bound < x
    ensures Ascending(xs + [x], x)
  {
  }

  /** The entry being sent carries the sender's last stamp, which this subscriber has not been offered. */
  lemma EntryInHand(s: System, i: nat, filter: string)
    requires Inv(s) && Enabled(s, Send(i, filter))
    ensures s.speakers[i].phase.clock == map[Language(s, i) := Stamps(s, i)] && Offered(s, i, filter) < Stamps(s, i)
    ensures forall j :: 0 <= j < |s.speakers| ==> (Language(s, j) in s.speakers[i].phase.clock <==> j == i)
  {
    assert SpeakerOk(s, i);
  }

  lemma DeliveryAscends(s: System, i: nat, filter: string, j: nat)
    requires Inv(s) && Enabled(s, Send(i, filter)) && j < |s.speakers|
    ensures var l, e := Language(s, j), Entry(s.speakers[i].phase.clock);
            Ascending(Marks(Delivered(s, filter) + [e], l), if j == i then Stamps(s, i) else Offered(s, j, filter))
  {
    var l, e := Language(s, j), Entry(s.speakers[i].phase.clock);
    EntryInHand(s, i, filter);
    assert SubscriberOk(s, filter);
    assert Ascending(Marks(Delivered(s, filter), l), Offered(s, j, filter));
    MarksSnoc(Delivered(s, filter), e, l);
    if j == i {
      AscendingSnoc(Marks(Delivered(s, filter), l), Offered(s, i, filter), Stamps(s, i));
    } else {
      assert Marks(Delivered(s, filter), l) + [] == Marks(Delivered(s, filter), l);
    }
  }

  lemma OfferedAfterSend(s: System, i: nat, filter: string, j: nat)
    requires Inv(s) && Enabled(s, Send(i, filter)) && j < |s.speakers|
    ensures var s' := Do(s, Send(i, filter));
            Language(s', j) == Language(s, j)
              && Offered(s', j, filter) == if j == i then Stamps(s, i) else Offered(s, j, filter)
  {
    SendFacts(s, i, filter);
  }

  /** What a send that gets through leaves in the subscriber's hands. */
  lemma SentIsDelivered(s: System, i: nat, filter: string)
    requires Inv(s) && Enabled(s, Send(i, filter)) && filter in Do(s, Send(i, filter)).subscribers
    requires Do(s, Send(i, filter)).subscribers[filter].queue != s.subscribers[filter].queue
    ensures var s', e := Do(s, Send(i, filter)), Entry(s.speakers[i].phase.clock);
            && Delivered(s', filter) == Delivered(s, filter) + [e] && e in s.journal && s'.journal == s.journal
            && |s'.subscribers[filter].queue| <= CAPACITY && |s'.speakers| == |s.speakers|
  {
    SendFacts(s, i, filter);
    assert SpeakerOk(s, i);
  }

  lemma SendDelivers(s: System, i: nat, filter: string)
    requires Inv(s) && Enabled(s, Send(i, filter)) && filter in Do(s, Send(i, filter)).subscribers
    requires Do(s, Send(i, filter)).subscribers[filter].queue != s.subscribers[filter].queue
    ensures SubscriberOk(Do(s, Send(i, filter)), filter)
  {
    var s' := Do(s, Send(i, filter));
    SentIsDelivered(s, i, filter);
    assert SubscriberOk(s, filter);
    forall j | 0 <= j < |s'.speakers|
      ensures Ascending(Marks(Delivered(s', filter), Language(s', j)), Offered(s', j, filter))
    {
      DeliveryAscends(s, i, filter, j);
      OfferedAfterSend(s, i, filter, j);
    }
  }

  lemma SendKeeps(s: System, i: nat, filter: string)
    requires Inv(s) && Enabled(s, Send(i, filter))
    ensures Inv(Do(s, Send(i, filter)))
  {
    var s' := Do(s, Send(i, filter));
    SendFacts(s, i, filter);
    assert SpeakerOk(s, i);
    SendIsLocal(s, s', i, filter);
    SpeakersFrame(s, s', i);
    JournalFrame(s, s', i);
    forall f | f in s'.subscribers ensures SubscriberOk(s', f) {
      if s'.subscribers[f].queue == s.subscribers[f].queue {
        SubscriberFrame(s, s', i, f);
      } else {
        SendDelivers(s, i, filter);
      }
    }
  }

  lemma SendIsLocal(s: System, s': System, i: nat, filter: string)
    requires Inv(s) && Enabled(s, Send(i, filter)) && s' == Do(s, Send(i, filter))
    ensures OnlySpeaker(s, s', i) && SpeakerOk(s', i) && Written(s', i) == Written(s, i)
    ensures forall f :: f in s.subscribers ==> Offered(s', i, f) >= Offered(s, i, f)
  {
    SendFacts(s, i, filter);
    SendLeavesSpeaker(s, s', i, filter);
  }

  lemma SendLeavesSpeaker(s: System, s': System, i: nat, filter: string)
    requires Inv(s) && i < |s.speakers| && s.speakers[i].phase.Notifying?
    requires s'.speakers
               == s.speakers[i := s.speakers[i].(phase := Notifying(s.speakers[i].phase.clock,
                   s.speakers[i].phase.todo - {filter}))]
    requires s'.journal == s.journal && s'.clocks == s.clocks && s'.subscribers.Keys == s.subscribers.Keys
    ensures SpeakerOk(s', i) && Written(s', i) == Written(s, i)
    ensures forall f :: f in s.subscribers ==> Offered(s', i, f) >= Offered(s, i, f)
  {
    assert SpeakerOk(s, i);
  }

  lemma LockKeeps(s: System, i: nat)
    requires Inv(s) && Enabled(s, Lock(i))
    ensures Inv(Do(s, Lock(i)))
  {
    assert SpeakerOk(s, i);
    SpeakerMove(s, Do(s, Lock(i)), i);
  }

  lemma ReturnKeeps(s: System, i: nat)
    requires Inv(s) && Enabled(s, Return(i))
    ensures Inv(Do(s, Return(i)))
  {
    assert SpeakerOk(s, i);
    SpeakerMove(s, Do(s, Return(i)), i);
  }

  lemma MumbleKeeps(s: System, i: nat, lost: bool)
    requires Inv(s) && Enabled(s, Mumble(i, lost))
    ensures Inv(Do(s, Mumble(i, lost)))
  {
    assert SpeakerOk(s, i);
    SpeakerMove(s, Do(s, Mumble(i, lost)), i);
  }

  lemma OverflowKeeps(s: System, i: nat)
    requires Inv(s) && Enabled(s, Overflow(i))
    ensures Inv(Do(s, Overflow(i)))
  {
    assert SpeakerOk(s, i);
    SpeakerMove(s, Do(s, Overflow(i)), i);
  }

  lemma SilenceKeeps(s: System, i: nat)
    requires Inv(s) && Enabled(s, Silence(i))
    ensures Inv(Do(s, Silence(i)))
  {
    assert SpeakerOk(s, i);
    SpeakerMove(s, Do(s, Silence(i)), i);
  }

  /** Subscribers come and go and read; speakers, clocks and journal are as they were. */
  lemma ListenerFrame(s: System, s': System)
    requires Inv(s) && s'.speakers == s.speakers && s'.clocks == s.clocks && s'.journal == s.journal && !s'.panicked
    requires s.subscribers.Keys <= s'.subscribers.Keys
    ensures Staged(s') && SpeakersOk(s') && JournalOk(s')
    ensures forall i, f :: 0 <= i < |s.speakers| ==> Offered(s', i, f) == Offered(s, i, f)
  {
    forall i | 0 <= i < |s'.speakers|
      ensures SpeakerOk(s', i) && Language(s', i) == Language(s, i) && Written(s', i) == Written(s, i)
    {
      assert SpeakerOk(s, i);
    }
    forall e | e in s'.journal ensures exists j: nat :: OfSpeaker(s', e, j) {
      var j: nat :| OfSpeaker(s, e, j);
      assert OfSpeaker(s', e, j);
    }
  }

  lemma RegisterKeeps(s: System, filter: string)
    requires Inv(s) && Enabled(s, Register(filter))
    ensures Inv(Do(s, Register(filter)))
  {
    var s' := Do(s, Register(filter));
    ListenerFrame(s, s');
    forall f | f in s'.subscribers ensures SubscriberOk(s', f) {
      if f == filter {
        assert Delivered(s', f) == [];
        assert forall i :: 0 <= i < |s.speakers| ==> SpeakerOk(s, i);
      } else {
        SameDelivered(s, s', f);
      }
    }
  }

  lemma SameDelivered(s: System, s': System, f: string)
    requires Inv(s) && s'.speakers == s.speakers && s'.clocks == s.clocks && s'.journal == s.journal
    requires f in s.subscribers && f in s'.subscribers && Delivered(s', f) == Delivered(s, f)
    requires |s'.subscribers[f].queue| <= CAPACITY
    ensures SubscriberOk(s', f)
  {
    assert SubscriberOk(s, f);
    forall i | 0 <= i < |s'.speakers| ensures Ascending(Marks(Delivered(s', f), Language(s', i)), Offered(s', i, f)) {
      assert Ascending(Marks(Delivered(s, f), Language(s, i)), Offered(s, i, f));
    }
  }

  lemma ListenerKeeps(s: System, m: Move)
    requires Inv(s) && Enabled(s, m) && (m.Receive? || m.GiveUp?)
    ensures Inv(Do(s, m))
  {
    var s' := Do(s, m);
    ListenerFrame(s, s');
    forall f | f in s'.subscribers ensures SubscriberOk(s', f) {
      assert SubscriberOk(s, f);
      assert Delivered(s', f) == Delivered(s, f);
      SameDelivered(s, s', f);
    }
  }

  lemma MoveKeeps(s: System, m: Move)
    requires Inv(s) && Enabled(s, m)
    ensures Inv(Do(s, m))
  {
    match m
    case Stamp(i) => StampKeeps(s, i);
    case Push(i) => PushKeeps(s, i);
    case Send(i, filter) => SendKeeps(s, i, filter);
    case Register(filter) => RegisterKeeps(s, filter);
    case Receive(_) => ListenerKeeps(s, m);
    case GiveUp(_) => ListenerKeeps(s, m);
    case Lock(i) => LockKeeps(s, i);
    case Return(i) => ReturnKeeps(s, i);
    case Mumble(i, lost) => MumbleKeeps(s, i, lost);
    case Overflow(i) => OverflowKeeps(s, i);
    case Silence(i) => SilenceKeeps(s, i);
  }
}
