/**
  * Speakers that stamp messages with their own clock, push them to a shared journal and fan them out to
  * bounded subscriber queues, in every interleaving. A step is one handler call or one stretch of a handler
  * between two points where it can be suspended.
  */
module Babel {

  const OVERFLOW_AFTER: nat := 80
  const CAPACITY: nat := 100

  datatype Entry = Entry(clock: map<string, nat>)

  datatype BabelState = Speaking | Confused | Silenced

  /** How far the speaker's task is in the current round. */
  datatype Phase =
    | Ready
    | Stamped(clock: map<string, nat>)
    | Journaled(clock: map<string, nat>)
    | Notifying(clock: map<string, nat>, todo: set<string>)
    | Overflowing

  datatype Speaker = Speaker(language: string, script: seq<string>, state: BabelState, round: nat, phase: Phase)

  /** A subscriber's channel, what it has received, and everything that was to be sent to it. */
  datatype Subscriber = Subscriber(queue: seq<Entry>, open: bool, received: seq<Entry>, offered: seq<Entry>)

  /** `dropped` is the shared counter; `mumbled` and `lost` tell what it has counted, by subscriber. */
  datatype System = System(
    speakers: seq<Speaker>,
    clocks: map<string, map<string, nat>>,
    journal: seq<Entry>,
    subscribers: map<string, Subscriber>,
    chaos: bool,
    dropped: nat,
    mumbled: nat,
    lost: multiset<string>,
    panicked: bool
  )

  datatype Move =
    | Stamp(speaker: nat)
    | Push(speaker: nat)
    | Lock(speaker: nat)
    | Send(speaker: nat, filter: string)
    | Return(speaker: nat)
    | Mumble(speaker: nat, lost: bool)
    | Overflow(speaker: nat)
    | Silence(speaker: nat)
    | Register(filter: string)
    | Receive(filter: string)
    | GiveUp(filter: string)

  predicate Contains(text: string, part: string) {
    exists k :: 0 <= k <= |text| && part <= text[k..]
  }

  predicate Wanted(filter: string, language: string, message: string) {
    filter == "*" || filter == language || Contains(message, filter)
  }

  function With(s: System, i: nat, g: Speaker): System
    requires i < |s.speakers|
  {
    s.(speakers := s.speakers[i := g])
  }

  /** The speaker's entry of the shared clocks, counted up by one. */
  function Tick(clocks: map<string, map<string, nat>>, language: string): map<string, nat> {
    var clock := if language in clocks then clocks[language] else map[];
    clock[language := (if language in clock then clock[language] else 0) + 1]
  }

  /** `try_send`: a full or closed channel loses the entry. */
  function TrySend(s: System, filter: string, entry: Entry): System
    requires filter in s.subscribers
  {
    var sub := s.subscribers[filter];
    var offered := sub.(offered := sub.offered + [entry]);
    if sub.open && |sub.queue| < CAPACITY then
      s.(subscribers := s.subscribers[filter := offered.(queue := sub.queue + [entry])])
    else
      s.(subscribers := s.subscribers[filter := offered], dropped := s.dropped + 1, lost := s.lost + multiset{filter})
  }

  /** The loop after a Speak has been handled: the overflow comes after one particular round. */
  function AfterSpeak(g: Speaker): Speaker {
    if g.round == OVERFLOW_AFTER then g.(phase := Overflowing) else g.(phase := Ready, round := g.round + 1)
  }

  function Count(b: bool): nat {
    if b then 1 else 0
  }

  predicate Enabled(s: System, m: Move) {
    && !s.panicked
    && match m
       case Stamp(i) =>
         i < |s.speakers| && s.speakers[i].phase.Ready? && s.speakers[i].state == Speaking
           && s.speakers[i].round < |s.speakers[i].script|
       case Push(i) => i < |s.speakers| && s.speakers[i].phase.Stamped?
       case Lock(i) => i < |s.speakers| && s.speakers[i].phase.Journaled?
       case Send(i, filter) =>
         i < |s.speakers| && s.speakers[i].phase.Notifying? && filter in s.speakers[i].phase.todo
           && filter in s.subscribers
         && s.speakers[i].round < |s.speakers[i].script|
       case Return(i) => i < |s.speakers| && s.speakers[i].phase.Notifying? && s.speakers[i].phase.todo == {}
       case Mumble(i, _) =>
         i < |s.speakers| && s.speakers[i].phase.Ready? && s.speakers[i].state != Speaking
           && s.speakers[i].round < |s.speakers[i].script|
       case Overflow(i) => i < |s.speakers| && s.speakers[i].phase.Overflowing?
       case Silence(i) =>
         i < |s.speakers| && s.speakers[i].phase.Ready? && s.speakers[i].round >= |s.speakers[i].script|
           && s.speakers[i].state != Silenced
       case Register(filter) =>
         filter !in s.subscribers && forall i :: 0 <= i < |s.speakers| ==> !s.speakers[i].phase.Notifying?
       case Receive(filter) => filter in s.subscribers && s.subscribers[filter].open
         && s.subscribers[filter].queue != []
       case GiveUp(filter) => filter in s.subscribers && s.subscribers[filter].open && s.subscribers[filter].queue == []
  }

  function Do(s: System, m: Move): System
    requires Enabled(s, m)
  {
    match m
    case Stamp(i) =>
      var g := s.speakers[i];
      var clock := Tick(s.clocks, g.language);
      With(s, i, g.(phase := Stamped(clock))).(clocks := s.clocks[g.language := clock])
    case Push(i) =>
      var g := s.speakers[i];
      With(s, i, g.(phase := Journaled(g.phase.clock))).(journal := s.journal + [Entry(g.phase.clock)])
    case Lock(i) =>
      var g := s.speakers[i];
      With(s, i, g.(phase := Notifying(g.phase.clock, s.subscribers.Keys)))
    case Send(i, filter) =>
      var g := s.speakers[i];
      var s1 := With(s, i, g.(phase := Notifying(g.phase.clock, g.phase.todo - {filter})));
      if Wanted(filter, g.language, g.script[g.round]) then TrySend(s1, filter, Entry(g.phase.clock)) else s1
    case Return(i) => With(s, i, AfterSpeak(s.speakers[i]))
    case Mumble(i, lost) =>
      // Confused has a handler that only loses messages, Silenced has none.
      if s.speakers[i].state == Confused
      then
        With(s, i, AfterSpeak(s.speakers[i])).(dropped := s.dropped + Count(lost), mumbled := s.mumbled + Count(lost))
      else s.(panicked := true)
    case Overflow(i) =>
      if s.speakers[i].state == Speaking
      then
        var g := s.speakers[i];
        With(s, i, g.(state := Confused, phase := Ready, round := g.round + 1)).(chaos := true)
      else s.(panicked := true)
    case Silence(i) =>
      if s.speakers[i].state == Confused then With(s, i, s.speakers[i].(state := Silenced)) else s.(panicked := true)
    case Register(filter) => s.(subscribers := s.subscribers[filter := Subscriber([], true, [], [])])
    case Receive(filter) =>
      var sub := s.subscribers[filter];
      var read := sub.(queue := sub.queue[1..], received := sub.received + [sub.queue[0]]);
      s.(subscribers := s.subscribers[filter := read])
    case GiveUp(filter) => s.(subscribers := s.subscribers[filter := s.subscribers[filter].(open := false)])
  }

  /** One speaker per language, each with its script of rounds; nobody subscribed yet. */
  function Initial(languages: seq<string>, scripts: seq<seq<string>>): System
    requires |languages| == |scripts|
  {
    System(seq(|languages|, i requires 0 <= i < |languages| => Speaker(languages[i], scripts[i], Speaking, 0, Ready)),
           map[], [], map[], false, 0, 0, multiset{}, false)
  }

  /** Every speaker's task has ended. */
  predicate AllSilenced(s: System) {
    forall i :: 0 <= i < |s.speakers| ==> s.speakers[i].state == Silenced
  }

  predicate IsRun(s: System, moves: seq<Move>)
    decreases |moves|
  {
    moves == [] || (Enabled(s, moves[0]) && IsRun(Do(s, moves[0]), moves[1..]))
  }

  function After(s: System, moves: seq<Move>): System
    requires IsRun(s, moves)
    decreases |moves|
  {
    if moves == [] then s else After(Do(s, moves[0]), moves[1..])
  }

  // ---------------------------------------------------------------------------------------------
  // Listening

  /** How many of the entry's clocks are behind the last ones seen. */
  function Behind(last: map<string, nat>, clock: map<string, nat>): nat {
    |set l | l in clock && l in last && clock[l] < last[l]|
  }

  /** The out-of-order count of a listener that has received these entries. */
  function Disorder(entries: seq<Entry>): nat {
    if |entries| <= 1 then 0
    else
      var n := |entries| - 1;
      Disorder(entries[..n]) + Behind(entries[n - 1].clock, entries[n].clock)
  }

  /** The listener's loop over what it receives. */
  method Listen(entries: seq<Entry>) returns (received: nat, outOfOrder: nat)
    ensures received == |entries| && outOfOrder == Disorder(entries)
  {
    received, outOfOrder := 0, 0;
    var last: map<string, nat> := map[];
    while received < |entries|
      invariant received <= |entries| && outOfOrder == Disorder(entries[..received])
      invariant last == if received == 0 then map[] else entries[received - 1].clock
    {
      var clock := entries[received].clock;
      var todo, behind := clock.Keys, {};
      while todo != {}
        invariant todo <= clock.Keys
        invariant behind == set l | l in clock.Keys - todo && l in last && clock[l] < last[l]
        invariant outOfOrder == Disorder(entries[..received]) + |behind|
        decreases |todo|
      {
        var language :| language in todo;
        todo := todo - {language};
        if language in last && clock[language] < last[language] {
          outOfOrder := outOfOrder + 1;
          behind := behind + {language};
        }
      }
      assert behind == set l | l in clock && l in last && clock[l] < last[l];
      assert entries[..received + 1][..received] == entries[..received];
      last := clock;
      received := received + 1;
    }
    assert entries[..received] == entries;
  }
}
