/** What every run of the journal leaves behind. */
module BabelTheorems {
  import opened Babel
  import opened BabelOrder

  // ---------------------------------------------------------------------------------------------
  // No listener sees a clock go back

  predicate Rising(xs: seq<nat>) {
    forall a, b :: 0 <= a < b < |xs| ==> xs[a] < xs[b]
  }

  ghost predicate Attributed(s: System, entries: seq<Entry>) {
    forall k :: 0 <= k < |entries| ==> HasSpeaker(s, entries[k])
  }

  ghost predicate HasSpeaker(s: System, e: Entry) {
    exists i: nat :: OfSpeaker(s, e, i)
  }

  predicate RisingPerSpeaker(s: System, entries: seq<Entry>) {
    forall i :: 0 <= i < |s.speakers| ==> Rising(Marks(entries, Language(s, i)))
  }

  lemma {:induction false} MarksPrefix(entries: seq<Entry>, n: nat, language: string)
    requires n <= |entries|
    ensures Marks(entries[..n], language) <= Marks(entries, language)
    decreases |entries|
  {
    if n == |entries| {
      assert entries[..n] == entries;
    } else {
      var front := entries[..|entries| - 1];
      assert front[..n] == entries[..n];
      MarksPrefix(front, n, language);
    }
  }

  lemma RisingPrefix(s: System, entries: seq<Entry>, n: nat)
    requires n <= |entries| && RisingPerSpeaker(s, entries)
    ensures RisingPerSpeaker(s, entries[..n])
  {
    forall i | 0 <= i < |s.speakers| ensures Rising(Marks(entries[..n], Language(s, i))) {
      assert Rising(Marks(entries, Language(s, i)));
      MarksPrefix(entries, n, Language(s, i));
    }
  }

  /** Two neighbouring entries of one speaker carry rising clocks. */
  lemma NeighboursRise(entries: seq<Entry>, language: string)
    requires |entries| >= 2 && Rising(Marks(entries, language))
    requires var n := |entries| - 1; language in entries[n - 1].clock && language in entries[n].clock
    ensures var n := |entries| - 1; entries[n - 1].clock[language] < entries[n].clock[language]
  {
    var n := |entries| - 1;
    var front := entries[..n];
    assert front[n - 1] == entries[n - 1];
    var before := Marks(front[..n - 1], language);
    assert Marks(front, language) == before + [entries[n - 1].clock[language]];
    var marks := Marks(entries, language);
    assert marks == before + [entries[n - 1].clock[language]] + [entries[n].clock[language]];
    assert marks[|before|] < marks[|before| + 1];
  }

  lemma {:induction false} NothingOutOfOrder(s: System, entries: seq<Entry>)
    requires Attributed(s, entries) && RisingPerSpeaker(s, entries)
    ensures Disorder(entries) == 0
  {
    if |entries| > 1 {
      var n := |entries| - 1;
      RisingPrefix(s, entries, n);
      NothingOutOfOrder(s, entries[..n]);
      var last, clock := entries[n - 1].clock, entries[n].clock;
      forall l | l in clock && l in last ensures last[l] < clock[l] {
        assert HasSpeaker(s, entries[n]);
        var i: nat :| OfSpeaker(s, entries[n], i);
        assert l == Language(s, i);
        NeighboursRise(entries, l);
      }
      assert (set l | l in clock && l in last && clock[l] < last[l]) == {};
    }
  }

  /** The places where a clock goes back: at entry k, in this language, from the entry before. */
  function Setbacks(entries: seq<Entry>): set<(nat, string)> {
    set k: nat, l | 0 < k < |entries| && l in entries[k].clock && l in entries[k - 1].clock
                    && entries[k].clock[l] < entries[k - 1].clock[l] :: (k, l)
  }

  lemma {:induction false} TaggedSize(k: nat, languages: set<string>)
    ensures |set l | l in languages :: (k, l)| == |languages|
  {
    if languages == {} {
      assert (set l | l in languages :: (k, l)) == {};
    } else {
      var l0 :| l0 in languages;
      TaggedSize(k, languages - {l0});
      assert (set l | l in languages :: (k, l)) == (set l | l in languages - {l0} :: (k, l)) + {(k, l0)};
    }
  }

  lemma SetbacksSnoc(entries: seq<Entry>, n: nat, behind: set<string>)
    requires |entries| == n + 1 && n > 0
    requires var last, clock := entries[n - 1].clock, entries[n].clock;
             behind == set l | l in clock && l in last && clock[l] < last[l]
    ensures Setbacks(entries) == Setbacks(entries[..n]) + (set l | l in behind :: (n, l))
    ensures Setbacks(entries[..n]) !! (set l | l in behind :: (n, l))
  {
    var front := entries[..n];
    forall k: nat, l: string
      ensures (k, l) in Setbacks(entries) <==> (k, l) in Setbacks(front) || (k == n && l in behind)
    {
      assert k < n ==> front[k] == entries[k];
      assert 0 < k <= n ==> front[k - 1] == entries[k - 1];
    }
  }

  lemma NoSetbacks(entries: seq<Entry>)
    requires |entries| <= 1
    ensures |Setbacks(entries)| == 0
  {
    assert forall p :: p !in Setbacks(entries);
  }

  lemma SetbacksStep(entries: seq<Entry>, n: nat)
    requires |entries| == n + 1 && n > 0
    ensures |Setbacks(entries)| == |Setbacks(entries[..n])| + Behind(entries[n - 1].clock, entries[n].clock)
  {
    var last, clock := entries[n - 1].clock, entries[n].clock;
    var behind := set l | l in clock && l in last && clock[l] < last[l];
    TaggedSize(n, behind);
    SetbacksSnoc(entries, n, behind);
    UnionSize(Setbacks(entries[..n]), set l | l in behind :: (n, l));
  }

  /** The listener's count is the number of those places. */
  lemma {:induction false} DisorderCounts(entries: seq<Entry>)
    ensures Disorder(entries) == |Setbacks(entries)|
  {
    if |entries| <= 1 {
      NoSetbacks(entries);
    } else {
      DisorderCounts(entries[..|entries| - 1]);
      SetbacksStep(entries, |entries| - 1);
    }
  }

  lemma UnionSize<X>(a: set<X>, b: set<X>)
    requires a !! b
    ensures |a + b| == |a| + |b|
  {
  }

  lemma JournalAttributed(s: System)
    requires Inv(s)
    ensures Attributed(s, s.journal)
  {
    forall k | 0 <= k < |s.journal| ensures HasSpeaker(s, s.journal[k]) {
      assert s.journal[k] in s.journal;
    }
  }

  lemma ReceivedInOrder(s: System, filter: string)
    requires Inv(s) && filter in s.subscribers
    ensures var received := s.subscribers[filter].received;
            && Attributed(s, received) && RisingPerSpeaker(s, received) && Disorder(received) == 0
            && forall e :: e in received ==> e in s.journal
  {
    var received, all := s.subscribers[filter].received, Delivered(s, filter);
    assert SubscriberOk(s, filter);
    forall i | 0 <= i < |s.speakers| ensures Rising(Marks(all, Language(s, i))) {
      assert Ascending(Marks(all, Language(s, i)), Offered(s, i, filter));
    }
    assert received == all[..|received|];
    RisingPrefix(s, all, |received|);
    forall e | e in received ensures e in s.journal && HasSpeaker(s, e) {
      assert e in all;
    }
    NothingOutOfOrder(s, received);
  }

  // ---------------------------------------------------------------------------------------------
  // Nothing but the speakers' entries is in the journal

  function Languages(s: System): (r: seq<string>)
    ensures |r| == |s.speakers| && forall i :: 0 <= i < |r| ==> r[i] == Language(s, i)
  {
    seq(|s.speakers|, i requires 0 <= i < |s.speakers| => Language(s, i))
  }

  function Total(entries: seq<Entry>, languages: seq<string>): nat {
    if languages == [] then 0
    else Total(entries, languages[1..]) + |Marks(entries, languages[0])|
  }

  lemma {:induction false} TotalSnoc(entries: seq<Entry>, e: Entry, l: string, languages: seq<string>)
    requires e.clock.Keys == {l} && forall i, j :: 0 <= i < j < |languages| ==> languages[i] != languages[j]
    ensures Total(entries + [e], languages) == Total(entries, languages) + if l in languages then 1 else 0
  {
    if languages != [] {
      MarksSnoc(entries, e, languages[0]);
      TotalSnoc(entries, e, l, languages[1..]);
      assert languages[0] !in languages[1..];
    }
  }

  lemma {:induction false} NothingWritten(languages: seq<string>)
    ensures Total([], languages) == 0
  {
    if languages != [] {
      NothingWritten(languages[1..]);
    }
  }

  lemma {:induction false} EveryEntryCounted(s: System, entries: seq<Entry>)
    requires Staged(s) && Attributed(s, entries)
    ensures Total(entries, Languages(s)) == |entries|
  {
    if entries == [] {
      NothingWritten(Languages(s));
    } else {
      var n := |entries| - 1;
      assert entries == entries[..n] + [entries[n]];
      EveryEntryCounted(s, entries[..n]);
      assert HasSpeaker(s, entries[n]);
      var i: nat :| OfSpeaker(s, entries[n], i);
      assert Languages(s)[i] == Language(s, i);
      TotalSnoc(entries[..n], entries[n], Language(s, i), Languages(s));
    }
  }

  lemma {:induction false} EqualTotals(entries: seq<Entry>, languages: seq<string>, each: nat)
    requires forall i :: 0 <= i < |languages| ==> |Marks(entries, languages[i])| == each
    ensures Total(entries, languages) == |languages| * each
  {
    if languages != [] {
      EqualTotals(entries, languages[1..], each);
      assert (|languages| - 1) * each + each == |languages| * each;
    }
  }

  /** When every speaker has fallen silent the journal holds exactly 81 entries of each, clocks 1 to 81. */
  lemma SilencedJournal(s: System)
    requires Inv(s) && AllSilenced(s)
    ensures forall i :: 0 <= i < |s.speakers| ==> Marks(s.journal, Language(s, i)) == UpTo(81)
    ensures |s.journal| == 81 * |s.speakers|
  {
    forall i | 0 <= i < |s.speakers| ensures Marks(s.journal, Language(s, i)) == UpTo(81) {
      assert SpeakerOk(s, i);
    }
    JournalAttributed(s);
    EveryEntryCounted(s, s.journal);
    EqualTotals(s.journal, Languages(s), 81);
  }

  // ---------------------------------------------------------------------------------------------
  // Runs

  /** A speaker that is not yet silent can always go on: no queue, however full, holds it up. */
  lemma SpeakersNeverWait(s: System, i: nat) returns (m: Move)
    requires Inv(s) && i < |s.speakers| && s.speakers[i].state != Silenced
    ensures Enabled(s, m)
            && (m.Stamp? || m.Push? || m.Lock? || m.Send? || m.Return? || m.Mumble? || m.Overflow? || m.Silence?)
               && m.speaker == i
  {
    assert SpeakerOk(s, i);
    var g := s.speakers[i];
    match g.phase
    case Ready =>
      m := if g.round >= |g.script| then Silence(i) else if g.state == Speaking then Stamp(i) else Mumble(i, false);
    case Stamped(_) => m := Push(i);
    case Journaled(_) => m := Lock(i);
    case Notifying(_, todo) =>
      if todo == {} {
        m := Return(i);
      } else {
        var filter :| filter in todo;
        m := Send(i, filter);
      }
    case Overflowing => m := Overflow(i);
  }

  lemma {:induction false} RunKeeps(s: System, moves: seq<Move>)
    requires Inv(s) && IsRun(s, moves)
    ensures Inv(After(s, moves)) && Languages(After(s, moves)) == Languages(s)
    decreases |moves|
  {
    if moves != [] {
      MoveKeeps(s, moves[0]);
      LanguagesStay(s, moves[0]);
      RunKeeps(Do(s, moves[0]), moves[1..]);
    }
  }

  lemma LanguagesStay(s: System, m: Move)
    requires Enabled(s, m)
    ensures Languages(Do(s, m)) == Languages(s)
  {
    assert |Do(s, m).speakers| == |s.speakers|;
    assert forall i :: 0 <= i < |s.speakers| ==> Language(Do(s, m), i) == Language(s, i);
  }

  lemma InitialOk(languages: seq<string>, scripts: seq<seq<string>>)
    requires |languages| == |scripts|
    requires forall i, j :: 0 <= i < j < |languages| ==> languages[i] != languages[j]
    requires forall i :: 0 <= i < |scripts| ==> |scripts[i]| > OVERFLOW_AFTER
    ensures Inv(Initial(languages, scripts)) && Languages(Initial(languages, scripts)) == languages
  {
  }

  /**
    * In every interleaving, with any delays, drops and departures: nothing panics; each speaker's journal
    * entries carry the clocks 1, 2, 3, ... in order; each subscriber has received only journaled entries, each
    * speaker's with strictly rising clocks, so its out-of-order count is zero, from a queue never over its
    * capacity; and once all speakers are silent the journal holds exactly 81 entries of each.
    */
  lemma EveryRunIsOrdered(languages: seq<string>, scripts: seq<seq<string>>, moves: seq<Move>)
    requires |languages| == |scripts|
    requires forall i, j :: 0 <= i < j < |languages| ==> languages[i] != languages[j]
    requires forall i :: 0 <= i < |scripts| ==> |scripts[i]| > OVERFLOW_AFTER
    requires IsRun(Initial(languages, scripts), moves)
    ensures var s := After(Initial(languages, scripts), moves);
            && !s.panicked && |s.speakers| == |languages|
            && (forall i :: 0 <= i < |languages| ==>
                 var marks := Marks(s.journal, languages[i]); marks == UpTo(|marks|))
            && (forall f :: f in s.subscribers ==>
                  && |s.subscribers[f].queue| <= CAPACITY && Disorder(s.subscribers[f].received) == 0
                  && (forall e :: e in s.subscribers[f].received ==> e in s.journal)
                  && forall i :: 0 <= i < |languages| ==> Rising(Marks(s.subscribers[f].received, languages[i])))
            && (AllSilenced(s) ==>
                  && |s.journal| == 81 * |languages|
                  && forall i :: 0 <= i < |languages| ==> Marks(s.journal, languages[i]) == UpTo(81))
  {
    InitialOk(languages, scripts);
    RunKeeps(Initial(languages, scripts), moves);
    var s := After(Initial(languages, scripts), moves);
    forall i | 0 <= i < |languages| ensures Language(s, i) == languages[i] {
      assert Languages(s)[i] == languages[i];
    }
    forall i | 0 <= i < |languages| ensures var marks := Marks(s.journal, languages[i]); marks == UpTo(|marks|) {
      assert Marks(s.journal, Language(s, i)) == UpTo(Written(s, i));
    }
    forall f | f in s.subscribers
      ensures && |s.subscribers[f].queue| <= CAPACITY && Disorder(s.subscribers[f].received) == 0
              && (forall e :: e in s.subscribers[f].received ==> e in s.journal)
              && forall i :: 0 <= i < |languages| ==> Rising(Marks(s.subscribers[f].received, languages[i]))
    {
      assert SubscriberOk(s, f);
      ReceivedInOrder(s, f);
    }
    if AllSilenced(s) {
      SilencedJournal(s);
    }
  }
}
