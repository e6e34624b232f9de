/**
 * A journal that is still being written: when later submissions, quorum steps or the
 * landing are appended, what has already been scheduled does not move.
 */
module ReplayGrowth {
  import opened Wrappers
  import opened SortByKey
  import opened ReplayTimeline

  // Later operators and quorum steps appended, and perhaps the first landing, all after
  // everything the journal already holds.
  ghost predicate Grows(journal: Journal, next: Journal) {
    && journal.operators <= next.operators && journal.transitions <= next.transitions
    && (forall x, i | x in Stamps(journal) && |journal.operators| <= i < |next.operators| ::
          x < next.operators[i].timestamp)
    && (forall x, i | x in Stamps(journal) && |journal.transitions| <= i < |next.transitions| ::
          x < next.transitions[i].timestamp)
    && (next.attestation == journal.attestation
        || (&& journal.attestation.txHash.None? && journal.attestation.timestamp.None?
            && next.attestation.txHash.Some? && next.attestation.timestamp.Some?
            && (forall x | x in Stamps(journal) :: x < next.attestation.timestamp.value)))
  }

  function NewOperators(journal: Journal, next: Journal): seq<Indexed>
    requires journal.operators <= next.operators
  {
    SortBy(IndexedFrom(next.operators[|journal.operators|..], |journal.operators|), IndexKey)
  }

  function NewEvents(journal: Journal, next: Journal): seq<Event>
    requires journal.operators <= next.operators && journal.transitions <= next.transitions
  {
    SubmissionEvents(NewOperators(journal, next), |journal.operators|)
    + TransitionEvents(next.transitions[|journal.transitions|..], |journal.transitions|)
    + (if next.attestation == journal.attestation then [] else Landing(next.attestation, EarliestTimestamp(journal)))
  }

  lemma EarliestStays(journal: Journal, next: Journal)
    requires Grows(journal, next) && Stamps(journal) != []
    ensures EarliestTimestamp(next) == EarliestTimestamp(journal)
  {
    var was, now := Stamps(journal), Stamps(next);
    forall x | x in was ensures x in now {
      var i :| 0 <= i < |was| && was[i] == x;
      StampStays(journal, next, i);
    }
    MinIsLeast(was);
    MinIsLeast(now);
    forall y | y in now ensures Min(was) <= y {
      var k :| 0 <= k < |now| && now[k] == y;
      NewStampIsLater(journal, next, k);
    }
  }

  lemma StampStays(journal: Journal, next: Journal, i: nat)
    requires Grows(journal, next) && i < |Stamps(journal)|
    ensures Stamps(journal)[i] in Stamps(next)
  {
    var n, m := |journal.operators|, |journal.transitions|;
    var n', m' := |next.operators|, |next.transitions|;
    if i < n {
      assert Stamps(next)[i] == Stamps(journal)[i];
    } else if i < n + m {
      assert Stamps(next)[n' + (i - n)] == Stamps(journal)[i];
    } else {
      assert Stamps(next)[n' + m'] == Stamps(journal)[i];
    }
  }

  lemma NewStampIsLater(journal: Journal, next: Journal, k: nat)
    requires Grows(journal, next) && k < |Stamps(next)|
    ensures Stamps(next)[k] in Stamps(journal) || forall x | x in Stamps(journal) :: x < Stamps(next)[k]
  {
    var n, m := |journal.operators|, |journal.transitions|;
    var n', m' := |next.operators|, |next.transitions|;
    if k < n {
      assert Stamps(journal)[k] == Stamps(next)[k];
    } else if n' <= k < n' + m {
      assert Stamps(journal)[n + (k - n')] == Stamps(next)[k];
    } else if k >= n' + m' && next.attestation == journal.attestation {
      assert Stamps(journal)[n + m] == Stamps(next)[k];
    }
  }

  lemma IndexedAreDistinct(operators: seq<Operator>, from: nat)
    ensures DistinctKeys(IndexedFrom(operators, from), IndexKey)
  {
  }

  lemma NewOperatorIsLater(journal: Journal, next: Journal, i: nat, j: nat)
    requires Grows(journal, next) && i < |journal.operators| <= j < |next.operators|
    ensures journal.operators[i].timestamp < next.operators[j].timestamp
  {
    assert Stamps(journal)[i] == journal.operators[i].timestamp;
    assert Stamps(journal)[i] in Stamps(journal);
  }

  lemma ByTimeExtends(journal: Journal, next: Journal)
    requires Grows(journal, next)
    ensures ByTime(next) == ByTime(journal) + NewOperators(journal, next)
  {
    var n := |journal.operators|;
    var before, after := IndexedFrom(journal.operators, 0), IndexedFrom(next.operators[n..], n);
    IndexedAreDistinct(journal.operators, 0);
    IndexedAreDistinct(next.operators[n..], n);
    forall i, j | 0 <= i < |before| && 0 <= j < |after| ensures Less(IndexKey(before[i]), IndexKey(after[j])) {
      NewOperatorIsLater(journal, next, i, n + j);
    }
    SortAppends(before, after, IndexKey);
    assert IndexedFrom(next.operators, 0) == before + after;
  }

  // ---------------------------------------------------------------- the new events

  lemma EventsExtend(journal: Journal, next: Journal)
    requires Grows(journal, next) && Stamps(journal) != []
    ensures multiset(AllEvents(next)) == multiset(AllEvents(journal) + NewEvents(journal, next))
  {
    var n, m := |journal.operators|, |journal.transitions|;
    EarliestStays(journal, next);
    ByTimeExtends(journal, next);
    ByTimeLength(journal);
    var subs, newSubs := SubmissionEvents(ByTime(journal), 0), SubmissionEvents(NewOperators(journal, next), n);
    assert SubmissionEvents(ByTime(next), 0) == subs + newSubs;
    var steps, newSteps := TransitionEvents(journal.transitions, 0), TransitionEvents(next.transitions[m..], m);
    assert TransitionEvents(next.transitions, 0) == steps + newSteps;
    var landed := Landing(journal.attestation, EarliestTimestamp(journal));
    var newLanded := if next.attestation == journal.attestation then []
                     else Landing(next.attestation, EarliestTimestamp(journal));
    assert Landing(next.attestation, EarliestTimestamp(next)) == landed + newLanded;
  }

  lemma NewEventIsLater(journal: Journal, next: Journal, k: nat, x: int)
    requires Grows(journal, next) && k < |NewEvents(journal, next)| && x in Stamps(journal)
    ensures x < NewEvents(journal, next)[k].source
  {
    var e, n := NewEvents(journal, next)[k], |journal.operators|;
    if e.SubmissionEvent? {
      var added, indexed := NewOperators(journal, next), IndexedFrom(next.operators[n..], n);
      SortKeeps(indexed, IndexKey);
      assert added[k] in multiset(added);
      var i :| 0 <= i < |indexed| && indexed[i] == added[k];
      assert next.operators[n + i] == added[k].operator;
    } else if e.TransitionEvent? {
      var i := e.order;
      assert next.transitions[i] == e.transition;
    }
  }

  lemma NewOperatorsLength(journal: Journal, next: Journal)
    requires journal.operators <= next.operators
    ensures |NewOperators(journal, next)| == |next.operators| - |journal.operators|
  {
    var indexed := IndexedFrom(next.operators[|journal.operators|..], |journal.operators|);
    SortKeeps(indexed, IndexKey);
    assert |multiset(NewOperators(journal, next))| == |multiset(indexed)|;
  }

  // Where a new event stands tells its kind and order, as for the old ones.
  lemma NewEventAt(journal: Journal, next: Journal, k: nat)
    requires journal.operators <= next.operators && journal.transitions <= next.transitions
    requires k < |NewEvents(journal, next)|
    ensures var a, b := |next.operators| - |journal.operators|, |next.transitions| - |journal.transitions|;
            var e := NewEvents(journal, next)[k];
            && |NewEvents(journal, next)| <= a + b + 1
            && (k < a ==> Rank(e) == 1 && Order(e) == |journal.operators| + k)
            && (a <= k < a + b ==> Rank(e) == 2 && Order(e) == |journal.transitions| + (k - a))
            && (a + b <= k ==> Rank(e) == 3)
  {
    NewOperatorsLength(journal, next);
  }

  lemma NewEventsAreDistinct(journal: Journal, next: Journal)
    requires Grows(journal, next)
    ensures DistinctKeys(NewEvents(journal, next), EventKey)
  {
    var more := NewEvents(journal, next);
    forall i, j | 0 <= i < j < |more| ensures EventKey(more[i]) != EventKey(more[j]) {
      NewEventAt(journal, next, i);
      NewEventAt(journal, next, j);
    }
  }

  // The longer journal's schedule is the old one with the new events sorted behind it.
  lemma ScheduleExtends(journal: Journal, next: Journal)
    requires Grows(journal, next) && Stamps(journal) != []
    ensures Schedule(next) == Schedule(journal) + SortBy(NewEvents(journal, next), EventKey)
  {
    var all, more := AllEvents(journal), NewEvents(journal, next);
    EventsAreDistinct(journal);
    NewEventsAreDistinct(journal, next);
    forall i, j | 0 <= i < |all| && 0 <= j < |more| ensures Less(EventKey(all[i]), EventKey(more[j])) {
      SourcesFollowTheTrigger(journal, i);
      NewEventIsLater(journal, next, j, all[i].source);
    }
    SortAppends(all, more, EventKey);
    SortKeeps(all + more, EventKey);
    EventsExtend(journal, next);
    ScheduleIsTheJournal(next);
    SortedIsUnique(Schedule(next), SortBy(all + more, EventKey), EventKey);
  }

  // Prefix stability: the same events at the same offsets, then the new ones.
  lemma OldTimelineIsAPrefix(journal: Journal, next: Journal, pacing: Pacing)
    requires Grows(journal, next) && Stamps(journal) != []
    ensures TimelineOf(Schedule(journal), pacing).events <= TimelineOf(Schedule(next), pacing).events
  {
    ScheduleExtends(journal, next);
    var n := |Schedule(journal)|;
    PacedPrefix(Schedule(next), pacing, n);
    assert Schedule(next)[..n] == Schedule(journal);
  }

  // ---------------------------------------------------------------- journals without a timestamp

  // Every stamp of a journal but its landing's is the time of a submission or a quorum step.
  lemma StampHasEvent(journal: Journal, x: int) returns (k: nat)
    requires x in Stamps(journal) && journal.attestation.timestamp.None?
    ensures k < |AllEvents(journal)| && AllEvents(journal)[k].source == x && 1 <= Rank(AllEvents(journal)[k]) <= 2
  {
    var n := |journal.operators|;
    var i :| 0 <= i < |Stamps(journal)| && Stamps(journal)[i] == x;
    ByTimeLength(journal);
    if i < n {
      var indexed := IndexedFrom(journal.operators, 0);
      SortKeeps(indexed, IndexKey);
      assert indexed[i] in multiset(ByTime(journal));
      var j :| 0 <= j < n && ByTime(journal)[j] == indexed[i];
      k := 1 + j;
    } else {
      k := 1 + i;
      assert AllEvents(journal)[k] == TransitionEvents(journal.transitions, 0)[i - n];
    }
  }

  // A landing that took the trigger's time stands behind whatever shares that time.
  lemma LandingIsNotNext(journal: Journal)
    requires Stamps(journal) != [] && journal.attestation.timestamp.None?
    ensures |Schedule(journal)| > 1 ==> !Schedule(journal)[1].AttestationEvent?
                                        || Schedule(journal)[1].source != EarliestTimestamp(journal)
  {
    var schedule := Schedule(journal);
    ScheduleIsTheJournal(journal);
    MinIsLeast(Stamps(journal));
    var k := StampHasEvent(journal, EarliestTimestamp(journal));
    assert AllEvents(journal)[k] in multiset(schedule);
    var j :| 0 <= j < |schedule| && schedule[j] == AllEvents(journal)[k];
    if j > 1 {
      assert Less(EventKey(schedule[1]), EventKey(schedule[j]));
    }
  }

  lemma OnlyTheTrigger(journal: Journal)
    requires Stamps(journal) == []
    ensures Schedule(journal) == [TriggerEvent(0)] + Landing(journal.attestation, 0)
  {
    var all := AllEvents(journal);
    assert |journal.operators| == 0 && |journal.transitions| == 0;
    ByTimeLength(journal);
    assert all == [TriggerEvent(0)] + Landing(journal.attestation, 0);
    ScheduleIsTheJournal(journal);
    assert Sorted(all, EventKey);
    SortedIsUnique(Schedule(journal), all, EventKey);
  }

  // For every journal without a timestamp and everything it grows into, as soon as the first
  // timestamp arrives: what was scheduled stays exactly if that timestamp is zero and nothing
  // had landed. The trigger keeps its offset; it is its source time that moves.
  lemma UntimedJournalsMove(journal: Journal, next: Journal, pacing: Pacing)
    requires Grows(journal, next) && Stamps(journal) == [] && Stamps(next) != []
    ensures var was, now := TimelineOf(Schedule(journal), pacing).events, TimelineOf(Schedule(next), pacing).events;
            && (was <= now <==> EarliestTimestamp(next) == 0 && journal.attestation.txHash.None?)
            && was != [] && now != []
            && was[0] == Timed(TriggerEvent(0), pacing.leadInMs)
            && now[0] == Timed(TriggerEvent(EarliestTimestamp(next)), pacing.leadInMs)
  {
    var before, after := Schedule(journal), Schedule(next);
    OnlyTheTrigger(journal);
    ScheduleIsTheJournal(next);
    FirstAtLeadIn(before, pacing);
    FirstAtLeadIn(after, pacing);
    if journal.attestation.txHash.Some? {
      LandingIsNotNext(next);
    } else {
      assert |Paced(before, pacing)| == 1;
    }
  }

  lemma FirstAtLeadIn(events: seq<Event>, pacing: Pacing)
    requires events != []
    ensures Paced(events, pacing)[0] == Timed(events[0], pacing.leadInMs)
  {
    PacedPrefix(events, pacing, 1);
    assert Paced(events, pacing)[..1][0] == Paced(events, pacing)[0];
  }
}
