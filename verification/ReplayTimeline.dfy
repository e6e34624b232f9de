/**
 * The replay engine of `apps/replay-ui/lib/replay.ts`: a strike's journal compiled into a
 * paced timeline. Journal timestamps are whole unix seconds, playback offsets are
 * milliseconds as reals.
 */
module ReplayTimeline {
  import opened Wrappers
  import opened SortByKey

  // ---------------------------------------------------------------- the journal

  datatype Operator = Operator(id: string, resultHash: string, nav: string, timestamp: int, accepted: bool)

  datatype QuorumStep = QuorumStep(timestamp: int, cumulative: int, reached: bool)

  datatype Attestation = Attestation(
    chainId: int, txHash: Option<string>, blockNumber: Option<int>, navFinal: Option<string>, timestamp: Option<int>)

  datatype Status = Pending | Settled | Stalled | Rejected

  datatype Journal = Journal(
    operators: seq<Operator>, transitions: seq<QuorumStep>, attestation: Attestation,
    winningResultHash: Option<string>, status: Status)

  datatype Pacing = Pacing(leadInMs: real, minGapMs: real, maxGapMs: real, msPerRealSecond: real, tailHoldMs: real)

  // ---------------------------------------------------------------- events

  datatype Event =
    | TriggerEvent(source: int)
    | SubmissionEvent(source: int, operator: Operator, order: nat)
    | TransitionEvent(source: int, transition: QuorumStep, order: nat)
    | AttestationEvent(source: int, attestation: Attestation)

  function Rank(event: Event): nat {
    match event
    case TriggerEvent(_) => 0
    case SubmissionEvent(_, _, _) => 1
    case TransitionEvent(_, _, _) => 2
    case AttestationEvent(_, _) => 3
  }

  // Position among events of one kind.
  function Order(event: Event): nat {
    if event.SubmissionEvent? || event.TransitionEvent? then event.order else 0
  }

  // The documented order: by source time, then kind, then appearance.
  function EventKey(event: Event): Key {
    Key(event.source, Rank(event), Order(event))
  }

  function AttestationStamp(journal: Journal): seq<int> {
    if journal.attestation.timestamp.Some? then [journal.attestation.timestamp.value] else []
  }

  function Stamps(journal: Journal): seq<int> {
    seq(|journal.operators|, i requires 0 <= i < |journal.operators| => journal.operators[i].timestamp)
    + seq(|journal.transitions|, i requires 0 <= i < |journal.transitions| => journal.transitions[i].timestamp)
    + AttestationStamp(journal)
  }

  function Min(s: seq<int>): int
    requires s != []
  {
    if |s| == 1 then s[0]
    else
      var rest := Min(s[1..]);
      if s[0] < rest then s[0] else rest
  }

  lemma {:induction false} MinIsLeast(s: seq<int>)
    requires s != []
    ensures Min(s) in s && forall x | x in s :: Min(s) <= x
  {
    if |s| > 1 {
      MinIsLeast(s[1..]);
      assert s == [s[0]] + s[1..];
    }
  }

  function EarliestTimestamp(journal: Journal): int {
    if Stamps(journal) == [] then 0 else Min(Stamps(journal))
  }

  // ---------------------------------------------------------------- the schedule, as a specification

  datatype Indexed = Indexed(operator: Operator, index: nat)

  function IndexKey(x: Indexed): Key {
    Key(x.operator.timestamp, x.index, 0)
  }

  // Operators with their journal positions, the first at `from`.
  function IndexedFrom(operators: seq<Operator>, from: nat): seq<Indexed> {
    seq(|operators|, i requires 0 <= i < |operators| => Indexed(operators[i], from + i))
  }

  function ByTime(journal: Journal): seq<Indexed> {
    SortBy(IndexedFrom(journal.operators, 0), IndexKey)
  }

  function SubmissionEvents(sorted: seq<Indexed>, from: nat): seq<Event> {
    seq(|sorted|, i requires 0 <= i < |sorted| =>
      SubmissionEvent(sorted[i].operator.timestamp, sorted[i].operator, from + i))
  }

  function TransitionEvents(transitions: seq<QuorumStep>, from: nat): seq<Event> {
    seq(|transitions|, i requires 0 <= i < |transitions| =>
      TransitionEvent(transitions[i].timestamp, transitions[i], from + i))
  }

  function Landing(attestation: Attestation, triggerAt: int): seq<Event> {
    if attestation.txHash.None? then []
    else [AttestationEvent(if attestation.timestamp.Some? then attestation.timestamp.value else triggerAt, attestation)]
  }

  function AllEvents(journal: Journal): seq<Event> {
    [TriggerEvent(EarliestTimestamp(journal))]
    + SubmissionEvents(ByTime(journal), 0)
    + TransitionEvents(journal.transitions, 0)
    + Landing(journal.attestation, EarliestTimestamp(journal))
  }

  function Schedule(journal: Journal): seq<Event> {
    SortBy(AllEvents(journal), EventKey)
  }

  // ---------------------------------------------------------------- pacing

  datatype Timed = Timed(event: Event, atMs: real)

  datatype Timeline = Timeline(events: seq<Timed>, durationMs: real)

  function Clamp(value: real, min: real, max: real): real {
    if value < min then min else if value > max then max else value
  }

  function Round(x: real): int {
    (x + 0.5).Floor
  }

  function ClampedMs(ms: real, pacing: Pacing): real {
    Clamp(Round(ms) as real, pacing.minGapMs, pacing.maxGapMs)
  }

  // seconds * rate, by repeated addition.
  function Scaled(seconds: nat, rate: real): real {
    if seconds == 0 then 0.0 else Scaled(seconds - 1, rate) + rate
  }

  function Gap(previous: int, next: int, pacing: Pacing): real {
    ClampedMs(Scaled(if next > previous then next - previous else 0, pacing.msPerRealSecond), pacing)
  }

  function Paced(events: seq<Event>, pacing: Pacing): (timed: seq<Timed>)
    ensures |timed| == |events| && forall i | 0 <= i < |events| :: timed[i].event == events[i]
  {
    if events == [] then []
    else
      var n := |events| - 1;
      var before := Paced(events[..n], pacing);
      before + [Timed(events[n], if n == 0 then pacing.leadInMs
                                 else before[n - 1].atMs + Gap(events[n - 1].source, events[n].source, pacing))]
  }

  function TimelineOf(events: seq<Event>, pacing: Pacing): Timeline {
    var timed := Paced(events, pacing);
    Timeline(timed, (if timed == [] then 0.0 else timed[|timed| - 1].atMs) + pacing.tailHoldMs)
  }

  // ---------------------------------------------------------------- keys

  lemma ByTimeLength(journal: Journal)
    ensures |ByTime(journal)| == |journal.operators|
  {
    SortKeeps(IndexedFrom(journal.operators, 0), IndexKey);
    assert |multiset(ByTime(journal))| == |multiset(IndexedFrom(journal.operators, 0))|;
  }

  // Where an event stands tells its kind and order.
  lemma EventAt(journal: Journal, i: nat)
    requires i < |AllEvents(journal)|
    ensures var n, m, e := |journal.operators|, |journal.transitions|, AllEvents(journal)[i];
            && |AllEvents(journal)| <= n + m + 2
            && (i == 0 ==> Rank(e) == 0 && Order(e) == 0)
            && (1 <= i <= n ==> Rank(e) == 1 && Order(e) == i - 1)
            && (n < i <= n + m ==> Rank(e) == 2 && Order(e) == i - 1 - n)
            && (n + m < i ==> Rank(e) == 3)
  {
    ByTimeLength(journal);
  }

  lemma EventsAreDistinct(journal: Journal)
    ensures DistinctKeys(AllEvents(journal), EventKey)
  {
    var all := AllEvents(journal);
    forall i, j | 0 <= i < j < |all| ensures EventKey(all[i]) != EventKey(all[j]) {
      EventAt(journal, i);
      EventAt(journal, j);
    }
  }

  // ---------------------------------------------------------------- the compiler of journals

  // An event before it is paced, as the source sorts it.
  datatype Unpaced = Unpaced(event: Event, rank: nat, seqNo: nat)

  function UnpacedKey(u: Unpaced): Key {
    Key(u.event.source, u.rank, u.seqNo)
  }

  function Tagged(events: seq<Event>): seq<Unpaced> {
    seq(|events|, i requires 0 <= i < |events| => Unpaced(events[i], Rank(events[i]), i))
  }

  function EventsOf(s: seq<Unpaced>): seq<Event> {
    seq(|s|, i requires 0 <= i < |s| => s[i].event)
  }

  // Two entries compare alike by push order and by order within their kind.
  ghost predicate SameOrder(s: seq<Unpaced>) {
    forall i, j | 0 <= i < |s| && 0 <= j < |s| ::
      Less(UnpacedKey(s[i]), UnpacedKey(s[j])) == Less(EventKey(s[i].event), EventKey(s[j].event))
  }

  lemma PushOrderIsEventOrder(journal: Journal)
    ensures SameOrder(Tagged(AllEvents(journal)))
  {
    var all := AllEvents(journal);
    forall i, j | 0 <= i < |all| && 0 <= j < |all|
      ensures Less(UnpacedKey(Tagged(all)[i]), UnpacedKey(Tagged(all)[j])) == Less(EventKey(all[i]), EventKey(all[j]))
    {
      EventAt(journal, i);
      EventAt(journal, j);
    }
  }

  lemma {:induction false} InsertMaps(x: Unpaced, s: seq<Unpaced>)
    requires forall i | 0 <= i < |s| ::
               Less(UnpacedKey(x), UnpacedKey(s[i])) == Less(EventKey(x.event), EventKey(s[i].event))
    ensures EventsOf(Insert(x, s, UnpacedKey)) == Insert(x.event, EventsOf(s), EventKey)
  {
    if s == [] || Less(UnpacedKey(x), UnpacedKey(s[0])) {
      assert EventsOf([x] + s) == [x.event] + EventsOf(s);
    } else {
      InsertMaps(x, s[1..]);
      assert EventsOf(s)[1..] == EventsOf(s[1..]);
      assert EventsOf([s[0]] + Insert(x, s[1..], UnpacedKey)) == [s[0].event] + EventsOf(Insert(x, s[1..], UnpacedKey));
    }
  }

  // Sorting only rearranges, so the comparisons still agree with the first of them.
  lemma StaysInOrder(s: seq<Unpaced>, rest: seq<Unpaced>)
    requires s != [] && SameOrder(s) && multiset(rest) == multiset(s[1..])
    ensures forall i | 0 <= i < |rest| ::
              Less(UnpacedKey(s[0]), UnpacedKey(rest[i])) == Less(EventKey(s[0].event), EventKey(rest[i].event))
  {
    forall i | 0 <= i < |rest|
      ensures Less(UnpacedKey(s[0]), UnpacedKey(rest[i])) == Less(EventKey(s[0].event), EventKey(rest[i].event))
    {
      assert rest[i] in multiset(rest);
      var k :| 0 <= k < |s[1..]| && s[1..][k] == rest[i];
      assert s[k + 1] == rest[i];
    }
  }

  lemma {:induction false} SortMaps(s: seq<Unpaced>)
    requires SameOrder(s)
    ensures EventsOf(SortBy(s, UnpacedKey)) == SortBy(EventsOf(s), EventKey)
  {
    if s == [] {
      assert EventsOf(s) == [];
    } else {
      var rest := SortBy(s[1..], UnpacedKey);
      SortMaps(s[1..]);
      SortKeeps(s[1..], UnpacedKey);
      StaysInOrder(s, rest);
      InsertMaps(s[0], rest);
      assert EventsOf(s)[1..] == EventsOf(s[1..]);
    }
  }

  method EarliestOf(journal: Journal) returns (earliest: int)
    ensures earliest == EarliestTimestamp(journal)
  {
    var stamps := Stamps(journal);
    if stamps == [] {
      return 0;
    }
    MinIsLeast(stamps);
    earliest := stamps[0];
    for i := 1 to |stamps|
      invariant earliest in stamps
      invariant forall k | 0 <= k < i :: earliest <= stamps[k]
    {
      if stamps[i] < earliest {
        earliest := stamps[i];
      }
    }
    assert forall x | x in stamps :: earliest <= x;
  }

  // The pushes onto `unpaced`, kind by kind.
  method Collect(journal: Journal, triggerAt: int) returns (unpaced: seq<Unpaced>)
    requires triggerAt == EarliestTimestamp(journal)
    ensures unpaced == Tagged(AllEvents(journal))
  {
    var events := [TriggerEvent(triggerAt)];
    unpaced := [Unpaced(TriggerEvent(triggerAt), 0, 0)];
    var submissions := SortBy(IndexedFrom(journal.operators, 0), IndexKey);
    ByTimeLength(journal);
    unpaced := PushAll(unpaced, events, SubmissionEvents(submissions, 0));
    events := events + SubmissionEvents(submissions, 0);
    unpaced := PushAll(unpaced, events, TransitionEvents(journal.transitions, 0));
    events := events + TransitionEvents(journal.transitions, 0);
    unpaced := PushAll(unpaced, events, Landing(journal.attestation, triggerAt));
  }

  method PushAll(unpaced: seq<Unpaced>, ghost events: seq<Event>, more: seq<Event>) returns (longer: seq<Unpaced>)
    requires unpaced == Tagged(events)
    ensures longer == Tagged(events + more)
  {
    longer := unpaced;
    for i := 0 to |more|
      invariant longer == Tagged(events + more[..i])
    {
      longer := longer + [Unpaced(more[i], Rank(more[i]), |longer|)];
      assert events + more[..i + 1] == (events + more[..i]) + [more[i]];
    }
    assert more[..|more|] == more;
  }

  /** Collect, sort, then walk the sorted entries with a cursor. */
  method BuildTimeline(journal: Journal, pacing: Pacing) returns (timeline: Timeline)
    ensures timeline == TimelineOf(Schedule(journal), pacing)
  {
    var triggerAt := EarliestOf(journal);
    var unpaced := Collect(journal, triggerAt);
    unpaced := SortBy(unpaced, UnpacedKey);
    PushOrderIsEventOrder(journal);
    SortMaps(Tagged(AllEvents(journal)));
    assert EventsOf(Tagged(AllEvents(journal))) == AllEvents(journal);
    assert EventsOf(unpaced) == Schedule(journal);
    var events := PaceAll(unpaced, pacing);
    timeline := Timeline(events, (if events == [] then 0.0 else events[|events| - 1].atMs) + pacing.tailHoldMs);
  }

  method PaceAll(unpaced: seq<Unpaced>, pacing: Pacing) returns (events: seq<Timed>)
    ensures events == Paced(EventsOf(unpaced), pacing)
  {
    events := [];
    var cursor := pacing.leadInMs;
    var previousSource: Option<int> := None;
    ghost var all := EventsOf(unpaced);
    for i := 0 to |unpaced|
      invariant events == Paced(all[..i], pacing)
      invariant i == 0 ==> previousSource == None && cursor == pacing.leadInMs
      invariant i > 0 ==> previousSource == Some(all[i - 1].source) && cursor == events[i - 1].atMs
    {
      var event := unpaced[i].event;
      if previousSource.Some? {
        cursor := cursor + Gap(previousSource.value, event.source, pacing);
      }
      previousSource := Some(event.source);
      assert all[..i + 1][..i] == all[..i];
      events := events + [Timed(event, cursor)];
    }
    assert all[..|unpaced|] == all;
  }

  // ---------------------------------------------------------------- what a timeline is

  lemma SubmissionStamp(journal: Journal, k: nat)
    requires k < |ByTime(journal)|
    ensures ByTime(journal)[k].operator.timestamp in Stamps(journal)
  {
    var sorted, indexed := ByTime(journal), IndexedFrom(journal.operators, 0);
    SortKeeps(indexed, IndexKey);
    assert sorted[k] in multiset(sorted);
    var i :| 0 <= i < |indexed| && indexed[i] == sorted[k];
    assert Stamps(journal)[i] == sorted[k].operator.timestamp;
  }

  lemma EventStamp(journal: Journal, i: nat)
    requires i < |AllEvents(journal)| && !AllEvents(journal)[i].TriggerEvent?
    requires AllEvents(journal)[i].AttestationEvent? ==> journal.attestation.timestamp.Some?
    ensures AllEvents(journal)[i].source in Stamps(journal)
  {
    var stamps, e := Stamps(journal), AllEvents(journal)[i];
    EventAt(journal, i);
    ByTimeLength(journal);
    if e.SubmissionEvent? {
      SubmissionStamp(journal, e.order);
    } else if e.TransitionEvent? {
      assert stamps[|journal.operators| + e.order] == e.source;
    } else {
      assert stamps[|stamps| - 1] == e.source;
    }
  }

  lemma SourcesFollowTheTrigger(journal: Journal, i: nat)
    requires i < |AllEvents(journal)|
    ensures EarliestTimestamp(journal) <= AllEvents(journal)[i].source
    ensures Stamps(journal) != [] ==> AllEvents(journal)[i].source in Stamps(journal)
  {
    var stamps, e := Stamps(journal), AllEvents(journal)[i];
    if stamps != [] {
      MinIsLeast(stamps);
    }
    if !e.TriggerEvent? && (e.AttestationEvent? ==> journal.attestation.timestamp.Some?) {
      EventStamp(journal, i);
    } else {
      EventAt(journal, i);
      ByTimeLength(journal);
    }
  }

  lemma TriggerIsLeast(journal: Journal, k: nat)
    requires 0 < k < |AllEvents(journal)|
    ensures Less(EventKey(AllEvents(journal)[0]), EventKey(AllEvents(journal)[k]))
  {
    SourcesFollowTheTrigger(journal, k);
    EventAt(journal, 0);
    EventAt(journal, k);
  }

  lemma SomethingIsIn(s: seq<Event>, t: seq<Event>, i: nat) returns (k: nat)
    requires i < |s| && multiset(s) == multiset(t)
    ensures k < |t| && t[k] == s[i]
  {
    assert s[i] in multiset(t);
    k :| 0 <= k < |t| && t[k] == s[i];
  }

  lemma TriggerOpens(journal: Journal, schedule: seq<Event>)
    requires Sorted(schedule, EventKey) && multiset(schedule) == multiset(AllEvents(journal))
    ensures schedule != [] && schedule[0] == TriggerEvent(EarliestTimestamp(journal))
  {
    var all := AllEvents(journal);
    var i := SomethingIsIn(all, schedule, 0);
    var k := SomethingIsIn(schedule, all, 0);
    HeadIsLess(schedule, EventKey, i);
    if k > 0 {
      TriggerIsLeast(journal, k);
    }
  }

  // The timeline is exactly the journal's events, each once, in the documented order,
  // and it opens with the trigger.
  lemma ScheduleIsTheJournal(journal: Journal)
    ensures multiset(Schedule(journal)) == multiset(AllEvents(journal))
    ensures Sorted(Schedule(journal), EventKey)
    ensures Schedule(journal) != [] && Schedule(journal)[0] == TriggerEvent(EarliestTimestamp(journal))
  {
    EventsAreDistinct(journal);
    SortKeeps(AllEvents(journal), EventKey);
    SortSorts(AllEvents(journal), EventKey);
    TriggerOpens(journal, Schedule(journal));
  }

  ghost predicate Playable(pacing: Pacing) {
    0.0 < pacing.minGapMs <= pacing.maxGapMs && pacing.leadInMs >= 0.0 && pacing.tailHoldMs >= 0.0
  }

  // Pacing looks only backwards.
  lemma {:induction false} PacedPrefix(events: seq<Event>, pacing: Pacing, k: nat)
    requires k <= |events|
    ensures Paced(events, pacing)[..k] == Paced(events[..k], pacing)
    decreases |events|
  {
    if k == |events| {
      assert events[..k] == events;
    } else {
      var n := |events| - 1;
      PacedPrefix(events[..n], pacing, k);
      assert events[..n][..k] == events[..k];
    }
  }

  lemma GapAt(events: seq<Event>, pacing: Pacing, i: nat)
    requires 0 < i < |events|
    ensures var timed := Paced(events, pacing);
            timed[i].atMs == timed[i - 1].atMs + Gap(events[i - 1].source, events[i].source, pacing)
  {
    var upTo := events[..i + 1];
    PacedPrefix(events, pacing, i + 1);
    PacedPrefix(upTo, pacing, i);
    assert Paced(events, pacing)[..i + 1][i] == Paced(events, pacing)[i];
    assert Paced(events, pacing)[..i + 1][i - 1] == Paced(events, pacing)[i - 1];
    assert upTo[..i][i - 1] == events[i - 1];
  }

  // The first event fires after the lead-in, and every gap lies between the floor and the ceiling.
  lemma GapsAreClamped(events: seq<Event>, pacing: Pacing, i: nat)
    requires Playable(pacing) && i < |events|
    ensures var timed := Paced(events, pacing);
            if i == 0 then timed[0].atMs == pacing.leadInMs
            else pacing.minGapMs <= timed[i].atMs - timed[i - 1].atMs <= pacing.maxGapMs
  {
    if i == 0 {
      PacedPrefix(events, pacing, 1);
      assert Paced(events, pacing)[..1][0] == Paced(events, pacing)[0];
    } else {
      GapAt(events, pacing, i);
    }
  }

  // r is x rounded, halves up.
  ghost predicate RoundsTo(x: real, r: int) {
    x - 0.5 < r as real <= x + 0.5
  }

  // The gap for a wait of so many seconds, when r is that wait at the pacing's rate, rounded.
  ghost predicate PacedGap(gap: real, r: int, pacing: Pacing) {
    gap == if (r as real) < pacing.minGapMs then pacing.minGapMs
           else if r as real > pacing.maxGapMs then pacing.maxGapMs
           else r as real
  }

  lemma RoundIs(x: real, r: int)
    requires RoundsTo(x, r)
    ensures Round(x) == r
  {
  }

  lemma RoundMonotone(x: real, y: real)
    requires x <= y
    ensures Round(x) <= Round(y)
  {
  }

  lemma ClampedIsPaced(ms: real, pacing: Pacing, r: int)
    requires RoundsTo(ms, r)
    ensures PacedGap(ClampedMs(ms, pacing), r, pacing)
  {
    RoundIs(ms, r);
  }

  lemma ClampedRises(x: real, y: real, pacing: Pacing)
    requires x <= y && Playable(pacing)
    ensures ClampedMs(x, pacing) <= ClampedMs(y, pacing)
  {
    RoundMonotone(x, y);
  }

  // Repeated addition is the product.
  lemma {:induction false} ScaledIsTheProduct(seconds: nat, rate: real)
    ensures Scaled(seconds, rate) == seconds as real * rate
  {
    if seconds > 0 {
      ScaledIsTheProduct(seconds - 1, rate);
      assert seconds as real == (seconds - 1) as real + 1.0;
      assert ((seconds - 1) as real + 1.0) * rate == (seconds - 1) as real * rate + rate;
    }
  }

  lemma {:induction false} MoreSeconds(s: nat, u: nat, rate: real)
    requires s <= u && rate >= 0.0
    ensures Scaled(s, rate) <= Scaled(u, rate)
  {
    if s < u {
      MoreSeconds(s, u - 1, rate);
    }
  }

  lemma SourcesAscend(journal: Journal, i: nat)
    requires 0 < i < |Schedule(journal)|
    ensures Schedule(journal)[i - 1].source <= Schedule(journal)[i].source
  {
    ScheduleIsTheJournal(journal);
    assert Less(EventKey(Schedule(journal)[i - 1]), EventKey(Schedule(journal)[i]));
  }

  // Between two events of a compiled journal passes the whole seconds between their times at
  // the pacing's rate, rounded to a millisecond, or the floor or the ceiling past which it lies.
  lemma GapsFollowTheJournal(journal: Journal, pacing: Pacing, i: nat, seconds: nat, r: int)
    requires 0 < i < |Schedule(journal)|
    requires seconds == Schedule(journal)[i].source - Schedule(journal)[i - 1].source
    requires RoundsTo(Scaled(seconds, pacing.msPerRealSecond), r)
    ensures var timed := TimelineOf(Schedule(journal), pacing).events;
            PacedGap(timed[i].atMs - timed[i - 1].atMs, r, pacing)
  {
    GapAt(Schedule(journal), pacing, i);
    ClampedIsPaced(Scaled(seconds, pacing.msPerRealSecond), pacing, r);
  }

  // A longer wait in the journal is never a shorter one on screen.
  lemma LongerIsNotShorter(journal: Journal, pacing: Pacing, i: nat, j: nat)
    requires Playable(pacing) && pacing.msPerRealSecond >= 0.0
    requires 0 < i < |Schedule(journal)| && 0 < j < |Schedule(journal)|
    requires var schedule := Schedule(journal);
             schedule[i].source - schedule[i - 1].source <= schedule[j].source - schedule[j - 1].source
    ensures var timed := TimelineOf(Schedule(journal), pacing).events;
            timed[i].atMs - timed[i - 1].atMs <= timed[j].atMs - timed[j - 1].atMs
  {
    SourcesAscend(journal, i);
    SourcesAscend(journal, j);
    LongerGap(Schedule(journal), pacing, i, j);
  }

  lemma LongerGap(events: seq<Event>, pacing: Pacing, i: nat, j: nat)
    requires Playable(pacing) && pacing.msPerRealSecond >= 0.0
    requires 0 < i < |events| && 0 < j < |events|
    requires 0 <= events[i].source - events[i - 1].source <= events[j].source - events[j - 1].source
    ensures Paced(events, pacing)[i].atMs - Paced(events, pacing)[i - 1].atMs
            <= Paced(events, pacing)[j].atMs - Paced(events, pacing)[j - 1].atMs
  {
    GapAt(events, pacing, i);
    GapAt(events, pacing, j);
    GapRises(events[i - 1].source, events[i].source, events[j - 1].source, events[j].source, pacing);
  }

  lemma GapRises(p: int, q: int, p': int, q': int, pacing: Pacing)
    requires 0 <= q - p <= q' - p' && Playable(pacing) && pacing.msPerRealSecond >= 0.0
    ensures Gap(p, q, pacing) <= Gap(p', q', pacing)
  {
    var s: nat, u: nat, rate := q - p, q' - p', pacing.msPerRealSecond;
    MoreSeconds(s, u, rate);
    ClampedRises(Scaled(s, rate), Scaled(u, rate), pacing);
  }

  lemma {:induction false} OffsetsIncrease(events: seq<Event>, pacing: Pacing, i: nat, j: nat)
    requires Playable(pacing) && i < j < |events|
    ensures Paced(events, pacing)[i].atMs < Paced(events, pacing)[j].atMs
    decreases j
  {
    GapsAreClamped(events, pacing, j);
    if i < j - 1 {
      OffsetsIncrease(events, pacing, i, j - 1);
    }
  }
}
