/**
 * `deriveReplayState` of `apps/replay-ui/lib/replay.ts`: everything a renderer needs at a
 * playback time, as a function of journal, time and timeline. Playback never goes back.
 */
module ReplayState {
  import opened Wrappers
  import opened SortByKey
  import opened ReplayTimeline

  // A playback time; NaN and the infinities all read as the end.
  datatype Time = Finite(ms: real) | NotFinite

  datatype Phase = Idle | Triggered | Collecting | QuorumReached | Attested | Complete | StalledPhase | RejectedPhase

  function PhaseRank(phase: Phase): nat {
    match phase
    case Idle => 0
    case Triggered => 1
    case Collecting => 2
    case QuorumReached => 3
    case Attested => 4
    case _ => 5
  }

  datatype OperatorState = OperatorState(operator: Operator, matchesWinningHash: Option<bool>, appearedAtMs: real)

  datatype State = State(
    phase: Phase, tMs: real, triggered: bool, operators: seq<OperatorState>, awaitingOperatorCount: nat,
    cumulative: int, reached: bool, transitionsFired: nat, landed: Option<Attestation>,
    eventsFired: nat, lastEvent: Option<Timed>, done: bool)

  function Fired(events: seq<Timed>, tMs: real): seq<Timed> {
    if events == [] then []
    else
      var before := Fired(events[..|events| - 1], tMs);
      if events[|events| - 1].atMs <= tMs then before + [events[|events| - 1]] else before
  }

  function OperatorsIn(fired: seq<Timed>, winningHash: Option<string>): seq<OperatorState> {
    if fired == [] then []
    else
      var last := fired[|fired| - 1];
      OperatorsIn(fired[..|fired| - 1], winningHash)
      + (if last.event.SubmissionEvent? then
           [OperatorState(last.event.operator,
                          if winningHash.None? then None else Some(last.event.operator.resultHash == winningHash.value),
                          last.atMs)]
         else [])
  }

  function TransitionsIn(fired: seq<Timed>): seq<QuorumStep> {
    if fired == [] then []
    else
      var last := fired[|fired| - 1];
      TransitionsIn(fired[..|fired| - 1]) + (if last.event.TransitionEvent? then [last.event.transition] else [])
  }

  predicate HasTrigger(fired: seq<Timed>) {
    exists i :: 0 <= i < |fired| && fired[i].event.TriggerEvent?
  }

  predicate Reached(fired: seq<Timed>) {
    exists i :: 0 <= i < |fired| && fired[i].event.TransitionEvent? && fired[i].event.transition.reached
  }

  // The first landing to fire, when it carries a transaction.
  function LandedIn(fired: seq<Timed>): Option<Attestation> {
    if fired == [] then None
    else if fired[0].event.AttestationEvent? then
      (if fired[0].event.attestation.txHash.Some? then Some(fired[0].event.attestation) else None)
    else LandedIn(fired[1..])
  }

  function TerminalPhase(status: Status): Option<Phase> {
    match status
    case Settled => Some(Complete)
    case Stalled => Some(StalledPhase)
    case Rejected => Some(RejectedPhase)
    case Pending => None
  }

  function PlaybackTime(t: Time, durationMs: real): real {
    Clamp(if t.Finite? then t.ms else durationMs, 0.0, durationMs)
  }

  function PhaseOf(fired: seq<Timed>, done: bool, status: Status): Phase {
    if !HasTrigger(fired) then Idle
    else if done && TerminalPhase(status).Some? then TerminalPhase(status).value
    else if LandedIn(fired).Some? then Attested
    else if Reached(fired) then QuorumReached
    else if OperatorsIn(fired, None) != [] then Collecting
    else Triggered
  }

  function Derive(journal: Journal, t: Time, timeline: Timeline): State {
    var tMs := PlaybackTime(t, timeline.durationMs);
    var done := tMs >= timeline.durationMs;
    var fired := Fired(timeline.events, tMs);
    var operators := OperatorsIn(fired, journal.winningResultHash);
    var transitions := TransitionsIn(fired);
    State(
      PhaseOf(fired, done, journal.status), tMs, HasTrigger(fired), operators,
      if |operators| < |journal.operators| then |journal.operators| - |operators| else 0,
      if transitions == [] then 0 else transitions[|transitions| - 1].cumulative,
      Reached(fired), |transitions|, LandedIn(fired),
      |fired|, if fired == [] then None else Some(fired[|fired| - 1]), done)
  }

  // ---------------------------------------------------------------- what has fired

  ghost predicate Ordered(events: seq<Timed>) {
    forall i, j | 0 <= i < j < |events| :: events[i].atMs < events[j].atMs
  }

  // The first k events are due, the rest are not.
  ghost predicate IsCut(events: seq<Timed>, tMs: real, k: nat) {
    && k <= |events|
    && (forall i | 0 <= i < k :: events[i].atMs <= tMs)
    && (forall i | k <= i < |events| :: tMs < events[i].atMs)
  }

  // The offset at i, or a default past the end.
  function OffsetAt(events: seq<Timed>, i: nat, fallback: real): real {
    if i < |events| then events[i].atMs else fallback
  }

  lemma CutOneMore(events: seq<Timed>, tMs: real, k: nat)
    requires events != [] && Ordered(events) && IsCut(events[..|events| - 1], tMs, k)
    ensures var n := |events| - 1;
            if events[n].atMs <= tMs then k == n && IsCut(events, tMs, n + 1) else IsCut(events, tMs, k)
  {
    var n := |events| - 1;
    assert forall i | 0 <= i < n :: events[..n][i] == events[i];
    var first, same := OffsetAt(events[..n], k, tMs), OffsetAt(events, k, tMs);
  }

  // With increasing offsets the fired events are a prefix, cut at the time.
  lemma {:induction false} FiredIsAPrefix(events: seq<Timed>, tMs: real) returns (k: nat)
    requires Ordered(events)
    ensures IsCut(events, tMs, k) && Fired(events, tMs) == events[..k]
    decreases |events|
  {
    if events == [] {
      k := 0;
    } else {
      var n := |events| - 1;
      k := FiredIsAPrefix(events[..n], tMs);
      CutOneMore(events, tMs, k);
      if events[n].atMs <= tMs {
        k := n + 1;
        assert events[..n][..n] + [events[n]] == events == events[..n + 1];
      } else {
        assert events[..n][..k] == events[..k];
      }
    }
  }

  lemma CutsGrow(events: seq<Timed>, t1: real, k1: nat, t2: real, k2: nat)
    requires IsCut(events, t1, k1) && IsCut(events, t2, k2) && t1 <= t2
    ensures k1 <= k2
  {
    var next := OffsetAt(events, k2, t2);
  }

  lemma FiredGrows(events: seq<Timed>, t1: real, t2: real)
    requires Ordered(events) && t1 <= t2
    ensures Fired(events, t1) <= Fired(events, t2)
  {
    var k1 := FiredIsAPrefix(events, t1);
    var k2 := FiredIsAPrefix(events, t2);
    CutsGrow(events, t1, k1, t2, k2);
  }

  lemma {:induction false} OperatorsGrow(fired: seq<Timed>, more: seq<Timed>, hash: Option<string>)
    requires fired <= more
    ensures OperatorsIn(fired, hash) <= OperatorsIn(more, hash)
    ensures TransitionsIn(fired) <= TransitionsIn(more)
    decreases |more|
  {
    if |fired| < |more| {
      OperatorsGrow(fired, more[..|more| - 1], hash);
    } else {
      assert fired == more;
    }
  }

  lemma {:induction false} LandedStays(fired: seq<Timed>, more: seq<Timed>)
    requires fired <= more && LandedIn(fired).Some?
    ensures LandedIn(more) == LandedIn(fired)
    decreases |fired|
  {
    if !fired[0].event.AttestationEvent? {
      LandedStays(fired[1..], more[1..]);
    }
  }

  lemma PhaseRises(fired: seq<Timed>, more: seq<Timed>, done: bool, done': bool, status: Status)
    requires fired <= more && (done ==> done')
    ensures var before, after := PhaseOf(fired, done, status), PhaseOf(more, done', status);
            before == after || PhaseRank(before) < PhaseRank(after)
  {
    OperatorsGrow(fired, more, None);
    if LandedIn(fired).Some? {
      LandedStays(fired, more);
    }
    TestsStay(fired, more);
  }

  lemma TestsStay(fired: seq<Timed>, more: seq<Timed>)
    requires fired <= more
    ensures HasTrigger(fired) ==> HasTrigger(more)
    ensures Reached(fired) ==> Reached(more)
  {
    if HasTrigger(fired) {
      var i :| 0 <= i < |fired| && fired[i].event.TriggerEvent?;
      assert more[i] == fired[i];
    }
    if Reached(fired) {
      var i :| 0 <= i < |fired| && fired[i].event.TransitionEvent? && fired[i].event.transition.reached;
      assert more[i] == fired[i];
    }
  }

  // ---------------------------------------------------------------- the theorems

  lemma TimelineIsOrdered(events: seq<Event>, pacing: Pacing)
    requires Playable(pacing)
    ensures var timeline := TimelineOf(events, pacing);
            && Ordered(timeline.events) && timeline.durationMs >= 0.0
            && (forall i | 0 <= i < |timeline.events| :: timeline.events[i].atMs <= timeline.durationMs)
  {
    var timed := Paced(events, pacing);
    forall i, j | 0 <= i < j < |timed| ensures timed[i].atMs < timed[j].atMs {
      OffsetsIncrease(events, pacing, i, j);
    }
    if events != [] {
      GapsAreClamped(events, pacing, 0);
    }
  }

  // As playback time grows the phase never falls back, and nothing shown disappears:
  // operators, quorum steps and the landing only accumulate.
  lemma PlaybackNeverGoesBack(journal: Journal, pacing: Pacing, t1: real, t2: real)
    requires Playable(pacing) && t1 <= t2
    ensures var timeline := TimelineOf(Schedule(journal), pacing);
            var before, after := Derive(journal, Finite(t1), timeline), Derive(journal, Finite(t2), timeline);
            && (before.phase == after.phase || PhaseRank(before.phase) < PhaseRank(after.phase))
            && before.tMs <= after.tMs && (before.done ==> after.done)
            && before.operators <= after.operators
            && before.transitionsFired <= after.transitionsFired
            && before.eventsFired <= after.eventsFired
            && (before.landed.Some? ==> after.landed == before.landed)
  {
    var timeline := TimelineOf(Schedule(journal), pacing);
    TimelineIsOrdered(Schedule(journal), pacing);
    var m1, m2 := PlaybackTime(Finite(t1), timeline.durationMs), PlaybackTime(Finite(t2), timeline.durationMs);
    FiredGrows(timeline.events, m1, m2);
    var fired, more := Fired(timeline.events, m1), Fired(timeline.events, m2);
    OperatorsGrow(fired, more, journal.winningResultHash);
    PhaseRises(fired, more, m1 >= timeline.durationMs, m2 >= timeline.durationMs, journal.status);
    if LandedIn(fired).Some? {
      LandedStays(fired, more);
    }
  }

  // ---------------------------------------------------------------- the end

  // Events of one kind.
  function Count(events: seq<Event>, rank: nat): nat {
    if events == [] then 0 else (if Rank(events[0]) == rank then 1 else 0) + Count(events[1..], rank)
  }

  lemma {:induction false} CountAppends(a: seq<Event>, b: seq<Event>, rank: nat)
    ensures Count(a + b, rank) == Count(a, rank) + Count(b, rank)
  {
    if a == [] {
      assert a + b == b;
    } else {
      assert (a + b)[1..] == a[1..] + b;
      CountAppends(a[1..], b, rank);
    }
  }

  lemma {:induction false} InsertCounts(x: Event, s: seq<Event>, rank: nat)
    ensures Count(Insert(x, s, EventKey), rank) == (if Rank(x) == rank then 1 else 0) + Count(s, rank)
  {
    if s == [] || Less(EventKey(x), EventKey(s[0])) {
      assert ([x] + s)[1..] == s;
    } else {
      InsertCounts(x, s[1..], rank);
      assert ([s[0]] + Insert(x, s[1..], EventKey))[1..] == Insert(x, s[1..], EventKey);
    }
  }

  lemma {:induction false} SortCounts(s: seq<Event>, rank: nat)
    ensures Count(SortBy(s, EventKey), rank) == Count(s, rank)
  {
    if s != [] {
      SortCounts(s[1..], rank);
      InsertCounts(s[0], SortBy(s[1..], EventKey), rank);
    }
  }

  lemma {:induction false} CountUniform(s: seq<Event>, kind: nat, rank: nat)
    requires forall i | 0 <= i < |s| :: Rank(s[i]) == kind
    ensures Count(s, rank) == if kind == rank then |s| else 0
  {
    if s != [] {
      CountUniform(s[1..], kind, rank);
    }
  }

  lemma CountAll(journal: Journal)
    ensures Count(Schedule(journal), 1) == |journal.operators|
    ensures Count(Schedule(journal), 2) == |journal.transitions|
  {
    var trigger := [TriggerEvent(EarliestTimestamp(journal))];
    var subs, steps := SubmissionEvents(ByTime(journal), 0), TransitionEvents(journal.transitions, 0);
    var landing := Landing(journal.attestation, EarliestTimestamp(journal));
    ByTimeLength(journal);
    forall rank: nat | rank == 1 || rank == 2
      ensures Count(AllEvents(journal), rank) == if rank == 1 then |subs| else |steps|
    {
      CountUniform(trigger, 0, rank);
      CountUniform(subs, 1, rank);
      CountUniform(steps, 2, rank);
      CountUniform(landing, 3, rank);
      CountAppends(trigger, subs, rank);
      CountAppends(trigger + subs, steps, rank);
      CountAppends(trigger + subs + steps, landing, rank);
    }
    SortCounts(AllEvents(journal), 1);
    SortCounts(AllEvents(journal), 2);
  }

  lemma {:induction false} ShownAreCounted(timed: seq<Timed>, events: seq<Event>, hash: Option<string>)
    requires |timed| == |events| && forall i | 0 <= i < |events| :: timed[i].event == events[i]
    ensures |OperatorsIn(timed, hash)| == Count(events, 1) && |TransitionsIn(timed)| == Count(events, 2)
    decreases |events|
  {
    if timed != [] {
      var n := |events| - 1;
      ShownAreCounted(timed[..n], events[..n], hash);
      assert events == events[..n] + [events[n]];
      CountAppends(events[..n], [events[n]], 1);
      CountAppends(events[..n], [events[n]], 2);
    }
  }

  lemma AllFired(timeline: Timeline, tMs: real)
    requires Ordered(timeline.events) && tMs >= timeline.durationMs
    requires forall i | 0 <= i < |timeline.events| :: timeline.events[i].atMs <= timeline.durationMs
    ensures Fired(timeline.events, tMs) == timeline.events
  {
    var k := FiredIsAPrefix(timeline.events, tMs);
    var next := OffsetAt(timeline.events, k, tMs);
  }

  // At the end, which is also what a time that is not a number means, every operator and
  // every quorum step is on screen, and a finished strike shows its outcome.
  lemma TheEndShowsEverything(journal: Journal, pacing: Pacing, t: Time)
    requires Playable(pacing)
    requires t.Finite? ==> t.ms >= TimelineOf(Schedule(journal), pacing).durationMs
    ensures var end := Derive(journal, t, TimelineOf(Schedule(journal), pacing));
            && end.done && end.triggered
            && |end.operators| == |journal.operators| && end.awaitingOperatorCount == 0
            && end.transitionsFired == |journal.transitions|
            && (journal.status == Settled <==> end.phase == Complete)
            && (journal.status == Stalled <==> end.phase == StalledPhase)
            && (journal.status == Rejected <==> end.phase == RejectedPhase)
            && (journal.status == Pending ==> end.phase in {Triggered, Collecting, QuorumReached, Attested})
  {
    var schedule, timeline := Schedule(journal), TimelineOf(Schedule(journal), pacing);
    TimelineIsOrdered(schedule, pacing);
    AllFired(timeline, PlaybackTime(t, timeline.durationMs));
    ShownAreCounted(timeline.events, schedule, journal.winningResultHash);
    CountAll(journal);
    OpensWithTrigger(journal, pacing);
    EndPhase(timeline.events, journal.status);
  }

  lemma OpensWithTrigger(journal: Journal, pacing: Pacing)
    ensures HasTrigger(Paced(Schedule(journal), pacing))
  {
    ScheduleIsTheJournal(journal);
    assert Paced(Schedule(journal), pacing)[0].event.TriggerEvent?;
  }

  lemma EndPhase(fired: seq<Timed>, status: Status)
    requires HasTrigger(fired)
    ensures var phase := PhaseOf(fired, true, status);
            match status
            case Settled => phase == Complete
            case Stalled => phase == StalledPhase
            case Rejected => phase == RejectedPhase
            case Pending => phase in {Triggered, Collecting, QuorumReached, Attested}
  {
  }

  // ---------------------------------------------------------------- what is shown at any time

  // An event a list on screen is made of: a submission, or a quorum step.
  predicate Listed(event: Event, steps: bool) {
    if steps then event.TransitionEvent? else event.SubmissionEvent?
  }

  ghost predicate Rising(at: seq<nat>) {
    forall j, k | 0 <= j < k < |at| :: at[j] < at[k]
  }

  ghost predicate AllListed(fired: seq<Timed>, steps: bool, at: seq<nat>) {
    forall j | 0 <= j < |at| :: at[j] < |fired| && Listed(fired[at[j]].event, steps)
  }

  ghost predicate NoneMissed(fired: seq<Timed>, steps: bool, at: seq<nat>) {
    forall i: nat | i < |fired| && Listed(fired[i].event, steps) :: i in at
  }

  // The positions of the listed events, in order.
  ghost predicate Positions(fired: seq<Timed>, steps: bool, at: seq<nat>) {
    Rising(at) && AllListed(fired, steps, at) && NoneMissed(fired, steps, at)
  }

  lemma RisingOneMore(fired: seq<Timed>, steps: bool, at: seq<nat>, n: nat)
    requires |fired| == n + 1 && Rising(at) && AllListed(fired[..n], steps, at)
    ensures AllListed(fired, steps, at)
    ensures Rising(at + [n])
    ensures Listed(fired[n].event, steps) ==> AllListed(fired, steps, at + [n])
  {
  }

  lemma NoneMissedOneMore(fired: seq<Timed>, steps: bool, at: seq<nat>, n: nat)
    requires |fired| == n + 1 && NoneMissed(fired[..n], steps, at)
    ensures NoneMissed(fired, steps, if Listed(fired[n].event, steps) then at + [n] else at)
  {
    forall i: nat | i < |fired| && Listed(fired[i].event, steps)
      ensures i in (if Listed(fired[n].event, steps) then at + [n] else at)
    {
      if i < n {
        assert fired[..n][i] == fired[i];
      }
    }
  }

  lemma PositionsOneMore(fired: seq<Timed>, steps: bool, at: seq<nat>, n: nat) returns (more: seq<nat>)
    requires |fired| == n + 1 && Positions(fired[..n], steps, at)
    ensures more == if Listed(fired[n].event, steps) then at + [n] else at
    ensures Positions(fired, steps, more)
  {
    more := if Listed(fired[n].event, steps) then at + [n] else at;
    RisingOneMore(fired, steps, at, n);
    NoneMissedOneMore(fired, steps, at, n);
  }

  // An operator as its submission put it on screen.
  ghost predicate Shows(shown: OperatorState, submission: Timed, hash: Option<string>) {
    && submission.event.SubmissionEvent?
    && shown.operator == submission.event.operator && shown.appearedAtMs == submission.atMs
    && (hash.None? ==> shown.matchesWinningHash == None)
    && (hash.Some? ==> shown.matchesWinningHash == Some(shown.operator.resultHash == hash.value))
  }

  ghost predicate AllShown(fired: seq<Timed>, at: seq<nat>, shown: seq<OperatorState>, hash: Option<string>) {
    && AllListed(fired, false, at) && |shown| == |at|
    && forall j | 0 <= j < |at| :: Shows(shown[j], fired[at[j]], hash)
  }

  lemma {:induction false} SubmissionsAreShown(fired: seq<Timed>, hash: Option<string>) returns (at: seq<nat>)
    ensures Positions(fired, false, at) && AllShown(fired, at, OperatorsIn(fired, hash), hash)
    decreases |fired|
  {
    at := [];
    if fired != [] {
      var n := |fired| - 1;
      var before := SubmissionsAreShown(fired[..n], hash);
      at := PositionsOneMore(fired, false, before, n);
      ShownOneMore(fired, before, n, hash);
    }
  }

  lemma ShownOneMore(fired: seq<Timed>, at: seq<nat>, n: nat, hash: Option<string>)
    requires |fired| == n + 1 && AllShown(fired[..n], at, OperatorsIn(fired[..n], hash), hash)
    ensures if Listed(fired[n].event, false) then AllShown(fired, at + [n], OperatorsIn(fired, hash), hash)
            else AllShown(fired, at, OperatorsIn(fired, hash), hash)
  {
    assert fired[..|fired| - 1] == fired[..n];
    assert forall j | 0 <= j < |at| :: fired[..n][at[j]] == fired[at[j]];
  }

  ghost predicate AllSteps(fired: seq<Timed>, at: seq<nat>, shown: seq<QuorumStep>) {
    && AllListed(fired, true, at) && |shown| == |at|
    && forall j | 0 <= j < |at| :: shown[j] == fired[at[j]].event.transition
  }

  lemma {:induction false} StepsAreShown(fired: seq<Timed>) returns (at: seq<nat>)
    ensures Positions(fired, true, at) && AllSteps(fired, at, TransitionsIn(fired))
    decreases |fired|
  {
    at := [];
    if fired != [] {
      var n := |fired| - 1;
      var before := StepsAreShown(fired[..n]);
      at := PositionsOneMore(fired, true, before, n);
      StepsOneMore(fired, before, n);
    }
  }

  lemma StepsOneMore(fired: seq<Timed>, at: seq<nat>, n: nat)
    requires |fired| == n + 1 && AllSteps(fired[..n], at, TransitionsIn(fired[..n]))
    ensures if Listed(fired[n].event, true) then AllSteps(fired, at + [n], TransitionsIn(fired))
            else AllSteps(fired, at, TransitionsIn(fired))
  {
    assert fired[..|fired| - 1] == fired[..n];
    assert forall j | 0 <= j < |at| :: fired[..n][at[j]] == fired[at[j]];
  }

  lemma ReachedIsAStep(fired: seq<Timed>, at: seq<nat>)
    requires Positions(fired, true, at)
    ensures Reached(fired) <==> exists j :: 0 <= j < |at| && fired[at[j]].event.transition.reached
  {
    if Reached(fired) {
      var i: nat :| i < |fired| && fired[i].event.TransitionEvent? && fired[i].event.transition.reached;
      assert Listed(fired[i].event, true);
      assert i in at;
    }
    if exists j :: 0 <= j < |at| && fired[at[j]].event.transition.reached {
      var j :| 0 <= j < |at| && fired[at[j]].event.transition.reached;
      assert Listed(fired[at[j]].event, true);
    }
  }

  ghost predicate SomeLanding(due: seq<Timed>) {
    exists i :: 0 <= i < |due| && due[i].event.AttestationEvent?
  }

  lemma {:induction false} LandingIsShown(fired: seq<Timed>, attestation: Attestation)
    requires forall i | 0 <= i < |fired| && fired[i].event.AttestationEvent? ::
               fired[i].event.attestation == attestation && attestation.txHash.Some?
    ensures LandedIn(fired) == if SomeLanding(fired) then Some(attestation) else None
  {
    if fired != [] && !fired[0].event.AttestationEvent? {
      LandingIsShown(fired[1..], attestation);
      if SomeLanding(fired) {
        var i :| 0 <= i < |fired| && fired[i].event.AttestationEvent?;
        assert fired[1..][i - 1] == fired[i];
      }
    }
  }

  // Only the journal's own attestation lands, and only with a transaction.
  lemma LandingsAreTheJournals(journal: Journal, pacing: Pacing, due: seq<Timed>)
    requires due <= Paced(Schedule(journal), pacing)
    ensures forall i | 0 <= i < |due| && due[i].event.AttestationEvent? ::
              due[i].event.attestation == journal.attestation && journal.attestation.txHash.Some?
  {
    forall i | 0 <= i < |due| && due[i].event.AttestationEvent?
      ensures due[i].event.attestation == journal.attestation && journal.attestation.txHash.Some?
    {
      assert due[i].event == Schedule(journal)[i];
      LandingIsTheJournals(journal, i);
    }
  }

  lemma LandingIsTheJournals(journal: Journal, i: nat)
    requires i < |Schedule(journal)| && Schedule(journal)[i].AttestationEvent?
    ensures Schedule(journal)[i].attestation == journal.attestation && journal.attestation.txHash.Some?
  {
    ScheduleIsTheJournal(journal);
    var event := Schedule(journal)[i];
    assert event in multiset(AllEvents(journal)) by { assert event in multiset(Schedule(journal)); }
    assert event in Landing(journal.attestation, EarliestTimestamp(journal));
  }

  lemma {:induction false} SamePresence(fired: seq<Timed>, hash: Option<string>)
    ensures |OperatorsIn(fired, hash)| == |OperatorsIn(fired, None)|
    decreases |fired|
  {
    if fired != [] {
      SamePresence(fired[..|fired| - 1], hash);
    }
  }

  lemma FirstIsTheTrigger(journal: Journal, pacing: Pacing, n: nat)
    requires n <= |Paced(Schedule(journal), pacing)|
    ensures HasTrigger(Paced(Schedule(journal), pacing)[..n]) <==> n > 0
  {
    ScheduleIsTheJournal(journal);
    if n > 0 {
      assert Paced(Schedule(journal), pacing)[..n][0].event.TriggerEvent?;
    }
  }

  lemma AtMostAllOperators(journal: Journal, pacing: Pacing, due: seq<Timed>)
    requires due <= Paced(Schedule(journal), pacing)
    ensures |OperatorsIn(due, journal.winningResultHash)| <= |journal.operators|
  {
    var timed := Paced(Schedule(journal), pacing);
    OperatorsGrow(due, timed, journal.winningResultHash);
    ShownAreCounted(timed, Schedule(journal), journal.winningResultHash);
    CountAll(journal);
  }

  // The time shown, and the events due at it.
  ghost predicate Clocked(shown: State, t: real, timeline: Timeline, n: nat) {
    && shown.tMs == (if t < 0.0 then 0.0 else if t > timeline.durationMs then timeline.durationMs else t)
    && (shown.done <==> shown.tMs == timeline.durationMs)
    && shown.eventsFired == n && IsCut(timeline.events, shown.tMs, n)
    && (shown.triggered <==> n > 0)
    && shown.lastEvent == (if n == 0 then None else Some(timeline.events[n - 1]))
  }

  // Each due submission once, in order, at its offset, and the others awaited.
  ghost predicate ListsOperators(shown: State, journal: Journal, due: seq<Timed>, at: seq<nat>) {
    && Positions(due, false, at) && AllShown(due, at, shown.operators, journal.winningResultHash)
    && shown.awaitingOperatorCount == |journal.operators| - |at|
  }

  // The due quorum steps: their number, the last one's weight, and whether one reached the quorum.
  ghost predicate ListsSteps(shown: State, due: seq<Timed>, steps: seq<nat>) {
    && Positions(due, true, steps) && shown.transitionsFired == |steps|
    && shown.cumulative == (if steps == [] then 0 else due[steps[|steps| - 1]].event.transition.cumulative)
    && (shown.reached <==> exists j :: 0 <= j < |steps| && due[steps[j]].event.transition.reached)
  }

  // The phase as the fields of the state tell it.
  ghost predicate IsPhase(shown: State, status: Status) {
    && (shown.phase == Idle <==> !shown.triggered)
    && (shown.phase == Complete <==> shown.triggered && shown.done && status == Settled)
    && (shown.phase == StalledPhase <==> shown.triggered && shown.done && status == Stalled)
    && (shown.phase == RejectedPhase <==> shown.triggered && shown.done && status == Rejected)
    && (shown.triggered && (!shown.done || status == Pending) ==>
          && (shown.phase == Attested <==> shown.landed.Some?)
          && (shown.phase == QuorumReached <==> shown.landed.None? && shown.reached)
          && (shown.phase == Collecting <==> shown.landed.None? && !shown.reached && shown.operators != [])
          && (shown.phase == Triggered <==> shown.landed.None? && !shown.reached && shown.operators == []))
  }

  // At any time exactly the first n events are due, and the state is what they say:
  // the operators and quorum steps among them, the journal's own landing, and the
  // furthest phase these reach.
  lemma DueIsShown(journal: Journal, pacing: Pacing, t: real) returns (n: nat, at: seq<nat>, steps: seq<nat>)
    requires Playable(pacing)
    ensures var timeline := TimelineOf(Schedule(journal), pacing);
            var shown := Derive(journal, Finite(t), timeline);
            && Clocked(shown, t, timeline, n)
            && ListsOperators(shown, journal, timeline.events[..n], at)
            && ListsSteps(shown, timeline.events[..n], steps)
            && shown.landed == (if SomeLanding(timeline.events[..n]) then Some(journal.attestation) else None)
            && IsPhase(shown, journal.status)
  {
    var timeline := TimelineOf(Schedule(journal), pacing);
    TimelineIsOrdered(Schedule(journal), pacing);
    n := FiredIsAPrefix(timeline.events, PlaybackTime(Finite(t), timeline.durationMs));
    FirstIsTheTrigger(journal, pacing, n);
    var due := timeline.events[..n];
    at := OperatorsAreListed(journal, pacing, t, timeline, due);
    steps := StepsAreListed(journal, t, timeline, due);
    LandingsAreTheJournals(journal, pacing, due);
    LandingIsShown(due, journal.attestation);
    ClockIsRight(journal, t, timeline, n);
    PhaseIsRight(journal, t, timeline);
  }

  lemma ClockIsRight(journal: Journal, t: real, timeline: Timeline, n: nat)
    requires timeline.durationMs >= 0.0
    requires IsCut(timeline.events, PlaybackTime(Finite(t), timeline.durationMs), n)
    requires Fired(timeline.events, PlaybackTime(Finite(t), timeline.durationMs)) == timeline.events[..n]
    requires HasTrigger(timeline.events[..n]) <==> n > 0
    ensures Clocked(Derive(journal, Finite(t), timeline), t, timeline, n)
  {
  }

  lemma PhaseIsRight(journal: Journal, t: real, timeline: Timeline)
    ensures IsPhase(Derive(journal, Finite(t), timeline), journal.status)
  {
    SamePresence(Fired(timeline.events, PlaybackTime(Finite(t), timeline.durationMs)), journal.winningResultHash);
  }

  lemma OperatorsAreListed(journal: Journal, pacing: Pacing, t: real, timeline: Timeline, due: seq<Timed>)
    returns (at: seq<nat>)
    requires due == Fired(timeline.events, PlaybackTime(Finite(t), timeline.durationMs))
    requires due <= Paced(Schedule(journal), pacing)
    ensures ListsOperators(Derive(journal, Finite(t), timeline), journal, due, at)
  {
    at := SubmissionsAreShown(due, journal.winningResultHash);
    AtMostAllOperators(journal, pacing, due);
  }

  lemma StepsAreListed(journal: Journal, t: real, timeline: Timeline, due: seq<Timed>) returns (steps: seq<nat>)
    requires due == Fired(timeline.events, PlaybackTime(Finite(t), timeline.durationMs))
    ensures ListsSteps(Derive(journal, Finite(t), timeline), due, steps)
  {
    steps := StepsAreShown(due);
    ReachedIsAStep(due, steps);
  }
}
