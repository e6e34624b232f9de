/**
 * What `LoopDeployer` does in one call is one of the runs of the whole system: every
 * property proved of all runs of `Pipeline` holds of the world the class leaves behind.
 */
module DeployerRefinement {
  import opened Wrappers
  import opened ServiceDoc
  import opened Mutation
  import opened MutationQueue
  import opened Pipeline
  import opened Deployer
  import R = Registry

  // Nobody else writes the manager's URI during the call.
  predicate AloneScript(script: seq<Mutation.Event>) {
    forall i | 0 <= i < |script| :: AloneEvent(script[i])
  }

  predicate AloneEvent(event: Mutation.Event) {
    match event
    case External(_, _) => false
    case Publish(_, _) => true
    case Reply(fate) => fate.Take? ==> fate.ahead == [] == fate.behind
  }

  function Lift(event: Mutation.Event): Pipeline.Event
    requires AloneEvent(event)
  {
    match event
    case Publish(uri, doc) => Pipeline.Pinned(uri, doc)
    case Reply(fate) => QueueMoves(fate)
  }

  lemma {:induction false} RunsJoin(setup: Setup, s: Sys, before: seq<Pipeline.Event>, after: seq<Pipeline.Event>)
    requires Fair(setup, s, before) && Fair(setup, Runs(setup, s, before), after)
    ensures Fair(setup, s, before + after)
    ensures Runs(setup, s, before + after) == Runs(setup, Runs(setup, s, before), after)
    decreases |before|
  {
    if before == [] {
      assert before + after == after;
    } else {
      assert (before + after)[1..] == before[1..] + after;
      RunsJoin(setup, Pipeline.Next(setup, s, before[0]), before[1..], after);
    }
  }

  lemma RunsFirst(setup: Setup, s: Sys, event: Pipeline.Event, rest: seq<Pipeline.Event>)
    requires FairNow(s, event) && Fair(setup, Pipeline.Next(setup, s, event), rest)
    ensures Fair(setup, s, [event] + rest)
    ensures Runs(setup, s, [event] + rest) == Runs(setup, Pipeline.Next(setup, s, event), rest)
  {
    assert ([event] + rest)[1..] == rest;
  }

  // ---------------------------------------------------------------- a mutation

  ghost predicate AtHead(q: Queue, task: Task, pc: Pc) {
    && |q.tasks| == q.next + 1 && q.tasks[q.next] == task && !task.Nudge? && !Done(pc)
    && (q.job == Mutating(pc) || (q.job == Idle && pc == Checkpoint(0)))
  }

  // The queue after the head's machine has come to `pc` over `net`.
  ghost predicate CameTo(q: Queue, was: Queue, pc: Pc, net: Net) {
    && q.net == net && q.tasks == was.tasks
    && (Done(pc) ==>
          q.next == |q.tasks| && q.job == Idle && was.next in q.outcomes && q.outcomes[was.next] == OutcomeOf(pc))
  }

  ghost predicate SameLoops(s: Sys, s': Sys) {
    s'.rows == s.rows && s'.runs == s.runs && s'.receipts == s.receipts
  }

  lemma HeadMoves(setup: Setup, s: Sys, task: Task, pc: Pc, event: Mutation.Event)
    requires AtHead(s.queue, task, pc) && AloneEvent(event)
    ensures var s' := Pipeline.Next(setup, s, Lift(event));
            && FairNow(s, Lift(event)) && SameLoops(s, s')
            && (event.Reply? ==>
                  var (pc', net') := Step(pc, s.queue.net, EditOf(task, setup.template), event.fate);
                  && CameTo(s'.queue, s.queue, pc', net')
                  && (!Done(pc') ==> AtHead(s'.queue, task, pc') && s'.queue.next == s.queue.next))
            && (!event.Reply? ==>
                  s'.queue == s.queue.(net := Outside(s.queue.net, event)) && AtHead(s'.queue, task, pc))
  {
  }

  lemma {:induction false} MutationIsPlayed(setup: Setup, s: Sys, task: Task, pc: Pc, script: seq<Mutation.Event>)
    returns (events: seq<Pipeline.Event>)
    requires AtHead(s.queue, task, pc) && AloneScript(script)
    ensures Fair(setup, s, events)
    ensures var s', end := Runs(setup, s, events), Run(pc, s.queue.net, EditOf(task, setup.template), script);
            SameLoops(s, s') && CameTo(s'.queue, s.queue, end.0, end.1)
    decreases |script|
  {
    if script == [] {
      events := [];
    } else {
      HeadMoves(setup, s, task, pc, script[0]);
      var event := Lift(script[0]);
      var s1 := Pipeline.Next(setup, s, event);
      var edit := EditOf(task, setup.template);
      if script[0].Reply? && Done(Step(pc, s.queue.net, edit, script[0].fate).0) {
        events := [event];
        assert events[1..] == [];
      } else {
        var pc' := if script[0].Reply? then Step(pc, s.queue.net, edit, script[0].fate).0 else pc;
        var more := MutationIsPlayed(setup, s1, task, pc', script[1..]);
        events := [event] + more;
        assert events[1..] == more;
      }
    }
  }

  // ---------------------------------------------------------------- a run

  // The system as one call sees it: its loop at this stage, and nothing queued.
  ghost predicate Sees(s: Sys, id: string, stage: Stage, w: World) {
    && id in s.rows && id in s.runs && s.runs[id] == stage && !stage.Await?
    && s.queue.next == |s.queue.tasks| && s.queue.job == Idle
    && w.row == s.rows[id] && w.receipts == s.receipts && w.net == s.queue.net
    && AloneScript(w.script)
  }

  // Where the call left off, no other row touched.
  ghost predicate Left(s: Sys, s': Sys, id: string, ending: Ending, w: World) {
    && id in s'.rows && s'.rows[id] == w.row && s'.receipts == w.receipts && s'.queue.net == w.net
    && s'.rows.Keys == s.rows.Keys && (forall other | other in s.rows && other != id :: s'.rows[other] == s.rows[other])
    && (id in s'.runs <==> ending == Interrupted)
  }

  // The world after the turn a signal brings.
  function Turned(w: World, turn: Turn): World
    requires w.signals != []
  {
    w.(row := turn.row, receipts := turn.receipts, signals := w.signals[1..])
  }

  function TurnIn(setup: Setup, stage: Stage, w: World): Turn
    requires w.signals != []
  {
    TakeTurn(setup, stage, w.row, w.receipts, map[], 0, w.signals[0])
  }

  lemma GoPlays(setup: Setup, s: Sys, id: string, stage: Stage, w: World)
    requires Sees(s, id, stage, w) && w.signals != []
    ensures var turn, s' := TurnIn(setup, stage, w), Pipeline.Next(setup, s, Go(id, w.signals[0]));
            && (turn.next.None? ==> Left(s, s', id, Gave, Turned(w, turn)))
            && (turn.next.Some? && turn.task.None? ==>
                  Sees(s', id, turn.next.value, Turned(w, turn)) && s'.rows == s.rows[id := turn.row])
            && (turn.task.Some? ==>
                  && turn.next.Some? && s'.runs == s.runs[id := Await(|s.queue.tasks|)]
                  && s'.rows == s.rows[id := turn.row]
                  && s'.receipts == turn.receipts && s'.queue.net == w.net && turn.row == w.row
                  && AtHead(s'.queue, turn.task.value, Checkpoint(0)) && s'.queue.next == |s.queue.tasks|)
  {
  }

  // The run hears of the mutation it waited for.
  lemma AwaitEnds(setup: Setup, s: Sys, id: string, ticket: nat, pc: Pc, w: World)
    requires id in s.rows && id in s.runs && s.runs[id] == Await(ticket)
    requires Done(pc) && ticket in s.queue.outcomes && s.queue.outcomes[ticket] == OutcomeOf(pc)
    requires s.queue.next == |s.queue.tasks| && s.queue.job == Idle
    requires w.row == s.rows[id] && w.receipts == s.receipts && w.net == s.queue.net && AloneScript(w.script)
    ensures var s' := Pipeline.Next(setup, s, Go(id, Proceed(0)));
            && Sees(s', id, if pc.Returned? then RecordService(pc.uri) else RecordFailure("mutation"), w)
            && s'.rows == s.rows
  {
  }

  lemma {:induction false} ScriptStaysAlone(pc: Pc, net: Net, edit: Edit, script: seq<Mutation.Event>)
    requires AloneScript(script)
    ensures AloneScript(Run(pc, net, edit, script).2)
    decreases |script|
  {
    if !Done(pc) && script != [] {
      if script[0].Reply? {
        var next := Step(pc, net, edit, script[0].fate);
        ScriptStaysAlone(next.0, next.1, edit, script[1..]);
      } else {
        ScriptStaysAlone(pc, Outside(net, script[0]), edit, script[1..]);
      }
    }
  }

  // The mutation a turn asked for, and the news of its end.
  lemma MutationTurn(setup: Setup, s: Sys, id: string, ticket: nat, task: Task, w: World)
    returns (events: seq<Pipeline.Event>)
    requires id in s.rows && id in s.runs && s.runs[id] == Await(ticket) && ticket == s.queue.next
    requires AtHead(s.queue, task, Checkpoint(0)) && AloneScript(w.script)
    requires w.row == s.rows[id] && w.receipts == s.receipts && w.net == s.queue.net
    ensures Fair(setup, s, events)
    ensures var end := Run(Checkpoint(0), w.net, EditOf(task, setup.template), w.script);
            var s', w' := Runs(setup, s, events), w.(net := end.1, script := end.2);
            && s'.rows == s.rows
            && (if Done(end.0)
                then Sees(s', id, if end.0.Returned? then RecordService(end.0.uri) else RecordFailure("mutation"), w')
                else Left(s, s', id, Interrupted, w'))
  {
    events := MutationIsPlayed(setup, s, task, Checkpoint(0), w.script);
    var edit := EditOf(task, setup.template);
    var end := Run(Checkpoint(0), w.net, edit, w.script);
    ScriptStaysAlone(Checkpoint(0), w.net, edit, w.script);
    if Done(end.0) {
      var s1 := Runs(setup, s, events);
      AwaitEnds(setup, s1, id, ticket, end.0, w.(net := end.1, script := end.2));
      var news := Go(id, Proceed(0));
      RunsFirst(setup, s1, news, []);
      assert [news] + [] == [news];
      RunsJoin(setup, s, events, [news]);
      events := events + [news];
    }
  }

  lemma LeftJoins(s: Sys, s1: Sys, s': Sys, id: string, row: R.LoopRecord, ending: Ending, w: World)
    requires id in s.rows && s1.rows == s.rows[id := row] && Left(s1, s', id, ending, w)
    ensures Left(s, s', id, ending, w)
  {
    assert s1.rows.Keys == s.rows.Keys;
  }

  // A call of the class, whatever its ports answered, is a run of the system.
  lemma {:induction false} DriveIsARun(setup: Setup, s: Sys, id: string, stage: Stage, w: World)
    returns (events: seq<Pipeline.Event>)
    requires Sees(s, id, stage, w)
    ensures Fair(setup, s, events)
    ensures var (ending, w') := Drive(setup, stage, w); Left(s, Runs(setup, s, events), id, ending, w')
    decreases |w.signals|, 0
  {
    events := [];
    if w.signals != [] {
      GoPlays(setup, s, id, stage, w);
      var turn, go := TurnIn(setup, stage, w), Go(id, w.signals[0]);
      var w1, s1 := Turned(w, turn), Pipeline.Next(setup, s, go);
      var (ending, w') := Drive(setup, stage, w);
      DriveTurns(setup, stage, w);
      var rest := [];
      if turn.next.Some? {
        if turn.task.None? {
          rest := DriveIsARun(setup, s1, id, turn.next.value, w1);
        } else {
          rest := WithMutation(setup, s1, id, |s.queue.tasks|, turn.task.value, w1);
        }
        LeftJoins(s, s1, Runs(setup, s1, rest), id, turn.row, ending, w');
      }
      RunsFirst(setup, s, go, rest);
      events := [go] + rest;
    }
  }

  // The same from a stage that waits for a mutation.
  lemma {:induction false} WithMutation(setup: Setup, s: Sys, id: string, ticket: nat, task: Task, w: World)
    returns (events: seq<Pipeline.Event>)
    requires id in s.rows && id in s.runs && s.runs[id] == Await(ticket) && ticket == s.queue.next
    requires AtHead(s.queue, task, Checkpoint(0)) && AloneScript(w.script)
    requires w.row == s.rows[id] && w.receipts == s.receipts && w.net == s.queue.net
    ensures Fair(setup, s, events)
    ensures var end := Run(Checkpoint(0), w.net, EditOf(task, setup.template), w.script);
            var (ending, w') := Resumed(setup, end, w);
            Left(s, Runs(setup, s, events), id, ending, w')
    decreases |w.signals|, 1
  {
    events := MutationTurn(setup, s, id, ticket, task, w);
    var end := Run(Checkpoint(0), w.net, EditOf(task, setup.template), w.script);
    if Done(end.0) {
      var stage := if end.0.Returned? then RecordService(end.0.uri) else RecordFailure("mutation");
      var more := DriveIsARun(setup, Runs(setup, s, events), id, stage, w.(net := end.1, script := end.2));
      RunsJoin(setup, s, events, more);
      events := events + more;
    }
  }
}
