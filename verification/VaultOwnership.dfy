/**
 * Which vault a loop ends up with: over every run, a recorded handler is the vault created by
 * a transaction the loop itself sent, and no two loops send the same one. A create that
 * nothing disturbs ends active on exactly that vault.
 */
module VaultOwnership {
  import opened Wrappers
  import opened ServiceDoc
  import opened Mutation
  import opened MutationScripts
  import opened MutationQueue
  import opened ConcurrentAdditions
  import opened Pipeline
  import opened Deployer
  import R = Registry

  // ---------------------------------------------------------------- the deploys of a loop

  // A deploy transaction and the vault it created, as the chain answered.
  datatype Deploy = Deploy(txHash: string, vault: string)

  ghost function DeployNow(s: Sys, event: Pipeline.Event, id: string): set<Deploy> {
    if SubmitsNow(s, event, id) == 1 then {Deploy(event.signal.txHash, event.signal.vault)} else {}
  }

  // Every deploy the loop sent in a run.
  ghost function Deploys(setup: Setup, s: Sys, events: seq<Pipeline.Event>, id: string): set<Deploy>
    decreases |events|
  {
    if events == [] then {}
    else DeployNow(s, events[0], id) + Deploys(setup, Pipeline.Next(setup, s, events[0]), events[1..], id)
  }

  ghost predicate SentTx(sent: set<Deploy>, txHash: string) {
    exists d | d in sent :: d.txHash == txHash
  }

  ghost predicate Created(sent: set<Deploy>, vault: string) {
    exists d | d in sent :: d.vault == vault
  }

  ghost predicate OnChain(sent: set<Deploy>, receipts: Receipts) {
    forall d | d in sent :: d.txHash in receipts && receipts[d.txHash] == d.vault
  }

  // What the row and the run hold comes from the loop's own deploys.
  ghost predicate Owns(sent: set<Deploy>, row: R.LoopRecord, stage: Option<Stage>) {
    && (row.deployTxHash.Some? ==> SentTx(sent, row.deployTxHash.value))
    && (row.handlerAddress.Some? ==> Created(sent, row.handlerAddress.value))
    && (stage.Some? ==>
          match stage.value
          case RecordHash(tx) => SentTx(sent, tx)
          case Finalize(tx) => SentTx(sent, tx)
          case RecordHandler(vault) => Created(sent, vault)
          case _ => true)
  }

  ghost predicate OwnsItsVault(sent: set<Deploy>, s: Sys, id: string) {
    OnChain(sent, s.receipts) && (id in s.rows ==> Owns(sent, s.rows[id], StageOf(s.runs, id)))
  }

  lemma OwnsMore(sent: set<Deploy>, more: set<Deploy>, row: R.LoopRecord, stage: Option<Stage>)
    requires sent <= more && Owns(sent, row, stage)
    ensures Owns(more, row, stage)
  {
    forall tx | SentTx(sent, tx) ensures SentTx(more, tx) {
      var d :| d in sent && d.txHash == tx;
      assert d in more;
    }
    forall vault | Created(sent, vault) ensures Created(more, vault) {
      var d :| d in sent && d.vault == vault;
      assert d in more;
    }
  }

  // A turn of the loop itself.
  lemma TurnOwns(setup: Setup, stage: Stage, row: R.LoopRecord, receipts: Receipts, outcomes: map<nat, Outcome>,
                 ticket: nat, signal: Signal, sent: set<Deploy>)
    requires OnChain(sent, receipts) && Owns(sent, row, Some(stage))
    ensures var turn := TakeTurn(setup, stage, row, receipts, outcomes, ticket, signal);
            var now := if Submits(stage, receipts, signal) == 1 then {Deploy(signal.txHash, signal.vault)} else {};
            OnChain(sent + now, turn.receipts) && Owns(sent + now, turn.row, turn.next)
  {
    var now := if Submits(stage, receipts, signal) == 1 then {Deploy(signal.txHash, signal.vault)} else {};
    OwnsMore(sent, sent + now, row, Some(stage));
    if now != {} {
      assert Deploy(signal.txHash, signal.vault) in sent + now;
    } else {
      assert sent + now == sent;
    }
  }

  lemma NextOwns(setup: Setup, s: Sys, event: Pipeline.Event, id: string, sent: set<Deploy>)
    requires OwnsItsVault(sent, s, id) && (id in s.runs ==> id in s.rows)
    ensures OwnsItsVault(sent + DeployNow(s, event, id), Pipeline.Next(setup, s, event), id)
  {
    if Steps(s, event, id) {
      TurnOwns(setup, s.runs[id], s.rows[id], s.receipts, s.queue.outcomes, |s.queue.tasks|, event.signal, sent);
    } else {
      assert sent + DeployNow(s, event, id) == sent;
    }
  }

  lemma {:induction false} RunsOwn(setup: Setup, s: Sys, events: seq<Pipeline.Event>, id: string, sent: set<Deploy>)
    requires OwnsItsVault(sent, s, id) && s.runs.Keys <= s.rows.Keys
    ensures OwnsItsVault(sent + Deploys(setup, s, events, id), Runs(setup, s, events), id)
    decreases |events|
  {
    if events == [] {
      assert sent + {} == sent;
    } else {
      var next, now := Pipeline.Next(setup, s, events[0]), DeployNow(s, events[0], id);
      NextOwns(setup, s, events[0], id, sent);
      RunsOwn(setup, next, events[1..], id, sent + now);
      assert sent + now + Deploys(setup, next, events[1..], id) == sent + Deploys(setup, s, events, id);
    }
  }

  // Over every run of creates, resumes, crashes and failures, the handler on a row is the vault
  // the chain made for a transaction that this loop sent, and a hash on file is one it sent.
  lemma HandlerIsOwnVault(setup: Setup, net: Net, events: seq<Pipeline.Event>, id: string)
    requires id in Runs(setup, Boot(net), events).rows
    ensures var s, sent := Runs(setup, Boot(net), events), Deploys(setup, Boot(net), events, id);
            && OnChain(sent, s.receipts)
            && (s.rows[id].handlerAddress.Some? ==> Created(sent, s.rows[id].handlerAddress.value))
            && (s.rows[id].deployTxHash.Some? ==> SentTx(sent, s.rows[id].deployTxHash.value))
  {
    RunsOwn(setup, Boot(net), events, id, {});
    assert {} + Deploys(setup, Boot(net), events, id) == Deploys(setup, Boot(net), events, id);
  }

  // So an active loop's workflow in the current document runs on the vault one of its own
  // transactions made.
  lemma ActiveLoopsRunOnTheirVault(
      setup: Setup, net: Net, first: Json, events: seq<Pipeline.Event>, id: string)
    requires DocIs(net, first) && Fair(setup, Boot(net), events)
    requires var s := Runs(setup, Boot(net), events); id in s.rows && s.rows[id].status == R.Activated
    ensures var s := Runs(setup, Boot(net), events);
            && CurrentUri(s.queue.net) in s.queue.net.store
            && var doc := s.queue.net.store[CurrentUri(s.queue.net)];
            && Readable(doc) && s.rows[id].workflowId in Workflow(doc)
            && exists d | d in Deploys(setup, Boot(net), events, id) ::
                 && d.txHash in s.receipts && s.receipts[d.txHash] == d.vault
                 && s.rows[id].handlerAddress == Some(d.vault)
                 && PointsAt(Workflow(doc)[s.rows[id].workflowId], setup.chainKey, d.vault)
  {
    ActiveLoopsAreWired(setup, net, first, events, id);
    HandlerIsOwnVault(setup, net, events, id);
  }

  // ---------------------------------------------------------------- no transaction is shared

  ghost predicate NoneShared(a: set<Deploy>, b: set<Deploy>, receipts: Receipts) {
    && (forall d | d in a + b :: d.txHash in receipts)
    && (forall d, e | d in a && e in b :: d.txHash != e.txHash)
  }

  lemma NextSharesNone(
      setup: Setup, s: Sys, event: Pipeline.Event, a: string, b: string, sa: set<Deploy>, sb: set<Deploy>)
    requires a != b && NoneShared(sa, sb, s.receipts)
    ensures NoneShared(sa + DeployNow(s, event, a), sb + DeployNow(s, event, b),
                       Pipeline.Next(setup, s, event).receipts)
  {
  }

  lemma {:induction false} RunsShareNone(
      setup: Setup, s: Sys, events: seq<Pipeline.Event>, a: string, b: string, sa: set<Deploy>, sb: set<Deploy>)
    requires a != b && NoneShared(sa, sb, s.receipts)
    ensures NoneShared(sa + Deploys(setup, s, events, a), sb + Deploys(setup, s, events, b),
                       Runs(setup, s, events).receipts)
    decreases |events|
  {
    if events == [] {
      assert sa + {} == sa && sb + {} == sb;
    } else {
      var next, na, nb := Pipeline.Next(setup, s, events[0]), DeployNow(s, events[0], a), DeployNow(s, events[0], b);
      NextSharesNone(setup, s, events[0], a, b, sa, sb);
      RunsShareNone(setup, next, events[1..], a, b, sa + na, sb + nb);
      assert sa + na + Deploys(setup, next, events[1..], a) == sa + Deploys(setup, s, events, a);
      assert sb + nb + Deploys(setup, next, events[1..], b) == sb + Deploys(setup, s, events, b);
    }
  }

  // Two loops never wait for the same transaction.
  lemma LoopsShareNoDeploy(setup: Setup, net: Net, events: seq<Pipeline.Event>, a: string, b: string)
    requires a != b
    ensures forall d, e | d in Deploys(setup, Boot(net), events, a) && e in Deploys(setup, Boot(net), events, b) ::
              d.txHash != e.txHash
  {
    RunsShareNone(setup, Boot(net), events, a, b, {}, {});
    assert {} + Deploys(setup, Boot(net), events, a) == Deploys(setup, Boot(net), events, a);
    assert {} + Deploys(setup, Boot(net), events, b) == Deploys(setup, Boot(net), events, b);
  }

  // ---------------------------------------------------------------- a create that nothing disturbs

  // The row of a loop that has been published.
  ghost predicate Published(row: R.LoopRecord, input: R.NewLoop, vault: string, uri: Uri, created: int, now: int) {
    row == R.LoopRecord(input.id, input.name, input.workflowId, input.strategist, input.config,
                        Some(vault), None, Some(uri), R.Activated, R.Active, None, created, now)
  }

  ghost predicate OnWindow(workflow: Json, window: CronWindow) {
    && HasRecord(workflow, "trigger") && HasRecord(Field(workflow, "trigger"), "cron")
    && var cron := Field(Field(workflow, "trigger"), "cron").fields;
    && cron.Keys >= {"schedule", "start_time", "end_time"}
    && cron["schedule"] == Str(window.schedule)
    && cron["start_time"] == Num(window.startTimeNanos) && cron["end_time"] == Num(window.endTimeNanos)
  }

  // The workflow of the loop, as it stands in the document: wired to the vault, from now on
  // and as long as loops live.
  ghost predicate RunsFor(workflow: Json, setup: Setup, input: R.NewLoop, vault: string, start: int) {
    && PointsAt(workflow, setup.chainKey, vault)
    && OnWindow(workflow, CronWindow(input.config.schedule, start, start + setup.ttlNanos))
  }

  lemma AddedPoints(setup: Setup, row: R.LoopRecord, vault: string, start: int, doc: Json)
    requires var spec := SpecFor(setup, row, vault, start);
             AddLoopWorkflow(doc, spec, setup.template).Success?
    ensures var added := AddLoopWorkflow(doc, SpecFor(setup, row, vault, start), setup.template).value;
            && Readable(added) && row.workflowId in Workflow(added)
            && PointsAt(Workflow(added)[row.workflowId], setup.chainKey, vault)
  {
    KnobsCannotMoveServerFields(row.config.strategyParams, row.config.market,
                                ServerFields(setup.chainKey, setup.usdcAddress, vault));
    AddSpecification(doc, SpecFor(setup, row, vault, start), setup.template);
  }

  lemma AddedOnWindow(doc: Json, spec: WorkflowSpec, template: Option<string>)
    requires AddLoopWorkflow(doc, spec, template).Success?
    ensures var added := AddLoopWorkflow(doc, spec, template).value;
            && Readable(added) && spec.workflowId in Workflow(added)
            && OnWindow(Workflow(added)[spec.workflowId], spec.cron)
  {
    AddSpecification(doc, spec, template);
    var workflows := Workflow(doc);
    CloneRunsOnSpecWindow(workflows[TemplateId(workflows, template).value], spec);
  }

  lemma AddedRunsFor(setup: Setup, input: R.NewLoop, row: R.LoopRecord, vault: string, start: int, doc: Json)
    requires row.workflowId == input.workflowId && row.config == input.config
    requires var edit := AddEdit(SpecFor(setup, row, vault, start), setup.template);
             edit(doc).Success? && edit(doc).value != doc
    ensures var added := AddEdit(SpecFor(setup, row, vault, start), setup.template)(doc).value;
            && Readable(added) && input.workflowId in Workflow(added)
            && RunsFor(Workflow(added)[input.workflowId], setup, input, vault, start)
  {
    var spec := SpecFor(setup, row, vault, start);
    assert AddLoopWorkflow(doc, spec, setup.template) == AddEdit(spec, setup.template)(doc);
    AddedPoints(setup, row, vault, start, doc);
    AddedOnWindow(doc, spec, setup.template);
  }

  // The signals of a create: validated, deployed, recorded, finalized, recorded, added,
  // recorded twice.
  function Answers(tx: string, vault: string, start: int, last: int): seq<Signal> {
    [Proceed(0)] + ([Sent(tx, vault, true)] + ([Proceed(0)] + ([Proceed(0)]
      + ([Proceed(0)] + ([Proceed(start)] + ([Proceed(0)] + ([Proceed(last)] + [])))))))
  }

  lemma DriveOne(setup: Setup, stage: Stage, w: World, signal: Signal, rest: seq<Signal>)
    requires w.signals == [signal] + rest
    ensures var turn := TakeTurn(setup, stage, w.row, w.receipts, map[], 0, signal);
            var w' := w.(row := turn.row, receipts := turn.receipts, signals := rest);
            Drive(setup, stage, w) ==
              if turn.next.None? then (if stage.RecordActive? then Deployed else Gave, w')
              else if turn.task.None? then Drive(setup, turn.next.value, w')
              else Resumed(setup, Run(Checkpoint(0), w'.net, EditOf(turn.task.value, setup.template), w'.script), w')
  {
    assert w.signals[1..] == rest;
    DriveTurns(setup, stage, w);
  }

  // The row between the deploy and the publication.
  function WithVault(input: R.NewLoop, vault: string, created: int): R.LoopRecord {
    R.Inserted(input, created).(handlerAddress := Some(vault), step := R.HandlerDeployed, updatedAt := 0)
  }

  lemma SubmittedOnce(
      setup: Setup, input: R.NewLoop, created: int, w: World, tx: string, vault: string, rest: seq<Signal>)
    requires w.row == R.Inserted(input, created) && input.config.candidateId in setup.catalog && tx !in w.receipts
    requires w.signals == [Proceed(0)] + ([Sent(tx, vault, true)] + ([Proceed(0)] + rest))
    ensures Drive(setup, Load, w)
            == Drive(setup, Finalize(tx),
                     w.(row := w.row.(deployTxHash := Some(tx), updatedAt := 0), receipts := w.receipts[tx := vault],
                        signals := rest))
  {
    DriveOne(setup, Load, w, Proceed(0), [Sent(tx, vault, true)] + ([Proceed(0)] + rest));
    var w1 := w.(signals := [Sent(tx, vault, true)] + ([Proceed(0)] + rest));
    DriveOne(setup, Submit, w1, Sent(tx, vault, true), [Proceed(0)] + rest);
    var w2 := w1.(receipts := w.receipts[tx := vault], signals := [Proceed(0)] + rest);
    DriveOne(setup, RecordHash(tx), w2, Proceed(0), rest);
  }

  lemma Finalized(setup: Setup, input: R.NewLoop, created: int, w: World, tx: string, vault: string, rest: seq<Signal>)
    requires w.row == R.Inserted(input, created).(deployTxHash := Some(tx), updatedAt := 0)
    requires tx in w.receipts && w.receipts[tx] == vault
    requires w.signals == [Proceed(0)] + ([Proceed(0)] + rest)
    ensures Drive(setup, Finalize(tx), w)
            == Drive(setup, AddWorkflow, w.(row := WithVault(input, vault, created), signals := rest))
  {
    DriveOne(setup, Finalize(tx), w, Proceed(0), [Proceed(0)] + rest);
    DriveOne(setup, RecordHandler(vault), w.(signals := [Proceed(0)] + rest), Proceed(0), rest);
  }

  lemma PublishedTwice(setup: Setup, w: World, uri: Uri, last: int)
    requires w.signals == [Proceed(0)] + ([Proceed(last)] + [])
    ensures var row := w.row.(serviceCid := Some(uri), step := R.Active, status := R.Activated, error := None,
                              updatedAt := last);
            Drive(setup, RecordService(uri), w) == (Deployed, w.(row := row, signals := []))
  {
    DriveOne(setup, RecordService(uri), w, Proceed(0), [Proceed(last)] + []);
    var row := w.row.(serviceCid := Some(uri), step := R.ServiceUpdated, updatedAt := 0);
    DriveOne(setup, RecordActive, w.(row := row, signals := [Proceed(last)] + []), Proceed(last), []);
  }

  // The mutation of the loop, and what it leaves the run.
  lemma WorkflowAdded(
      setup: Setup, w: World, vault: string, start: int, last: int, uri: Uri, block: nat, published: seq<Signal>)
    requires w.row.handlerAddress == Some(vault) && w.script == Undisturbed(uri, block)
    requires w.signals == [Proceed(start)] + published
    requires CanEdit(w.net, AddEdit(SpecFor(setup, w.row, vault, start), setup.template), uri, block)
    ensures var edit := AddEdit(SpecFor(setup, w.row, vault, start), setup.template);
            var end := Run(Checkpoint(0), w.net, edit, w.script);
            && Drive(setup, AddWorkflow, w)
               == Drive(setup, RecordService(uri), w.(net := end.1, script := end.2, signals := published))
            && CurrentUri(end.1) == uri && Names(end.1, uri, edit(w.net.store[CurrentUri(w.net)]).value)
  {
    DriveOne(setup, AddWorkflow, w, Proceed(start), published);
    UndisturbedCallReturns(0, w.net, AddEdit(SpecFor(setup, w.row, vault, start), setup.template), uri, block);
  }

  lemma DeployedWithVault(
      setup: Setup, input: R.NewLoop, created: int, w: World, tx: string, vault: string, rest: seq<Signal>)
    requires w.row == R.Inserted(input, created) && input.config.candidateId in setup.catalog && tx !in w.receipts
    requires w.signals == [Proceed(0)] + ([Sent(tx, vault, true)]
                          + ([Proceed(0)] + ([Proceed(0)] + ([Proceed(0)] + rest))))
    ensures Drive(setup, Load, w)
            == Drive(setup, AddWorkflow,
                     w.(row := WithVault(input, vault, created), receipts := w.receipts[tx := vault], signals := rest))
  {
    SubmittedOnce(setup, input, created, w, tx, vault, [Proceed(0)] + ([Proceed(0)] + rest));
    var sent := w.(row := w.row.(deployTxHash := Some(tx), updatedAt := 0), receipts := w.receipts[tx := vault],
                   signals := [Proceed(0)] + ([Proceed(0)] + rest));
    Finalized(setup, input, created, sent, tx, vault, rest);
  }

  // The row at the end, published.
  function Finished(input: R.NewLoop, vault: string, uri: Uri, created: int, last: int): R.LoopRecord {
    WithVault(input, vault, created).(serviceCid := Some(uri), step := R.Active, status := R.Activated, error := None,
                                      updatedAt := last)
  }

  // The world such a create starts from.
  function Start(
      input: R.NewLoop, created: int, receipts: Receipts, net: Net, tx: string, vault: string, start: int, last: int,
      uri: Uri, block: nat)
    : World
  {
    World(R.Inserted(input, created), receipts, net, Undisturbed(uri, block), Answers(tx, vault, start, last))
  }

  lemma CreateDrives(
      setup: Setup, input: R.NewLoop, created: int, receipts: Receipts, net: Net, tx: string, vault: string,
      start: int, last: int, uri: Uri, block: nat)
    requires input.config.candidateId in setup.catalog && tx !in receipts
    requires CanEdit(net, AddEdit(SpecFor(setup, R.Inserted(input, created), vault, start), setup.template), uri, block)
    ensures var (ending, end) :=
              Drive(setup, Load, Start(input, created, receipts, net, tx, vault, start, last, uri, block));
            var edit := AddEdit(SpecFor(setup, R.Inserted(input, created), vault, start), setup.template);
            && ending == Deployed && end.row == Finished(input, vault, uri, created, last)
            && end.receipts == receipts[tx := vault]
            && CurrentUri(end.net) == uri && Names(end.net, uri, edit(net.store[CurrentUri(net)]).value)
  {
    var row := WithVault(input, vault, created);
    var published := [Proceed(0)] + ([Proceed(last)] + []);
    var w := Start(input, created, receipts, net, tx, vault, start, last, uri, block);
    DeployedWithVault(setup, input, created, w, tx, vault, [Proceed(start)] + published);
    var ready := w.(row := row, receipts := receipts[tx := vault], signals := [Proceed(start)] + published);
    SameSpec(setup, input, created, vault, start);
    WorkflowAdded(setup, ready, vault, start, last, uri, block, published);
    var end := Run(Checkpoint(0), net, AddEdit(SpecFor(setup, row, vault, start), setup.template), ready.script);
    PublishedTwice(setup, ready.(net := end.1, script := end.2, signals := published), uri, last);
  }

  lemma SameSpec(setup: Setup, input: R.NewLoop, created: int, vault: string, start: int)
    ensures SpecFor(setup, WithVault(input, vault, created), vault, start)
         == SpecFor(setup, R.Inserted(input, created), vault, start)
  {
  }

  // A create that nothing disturbs, of a catalogued candidate: the vault its transaction made
  // becomes the handler, and the loop ends active with its workflow current, wired to it.
  lemma UndisturbedCreateIsActive(
      setup: Setup, input: R.NewLoop, created: int, receipts: Receipts, net: Net, tx: string, vault: string,
      start: int, last: int, uri: Uri, block: nat)
    requires input.config.candidateId in setup.catalog && tx !in receipts
    requires CanEdit(net, AddEdit(SpecFor(setup, R.Inserted(input, created), vault, start), setup.template), uri, block)
    ensures var (ending, end) :=
              Drive(setup, Load, Start(input, created, receipts, net, tx, vault, start, last, uri, block));
            && ending == Deployed && Published(end.row, input, vault, uri, created, last)
            && end.receipts == receipts[tx := vault]
            && CurrentUri(end.net) == uri && uri in end.net.store && Readable(end.net.store[uri])
            && input.workflowId in Workflow(end.net.store[uri])
            && RunsFor(Workflow(end.net.store[uri])[input.workflowId], setup, input, vault, start)
  {
    CreateDrives(setup, input, created, receipts, net, tx, vault, start, last, uri, block);
    AddedRunsFor(setup, input, R.Inserted(input, created), vault, start, net.store[CurrentUri(net)]);
  }
}
