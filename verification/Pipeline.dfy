/**
 * Create, crash and resume: `runPipeline` of `packages/loop-deploy/src/deployer.ts` one
 * durable step at a time, for any number of loops at once over the registry, the deploy
 * transactions and the mutation queue. A crash loses the runs and the queue, never a row.
 */
module Pipeline {
  import opened Wrappers
  import opened ServiceDoc
  import opened Mutation
  import opened ConcurrentAdditions
  import opened MutationQueue
  import R = Registry

  datatype Setup = Setup(
    chainKey: string, usdcAddress: string, template: Option<string>, ttlNanos: int, catalog: set<string>)

  // The vault each successful deploy transaction created.
  type Receipts = map<string, string>

  // ---------------------------------------------------------------- one run

  datatype Stage =
    | Load
    | Submit
    | RecordHash(txHash: string)
    | Finalize(txHash: string)
    | RecordHandler(handler: string)
    | AddWorkflow
    | Await(ticket: nat)
    | RecordService(uri: Uri)
    | RecordActive
    | RecordFailure(why: string)

  // What comes back: an exception, a reply at some time, or a submitted transaction
  // (whose hash may be lost on the way back).
  datatype Signal = Refused(why: string) | Proceed(now: int) | Sent(txHash: string, vault: string, replied: bool)

  // After a step: the next stage unless the run is over, the row, the transactions, and a
  // task for the queue.
  datatype Turn = Turn(next: Option<Stage>, row: R.LoopRecord, receipts: Receipts, task: Option<Task>)

  function SpecFor(setup: Setup, row: R.LoopRecord, handler: string, now: int): WorkflowSpec {
    WorkflowSpec(
      row.workflowId,
      ComponentConfigFor(row.config.strategyParams, row.config.market,
                         ServerFields(setup.chainKey, setup.usdcAddress, handler)),
      setup.chainKey, handler, CronWindow(row.config.schedule, now, now + setup.ttlNanos))
  }

  function Loaded(setup: Setup, row: R.LoopRecord): Stage {
    if row.handlerAddress.None? then
      if row.config.candidateId !in setup.catalog then RecordFailure("market catalog missing entry")
      else if row.deployTxHash.None? then Submit
      else Finalize(row.deployTxHash.value)
    else WithHandler(row)
  }

  function WithHandler(row: R.LoopRecord): Stage {
    if row.step != R.ServiceUpdated && row.step != R.Active then AddWorkflow else RecordActive
  }

  const KEEP := R.NO_CHANGE

  predicate IsRecord(stage: Stage) {
    stage.RecordHash? || stage.RecordHandler? || stage.RecordService? || stage.RecordActive?
  }

  // What each of these stages records, and the stage after it.
  function PatchOf(stage: Stage): R.Patch
    requires IsRecord(stage)
  {
    match stage
    case RecordHash(tx) => KEEP.(deployTxHash := R.To(Some(tx)))
    case RecordHandler(handler) =>
      KEEP.(handlerAddress := R.To(Some(handler)), deployTxHash := R.To(None), step := R.To(R.HandlerDeployed),
            status := R.To(R.Deploying), error := R.To(None))
    case RecordService(uri) => KEEP.(serviceCid := R.To(uri), step := R.To(R.ServiceUpdated))
    case RecordActive => KEEP.(step := R.To(R.Active), status := R.To(R.Activated), error := R.To(None))
  }

  function Following(stage: Stage): Option<Stage>
    requires IsRecord(stage)
  {
    match stage
    case RecordHash(tx) => Some(Finalize(tx))
    case RecordHandler(_) => Some(AddWorkflow)
    case RecordService(_) => Some(RecordActive)
    case RecordActive => None
  }

  // A registry write and what follows it, or its exception.
  function RecordTurn(stage: Stage, row: R.LoopRecord, receipts: Receipts, signal: Signal): Turn
    requires IsRecord(stage)
  {
    match signal
    case Proceed(now) => Turn(Following(stage), R.Patched(row, PatchOf(stage), now), receipts, None)
    case _ => Turn(Some(RecordFailure("registry")), row, receipts, None)
  }

  function SubmitTurn(row: R.LoopRecord, receipts: Receipts, signal: Signal): Turn {
    if !signal.Sent? || signal.txHash in receipts then Turn(Some(RecordFailure("submit")), row, receipts, None)
    else Turn(Some(if signal.replied then RecordHash(signal.txHash) else RecordFailure("submit")),
              row, receipts[signal.txHash := signal.vault], None)
  }

  function AwaitTurn(row: R.LoopRecord, receipts: Receipts, ticket: nat, outcomes: map<nat, Outcome>): Turn {
    if ticket !in outcomes then Turn(Some(Await(ticket)), row, receipts, None)
    else match outcomes[ticket]
      case Completed(uri) => Turn(Some(RecordService(uri)), row, receipts, None)
      case Failed(_) => Turn(Some(RecordFailure("mutation")), row, receipts, None)
  }

  function TakeTurn(setup: Setup, stage: Stage, row: R.LoopRecord, receipts: Receipts,
                outcomes: map<nat, Outcome>, ticket: nat, signal: Signal): Turn
  {
    match stage
    case Load =>
      Turn(Some(if signal.Refused? then RecordFailure(signal.why) else Loaded(setup, row)), row, receipts, None)
    case Submit => SubmitTurn(row, receipts, signal)
    case Finalize(tx) =>
      Turn(Some(if signal.Proceed? && tx in receipts then RecordHandler(receipts[tx]) else RecordFailure("finalize")),
           row, receipts, None)
    case AddWorkflow =>
      if signal.Proceed? && row.handlerAddress.Some? then
        Turn(Some(Await(ticket)), row, receipts, Some(Add(SpecFor(setup, row, row.handlerAddress.value, signal.now))))
      else Turn(Some(RecordFailure("enqueue")), row, receipts, None)
    case Await(t) => AwaitTurn(row, receipts, t, outcomes)
    case RecordFailure(why) => Turn(None, FailedRow(row, why, signal), receipts, None)
    case _ => RecordTurn(stage, row, receipts, signal)
  }

  // The failure is recorded unless the registry fails too.
  function FailedRow(row: R.LoopRecord, why: string, signal: Signal): R.LoopRecord {
    if signal.Proceed? then R.Patched(row, FailurePatch(why), signal.now) else row
  }

  function FailurePatch(why: string): R.Patch {
    KEEP.(status := R.To(R.Failing), error := R.To(Some(why)))
  }

  // ---------------------------------------------------------------- the whole system

  datatype Sys = Sys(queue: Queue, rows: R.Rows, runs: map<string, Stage>, receipts: Receipts)

  datatype Event =
    | Create(input: R.NewLoop, now: int)
    | Resume(id: string)
    | Go(id: string, signal: Signal)
    | QueueMoves(fate: Fate)
    | Pinned(uri: Uri, doc: Json)
    | NudgeService
    | Die

  function Apply(s: Sys, id: string, turn: Turn): Sys {
    s.(rows := s.rows[id := turn.row],
       runs := if turn.next.Some? then s.runs[id := turn.next.value] else s.runs - {id},
       receipts := turn.receipts,
       queue := if turn.task.Some? then s.queue.(tasks := s.queue.tasks + [turn.task.value]) else s.queue)
  }

  function TurnOf(setup: Setup, s: Sys, id: string, signal: Signal): Turn
    requires id in s.rows && id in s.runs
  {
    TakeTurn(setup, s.runs[id], s.rows[id], s.receipts, s.queue.outcomes, |s.queue.tasks|, signal)
  }

  // Resuming an active or inactive loop, or one already being run, changes nothing.
  function Next(setup: Setup, s: Sys, event: Event): Sys {
    match event
    case Create(input, now) =>
      if R.Conflicts(s.rows, input) then s
      else s.(rows := s.rows[input.id := R.Inserted(input, now)], runs := s.runs[input.id := Load])
    case Resume(id) =>
      if id !in s.rows || id in s.runs || s.rows[id].status == R.Activated || s.rows[id].status == R.Inactive then s
      else s.(runs := s.runs[id := Load])
    case Go(id, signal) => if id in s.rows && id in s.runs then Apply(s, id, TurnOf(setup, s, id, signal)) else s
    case QueueMoves(fate) => s.(queue := Happen(s.queue, setup.template, Answer(fate)))
    case Pinned(uri, doc) => s.(queue := Happen(s.queue, setup.template, Published(uri, doc)))
    case NudgeService => s.(queue := Happen(s.queue, setup.template, Enqueue(Nudge)))
    case Die => s.(queue := Happen(s.queue, setup.template, Crash), runs := map[])
  }

  function Runs(setup: Setup, s: Sys, events: seq<Event>): Sys
    decreases |events|
  {
    if events == [] then s else Runs(setup, Next(setup, s, events[0]), events[1..])
  }

  // Nobody else writes the manager's URI, and a new loop's random workflow id is not in
  // the document already.
  ghost predicate Fair(setup: Setup, s: Sys, events: seq<Event>)
    decreases |events|
  {
    events == [] || (FairNow(s, events[0]) && Fair(setup, Next(setup, s, events[0]), events[1..]))
  }

  ghost predicate FairNow(s: Sys, event: Event) {
    match event
    case QueueMoves(fate) => fate.Take? ==> fate.ahead == [] == fate.behind
    case Create(input, _) => !InDocument(s.queue.net, input.workflowId)
    case _ => true
  }

  ghost predicate InDocument(net: Net, workflowId: string) {
    && CurrentUri(net) in net.store
    && Readable(net.store[CurrentUri(net)])
    && workflowId in Workflow(net.store[CurrentUri(net)])
  }

  // ---------------------------------------------------------------- invariants

  ghost predicate Wired(setup: Setup, doc: Json, row: R.LoopRecord) {
    && row.handlerAddress.Some?
    && Readable(doc) && row.workflowId in Workflow(doc)
    && PointsAt(Workflow(doc)[row.workflowId], setup.chainKey, row.handlerAddress.value)
  }

  ghost predicate RowInv(setup: Setup, doc: Json, row: R.LoopRecord) {
    && (row.step == R.Validated <==> row.handlerAddress.None?)
    && (row.handlerAddress.Some? ==> row.deployTxHash.None?)
    && (row.step == R.ServiceUpdated || row.step == R.Active ==> Wired(setup, doc, row))
    && (row.status == R.Activated ==> row.step == R.Active)
    && (Readable(doc) && row.workflowId in Workflow(doc) ==> Wired(setup, doc, row))
  }

  ghost predicate StageInv(
      setup: Setup, doc: Json, row: R.LoopRecord, stage: Stage, receipts: Receipts, tasks: seq<Task>)
  {
    match stage
    case Submit => row.handlerAddress.None? && row.deployTxHash.None?
    case RecordHash(tx) => row.handlerAddress.None? && row.deployTxHash.None? && tx in receipts
    case Finalize(tx) => row.handlerAddress.None? && row.deployTxHash == Some(tx)
    case RecordHandler(handler) => row.handlerAddress.None? && row.deployTxHash.Some?
    case AddWorkflow => row.handlerAddress.Some? && row.step == R.HandlerDeployed
    case Await(t) =>
      && row.handlerAddress.Some? && row.step == R.HandlerDeployed
      && t < |tasks| && tasks[t].Add? && tasks[t].spec.workflowId == row.workflowId
    case RecordService(_) => row.step == R.HandlerDeployed && Wired(setup, doc, row)
    case RecordActive => row.step == R.ServiceUpdated || row.step == R.Active
    case _ => true
  }

  // A queued add is for some loop's recorded handler.
  ghost predicate Owned(setup: Setup, rows: R.Rows, task: Task) {
    task.Add? && (exists id :: id in rows && SpecMatches(setup, rows[id], task.spec))
  }

  ghost predicate SpecMatches(setup: Setup, row: R.LoopRecord, spec: WorkflowSpec) {
    && row.handlerAddress == Some(spec.handler)
    && spec.workflowId == row.workflowId && spec.chainKey == setup.chainKey
    && "vault_address" in spec.componentConfig && spec.componentConfig["vault_address"] == spec.handler
  }

  ghost predicate LandedIn(doc: Json, landed: seq<Landed>) {
    forall i | 0 <= i < |landed| && landed[i].task.Add? ::
      Readable(doc) && landed[i].task.spec.workflowId in Workflow(doc)
  }

  ghost predicate RowsOk(setup: Setup, doc: Json, rows: R.Rows) {
    R.WellKept(rows) && forall id | id in rows :: RowInv(setup, doc, rows[id])
  }

  ghost predicate RunsOk(
      setup: Setup, doc: Json, rows: R.Rows, runs: map<string, Stage>, receipts: Receipts, tasks: seq<Task>)
  {
    forall id | id in runs :: id in rows && StageInv(setup, doc, rows[id], runs[id], receipts, tasks)
  }

  ghost predicate TasksOk(setup: Setup, rows: R.Rows, tasks: seq<Task>) {
    forall t | 0 <= t < |tasks| :: tasks[t].Nudge? || Owned(setup, rows, tasks[t])
  }

  ghost predicate SysInv(setup: Setup, s: Sys, first: Json, doc: Json) {
    && QueueInv(s.queue, setup.template, first, doc)
    && RowsOk(setup, doc, s.rows)
    && RunsOk(setup, doc, s.rows, s.runs, s.receipts, s.queue.tasks)
    && TasksOk(setup, s.rows, s.queue.tasks)
    && LandedIn(doc, s.queue.landed)
  }

  // ---------------------------------------------------------------- a turn keeps them

  lemma SpecForMatches(setup: Setup, row: R.LoopRecord, handler: string, now: int)
    requires row.handlerAddress == Some(handler)
    ensures SpecMatches(setup, row, SpecFor(setup, row, handler, now))
  {
    KnobsCannotMoveServerFields(row.config.strategyParams, row.config.market,
                                ServerFields(setup.chainKey, setup.usdcAddress, handler));
  }

  // What no turn changes, and what it only moves forward.
  ghost predicate Forward(row: R.LoopRecord, row': R.LoopRecord) {
    && row'.id == row.id && row'.workflowId == row.workflowId && row'.config == row.config
    && (row.handlerAddress.Some? ==> row'.handlerAddress == row.handlerAddress)
    && (row'.step == row.step || Rank(row.step) < Rank(row'.step))
  }

  function Rank(step: R.LoopStep): nat {
    match step
    case Validated => 0
    case HandlerDeployed => 1
    case ServiceUpdated => 2
    case Active => 3
  }

  ghost predicate Keeps(setup: Setup, doc: Json, row: R.LoopRecord, receipts: Receipts, tasks: seq<Task>, turn: Turn) {
    && RowInv(setup, doc, turn.row) && Forward(row, turn.row)
    && (turn.next.Some? ==>
          StageInv(setup, doc, turn.row, turn.next.value, turn.receipts,
                   if turn.task.Some? then tasks + [turn.task.value] else tasks))
    && (forall tx | tx in receipts :: tx in turn.receipts && turn.receipts[tx] == receipts[tx])
    && (turn.task.Some? ==> turn.task.value.Add? && SpecMatches(setup, turn.row, turn.task.value.spec))
  }

  lemma DeployTurnKeeps(setup: Setup, doc: Json, stage: Stage, row: R.LoopRecord, receipts: Receipts,
                        outcomes: map<nat, Outcome>, tasks: seq<Task>, signal: Signal)
    requires stage.Load? || stage.Submit? || stage.RecordHash? || stage.Finalize?
    requires RowInv(setup, doc, row) && StageInv(setup, doc, row, stage, receipts, tasks)
    ensures Keeps(setup, doc, row, receipts, tasks, TakeTurn(setup, stage, row, receipts, outcomes, |tasks|, signal))
  {
  }

  lemma RecordTurnKeeps(setup: Setup, doc: Json, stage: Stage, row: R.LoopRecord, receipts: Receipts,
                        outcomes: map<nat, Outcome>, tasks: seq<Task>, signal: Signal)
    requires stage.RecordHandler? || stage.RecordService? || stage.RecordActive? || stage.RecordFailure?
    requires RowInv(setup, doc, row) && StageInv(setup, doc, row, stage, receipts, tasks)
    ensures Keeps(setup, doc, row, receipts, tasks, TakeTurn(setup, stage, row, receipts, outcomes, |tasks|, signal))
  {
  }

  lemma AddTurnKeeps(setup: Setup, doc: Json, row: R.LoopRecord, receipts: Receipts,
                     outcomes: map<nat, Outcome>, tasks: seq<Task>, signal: Signal)
    requires RowInv(setup, doc, row) && StageInv(setup, doc, row, AddWorkflow, receipts, tasks)
    ensures Keeps(setup, doc, row, receipts, tasks,
                  TakeTurn(setup, AddWorkflow, row, receipts, outcomes, |tasks|, signal))
  {
    if signal.Proceed? {
      SpecForMatches(setup, row, row.handlerAddress.value, signal.now);
    }
  }

  lemma AwaitTurnKeeps(setup: Setup, doc: Json, stage: Stage, row: R.LoopRecord, receipts: Receipts,
                       queue: Queue, signal: Signal)
    requires stage.Await? && RowInv(setup, doc, row) && StageInv(setup, doc, row, stage, receipts, queue.tasks)
    requires Booked(queue) && LandedIn(doc, queue.landed)
    ensures Keeps(setup, doc, row, receipts, queue.tasks,
                  TakeTurn(setup, stage, row, receipts, queue.outcomes, |queue.tasks|, signal))
  {
    if stage.ticket in queue.outcomes && queue.outcomes[stage.ticket].Completed? {
      var i :| 0 <= i < |queue.landed| && queue.landed[i].ticket == stage.ticket;
      assert queue.tasks[queue.landed[i].ticket] == queue.landed[i].task;
    }
  }

  lemma TurnKeeps(
      setup: Setup, doc: Json, stage: Stage, row: R.LoopRecord, receipts: Receipts, queue: Queue, signal: Signal)
    requires RowInv(setup, doc, row) && StageInv(setup, doc, row, stage, receipts, queue.tasks)
    requires Booked(queue) && LandedIn(doc, queue.landed)
    ensures Keeps(setup, doc, row, receipts, queue.tasks,
                  TakeTurn(setup, stage, row, receipts, queue.outcomes, |queue.tasks|, signal))
  {
    if stage.Await? {
      AwaitTurnKeeps(setup, doc, stage, row, receipts, queue, signal);
    } else if stage.AddWorkflow? {
      AddTurnKeeps(setup, doc, row, receipts, queue.outcomes, queue.tasks, signal);
    } else if stage.Load? || stage.Submit? || stage.RecordHash? || stage.Finalize? {
      DeployTurnKeeps(setup, doc, stage, row, receipts, queue.outcomes, queue.tasks, signal);
    } else {
      RecordTurnKeeps(setup, doc, stage, row, receipts, queue.outcomes, queue.tasks, signal);
    }
  }

  // ---------------------------------------------------------------- every event keeps them

  lemma GoKeeps(setup: Setup, s: Sys, first: Json, doc: Json, id: string, signal: Signal)
    requires SysInv(setup, s, first, doc) && id in s.rows && id in s.runs
    ensures SysInv(setup, Apply(s, id, TurnOf(setup, s, id, signal)), first, doc)
  {
    var turn := TurnOf(setup, s, id, signal);
    TurnKeeps(setup, doc, s.runs[id], s.rows[id], s.receipts, s.queue, signal);
    ApplyKeepsRuns(setup, s, doc, id, turn);
    ApplyKeepsTasks(setup, s, doc, id, turn);
    if turn.task.Some? {
      EnqueueKeeps(s.queue, setup.template, first, doc, turn.task.value);
    }
  }

  lemma ApplyKeepsRuns(setup: Setup, s: Sys, doc: Json, id: string, turn: Turn)
    requires RowsOk(setup, doc, s.rows) && RunsOk(setup, doc, s.rows, s.runs, s.receipts, s.queue.tasks)
    requires id in s.rows && Keeps(setup, doc, s.rows[id], s.receipts, s.queue.tasks, turn)
    ensures var s' := Apply(s, id, turn);
            RowsOk(setup, doc, s'.rows) && RunsOk(setup, doc, s'.rows, s'.runs, s'.receipts, s'.queue.tasks)
  {
    var s' := Apply(s, id, turn);
    forall other | other in s'.runs && other != id
      ensures StageInv(setup, doc, s'.rows[other], s'.runs[other], s'.receipts, s'.queue.tasks)
    {
      StageStays(setup, doc, s.rows[other], s.runs[other], s.receipts, s'.receipts, s.queue.tasks, s'.queue.tasks);
    }
  }

  lemma StageStays(setup: Setup, doc: Json, row: R.LoopRecord, stage: Stage, receipts: Receipts, receipts': Receipts,
                   tasks: seq<Task>, tasks': seq<Task>)
    requires StageInv(setup, doc, row, stage, receipts, tasks)
    requires tasks <= tasks' && receipts.Keys <= receipts'.Keys
    ensures StageInv(setup, doc, row, stage, receipts', tasks')
  {
  }

  lemma ApplyKeepsTasks(setup: Setup, s: Sys, doc: Json, id: string, turn: Turn)
    requires TasksOk(setup, s.rows, s.queue.tasks)
    requires id in s.rows && Keeps(setup, doc, s.rows[id], s.receipts, s.queue.tasks, turn)
    ensures var s' := Apply(s, id, turn); TasksOk(setup, s'.rows, s'.queue.tasks)
  {
    var s' := Apply(s, id, turn);
    RowsKeepTasks(setup, s.rows, s'.rows, s.queue.tasks);
    if turn.task.Some? {
      assert SpecMatches(setup, s'.rows[id], turn.task.value.spec);
    }
  }

  // Tasks stay owned while rows keep their identity and their handler.
  lemma RowsKeepTasks(setup: Setup, rows: R.Rows, rows': R.Rows, tasks: seq<Task>)
    requires forall id | id in rows :: id in rows' && Forward(rows[id], rows'[id])
    requires TasksOk(setup, rows, tasks)
    ensures TasksOk(setup, rows', tasks)
  {
    forall t | 0 <= t < |tasks| && !tasks[t].Nudge? ensures Owned(setup, rows', tasks[t]) {
      assert Owned(setup, rows, tasks[t]);
      var id :| id in rows && SpecMatches(setup, rows[id], tasks[t].spec);
      assert SpecMatches(setup, rows'[id], tasks[t].spec);
    }
  }

  lemma CreateKeeps(setup: Setup, s: Sys, first: Json, doc: Json, input: R.NewLoop, now: int)
    requires SysInv(setup, s, first, doc) && !InDocument(s.queue.net, input.workflowId)
    requires !R.Conflicts(s.rows, input)
    ensures SysInv(setup, s.(rows := s.rows[input.id := R.Inserted(input, now)], runs := s.runs[input.id := Load]),
                   first, doc)
  {
    var rows := s.rows[input.id := R.Inserted(input, now)];
    CreateKeepsRows(setup, doc, s.rows, input, now);
    RowsKeepTasks(setup, s.rows, rows, s.queue.tasks);
    StartKeepsRuns(setup, doc, s.rows, rows, s.runs, s.receipts, s.queue.tasks, input.id);
  }

  // A run that starts makes no claim yet.
  lemma StartKeepsRuns(setup: Setup, doc: Json, rows: R.Rows, rows': R.Rows, runs: map<string, Stage>,
                       receipts: Receipts, tasks: seq<Task>, id: string)
    requires RunsOk(setup, doc, rows, runs, receipts, tasks) && id in rows'
    requires forall other | other in rows :: other in rows' && rows'[other] == rows[other]
    ensures RunsOk(setup, doc, rows', runs[id := Load], receipts, tasks)
  {
  }

  lemma CreateKeepsRows(setup: Setup, doc: Json, rows: R.Rows, input: R.NewLoop, now: int)
    requires RowsOk(setup, doc, rows) && !R.Conflicts(rows, input)
    requires Readable(doc) ==> input.workflowId !in Workflow(doc)
    ensures RowsOk(setup, doc, rows[input.id := R.Inserted(input, now)])
    ensures forall id | id in rows :: rows[input.id := R.Inserted(input, now)][id] == rows[id]
  {
  }

  // A landed add leaves every other workflow alone and wires its own to its loop's handler.
  lemma AddKeepsRow(setup: Setup, doc: Json, doc': Json, spec: WorkflowSpec, owner: R.LoopRecord, row: R.LoopRecord)
    requires RowInv(setup, doc, row) && RowInv(setup, doc, owner) && SpecMatches(setup, owner, spec)
    requires row.workflowId == owner.workflowId ==> row == owner
    requires AddEdit(spec, setup.template)(doc) == Success(doc')
    ensures RowInv(setup, doc', row)
    ensures Wired(setup, doc, row) ==> Wired(setup, doc', row)
  {
    AddEditAddsOne(spec, setup.template);
    assert AddEdit(spec, setup.template)(doc).Success?;
    if spec.workflowId !in Workflow(doc) {
      AddSpecification(doc, spec, setup.template);
    }
  }

  lemma QueueKeeps(setup: Setup, s: Sys, first: Json, doc: Json, fate: Fate) returns (doc': Json)
    requires SysInv(setup, s, first, doc) && s.queue.next < |s.queue.tasks|
    requires fate.Take? ==> fate.ahead == [] == fate.behind
    ensures SysInv(setup, s.(queue := Advance(s.queue, setup.template, fate)), first, doc')
  {
    doc' := AdvanceKeeps(s.queue, setup.template, first, doc, fate);
    MoveKeeps(setup, s, Advance(s.queue, setup.template, fate), first, doc, doc');
  }

  lemma MoveKeeps(setup: Setup, s: Sys, q: Queue, first: Json, doc: Json, doc': Json)
    requires SysInv(setup, s, first, doc)
    requires QueueInv(q, setup.template, first, doc') && q.tasks == s.queue.tasks
    requires Progress(s.queue, q, setup.template, doc, doc')
    ensures SysInv(setup, s.(queue := q), first, doc')
  {
    if q.landed == s.queue.landed {
      QuietKeeps(setup, s, s.(queue := q), first, doc);
    } else {
      LandingKeeps(setup, s, s.(queue := q), first, doc, doc');
    }
  }

  lemma LandingKeeps(setup: Setup, s: Sys, s': Sys, first: Json, doc: Json, doc': Json)
    requires SysInv(setup, s, first, doc) && s.queue.next < |s.queue.tasks| && !s.queue.tasks[s.queue.next].Nudge?
    requires s' == s.(queue := s'.queue) && s'.queue.tasks == s.queue.tasks
    requires QueueInv(s'.queue, setup.template, first, doc')
    requires var task := s.queue.tasks[s.queue.next];
             && s'.queue.landed == s.queue.landed + [Landed(s.queue.next, task)]
             && EditOf(task, setup.template)(doc) == Success(doc')
    ensures SysInv(setup, s', first, doc')
  {
    var task := s.queue.tasks[s.queue.next];
    assert Owned(setup, s.rows, task);
    RowsSeeAdd(setup, doc, doc', s.rows, task.spec);
    RunsSeeAdd(setup, doc, doc', s.rows, s.runs, s.receipts, s.queue.tasks);
    LandedKeeps(doc, doc', s.queue.landed, Landed(s.queue.next, task), setup.template);
  }

  lemma RowsSeeAdd(setup: Setup, doc: Json, doc': Json, rows: R.Rows, spec: WorkflowSpec)
    requires RowsOk(setup, doc, rows) && Owned(setup, rows, Add(spec))
    requires AddEdit(spec, setup.template)(doc) == Success(doc')
    ensures RowsOk(setup, doc', rows)
    ensures forall id | id in rows :: Wired(setup, doc, rows[id]) ==> Wired(setup, doc', rows[id])
  {
    var owner :| owner in rows && SpecMatches(setup, rows[owner], spec);
    forall id | id in rows
      ensures RowInv(setup, doc', rows[id])
      ensures Wired(setup, doc, rows[id]) ==> Wired(setup, doc', rows[id])
    {
      AddKeepsRow(setup, doc, doc', spec, rows[owner], rows[id]);
    }
  }

  lemma RunsSeeAdd(
      setup: Setup, doc: Json, doc': Json, rows: R.Rows, runs: map<string, Stage>, receipts: Receipts, tasks: seq<Task>)
    requires RunsOk(setup, doc, rows, runs, receipts, tasks)
    requires forall id | id in rows :: Wired(setup, doc, rows[id]) ==> Wired(setup, doc', rows[id])
    ensures RunsOk(setup, doc', rows, runs, receipts, tasks)
  {
  }

  lemma LandedKeeps(doc: Json, doc': Json, landed: seq<Landed>, last: Landed, template: Option<string>)
    requires last.task.Add? && LandedIn(doc, landed) && AddEdit(last.task.spec, template)(doc) == Success(doc')
    ensures LandedIn(doc', landed + [last])
  {
    AddEditAddsOne(last.task.spec, template);
    assert AddEdit(last.task.spec, template)(doc).Success?;
  }

  lemma QuietKeeps(setup: Setup, s: Sys, s': Sys, first: Json, doc: Json)
    requires SysInv(setup, s, first, doc) && QueueInv(s'.queue, setup.template, first, doc)
    requires s'.rows == s.rows && s'.receipts == s.receipts
    requires s'.queue.tasks == s.queue.tasks && s'.queue.landed == s.queue.landed
    requires s'.runs.Keys <= s.runs.Keys && forall id | id in s'.runs :: s'.runs[id] == s.runs[id]
    ensures SysInv(setup, s', first, doc)
  {
    assert RunsOk(setup, doc, s'.rows, s'.runs, s'.receipts, s'.queue.tasks);
  }

  lemma NextKeeps(setup: Setup, s: Sys, first: Json, doc: Json, event: Event) returns (doc': Json)
    requires SysInv(setup, s, first, doc) && FairNow(s, event)
    ensures SysInv(setup, Next(setup, s, event), first, doc')
  {
    doc' := doc;
    match event
    case Create(input, now) =>
      if !R.Conflicts(s.rows, input) {
        CreateKeeps(setup, s, first, doc, input, now);
      }
    case Resume(id) =>
      if id in s.rows {
        ResumeKeeps(setup, s, first, doc, id);
      }
    case Go(id, signal) =>
      if id in s.rows && id in s.runs {
        GoKeeps(setup, s, first, doc, id, signal);
      }
    case QueueMoves(fate) =>
      if s.queue.next < |s.queue.tasks| {
        doc' := QueueKeeps(setup, s, first, doc, fate);
      }
    case Pinned(uri, published) =>
      PublishKeeps(s.queue, setup.template, first, doc, uri, published);
      QuietKeeps(setup, s, Next(setup, s, event), first, doc);
    case NudgeService => NudgeServiceKeeps(setup, s, first, doc);
    case Die =>
      CrashKeeps(s.queue, setup.template, first, doc);
      QuietKeeps(setup, s, Next(setup, s, event), first, doc);
  }

  lemma ResumeKeeps(setup: Setup, s: Sys, first: Json, doc: Json, id: string)
    requires SysInv(setup, s, first, doc) && id in s.rows
    ensures SysInv(setup, s.(runs := s.runs[id := Load]), first, doc)
  {
    StartKeepsRuns(setup, doc, s.rows, s.rows, s.runs, s.receipts, s.queue.tasks, id);
  }

  lemma NudgeServiceKeeps(setup: Setup, s: Sys, first: Json, doc: Json)
    requires SysInv(setup, s, first, doc)
    ensures SysInv(setup, s.(queue := Happen(s.queue, setup.template, Enqueue(Nudge))), first, doc)
  {
    EnqueueKeeps(s.queue, setup.template, first, doc, Nudge);
    RunsStay(setup, doc, s.rows, s.runs, s.receipts, s.queue.tasks, Nudge);
  }

  lemma RunsStay(setup: Setup, doc: Json, rows: R.Rows, runs: map<string, Stage>, receipts: Receipts,
                 tasks: seq<Task>, task: Task)
    requires RunsOk(setup, doc, rows, runs, receipts, tasks)
    ensures RunsOk(setup, doc, rows, runs, receipts, tasks + [task])
  {
    forall id | id in runs ensures StageInv(setup, doc, rows[id], runs[id], receipts, tasks + [task]) {
      StageStays(setup, doc, rows[id], runs[id], receipts, receipts, tasks, tasks + [task]);
    }
  }

  lemma {:induction false} RunsKeep(
      setup: Setup, s: Sys, first: Json, doc: Json, events: seq<Event>)
    returns (doc': Json)
    requires SysInv(setup, s, first, doc) && Fair(setup, s, events)
    ensures SysInv(setup, Runs(setup, s, events), first, doc')
    decreases |events|
  {
    doc' := doc;
    if events != [] {
      doc' := NextKeeps(setup, s, first, doc, events[0]);
      doc' := RunsKeep(setup, Next(setup, s, events[0]), first, doc', events[1..]);
    }
  }

  // ---------------------------------------------------------------- the theorems

  // No loop is known yet, and nobody runs.
  function Boot(net: Net): Sys {
    Sys(Opened(net), map[], map[], map[])
  }

  lemma BootInv(setup: Setup, net: Net, first: Json)
    requires DocIs(net, first)
    ensures SysInv(setup, Boot(net), first, first)
  {
  }

  // Whatever crashed, failed or was retried: a loop marked active has its workflow in the
  // manager's document, reading and submitting to exactly the recorded handler.
  lemma ActiveLoopsAreWired(setup: Setup, net: Net, first: Json, events: seq<Event>, id: string)
    requires DocIs(net, first) && Fair(setup, Boot(net), events)
    requires var s := Runs(setup, Boot(net), events); id in s.rows && s.rows[id].status == R.Activated
    ensures var s := Runs(setup, Boot(net), events);
            && CurrentUri(s.queue.net) in s.queue.net.store
            && Wired(setup, s.queue.net.store[CurrentUri(s.queue.net)], s.rows[id])
  {
    BootInv(setup, net, first);
    var doc := RunsKeep(setup, Boot(net), first, first, events);
  }

  // A port that refuses ends the run in a failure, and recording that changes the row's status
  // and error and nothing else.
  lemma FailuresAreRecorded(setup: Setup, s: Sys, id: string, why: string, now: int)
    requires id in s.rows && id in s.runs
    ensures s.runs[id] == RecordFailure(why) ==>
              var next := Next(setup, s, Go(id, Proceed(now)));
              && next.rows == s.rows[id := s.rows[id].(status := R.Failing, error := Some(why), updatedAt := now)]
              && next.runs == s.runs - {id} && next.receipts == s.receipts && next.queue == s.queue
    ensures !s.runs[id].Await? && !s.runs[id].RecordFailure? ==>
              var next := Next(setup, s, Go(id, Refused(why)));
              && next.rows == s.rows && next.receipts == s.receipts && next.queue == s.queue
              && id in next.runs && next.runs[id].RecordFailure?
    ensures s.runs[id] == Load && s.rows[id].handlerAddress == None
              && s.rows[id].config.candidateId !in setup.catalog ==>
              Next(setup, s, Go(id, Proceed(now)))
              == s.(runs := s.runs[id := RecordFailure("market catalog missing entry")])
  {
    assert s.rows[id := s.rows[id]] == s.rows;
  }

  // A resume starts a run exactly for a loop that is deploying or failed and not being run.
  lemma ResumeStartsRuns(setup: Setup, s: Sys, id: string)
    ensures var next := Next(setup, s, Resume(id));
            if id in s.rows && id !in s.runs && s.rows[id].status in {R.Deploying, R.Failing}
            then next == s.(runs := s.runs[id := Load]) else next == s
  {
  }

  ghost predicate AllForward(rows: R.Rows, rows': R.Rows) {
    forall id | id in rows :: id in rows' && Forward(rows[id], rows'[id])
  }

  lemma NextForward(setup: Setup, s: Sys, doc: Json, event: Event)
    requires RowsOk(setup, doc, s.rows) && RunsOk(setup, doc, s.rows, s.runs, s.receipts, s.queue.tasks)
    requires Booked(s.queue) && LandedIn(doc, s.queue.landed)
    ensures AllForward(s.rows, Next(setup, s, event).rows)
  {
    if event.Go? && event.id in s.rows && event.id in s.runs {
      TurnKeeps(setup, doc, s.runs[event.id], s.rows[event.id], s.receipts, s.queue, event.signal);
    }
  }

  lemma {:induction false} RunsForward(setup: Setup, s: Sys, first: Json, doc: Json, events: seq<Event>)
    requires SysInv(setup, s, first, doc) && Fair(setup, s, events)
    ensures AllForward(s.rows, Runs(setup, s, events).rows)
    decreases |events|
  {
    if events != [] {
      NextForward(setup, s, doc, events[0]);
      var doc' := NextKeeps(setup, s, first, doc, events[0]);
      RunsForward(setup, Next(setup, s, events[0]), first, doc', events[1..]);
    }
  }

  lemma {:induction false} RunsSplit(setup: Setup, s: Sys, before: seq<Event>, after: seq<Event>)
    requires Fair(setup, s, before + after)
    ensures Fair(setup, s, before) && Fair(setup, Runs(setup, s, before), after)
    ensures Runs(setup, s, before + after) == Runs(setup, Runs(setup, s, before), after)
    decreases |before|
  {
    if before == [] {
      assert before + after == after;
    } else {
      assert (before + after)[1..] == before[1..] + after;
      RunsSplit(setup, Next(setup, s, before[0]), before[1..], after);
    }
  }

  // Between any two moments of a run a recorded handler stays what it was, a step never
  // moves back, and a row keeps its identity.
  lemma RowsOnlyMoveForward(setup: Setup, net: Net, first: Json, before: seq<Event>, after: seq<Event>)
    requires DocIs(net, first) && Fair(setup, Boot(net), before + after)
    ensures AllForward(Runs(setup, Boot(net), before).rows, Runs(setup, Boot(net), before + after).rows)
  {
    BootInv(setup, net, first);
    RunsSplit(setup, Boot(net), before, after);
    var doc := RunsKeep(setup, Boot(net), first, first, before);
    RunsForward(setup, Runs(setup, Boot(net), before), first, doc, after);
  }

  // ---------------------------------------------------------------- at most one vault a loop

  // A deploy transaction leaves.
  function Submits(stage: Stage, receipts: Receipts, signal: Signal): nat {
    if stage.Submit? && signal.Sent? && signal.txHash !in receipts then 1 else 0
  }

  // Its hash is lost: no reply to the submission, or the registry fails before it is
  // recorded. A crash at that point loses it too.
  function Loses(stage: Stage, receipts: Receipts, signal: Signal): nat {
    if Submits(stage, receipts, signal) == 1 then (if signal.replied then 0 else 1)
    else if stage.RecordHash? && !signal.Proceed? then 1 else 0
  }

  // Vaults a loop still knows of: recorded, or in hand and about to be.
  function KnownTo(row: R.LoopRecord, stage: Option<Stage>): nat {
    (if row.handlerAddress.Some? || row.deployTxHash.Some? then 1 else 0)
    + (if stage.Some? && stage.value.RecordHash? then 1 else 0)
  }

  function StageOf(runs: map<string, Stage>, id: string): Option<Stage> {
    if id in runs then Some(runs[id]) else None
  }

  function Known(s: Sys, id: string): nat {
    if id in s.rows then KnownTo(s.rows[id], StageOf(s.runs, id)) else 0
  }

  predicate Steps(s: Sys, event: Event, id: string) {
    event.Go? && event.id == id && id in s.rows && id in s.runs
  }

  function SubmitsNow(s: Sys, event: Event, id: string): nat {
    if Steps(s, event, id) then Submits(s.runs[id], s.receipts, event.signal) else 0
  }

  function LosesNow(s: Sys, event: Event, id: string): nat {
    if Steps(s, event, id) then Loses(s.runs[id], s.receipts, event.signal)
    else if event.Die? && id in s.rows && id in s.runs && s.runs[id].RecordHash? then 1
    else 0
  }

  function Submissions(setup: Setup, s: Sys, events: seq<Event>, id: string): nat
    decreases |events|
  {
    if events == [] then 0
    else SubmitsNow(s, events[0], id) + Submissions(setup, Next(setup, s, events[0]), events[1..], id)
  }

  function Losses(setup: Setup, s: Sys, events: seq<Event>, id: string): nat
    decreases |events|
  {
    if events == [] then 0
    else LosesNow(s, events[0], id) + Losses(setup, Next(setup, s, events[0]), events[1..], id)
  }

  lemma TurnBalances(setup: Setup, doc: Json, stage: Stage, row: R.LoopRecord, receipts: Receipts,
                     outcomes: map<nat, Outcome>, tasks: seq<Task>, signal: Signal)
    requires StageInv(setup, doc, row, stage, receipts, tasks)
    ensures var turn := TakeTurn(setup, stage, row, receipts, outcomes, |tasks|, signal);
            Submits(stage, receipts, signal) + KnownTo(row, Some(stage))
            == Loses(stage, receipts, signal) + KnownTo(turn.row, turn.next)
  {
  }

  lemma NextBalances(setup: Setup, s: Sys, doc: Json, event: Event, id: string)
    requires RunsOk(setup, doc, s.rows, s.runs, s.receipts, s.queue.tasks)
    ensures SubmitsNow(s, event, id) + Known(s, id) == LosesNow(s, event, id) + Known(Next(setup, s, event), id)
  {
    if Steps(s, event, id) {
      TurnBalances(setup, doc, s.runs[id], s.rows[id], s.receipts, s.queue.outcomes, s.queue.tasks, event.signal);
    }
  }

  lemma {:induction false} RunsBalance(setup: Setup, s: Sys, first: Json, doc: Json, events: seq<Event>, id: string)
    requires SysInv(setup, s, first, doc) && Fair(setup, s, events)
    ensures Submissions(setup, s, events, id) + Known(s, id)
            == Losses(setup, s, events, id) + Known(Runs(setup, s, events), id)
    decreases |events|
  {
    if events != [] {
      NextBalances(setup, s, doc, events[0], id);
      var doc' := NextKeeps(setup, s, first, doc, events[0]);
      RunsBalance(setup, Next(setup, s, events[0]), first, doc', events[1..], id);
    }
  }

  // A second vault is deployed for a loop only after the hash of an earlier one was lost
  // between the submission and its record; once the handler is recorded the count is exact.
  lemma OneVaultUnlessItsHashIsLost(setup: Setup, net: Net, first: Json, events: seq<Event>, id: string)
    requires DocIs(net, first) && Fair(setup, Boot(net), events)
    ensures var s := Runs(setup, Boot(net), events);
            var submitted, lost := Submissions(setup, Boot(net), events, id), Losses(setup, Boot(net), events, id);
            && lost <= submitted <= lost + 1
            && (id in s.rows && s.rows[id].handlerAddress.Some? ==> submitted == lost + 1)
  {
    BootInv(setup, net, first);
    RunsBalance(setup, Boot(net), first, first, events, id);
    var doc := RunsKeep(setup, Boot(net), first, first, events);
    var s := Runs(setup, Boot(net), events);
    assert id in s.runs ==> StageInv(setup, doc, s.rows[id], s.runs[id], s.receipts, s.queue.tasks);
  }
}
