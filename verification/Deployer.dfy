/**
 * `LoopDeployer` of `packages/loop-deploy/src/deployer.ts` as a class: the retry loop of
 * `mutateService` and the try/catch sequence of `runPipeline`, over ports whose replies
 * come from a script. Each method is proved to do exactly what the step machines of
 * `Mutation` and `Pipeline` do, so what is proved of them is proved of it.
 */
module Deployer {
  import opened Wrappers
  import opened ServiceDoc
  import opened Mutation
  import opened MutationQueue
  import opened Pipeline
  import R = Registry

  // A port call or an operation: a value, an exception, or the process dying underneath.
  datatype Reply<+T, +E> = Ok(value: T) | Thrown(fault: E) | Died {
    predicate IsFailure() {
      !Ok?
    }

    function PropagateFailure<U>(): Reply<U, E>
      requires !Ok?
    {
      if Thrown? then Thrown(fault) else Died
    }

    function Extract(): T
      requires Ok?
    {
      value
    }
  }

  // How a call of the mutation machine ended, seen from its caller.
  function ReplyOf(pc: Pc): Reply<Uri, Fault> {
    match pc
    case Returned(uri) => Ok(uri)
    case Threw(fault) => Thrown(fault)
    case _ => Died
  }

  // An attempt that neither returned nor threw goes on with the next one.
  function AttemptPc(attempt: nat): Pc {
    if attempt < MAX_ATTEMPTS then Checkpoint(attempt) else Threw(Exhausted)
  }

  // The chain and the pinning service, with all they will answer: `script` to the calls of
  // mutations, `signals` to everything else a run waits for.
  class Ports {
    var net: Net
    var script: seq<Mutation.Event>
    var receipts: Receipts
    var signals: seq<Signal>

    constructor (net: Net, script: seq<Mutation.Event>, receipts: Receipts, signals: seq<Signal>)
      ensures this.net == net && this.script == script && this.receipts == receipts && this.signals == signals
    {
      this.net, this.script, this.receipts, this.signals := net, script, receipts, signals;
    }

    // What the machine still has to do from here.
    ghost function Rest(pc: Pc, edit: Edit): (Pc, Net, seq<Mutation.Event>)
      reads `net, `script
    {
      Run(pc, net, edit, script)
    }

    // Everything others do before the next reply, and that reply; none if the script ends.
    method Next(ghost pc: Pc, ghost edit: Edit) returns (fate: Option<Fate>)
      requires !Done(pc)
      modifies `net, `script
      ensures fate.None? ==> old(Rest(pc, edit)) == (pc, net, script) == Rest(pc, edit)
      ensures fate.Some? ==>
                var next := Step(pc, net, edit, fate.value);
                old(Rest(pc, edit)) == Run(next.0, next.1, edit, script)
    {
      while script != [] && !script[0].Reply?
        invariant Rest(pc, edit) == old(Rest(pc, edit))
        decreases |script|
      {
        net, script := Outside(net, script[0]), script[1..];
      }
      if script == [] {
        return None;
      }
      fate := Some(script[0].fate);
      script := script[1..];
    }

    // The call ended here, with this reply to its caller.
    ghost predicate Ends<T>(r: Reply<T, Fault>, end: (Pc, Net, seq<Mutation.Event>))
      reads `net, `script
    {
      !r.Ok? && end.1 == net && end.2 == script && (if r.Thrown? then end.0 == Threw(r.fault) else !Done(end.0))
    }

    method GetCurrentBlockNumber(ghost edit: Edit, ghost attempt: nat) returns (r: Reply<nat, Fault>)
      modifies `net, `script
      ensures r.Ok? ==> old(Rest(Checkpoint(attempt), edit)) == Rest(GetUri(attempt, r.value), edit)
      ensures !r.Ok? ==> Ends(r, old(Rest(Checkpoint(attempt), edit)))
    {
      var fate := Next(Checkpoint(attempt), edit);
      if fate == None { return Died; }
      if fate.value.Refuse? || !fate.value.replied { return Thrown(PortFailed); }
      return Ok(net.head);
    }

    method GetServiceUri(ghost edit: Edit, ghost pc: Pc) returns (r: Reply<Uri, Fault>)
      requires pc.GetUri? || pc.PostUri?
      modifies `net, `script
      ensures r.Ok? ==>
                old(Rest(pc, edit)) == Rest(if pc.GetUri? then Fetch(pc.attempt, pc.checkpoint, r.value)
                                            else AfterPostUri(pc.attempt, pc.edited, pc.nextUri, pc.overlaps, r.value),
                                            edit)
      ensures !r.Ok? ==> Ends(r, old(Rest(pc, edit)))
    {
      var fate := Next(pc, edit);
      if fate == None { return Died; }
      if fate.value.Refuse? || !fate.value.replied { return Thrown(PortFailed); }
      return Ok(CurrentUri(net));
    }

    // What a fetched document leads to.
    ghost function Fetched(pc: Pc, doc: Json, edit: Edit): Pc
      requires pc.Fetch? || (pc.FetchClobbered? && pc.rest != [])
    {
      if pc.Fetch? then AfterFetch(pc.attempt, pc.checkpoint, pc.uri, doc, edit)
      else match MergeMissing(pc.merged, doc)
        case Failure(e) => Threw(MergeFailed(e))
        case Success(more) => AfterMerge(pc.attempt, pc.edited, more, pc.rest[1..])
    }

    method FetchText(uri: Uri, ghost edit: Edit, ghost pc: Pc) returns (r: Reply<Json, Fault>)
      requires (pc.Fetch? && pc.uri == uri) || (pc.FetchClobbered? && pc.rest != [] && pc.rest[0] == uri)
      modifies `net, `script
      ensures r.Ok? ==> old(Rest(pc, edit)) == Rest(Fetched(pc, r.value, edit), edit)
      ensures !r.Ok? ==> Ends(r, old(Rest(pc, edit)))
    {
      var fate := Next(pc, edit);
      if fate == None { return Died; }
      if fate.value.Refuse? { return Thrown(PortFailed); }
      if uri !in net.store { return Thrown(Unfetchable); }
      if !fate.value.replied { return Thrown(PortFailed); }
      return Ok(net.store[uri]);
    }

    method PinText(doc: Json, ghost edit: Edit, ghost pc: Pc) returns (r: Reply<Uri, Fault>)
      requires (pc.Pin? && pc.edited == doc) || (pc.MergePin? && pc.merged == doc)
      modifies `net, `script
      ensures r.Ok? ==>
                old(Rest(pc, edit)) == Rest(if pc.Pin? then Set(pc.attempt, pc.checkpoint, doc, r.value)
                                            else MergeSet(pc.attempt, r.value), edit)
      ensures !r.Ok? ==> Ends(r, old(Rest(pc, edit)))
    {
      var fate := Next(pc, edit);
      if fate == None { return Died; }
      if fate.value.Refuse? || !CanPin(net, fate.value.uri, doc) { return Thrown(PortFailed); }
      net := Mutation.Pinned(net, fate.value.uri, doc);
      if !fate.value.replied { return Thrown(PortFailed); }
      return Ok(fate.value.uri);
    }

    // The block the write was mined in.
    method SetServiceUri(uri: Uri, ghost edit: Edit, ghost pc: Pc) returns (r: Reply<nat, Fault>)
      requires (pc.Set? && pc.nextUri == uri) || (pc.MergeSet? && pc.mergedUri == uri)
      modifies `net, `script
      ensures r.Ok? ==>
                old(Rest(pc, edit)) == Rest(if pc.Set? then Scan(pc.attempt, pc.checkpoint, pc.edited, uri, r.value)
                                            else Retry(pc.attempt), edit)
      ensures !r.Ok? ==> Ends(r, old(Rest(pc, edit)))
    {
      var fate := Next(pc, edit);
      if fate == None { return Died; }
      if fate.value.Refuse? || fate.value.block <= net.head { return Thrown(PortFailed); }
      net := Mutation.Written(net, uri, fate.value);
      if !fate.value.replied { return Thrown(PortFailed); }
      return Ok(fate.value.block);
    }

    method GetServiceUriUpdates(
        lo: nat, writeBlock: nat, ghost edit: Edit, ghost pc: Pc)
      returns (r: Reply<seq<Uri>, Fault>)
      requires pc.Scan? && lo == pc.checkpoint + 1 && writeBlock == pc.writeBlock
      modifies `net, `script
      ensures r.Ok? ==> old(Rest(pc, edit)) == Rest(PostUri(pc.attempt, pc.edited, pc.nextUri, r.value), edit)
      ensures !r.Ok? ==> Ends(r, old(Rest(pc, edit)))
    {
      var fate := Next(pc, edit);
      if fate == None { return Died; }
      if fate.value.Refuse? || !fate.value.replied { return Thrown(PortFailed); }
      return Ok(if writeBlock - 1 < lo then [] else Updates(net.log, lo, writeBlock - 1));
    }
  }

  // ---------------------------------------------------------------- one run, as a function

  // What a run of one loop can see and change.
  datatype World = World(
    row: R.LoopRecord, receipts: Receipts, net: Net, script: seq<Mutation.Event>, signals: seq<Signal>)

  datatype Ending = Deployed | Gave | Interrupted

  // A run from some stage on: a turn of the pipeline for each signal, and a whole mutation
  // where the pipeline waits for one. Without signals the process is gone.
  function Drive(setup: Setup, stage: Stage, w: World): (Ending, World)
    decreases |w.signals|, 0
  {
    if w.signals == [] then (Interrupted, w)
    else
      var turn := TakeTurn(setup, stage, w.row, w.receipts, map[], 0, w.signals[0]);
      var w' := w.(row := turn.row, receipts := turn.receipts, signals := w.signals[1..]);
      if turn.next.None? then (if stage.RecordActive? then Deployed else Gave, w')
      else if turn.task.None? then Drive(setup, turn.next.value, w')
      else Resumed(setup, Run(Checkpoint(0), w'.net, EditOf(turn.task.value, setup.template), w'.script), w')
  }

  // The run goes on with what its mutation came to.
  function Resumed(setup: Setup, end: (Pc, Net, seq<Mutation.Event>), w: World): (Ending, World)
    decreases |w.signals|, 1
  {
    var w' := w.(net := end.1, script := end.2);
    match end.0
    case Returned(uri) => Drive(setup, RecordService(uri), w')
    case Threw(_) => Drive(setup, RecordFailure("mutation"), w')
    case _ => (Interrupted, w')
  }

  // One signal's worth of a run.
  lemma DriveTurns(setup: Setup, stage: Stage, w: World)
    requires w.signals != []
    ensures var turn := TakeTurn(setup, stage, w.row, w.receipts, map[], 0, w.signals[0]);
            var w' := w.(row := turn.row, receipts := turn.receipts, signals := w.signals[1..]);
            Drive(setup, stage, w) ==
              if turn.next.None? then (if stage.RecordActive? then Deployed else Gave, w')
              else if turn.task.None? then Drive(setup, turn.next.value, w')
              else Resumed(setup, Run(Checkpoint(0), w'.net, EditOf(turn.task.value, setup.template), w'.script), w')
  {
  }

  class LoopDeployer {
    const ports: Ports
    const registry: R.LoopRegistry
    const setup: Setup

    constructor (ports: Ports, registry: R.LoopRegistry, setup: Setup)
      ensures this.ports == ports && this.registry == registry && this.setup == setup
    {
      this.ports, this.registry, this.setup := ports, registry, setup;
    }

    // ---------------------------------------------------------------- the shared document

    /** The retry loop: returns or throws exactly as the machine does, and leaves the same world. */
    method MutateService(edit: Edit) returns (r: Reply<Uri, Fault>)
      modifies ports`net, ports`script
      ensures var end := old(ports.Rest(Checkpoint(0), edit));
              r == ReplyOf(end.0) && ports.net == end.1 && ports.script == end.2
    {
      var attempt: nat := 0;
      while attempt < MAX_ATTEMPTS
        invariant attempt <= MAX_ATTEMPTS
        invariant ports.Rest(AttemptPc(attempt), edit) == old(ports.Rest(Checkpoint(0), edit))
      {
        var done :- Attempt(edit, attempt);
        if done.Some? {
          return Ok(done.value);
        }
        attempt := attempt + 1;
      }
      return Thrown(Exhausted);
    }

    // One attempt: the URI to return, or none to go round again.
    method Attempt(edit: Edit, attempt: nat) returns (r: Reply<Option<Uri>, Fault>)
      modifies ports`net, ports`script
      ensures r.Ok? && r.value.Some? ==>
                old(ports.Rest(Checkpoint(attempt), edit)) == ports.Rest(Returned(r.value.value), edit)
      ensures r.Ok? && r.value.None? ==> old(ports.Rest(Checkpoint(attempt), edit)) == ports.Rest(Retry(attempt), edit)
      ensures !r.Ok? ==> ports.Ends(r, old(ports.Rest(Checkpoint(attempt), edit)))
    {
      var checkpoint :- ports.GetCurrentBlockNumber(edit, attempt);
      var currentUri :- ports.GetServiceUri(edit, GetUri(attempt, checkpoint));
      var doc :- ports.FetchText(currentUri, edit, Fetch(attempt, checkpoint, currentUri));
      var outcome := edit(doc);
      if outcome.Failure? {
        return Thrown(EditFailed(outcome.error));
      }
      if outcome.value == doc {
        return Ok(Some(currentUri));
      }
      r := Rewrite(edit, attempt, checkpoint, outcome.value);
    }

    // Pin, set, scan, and rescue whatever the write replaced. None asks for another attempt.
    method Rewrite(edit: Edit, attempt: nat, checkpoint: nat, edited: Json) returns (r: Reply<Option<Uri>, Fault>)
      modifies ports`net, ports`script
      ensures r.Ok? && r.value.Some? ==>
                old(ports.Rest(Pin(attempt, checkpoint, edited), edit)) == ports.Rest(Returned(r.value.value), edit)
      ensures r.Ok? && r.value.None? ==>
                old(ports.Rest(Pin(attempt, checkpoint, edited), edit)) == ports.Rest(Retry(attempt), edit)
      ensures !r.Ok? ==> ports.Ends(r, old(ports.Rest(Pin(attempt, checkpoint, edited), edit)))
    {
      var nextUri :- ports.PinText(edited, edit, Pin(attempt, checkpoint, edited));
      var writeBlock :- ports.SetServiceUri(nextUri, edit, Set(attempt, checkpoint, edited, nextUri));
      var overlaps :- ports.GetServiceUriUpdates(checkpoint + 1, writeBlock, edit,
                                                 Scan(attempt, checkpoint, edited, nextUri, writeBlock));
      var postUri :- ports.GetServiceUri(edit, PostUri(attempt, edited, nextUri, overlaps));
      if overlaps == [] && postUri == nextUri {
        return Ok(Some(nextUri));
      }
      if postUri == nextUri {
        var _ :- Rescue(edit, attempt, edited, overlaps);
      }
      return Ok(None);
    }

    method Rescue(edit: Edit, attempt: nat, edited: Json, overlaps: seq<Uri>) returns (r: Reply<(), Fault>)
      requires overlaps != []
      modifies ports`net, ports`script
      ensures r.Ok? ==>
                old(ports.Rest(FetchClobbered(attempt, edited, edited, overlaps), edit))
                == ports.Rest(Retry(attempt), edit)
      ensures !r.Ok? ==> ports.Ends(r, old(ports.Rest(FetchClobbered(attempt, edited, edited, overlaps), edit)))
    {
      var mergedDoc := edited;
      var i := 0;
      assert overlaps[0..] == overlaps;
      while i < |overlaps|
        invariant 0 <= i <= |overlaps|
        invariant ports.Rest(AfterMerge(attempt, edited, mergedDoc, overlaps[i..]), edit)
                  == old(ports.Rest(FetchClobbered(attempt, edited, edited, overlaps), edit))
      {
        var clobbered :- ports.FetchText(overlaps[i], edit, FetchClobbered(attempt, edited, mergedDoc, overlaps[i..]));
        assert overlaps[i..][1..] == overlaps[i + 1..];
        var merged := MergeMissingWorkflows(mergedDoc, clobbered);
        if merged.Failure? {
          return Thrown(MergeFailed(merged.error));
        }
        mergedDoc := merged.value;
        i := i + 1;
      }
      if mergedDoc != edited {
        var mergedUri :- ports.PinText(mergedDoc, edit, MergePin(attempt, mergedDoc));
        var _ :- ports.SetServiceUri(mergedUri, edit, MergeSet(attempt, mergedUri));
      }
      return Ok(());
    }

    // ---------------------------------------------------------------- the pipeline

    ghost predicate Has(id: string)
      reads registry
    {
      registry.Valid() && id in registry.rows
    }

    ghost function WorldOf(id: string): World
      requires id in registry.rows
      reads registry, ports
    {
      World(registry.rows[id], ports.receipts, ports.net, ports.script, ports.signals)
    }

    ghost function RunFrom(id: string, stage: Stage): (Ending, World)
      requires id in registry.rows
      reads registry, ports
    {
      Drive(setup, stage, WorldOf(id))
    }

    // No row but this one has changed.
    ghost predicate OnlyRow(id: string, was: R.Rows)
      reads registry
    {
      && Has(id) && registry.rows.Keys == was.Keys
      && (forall other | other in was && other != id :: registry.rows[other] == was[other])
    }

    // A run that threw still has its failure to record; one that died has nothing left.
    ghost predicate Raises<T>(id: string, was: (Ending, World), r: Reply<T, string>)
      requires id in registry.rows
      reads registry, ports
    {
      && (r.Thrown? ==> was == RunFrom(id, RecordFailure(r.fault)))
      && (r.Died? ==> was == (Interrupted, WorldOf(id)))
    }

    method NextSignal() returns (signal: Option<Signal>)
      modifies ports`signals
      ensures old(ports.signals) == [] ==> signal == None && ports.signals == []
      ensures old(ports.signals) != [] ==>
                signal == Some(old(ports.signals)[0]) && ports.signals == old(ports.signals)[1..]
    {
      if ports.signals == [] {
        return None;
      }
      signal := Some(ports.signals[0]);
      ports.signals := ports.signals[1..];
    }

    method Validate(id: string) returns (r: Reply<(), string>)
      requires Has(id)
      modifies ports`signals
      ensures Raises(id, old(RunFrom(id, Load)), r)
      ensures r.Ok? ==> old(RunFrom(id, Load)) == RunFrom(id, Loaded(setup, registry.rows[id]))
    {
      var signal := NextSignal();
      if signal == None { return Died; }
      if signal.value.Refused? { return Thrown(signal.value.why); }
      return Ok(());
    }

    method SubmitDeployHandler(id: string) returns (r: Reply<string, string>)
      requires Has(id)
      modifies ports`signals, ports`receipts
      ensures Raises(id, old(RunFrom(id, Submit)), r)
      ensures r.Ok? ==> old(RunFrom(id, Submit)) == RunFrom(id, RecordHash(r.value))
    {
      var signal := NextSignal();
      if signal == None { return Died; }
      if !signal.value.Sent? || signal.value.txHash in ports.receipts { return Thrown("submit"); }
      ports.receipts := ports.receipts[signal.value.txHash := signal.value.vault];
      if !signal.value.replied { return Thrown("submit"); }
      return Ok(signal.value.txHash);
    }

    method FinalizeDeployHandler(id: string, txHash: string) returns (r: Reply<string, string>)
      requires Has(id)
      modifies ports`signals
      ensures Raises(id, old(RunFrom(id, Finalize(txHash))), r)
      ensures r.Ok? ==> old(RunFrom(id, Finalize(txHash))) == RunFrom(id, RecordHandler(r.value))
    {
      var signal := NextSignal();
      if signal == None { return Died; }
      if !signal.value.Proceed? || txHash !in ports.receipts { return Thrown("finalize"); }
      return Ok(ports.receipts[txHash]);
    }

    // `registry.update` between two steps.
    method Record(id: string, ghost stage: Stage, patch: R.Patch) returns (r: Reply<R.LoopRecord, string>)
      requires Has(id) && IsRecord(stage) && patch == PatchOf(stage)
      modifies ports`signals, registry
      ensures OnlyRow(id, old(registry.rows))
      ensures Raises(id, old(RunFrom(id, stage)), r)
      ensures r.Ok? ==>
                && r.value == registry.rows[id]
                && (exists now :: r.value == R.Patched(old(registry.rows)[id], patch, now))
                && old(RunFrom(id, stage)) == (if Following(stage).Some? then RunFrom(id, Following(stage).value)
                                               else (Deployed, WorldOf(id)))
    {
      var signal := NextSignal();
      if signal == None { return Died; }
      if !signal.value.Proceed? { return Thrown("registry"); }
      var updated := registry.Update(id, patch, signal.value.now);
      return Ok(updated.value);
    }

    // The mutation that adds the loop's workflow, already-present workflows left alone.
    method AddToService(id: string, record: R.LoopRecord) returns (r: Reply<Uri, string>)
      requires Has(id) && registry.rows[id] == record && record.handlerAddress.Some?
      modifies ports`signals, ports`net, ports`script
      ensures Raises(id, old(RunFrom(id, AddWorkflow)), r)
      ensures r.Ok? ==> old(RunFrom(id, AddWorkflow)) == RunFrom(id, RecordService(r.value))
    {
      var signal := NextSignal();
      if signal == None { return Died; }
      if !signal.value.Proceed? { return Thrown("enqueue"); }
      var spec := SpecFor(setup, record, record.handlerAddress.value, signal.value.now);
      var edit := EditOf(Add(spec), setup.template);
      ghost var world, end := WorldOf(id), ports.Rest(Checkpoint(0), edit);
      DriveTurns(setup, AddWorkflow, old(WorldOf(id)));
      assert old(RunFrom(id, AddWorkflow)) == Resumed(setup, end, world);
      var reply := MutateService(edit);
      assert WorldOf(id) == world.(net := end.1, script := end.2);
      match reply {
        case Ok(uri) => return Ok(uri);
        case Thrown(_) => return Thrown("mutation");
        case Died => return Died;
      }
    }

    // The vault: a transaction already on file is waited for, never sent again.
    method DeployHandler(id: string, before: R.LoopRecord) returns (r: Reply<R.LoopRecord, string>)
      requires Has(id) && registry.rows[id] == before && before.handlerAddress == None
      modifies ports`signals, ports`receipts, registry
      ensures OnlyRow(id, old(registry.rows))
      ensures Raises(id, old(RunFrom(id, Loaded(setup, before))), r)
      ensures r.Ok? ==>
                && r.value == registry.rows[id] && r.value.handlerAddress.Some?
                && old(RunFrom(id, Loaded(setup, before))) == RunFrom(id, WithHandler(r.value))
    {
      if before.config.candidateId !in setup.catalog {
        return Thrown("market catalog missing entry");
      }
      var txHash := before.deployTxHash;
      if txHash == None {
        var hash :- SubmitDeployHandler(id);
        txHash := Some(hash);
        var _ :- Record(id, RecordHash(hash), R.NO_CHANGE.(deployTxHash := R.To(Some(hash))));
      }
      r := AwaitHandler(id, txHash.value);
    }

    method AwaitHandler(id: string, txHash: string) returns (r: Reply<R.LoopRecord, string>)
      requires Has(id)
      modifies ports`signals, registry
      ensures OnlyRow(id, old(registry.rows))
      ensures Raises(id, old(RunFrom(id, Finalize(txHash))), r)
      ensures r.Ok? ==>
                && r.value == registry.rows[id] && r.value.handlerAddress.Some? && WithHandler(r.value) == AddWorkflow
                && old(RunFrom(id, Finalize(txHash))) == RunFrom(id, AddWorkflow)
    {
      var handler :- FinalizeDeployHandler(id, txHash);
      r := Record(id, RecordHandler(handler),
                  R.NO_CHANGE.(handlerAddress := R.To(Some(handler)), deployTxHash := R.To(None),
                               step := R.To(R.HandlerDeployed), status := R.To(R.Deploying), error := R.To(None)));
    }

    // The workflow, unless it is recorded as being there; then the loop is active.
    method PublishWorkflow(id: string, before: R.LoopRecord) returns (r: Reply<R.LoopRecord, string>)
      requires Has(id) && registry.rows[id] == before && before.handlerAddress.Some?
      modifies ports`signals, ports`net, ports`script, registry
      ensures OnlyRow(id, old(registry.rows))
      ensures Raises(id, old(RunFrom(id, WithHandler(before))), r)
      ensures r.Ok? ==> r.value == registry.rows[id] && old(RunFrom(id, WithHandler(before))) == (Deployed, WorldOf(id))
    {
      if before.step != R.ServiceUpdated && before.step != R.Active {
        var cid :- AddToService(id, before);
        var _ :- Record(id, RecordService(cid), R.NO_CHANGE.(serviceCid := R.To(cid), step := R.To(R.ServiceUpdated)));
      }
      r := Record(id, RecordActive,
                  R.NO_CHANGE.(step := R.To(R.Active), status := R.To(R.Activated), error := R.To(None)));
    }

    // The body of the `try`.
    method Deploy(id: string) returns (r: Reply<R.LoopRecord, string>)
      requires Has(id)
      modifies ports, registry
      ensures OnlyRow(id, old(registry.rows))
      ensures Raises(id, old(RunFrom(id, Load)), r)
      ensures r.Ok? ==> old(RunFrom(id, Load)) == (Deployed, WorldOf(id)) && r.value == registry.rows[id]
    {
      var record := registry.rows[id];
      var _ :- Validate(id);
      if record.handlerAddress == None {
        record :- DeployHandler(id, record);
      }
      r := PublishWorkflow(id, record);
    }

    // The `catch`: record the failure and throw again.
    method Fail(id: string, why: string) returns (died: bool)
      requires Has(id)
      modifies ports`signals, registry
      ensures OnlyRow(id, old(registry.rows))
      ensures old(RunFrom(id, RecordFailure(why))) == (if died then Interrupted else Gave, WorldOf(id))
    {
      var signal := NextSignal();
      if signal == None { return true; }
      if signal.value.Proceed? {
        var _ := registry.Update(id, R.NO_CHANGE.(status := R.To(R.Failing), error := R.To(Some(why))),
                                 signal.value.now);
      }
      return false;
    }

    /** A whole run: it ends and leaves the world as the pipeline machine says, touching no other row. */
    method RunPipeline(id: string) returns (r: Reply<R.LoopRecord, string>)
      requires Has(id)
      modifies ports, registry
      ensures OnlyRow(id, old(registry.rows))
      ensures var (ending, world) := old(RunFrom(id, Load));
              && WorldOf(id) == world
              && (r.Ok? <==> ending == Deployed) && (r.Thrown? <==> ending == Gave)
              && (r.Died? <==> ending == Interrupted)
              && (r.Ok? ==> r.value == registry.rows[id])
    {
      r := Deploy(id);
      if r.Thrown? {
        var died := Fail(id, r.fault);
        if died {
          return Died;
        }
      }
    }

    /** Resume from the recorded step; finished loops are returned as they are. */
    method ResumeLoop(id: string) returns (r: Reply<R.LoopRecord, string>)
      requires registry.Valid()
      modifies ports, registry
      ensures id !in old(registry.rows) ==> r.Thrown? && registry.rows == old(registry.rows)
      ensures id in old(registry.rows) ==>
                var row := old(registry.rows)[id];
                if row.status == R.Activated || row.status == R.Inactive
                then r == Ok(row) && registry.rows == old(registry.rows)
                else
                  && OnlyRow(id, old(registry.rows))
                  && WorldOf(id) == old(RunFrom(id, Load)).1
                  && (r.Ok? <==> old(RunFrom(id, Load)).0 == Deployed)
    {
      var record := registry.Get(id);
      if record == None {
        return Thrown("loop not found");
      }
      if record.value.status == R.Activated || record.value.status == R.Inactive {
        return Ok(record.value);
      }
      r := RunPipeline(id);
    }

    /** Insert the row and run; a taken id or workflow id inserts nothing and runs nothing. */
    method CreateLoop(input: R.NewLoop, now: int) returns (r: Reply<R.LoopRecord, string>)
      requires registry.Valid()
      modifies ports, registry
      ensures registry.Valid()
      ensures R.Conflicts(old(registry.rows), input) ==> r.Thrown? && registry.rows == old(registry.rows)
      ensures !R.Conflicts(old(registry.rows), input) ==>
                var start := World(R.Inserted(input, now), old(ports.receipts), old(ports.net), old(ports.script),
                                   old(ports.signals));
                var (ending, world) := Drive(setup, Load, start);
                && OnlyRow(input.id, old(registry.rows)[input.id := R.Inserted(input, now)])
                && WorldOf(input.id) == world && (r.Ok? <==> ending == Deployed)
    {
      var record := registry.Create(input, now);
      if record.Failure? {
        return Thrown("registry");
      }
      r := RunPipeline(input.id);
    }
  }
}
