/**
 * The loop registry of `packages/loop-deploy/src/registry.ts`: one row a loop, inserted
 * once and patched in place. The deployer resumes from what is recorded here.
 */
module Registry {
  import opened Wrappers
  import opened ServiceDoc

  datatype LoopStep = Validated | HandlerDeployed | ServiceUpdated | Active

  datatype LoopStatus = Deploying | Activated | Failing | Inactive

  datatype LoopConfig = LoopConfig(
    candidateId: string, strategyParams: map<string, string>, market: MarketFields, schedule: string)

  datatype LoopRecord = LoopRecord(
    id: string, name: string, workflowId: string, strategist: string, config: LoopConfig,
    handlerAddress: Option<string>, deployTxHash: Option<string>, serviceCid: Option<string>,
    status: LoopStatus, step: LoopStep, error: Option<string>, createdAt: int, updatedAt: int)

  datatype NewLoop = NewLoop(id: string, name: string, workflowId: string, strategist: string, config: LoopConfig)

  type Rows = map<string, LoopRecord>

  // Every row sits under its own id, and no two rows share a workflow id.
  ghost predicate WellKept(rows: Rows) {
    && (forall id | id in rows :: rows[id].id == id)
    && (forall a, b | a in rows && b in rows && rows[a].workflowId == rows[b].workflowId :: a == b)
  }

  function Inserted(input: NewLoop, now: int): LoopRecord {
    LoopRecord(input.id, input.name, input.workflowId, input.strategist, input.config,
               None, None, None, Deploying, Validated, None, now, now)
  }

  predicate Conflicts(rows: Rows, input: NewLoop) {
    input.id in rows || exists id :: id in rows && rows[id].workflowId == input.workflowId
  }

  // ---------------------------------------------------------------- patches

  // A property that is absent from a patch is left as it is; null is a value.
  datatype Change<T> = Keep | To(value: T)

  datatype Patch = Patch(
    handlerAddress: Change<Option<string>>, deployTxHash: Change<Option<string>>, serviceCid: Change<string>,
    status: Change<LoopStatus>, step: Change<LoopStep>, error: Change<Option<string>>)

  const NO_CHANGE := Patch(Keep, Keep, Keep, Keep, Keep, Keep)

  function Changed<T>(change: Change<T>, was: T): T {
    if change.To? then change.value else was
  }

  /** What a patch means: the changed fields, the clock, and nothing else. */
  function Patched(row: LoopRecord, patch: Patch, now: int): LoopRecord {
    row.(handlerAddress := Changed(patch.handlerAddress, row.handlerAddress),
         deployTxHash := Changed(patch.deployTxHash, row.deployTxHash),
         serviceCid := if patch.serviceCid.To? then Some(patch.serviceCid.value) else row.serviceCid,
         status := Changed(patch.status, row.status),
         step := Changed(patch.step, row.step),
         error := Changed(patch.error, row.error),
         updatedAt := now)
  }

  // A column of the `UPDATE` statement with its argument.
  datatype Column =
    | UpdatedAt(at: int)
    | HandlerAddress(handler: Option<string>)
    | DeployTxHash(hash: Option<string>)
    | ServiceCid(cid: string)
    | Status(status: LoopStatus)
    | Step(step: LoopStep)
    | Error(error: Option<string>)

  function Written(row: LoopRecord, column: Column): LoopRecord {
    match column
    case UpdatedAt(at) => row.(updatedAt := at)
    case HandlerAddress(handler) => row.(handlerAddress := handler)
    case DeployTxHash(hash) => row.(deployTxHash := hash)
    case ServiceCid(cid) => row.(serviceCid := Some(cid))
    case Status(status) => row.(status := status)
    case Step(step) => row.(step := step)
    case Error(error) => row.(error := error)
  }

  // Running the statement on a row.
  function Execute(row: LoopRecord, sets: seq<Column>): LoopRecord {
    if sets == [] then row else Written(Execute(row, sets[..|sets| - 1]), sets[|sets| - 1])
  }

  lemma ExecuteOneMore(row: LoopRecord, sets: seq<Column>, column: Column)
    ensures Execute(row, sets + [column]) == Written(Execute(row, sets), column)
  {
    assert (sets + [column])[..|sets|] == sets;
  }

  datatype RegistryError = Conflict | NotFound

  class LoopRegistry {
    var rows: Rows

    ghost predicate Valid() reads this {
      WellKept(rows)
    }

    constructor ()
      ensures Valid() && rows == map[]
    {
      rows := map[];
    }

    method Create(input: NewLoop, now: int) returns (r: Result<LoopRecord, RegistryError>)
      requires Valid()
      modifies this
      ensures Valid()
      ensures r == if Conflicts(old(rows), input) then Failure(Conflict) else Success(Inserted(input, now))
      ensures rows == if r.Success? then old(rows)[input.id := r.value] else old(rows)
    {
      if Conflicts(rows, input) {
        return Failure(Conflict);
      }
      rows := rows[input.id := Inserted(input, now)];
      return Success(rows[input.id]);
    }

    method Get(id: string) returns (r: Option<LoopRecord>)
      ensures r == if id in rows then Some(rows[id]) else None
    {
      return if id in rows then Some(rows[id]) else None;
    }

    method Update(id: string, patch: Patch, now: int) returns (r: Result<LoopRecord, RegistryError>)
      requires Valid()
      modifies this
      ensures Valid()
      ensures r == if id in old(rows) then Success(Patched(old(rows)[id], patch, now)) else Failure(NotFound)
      ensures rows == if r.Success? then old(rows)[id := r.value] else old(rows)
    {
      if id !in rows {
        return Failure(NotFound);
      }
      var sets := ColumnsOf(rows[id], patch, now);
      rows := rows[id := Execute(rows[id], sets)];
      return Success(rows[id]);
    }
  }

  // The statement `update` assembles from the properties present in the patch.
  method ColumnsOf(row: LoopRecord, patch: Patch, now: int) returns (sets: seq<Column>)
    ensures Execute(row, sets) == Patched(row, patch, now)
  {
    sets := [UpdatedAt(now)];
    assert Execute(row, [UpdatedAt(now)]) == Written(row, UpdatedAt(now)) by {
      ExecuteOneMore(row, [], UpdatedAt(now));
    }
    if patch.handlerAddress.To? { sets := Push(row, sets, HandlerAddress(patch.handlerAddress.value)); }
    if patch.deployTxHash.To? { sets := Push(row, sets, DeployTxHash(patch.deployTxHash.value)); }
    if patch.serviceCid.To? { sets := Push(row, sets, ServiceCid(patch.serviceCid.value)); }
    if patch.status.To? { sets := Push(row, sets, Status(patch.status.value)); }
    if patch.step.To? { sets := Push(row, sets, Step(patch.step.value)); }
    if patch.error.To? { sets := Push(row, sets, Error(patch.error.value)); }
  }

  method Push(row: LoopRecord, sets: seq<Column>, column: Column) returns (more: seq<Column>)
    ensures Execute(row, more) == Written(Execute(row, sets), column)
  {
    ExecuteOneMore(row, sets, column);
    return sets + [column];
  }
}
