/**
 * The shared service document and its edits, as in `packages/loop-deploy/src/builder.ts`,
 * with the component config of `config.ts`. A parsed document is a tree; the source edits
 * a clone in place, which leaves the same tree as the updates here.
 */
module ServiceDoc {
  import opened Wrappers

  datatype Json =
    | Null
    | Bool(b: bool)
    | Num(n: int)
    | Str(s: string)
    | Arr(items: seq<Json>)
    | Obj(fields: map<string, Json>)

  datatype DocError =
    | NotAnObject
    | NoWorkflows
    | BadWorkflowId
    | AlreadyExists
    | TemplateRequired
    | TemplateNotFound
    | NoCronTrigger
    | NoComponent
    | NoAggregator
    | ProtectedWorkflow
    | DoesNotExist

  type Workflows = map<string, Json>

  datatype CronWindow = CronWindow(schedule: string, startTimeNanos: int, endTimeNanos: int)

  datatype WorkflowSpec = WorkflowSpec(
    workflowId: string, componentConfig: map<string, string>, chainKey: string, handler: string, cron: CronWindow)

  // ---------------------------------------------------------------- access

  predicate HasRecord(j: Json, key: string) {
    j.Obj? && key in j.fields && j.fields[key].Obj?
  }

  function Field(j: Json, key: string): Json
    requires HasRecord(j, key)
  {
    j.fields[key]
  }

  function Put(j: Json, key: string, value: Json): Json
    requires j.Obj?
  {
    Obj(j.fields[key := value])
  }

  function WorkflowsOf(doc: Json): Result<Workflows, DocError> {
    if !doc.Obj? then Failure(NotAnObject)
    else if !HasRecord(doc, "workflows") then Failure(NoWorkflows)
    else Success(Field(doc, "workflows").fields)
  }

  // A document with a workflows map, and the document with that map replaced.
  predicate Readable(doc: Json) {
    HasRecord(doc, "workflows")
  }

  function Workflow(doc: Json): Workflows
    requires Readable(doc)
  {
    Field(doc, "workflows").fields
  }

  function WithWorkflows(doc: Json, workflows: Workflows): (r: Json)
    requires Readable(doc)
    ensures Readable(r) && Workflow(r) == workflows
  {
    Put(doc, "workflows", Obj(workflows))
  }

  lemma WithWorkflowsTwice(doc: Json, a: Workflows, b: Workflows)
    requires Readable(doc)
    ensures WithWorkflows(WithWorkflows(doc, a), b) == WithWorkflows(doc, b)
    ensures WithWorkflows(doc, Workflow(doc)) == doc
  {
    assert doc.fields["workflows" := Obj(a)]["workflows" := Obj(b)] == doc.fields["workflows" := Obj(b)];
    assert doc.fields["workflows" := Obj(Workflow(doc))] == doc.fields;
  }

  // ---------------------------------------------------------------- adding a workflow

  predicate IdChar(c: char) {
    'a' <= c <= 'z' || '0' <= c <= '9' || c == '_' || c == '-'
  }

  predicate WellFormedId(id: string) {
    3 <= |id| <= 36 && forall i | 0 <= i < |id| :: IdChar(id[i])
  }

  function TemplateId(workflows: Workflows, template: Option<string>): Result<string, DocError> {
    match template
    case Some(id) => Success(id)
    case None =>
      if |workflows| != 1 then Failure(TemplateRequired)
      else
        SoleKey(workflows);
        var id :| id in workflows;
        Success(id)
  }

  lemma SoleKey(workflows: Workflows)
    requires |workflows| == 1
    ensures exists id :: id in workflows
    ensures forall a, b | a in workflows && b in workflows :: a == b
  {
    assert |workflows.Keys| == 1;
    var id :| id in workflows.Keys;
    assert |workflows.Keys - {id}| == 0;
    forall a | a in workflows ensures a == id {
      assert a !in workflows.Keys - {id};
    }
  }

  function StringFields(config: map<string, string>): map<string, Json> {
    map k | k in config :: Str(config[k])
  }

  function CronOf(trigger: Json, window: CronWindow): Json
    requires HasRecord(trigger, "cron")
  {
    var cron := Field(trigger, "cron");
    Put(trigger, "cron", Put(Put(Put(cron, "schedule", Str(window.schedule)),
                                 "start_time", Num(window.startTimeNanos)),
                             "end_time", Num(window.endTimeNanos)))
  }

  function ComponentOf(component: Json, config: map<string, string>): Json
    requires component.Obj?
  {
    var base := if HasRecord(component, "config") then Field(component, "config").fields else map[];
    Put(component, "config", Obj(base + StringFields(config)))
  }

  function SubmitOf(submit: Json, chainKey: string, handler: string): Json
    requires HasRecord(submit, "aggregator") && HasRecord(Field(submit, "aggregator"), "component")
  {
    var aggregator := Field(submit, "aggregator");
    var target := Obj(map[chainKey := Str(handler)]);
    Put(submit, "aggregator", Put(aggregator, "component", Put(Field(aggregator, "component"), "config", target)))
  }

  /** The template cloned, with the cron window, the component config and the submit target of the spec. */
  function CloneWorkflow(template: Json, spec: WorkflowSpec): Result<Json, DocError>
    requires template.Obj?
  {
    if !HasRecord(template, "trigger") || !HasRecord(Field(template, "trigger"), "cron") then Failure(NoCronTrigger)
    else
      var timed := Put(template, "trigger", CronOf(Field(template, "trigger"), spec.cron));
      if !HasRecord(timed, "component") then Failure(NoComponent)
      else
        var configured := Put(timed, "component", ComponentOf(Field(timed, "component"), spec.componentConfig));
        if !HasRecord(configured, "submit") || !HasRecord(Field(configured, "submit"), "aggregator")
           || !HasRecord(Field(Field(configured, "submit"), "aggregator"), "component")
        then Failure(NoAggregator)
        else Success(Put(configured, "submit", SubmitOf(Field(configured, "submit"), spec.chainKey, spec.handler)))
  }

  function AddLoopWorkflow(doc: Json, spec: WorkflowSpec, template: Option<string>): Result<Json, DocError> {
    if !WellFormedId(spec.workflowId) then Failure(BadWorkflowId)
    else
      var workflows :- WorkflowsOf(doc);
      if spec.workflowId in workflows then Failure(AlreadyExists)
      else
        var id :- TemplateId(workflows, template);
        if id !in workflows || !workflows[id].Obj? then Failure(TemplateNotFound)
        else
          var workflow :- CloneWorkflow(workflows[id], spec);
          Success(WithWorkflows(doc, workflows[spec.workflowId := workflow]))
  }

  function RemoveLoopWorkflow(doc: Json, id: string, protectedIds: seq<string>): Result<Json, DocError> {
    if id in protectedIds then Failure(ProtectedWorkflow)
    else
      var workflows :- WorkflowsOf(doc);
      if id !in workflows then Failure(DoesNotExist)
      else Success(WithWorkflows(doc, workflows - {id}))
  }

  // The workflow submits to this handler, and its component reads this vault.
  predicate PointsAt(workflow: Json, chainKey: string, handler: string) {
    && HasRecord(workflow, "component") && HasRecord(Field(workflow, "component"), "config")
    && (var config := Field(Field(workflow, "component"), "config").fields;
        "vault_address" in config && config["vault_address"] == Str(handler))
    && HasRecord(workflow, "submit") && HasRecord(Field(workflow, "submit"), "aggregator")
    && HasRecord(Field(Field(workflow, "submit"), "aggregator"), "component")
    && HasRecord(Field(Field(Field(workflow, "submit"), "aggregator"), "component"), "config")
    && Field(Field(Field(Field(workflow, "submit"), "aggregator"), "component"), "config")
       == Obj(map[chainKey := Str(handler)])
  }

  lemma CloneCarriesSpec(template: Json, spec: WorkflowSpec)
    requires template.Obj? && CloneWorkflow(template, spec).Success?
    ensures var w := CloneWorkflow(template, spec).value;
            && HasRecord(w, "component") && HasRecord(Field(w, "component"), "config")
            && (forall k | k in spec.componentConfig ::
                  && k in Field(Field(w, "component"), "config").fields
                  && Field(Field(w, "component"), "config").fields[k] == Str(spec.componentConfig[k]))
            && (spec.componentConfig.Keys >= {"vault_address"} && spec.componentConfig["vault_address"] == spec.handler
                ==> PointsAt(w, spec.chainKey, spec.handler))
  {
  }

  lemma CloneRunsOnSpecWindow(template: Json, spec: WorkflowSpec)
    requires template.Obj? && CloneWorkflow(template, spec).Success?
    ensures var w := CloneWorkflow(template, spec).value;
            && HasRecord(w, "trigger") && HasRecord(Field(w, "trigger"), "cron")
            && (var cron := Field(Field(w, "trigger"), "cron").fields;
                && cron.Keys >= {"schedule", "start_time", "end_time"}
                && cron["schedule"] == Str(spec.cron.schedule)
                && cron["start_time"] == Num(spec.cron.startTimeNanos)
                && cron["end_time"] == Num(spec.cron.endTimeNanos))
  {
  }

  // The object `after` is `before` with these fields set.
  ghost predicate SetsOnly(before: Json, after: Json, keys: set<string>) {
    && before.Obj? && after.Obj? && after.fields.Keys == before.fields.Keys + keys
    && forall k | k in before.fields && k !in keys :: after.fields[k] == before.fields[k]
  }

  ghost predicate HasPath(j: Json, a: string, b: string) {
    HasRecord(j, a) && HasRecord(Field(j, a), b)
  }

  ghost predicate HasAggregator(j: Json) {
    HasPath(j, "submit", "aggregator") && HasRecord(Field(Field(j, "submit"), "aggregator"), "component")
  }

  // A template an add can clone.
  ghost predicate Cloneable(template: Json) {
    template.Obj? && HasPath(template, "trigger", "cron") && HasRecord(template, "component") && HasAggregator(template)
  }

  ghost predicate TimesOnly(before: Json, after: Json)
    requires HasRecord(before, "cron")
  {
    && SetsOnly(before, after, {"cron"}) && HasRecord(after, "cron")
    && SetsOnly(Field(before, "cron"), Field(after, "cron"), {"schedule", "start_time", "end_time"})
  }

  lemma TriggerChangesNothingElse(trigger: Json, window: CronWindow)
    requires HasRecord(trigger, "cron")
    ensures TimesOnly(trigger, CronOf(trigger, window))
  {
  }

  ghost predicate ConfiguresOnly(before: Json, after: Json, keys: set<string>) {
    && SetsOnly(before, after, {"config"}) && HasRecord(after, "config")
    && if HasRecord(before, "config") then SetsOnly(Field(before, "config"), Field(after, "config"), keys)
       else Field(after, "config").fields.Keys == keys
  }

  lemma ComponentChangesNothingElse(component: Json, config: map<string, string>)
    requires component.Obj?
    ensures ConfiguresOnly(component, ComponentOf(component, config), config.Keys)
  {
  }

  ghost predicate SubmitsOnly(before: Json, after: Json)
    requires HasPath(before, "aggregator", "component") && HasPath(after, "aggregator", "component")
  {
    && SetsOnly(before, after, {"aggregator"})
    && SetsOnly(Field(before, "aggregator"), Field(after, "aggregator"), {"component"})
    && SetsOnly(Field(Field(before, "aggregator"), "component"), Field(Field(after, "aggregator"), "component"),
                {"config"})
  }

  lemma SubmitChangesNothingElse(submit: Json, chainKey: string, handler: string)
    requires HasPath(submit, "aggregator", "component")
    ensures HasPath(SubmitOf(submit, chainKey, handler), "aggregator", "component")
    ensures SubmitsOnly(submit, SubmitOf(submit, chainKey, handler))
  {
  }

  // Whatever else a template holds, at every level, its clone holds too.
  lemma CloneChangesNothingElse(template: Json, spec: WorkflowSpec)
    requires template.Obj? && CloneWorkflow(template, spec).Success?
    ensures Cloneable(template) && Cloneable(CloneWorkflow(template, spec).value)
    ensures var w := CloneWorkflow(template, spec).value;
            && SetsOnly(template, w, {"trigger", "component", "submit"})
            && TimesOnly(Field(template, "trigger"), Field(w, "trigger"))
            && ConfiguresOnly(Field(template, "component"), Field(w, "component"), spec.componentConfig.Keys)
            && SubmitsOnly(Field(template, "submit"), Field(w, "submit"))
  {
    CloneParts(template, spec);
    TriggerChangesNothingElse(Field(template, "trigger"), spec.cron);
    ComponentChangesNothingElse(Field(template, "component"), spec.componentConfig);
    SubmitChangesNothingElse(Field(template, "submit"), spec.chainKey, spec.handler);
  }

  lemma CloneParts(template: Json, spec: WorkflowSpec)
    requires template.Obj? && CloneWorkflow(template, spec).Success?
    ensures Cloneable(template)
    ensures CloneWorkflow(template, spec).value
         == Obj(template.fields["trigger" := CronOf(Field(template, "trigger"), spec.cron)]
                               ["component" := ComponentOf(Field(template, "component"), spec.componentConfig)]
                               ["submit" := SubmitOf(Field(template, "submit"), spec.chainKey, spec.handler)])
  {
  }

  // The workflow an add clones: the named template, or the only workflow there is.
  ghost predicate Sources(workflows: Workflows, template: Option<string>, source: string) {
    source in workflows && if template.Some? then source == template.value else workflows.Keys == {source}
  }

  // An add succeeds exactly on a well-formed fresh id and a template to clone.
  lemma AddSucceedsExactly(doc: Json, spec: WorkflowSpec, template: Option<string>)
    ensures AddLoopWorkflow(doc, spec, template).Success? <==>
              && 3 <= |spec.workflowId| <= 36
              && (forall i | 0 <= i < |spec.workflowId| ::
                    var c := spec.workflowId[i]; 'a' <= c <= 'z' || '0' <= c <= '9' || c == '_' || c == '-')
              && Readable(doc) && spec.workflowId !in Workflow(doc)
              && exists source :: Sources(Workflow(doc), template, source) && Cloneable(Workflow(doc)[source])
    ensures AddLoopWorkflow(doc, spec, template).Success? ==>
              exists source :: Sources(Workflow(doc), template, source) && Cloneable(Workflow(doc)[source])
                && Workflow(AddLoopWorkflow(doc, spec, template).value)[spec.workflowId]
                   == CloneWorkflow(Workflow(doc)[source], spec).value
  {
    if Readable(doc) && spec.workflowId !in Workflow(doc) {
      SourceIsTheTemplate(Workflow(doc), template);
    }
  }

  lemma SourceIsTheTemplate(workflows: Workflows, template: Option<string>)
    ensures forall source | Sources(workflows, template, source) :: TemplateId(workflows, template) == Success(source)
    ensures var id := TemplateId(workflows, template);
            id.Success? && id.value in workflows ==> Sources(workflows, template, id.value)
  {
    forall source | Sources(workflows, template, source)
      ensures TemplateId(workflows, template) == Success(source)
    {
      if template.None? {
        assert |workflows.Keys| == 1;
        SoleKey(workflows);
      }
    }
    if template.None? && |workflows| == 1 {
      SoleKey(workflows);
      var id := TemplateId(workflows, template).value;
      assert workflows.Keys == {id};
    }
  }

  // A removal takes exactly the named workflow out, and never a protected one.
  lemma RemoveTakesOne(doc: Json, id: string, protectedIds: seq<string>)
    ensures var r := RemoveLoopWorkflow(doc, id, protectedIds);
            && (r == Failure(ProtectedWorkflow) <==> id in protectedIds)
            && (r == Failure(DoesNotExist) <==> id !in protectedIds && Readable(doc) && id !in Workflow(doc))
            && (r.Success? <==> id !in protectedIds && Readable(doc) && id in Workflow(doc))
            && (r.Success? ==>
                  && Readable(r.value) && Workflow(r.value) == Workflow(doc) - {id}
                  && SetsOnly(doc, r.value, {"workflows"}))
  {
  }

  // An added workflow carries the whole spec, every other workflow and every other
  // field of the document is untouched, and removing it again restores the document.
  lemma AddSpecification(doc: Json, spec: WorkflowSpec, template: Option<string>)
    requires AddLoopWorkflow(doc, spec, template).Success?
    ensures Readable(doc) && spec.workflowId !in Workflow(doc)
    ensures var added := AddLoopWorkflow(doc, spec, template).value;
            && Readable(added)
            && Workflow(added).Keys == Workflow(doc).Keys + {spec.workflowId}
            && (forall id | id in Workflow(doc) :: Workflow(added)[id] == Workflow(doc)[id])
            && (forall k | k in doc.fields && k != "workflows" :: k in added.fields && added.fields[k] == doc.fields[k])
            && (spec.componentConfig.Keys >= {"vault_address"} && spec.componentConfig["vault_address"] == spec.handler
                ==> PointsAt(Workflow(added)[spec.workflowId], spec.chainKey, spec.handler))
            && RemoveLoopWorkflow(added, spec.workflowId, []) == Success(doc)
  {
    var workflows := Workflow(doc);
    var id := TemplateId(workflows, template).value;
    CloneCarriesSpec(workflows[id], spec);
    var workflow := CloneWorkflow(workflows[id], spec).value;
    var more := workflows[spec.workflowId := workflow];
    assert more - {spec.workflowId} == workflows;
    WithWorkflowsTwice(doc, more, workflows);
  }

  // ---------------------------------------------------------------- merging

  // The donor's workflows the target lacks, copied in; the target itself when there are none.
  function MergeMissing(target: Json, donor: Json): Result<Json, DocError> {
    var ours :- WorkflowsOf(target);
    var theirs :- WorkflowsOf(donor);
    if theirs.Keys <= ours.Keys then Success(target)
    else Success(WithWorkflows(target, theirs + ours))
  }

  lemma NothingMissing(theirs: set<string>, ours: set<string>)
    ensures theirs - ours == {} <==> theirs <= ours
  {
    if theirs - ours == {} {
      forall id | id in theirs ensures id in ours {
        assert id !in theirs - ours;
      }
    }
  }

  // The loop over the missing ids.
  method CopyMissing(ours: Workflows, theirs: Workflows) returns (next: Workflows)
    ensures next == theirs + ours
  {
    next := ours;
    var rest := theirs.Keys - ours.Keys;
    while rest != {}
      invariant forall id | id in rest :: id in theirs && id !in ours
      invariant forall id :: id in next <==> id in ours || (id in theirs && id !in rest)
      invariant forall id | id in next :: next[id] == if id in ours then ours[id] else theirs[id]
      decreases |rest|
    {
      var id :| id in rest;
      next := next[id := theirs[id]];
      rest := rest - {id};
    }
    Merged(ours, theirs, next);
  }

  lemma Merged(ours: Workflows, theirs: Workflows, next: Workflows)
    requires forall id :: id in next <==> id in ours || id in theirs
    requires forall id | id in next :: next[id] == if id in ours then ours[id] else theirs[id]
    ensures next == theirs + ours
  {
  }

  method MergeMissingWorkflows(target: Json, donor: Json) returns (r: Result<Json, DocError>)
    ensures r == MergeMissing(target, donor)
  {
    var ours :- WorkflowsOf(target);
    var theirs :- WorkflowsOf(donor);
    NothingMissing(theirs.Keys, ours.Keys);
    if theirs.Keys - ours.Keys == {} {
      return Success(target);
    }
    var next := CopyMissing(ours, theirs);
    return Success(WithWorkflows(target, next));
  }

  // A merge holds exactly the workflows of both, the target's own versions where both
  // have one, nothing else changes, and it is the target exactly when the donor adds nothing.
  lemma MergeKeepsBoth(target: Json, donor: Json)
    ensures MergeMissing(target, donor).Success? <==> Readable(target) && Readable(donor)
    ensures MergeMissing(target, donor).Success? ==>
              var merged := MergeMissing(target, donor).value;
              && Readable(merged)
              && Workflow(merged).Keys == Workflow(target).Keys + Workflow(donor).Keys
              && (forall id | id in Workflow(target) :: Workflow(merged)[id] == Workflow(target)[id])
              && (forall id | id in Workflow(donor) && id !in Workflow(target) ::
                    Workflow(merged)[id] == Workflow(donor)[id])
              && (merged == target <==> Workflow(donor).Keys <= Workflow(target).Keys)
              && MergeMissing(merged, donor) == Success(merged)
  {
  }

  // ---------------------------------------------------------------- the component config

  datatype MarketFields = MarketFields(
    usde: string, oracle: string, irm: string, morpho: string, marketId: string, lltv: string, pool: string,
    twapWindowSecs: string, inputsBlockLag: string, swapRouter: string, poolFee: string)

  datatype ServerFields = ServerFields(chainKey: string, usdc: string, vault: string)

  function ServerSide(market: MarketFields, server: ServerFields): map<string, string> {
    map[
      "chain_id" := server.chainKey,
      "vault_address" := server.vault,
      "usdc_address" := server.usdc,
      "usde_address" := market.usde,
      "oracle_address" := market.oracle,
      "irm_address" := market.irm,
      "morpho_address" := market.morpho,
      "market_id" := market.marketId,
      "lltv" := market.lltv,
      "pool_address" := market.pool,
      "twap_window_secs" := market.twapWindowSecs,
      "inputs_block_lag" := market.inputsBlockLag,
      "swap_router" := market.swapRouter,
      "pool_fee" := market.poolFee
    ]
  }

  // The composer's knobs first, so that market and server fields shadow any collision.
  function ComponentConfigFor(
      knobs: map<string, string>, market: MarketFields, server: ServerFields)
    : map<string, string>
  {
    knobs + ServerSide(market, server)
  }

  ghost predicate Holds(config: map<string, string>, key: string, value: string) {
    key in config && config[key] == value
  }

  // Every server and market field under its own key.
  ghost predicate CarriesFields(config: map<string, string>, market: MarketFields, server: ServerFields) {
    && Holds(config, "chain_id", server.chainKey) && Holds(config, "usdc_address", server.usdc)
    && Holds(config, "vault_address", server.vault) && Holds(config, "usde_address", market.usde)
    && Holds(config, "oracle_address", market.oracle) && Holds(config, "irm_address", market.irm)
    && Holds(config, "morpho_address", market.morpho) && Holds(config, "market_id", market.marketId)
    && Holds(config, "lltv", market.lltv) && Holds(config, "pool_address", market.pool)
    && Holds(config, "twap_window_secs", market.twapWindowSecs)
    && Holds(config, "inputs_block_lag", market.inputsBlockLag)
    && Holds(config, "swap_router", market.swapRouter) && Holds(config, "pool_fee", market.poolFee)
  }

  const SERVER_KEYS: set<string> := {
    "chain_id", "usdc_address", "vault_address", "usde_address", "oracle_address", "irm_address", "morpho_address",
    "market_id", "lltv", "pool_address", "twap_window_secs", "inputs_block_lag", "swap_router", "pool_fee"}

  // No knob moves a server or market field, and every other knob passes through unchanged.
  lemma KnobsCannotMoveServerFields(knobs: map<string, string>, market: MarketFields, server: ServerFields)
    ensures var config := ComponentConfigFor(knobs, market, server);
            && CarriesFields(config, market, server)
            && config.Keys == knobs.Keys + SERVER_KEYS
            && (forall k | k in knobs && k !in SERVER_KEYS :: config[k] == knobs[k])
  {
    FieldsArrive(market, server);
    var config, fixed := ComponentConfigFor(knobs, market, server), ServerSide(market, server);
    assert forall k | k in fixed :: k in config && config[k] == fixed[k];
    StillCarries(fixed, config, market, server);
  }

  lemma FieldsArrive(market: MarketFields, server: ServerFields)
    ensures CarriesFields(ServerSide(market, server), market, server)
    ensures ServerSide(market, server).Keys == SERVER_KEYS
  {
  }

  lemma StillCarries(
      fixed: map<string, string>, config: map<string, string>, market: MarketFields, server: ServerFields)
    requires CarriesFields(fixed, market, server)
    requires forall k | k in fixed :: k in config && config[k] == fixed[k]
    ensures CarriesFields(config, market, server)
  {
  }
}
