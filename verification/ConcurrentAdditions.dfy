/**
 * The add `runPipeline` submits as an edit of the shared document, the workflows of a list of
 * documents, and what is collected from them when they are merged in one by one.
 */
module ConcurrentAdditions {
  import opened Wrappers
  import opened ServiceDoc
  import opened Mutation

  // The edit puts one workflow in, leaves the others alone, and does nothing when it is there.
  ghost predicate AddsOne(edit: Edit, id: string) {
    forall doc :: edit(doc).Success? ==>
      && Readable(doc)
      && Readable(edit(doc).value)
      && (id in Workflow(doc) ==> edit(doc).value == doc)
      && Workflow(edit(doc).value).Keys == Workflow(doc).Keys + {id}
      && (forall k | k in Workflow(doc) :: Workflow(edit(doc).value)[k] == Workflow(doc)[k])
  }

  // The edit `runPipeline` passes: the document itself when the workflow is already there.
  function AddEdit(spec: WorkflowSpec, template: Option<string>): Edit {
    (doc: Json) =>
      if !Readable(doc) then (match WorkflowsOf(doc) case Failure(e) => Failure(e) case Success(_) => Success(doc))
      else if spec.workflowId in Workflow(doc) then Success(doc)
      else AddLoopWorkflow(doc, spec, template)
  }

  lemma AddEditAddsOne(spec: WorkflowSpec, template: Option<string>)
    ensures AddsOne(AddEdit(spec, template), spec.workflowId)
  {
    forall doc | AddEdit(spec, template)(doc).Success? && Readable(doc) && spec.workflowId !in Workflow(doc)
      ensures var added := AddEdit(spec, template)(doc).value;
              && Readable(added)
              && Workflow(added).Keys == Workflow(doc).Keys + {spec.workflowId}
              && forall k | k in Workflow(doc) :: Workflow(added)[k] == Workflow(doc)[k]
    {
      AddSpecification(doc, spec, template);
    }
  }

  // ---------------------------------------------------------------- the workflows of a list of documents

  ghost predicate AllReadable(store: map<Uri, Json>, uris: seq<Uri>) {
    forall i | 0 <= i < |uris| :: uris[i] in store && Readable(store[uris[i]])
  }

  ghost function IdsIn(store: map<Uri, Json>, uris: seq<Uri>): set<string> {
    if uris == [] then {}
    else IdsIn(store, uris[..|uris| - 1])
         + (var last := uris[|uris| - 1];
            if last in store && Readable(store[last]) then Workflow(store[last]).Keys else {})
  }

  ghost predicate StoreGrows(store: map<Uri, Json>, more: map<Uri, Json>) {
    forall uri | uri in store :: uri in more && more[uri] == store[uri]
  }

  lemma {:induction false} IdsStable(store: map<Uri, Json>, more: map<Uri, Json>, uris: seq<Uri>)
    requires StoreGrows(store, more) && AllReadable(store, uris)
    ensures AllReadable(more, uris) && IdsIn(more, uris) == IdsIn(store, uris)
    decreases |uris|
  {
    if uris != [] {
      var n := |uris| - 1;
      assert AllReadable(store, uris[..n]);
      IdsStable(store, more, uris[..n]);
      assert uris[n] in store;
    }
  }

  // Workflow k as it stands in the earliest listed document that has it.
  ghost function FirstVersion(store: map<Uri, Json>, uris: seq<Uri>, k: string): Json
    requires k in IdsIn(store, uris)
  {
    var front, last := uris[..|uris| - 1], uris[|uris| - 1];
    if k in IdsIn(store, front) then FirstVersion(store, front, k) else Workflow(store[last])[k]
  }

  lemma {:induction false} VersionStable(store: map<Uri, Json>, more: map<Uri, Json>, uris: seq<Uri>, k: string)
    requires StoreGrows(store, more) && AllReadable(store, uris) && k in IdsIn(store, uris)
    ensures k in IdsIn(more, uris) && FirstVersion(more, uris, k) == FirstVersion(store, uris, k)
    decreases |uris|
  {
    var front := uris[..|uris| - 1];
    assert AllReadable(store, front);
    IdsStable(store, more, uris);
    IdsStable(store, more, front);
    if k in IdsIn(store, front) {
      VersionStable(store, more, front, k);
    }
  }

  // ---------------------------------------------------------------- documents merged in

  // A document holds exactly the workflows of `edited`, kept as they are, and those of
  // the listed documents that `edited` lacks, each as the earliest of them has it.
  ghost predicate Collected(store: map<Uri, Json>, uris: seq<Uri>, doc: Json, edited: Json) {
    && AllReadable(store, uris)
    && Readable(doc) && Readable(edited)
    && Workflow(doc).Keys == Workflow(edited).Keys + IdsIn(store, uris)
    && (forall k | k in Workflow(edited) :: Workflow(doc)[k] == Workflow(edited)[k])
    && Rescued(store, uris, doc, edited)
  }

  ghost predicate Rescued(store: map<Uri, Json>, uris: seq<Uri>, doc: Json, edited: Json)
    requires Readable(doc) && Readable(edited)
  {
    forall k | k in IdsIn(store, uris) && k !in Workflow(edited) ::
      k in Workflow(doc) && Workflow(doc)[k] == FirstVersion(store, uris, k)
  }

  lemma CollectedStable(store: map<Uri, Json>, more: map<Uri, Json>, uris: seq<Uri>, doc: Json, edited: Json)
    requires StoreGrows(store, more) && Collected(store, uris, doc, edited)
    ensures Collected(more, uris, doc, edited)
  {
    IdsStable(store, more, uris);
    forall k | k in IdsIn(more, uris) && k !in Workflow(edited)
      ensures k in Workflow(doc) && Workflow(doc)[k] == FirstVersion(more, uris, k)
    {
      VersionStable(store, more, uris, k);
    }
  }

  // One clobbered document merged in.
  lemma MergeCollects(store: map<Uri, Json>, done: seq<Uri>, uri: Uri, merged: Json, edited: Json, more: Json)
    requires Collected(store, done, merged, edited) && uri in store
    requires MergeMissing(merged, store[uri]) == Success(more)
    ensures Collected(store, done + [uri], more, edited)
  {
    var longer := done + [uri];
    assert longer[..|longer| - 1] == done;
    MergeKeepsBoth(merged, store[uri]);
    MergeRescues(store, done, uri, merged, edited, more);
  }

  lemma MergeRescues(store: map<Uri, Json>, done: seq<Uri>, uri: Uri, merged: Json, edited: Json, more: Json)
    requires Collected(store, done, merged, edited) && uri in store && Readable(store[uri]) && Readable(more)
    requires Workflow(more).Keys == Workflow(merged).Keys + Workflow(store[uri]).Keys
    requires forall k | k in Workflow(merged) :: Workflow(more)[k] == Workflow(merged)[k]
    requires forall k | k in Workflow(store[uri]) && k !in Workflow(merged) ::
               Workflow(more)[k] == Workflow(store[uri])[k]
    ensures Rescued(store, done + [uri], more, edited)
  {
    var longer := done + [uri];
    assert longer[..|longer| - 1] == done && longer[|longer| - 1] == uri;
    forall k | k in IdsIn(store, longer) && k !in Workflow(edited)
      ensures k in Workflow(more) && Workflow(more)[k] == FirstVersion(store, longer, k)
    {
      if k in IdsIn(store, done) {
        assert k in Workflow(merged);
      }
    }
  }

  // What a settled add leaves: exactly the new workflow as the edit made it, the base's
  // workflows unchanged, and every other workflow of the documents set strictly between,
  // each as the earliest of them has it.
  ghost predicate HoldsEveryAddition(
      store: map<Uri, Json>, base: Json, edit: Edit, id: string, between: seq<Uri>, doc: Json)
  {
    && Readable(base) && Readable(doc)
    && edit(base).Success? && Readable(edit(base).value) && id in Workflow(edit(base).value)
    && Workflow(doc).Keys == Workflow(base).Keys + {id} + IdsIn(store, between)
    && Workflow(doc)[id] == Workflow(edit(base).value)[id]
    && (forall k | k in Workflow(base) :: Workflow(doc)[k] == Workflow(base)[k])
    && (forall k | k in IdsIn(store, between) && k !in Workflow(base) && k != id ::
          Workflow(doc)[k] == FirstVersion(store, between, k))
  }

  lemma {:induction false} EveryIdIsSeen(store: map<Uri, Json>, uris: seq<Uri>, uri: Uri)
    requires AllReadable(store, uris) && uri in uris
    ensures Workflow(store[uri]).Keys <= IdsIn(store, uris)
    decreases |uris|
  {
    var n := |uris| - 1;
    if uri in uris[..n] {
      assert AllReadable(store, uris[..n]);
      EveryIdIsSeen(store, uris[..n], uri);
    }
  }

  // The first document to bring a workflow decides its version.
  lemma {:induction false} FirstVersionIs(store: map<Uri, Json>, uris: seq<Uri>, j: nat, k: string)
    requires AllReadable(store, uris) && j < |uris| && k in Workflow(store[uris[j]])
    requires k !in IdsIn(store, uris[..j])
    ensures k in IdsIn(store, uris) && FirstVersion(store, uris, k) == Workflow(store[uris[j]])[k]
    decreases |uris|
  {
    var front := uris[..|uris| - 1];
    assert AllReadable(store, front);
    if j < |uris| - 1 {
      assert front[..j] == uris[..j];
      FirstVersionIs(store, front, j, k);
    } else {
      assert front == uris[..j];
    }
  }

  ghost predicate Brings(store: map<Uri, Json>, uri: Uri, k: string) {
    uri in store && Readable(store[uri]) && k in Workflow(store[uri])
  }
}
