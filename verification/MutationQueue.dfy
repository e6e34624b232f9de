/**
 * The serialized mutation queue of `LoopDeployer`: adds, removals and nudges issued by any
 * number of callers run one after another on `mutationTail`, each whatever became of the
 * one before. With no other process writing, the shared document is always the initial one
 * with the edits that landed applied in queue order.
 */
module MutationQueue {
  import opened Wrappers
  import opened ServiceDoc
  import opened Mutation
  import opened ConcurrentAdditions
  import opened MutationScripts

  datatype Task = Add(spec: WorkflowSpec) | Remove(workflowId: string) | Nudge

  function EditOf(task: Task, template: Option<string>): Edit {
    match task
    case Add(spec) => AddEdit(spec, template)
    case Remove(id) =>
      ((doc: Json) => RemoveLoopWorkflow(doc, id, if template.Some? then [template.value] else []))
    case Nudge => ((doc: Json) => Success(doc))
  }

  // ---------------------------------------------------------------- the queue

  datatype Job = Idle | Mutating(pc: Pc) | NudgeRead | NudgeWrite(uri: Uri)

  datatype Outcome = Completed(uri: Uri) | Failed(fault: Fault)

  // An edit whose result is the manager's document from some moment on.
  datatype Landed = Landed(ticket: nat, task: Task)

  // Tickets are positions in `tasks`; those before `next` are settled or abandoned.
  datatype Queue = Queue(
    net: Net, tasks: seq<Task>, next: nat, job: Job, outcomes: map<nat, Outcome>, landed: seq<Landed>)

  datatype Happening =
    | Enqueue(task: Task)
    | Answer(fate: Fate)                    // the head's next port call is answered
    | Published(uri: Uri, doc: Json)        // someone pins a document
    | Crash                                 // the process dies with its queue

  function Begin(task: Task): Job {
    if task.Nudge? then NudgeRead else Mutating(Checkpoint(0))
  }

  function Settle(q: Queue, outcome: Outcome): Queue {
    q.(next := q.next + 1, job := Idle, outcomes := q.outcomes[q.next := outcome])
  }

  function OutcomeOf(pc: Pc): Outcome
    requires Done(pc)
  {
    match pc
    case Returned(uri) => Completed(uri)
    case Threw(fault) => Failed(fault)
  }

  // The write went through, or the edit had nothing to do.
  predicate Lands(pc: Pc, net: Net, after: Pc, afterNet: Net) {
    (pc.Set? && |afterNet.log| > |net.log|) || (pc.Fetch? && after.Returned?)
  }

  // The queue once its head has moved on to `pc`.
  function After(q: Queue, pc: Pc, net: Net, lands: bool): Queue
    requires q.next < |q.tasks|
  {
    var landed := if lands then q.landed + [Landed(q.next, q.tasks[q.next])] else q.landed;
    var q' := q.(net := net, landed := landed);
    if Done(pc) then Settle(q', OutcomeOf(pc)) else q'.(job := Mutating(pc))
  }

  function Mutate(q: Queue, pc: Pc, template: Option<string>, fate: Fate): Queue
    requires q.next < |q.tasks|
  {
    var (pc', net') := Step(pc, q.net, EditOf(q.tasks[q.next], template), fate);
    After(q, pc', net', Lands(pc, q.net, pc', net'))
  }

  function NudgeStep(q: Queue, job: Job, fate: Fate): Queue
    requires job.NudgeRead? || job.NudgeWrite?
  {
    if fate.Refuse? then Settle(q, Failed(PortFailed))
    else if job.NudgeRead? then
      if fate.replied then q.(job := NudgeWrite(CurrentUri(q.net))) else Settle(q, Failed(PortFailed))
    else if fate.block <= q.net.head then Settle(q, Failed(PortFailed))
    else Settle(q.(net := Written(q.net, job.uri, fate)),
                if fate.replied then Completed(job.uri) else Failed(PortFailed))
  }

  function Advance(q: Queue, template: Option<string>, fate: Fate): Queue
    requires q.next < |q.tasks|
  {
    var job := if q.job.Idle? then Begin(q.tasks[q.next]) else q.job;
    if job.Mutating? then Mutate(q, job.pc, template, fate) else NudgeStep(q, job, fate)
  }

  function Happen(q: Queue, template: Option<string>, happening: Happening): Queue {
    match happening
    case Enqueue(task) => q.(tasks := q.tasks + [task])
    case Answer(fate) => if q.next < |q.tasks| then Advance(q, template, fate) else q
    case Published(uri, doc) => q.(net := Outside(q.net, Publish(uri, doc)))
    case Crash => q.(next := |q.tasks|, job := Idle)
  }

  function Play(q: Queue, template: Option<string>, happenings: seq<Happening>): Queue
    decreases |happenings|
  {
    if happenings == [] then q else Play(Happen(q, template, happenings[0]), template, happenings[1..])
  }

  // Nobody else writes the manager's URI.
  predicate Alone(happenings: seq<Happening>) {
    forall i | 0 <= i < |happenings| :: AloneIn(happenings[i])
  }

  predicate AloneIn(happening: Happening) {
    happening.Answer? && happening.fate.Take? ==> happening.fate.ahead == [] == happening.fate.behind
  }

  function Opened(net: Net): Queue {
    Queue(net, [], 0, Idle, map[], [])
  }

  // ---------------------------------------------------------------- the reference: a fold

  function Fold(doc: Json, landed: seq<Landed>, template: Option<string>): Result<Json, DocError> {
    if landed == [] then Success(doc)
    else
      var before :- Fold(doc, landed[..|landed| - 1], template);
      EditOf(landed[|landed| - 1].task, template)(before)
  }

  ghost predicate InQueueOrder(landed: seq<Landed>, tasks: seq<Task>) {
    && (forall i | 0 <= i < |landed| ::
          landed[i].ticket < |tasks| && tasks[landed[i].ticket] == landed[i].task && !landed[i].task.Nudge?)
    && (forall i, j | 0 <= i < j < |landed| :: landed[i].ticket < landed[j].ticket)
  }

  ghost predicate HasLanded(landed: seq<Landed>, ticket: nat) {
    exists i :: 0 <= i < |landed| && landed[i].ticket == ticket
  }

  ghost predicate DocIs(net: Net, doc: Json) {
    Sound(net) && Names(net, CurrentUri(net), doc)
  }

  // ---------------------------------------------------------------- what every step keeps

  ghost predicate PcInv(pc: Pc, net: Net, edit: Edit, doc: Json) {
    match pc
    case Checkpoint(a) => a == 0
    case GetUri(a, c) => a == 0 && c == net.head
    case Fetch(a, c, uri) => a == 0 && c == net.head && uri == CurrentUri(net)
    case Pin(a, c, edited) => a == 0 && c == net.head && edit(doc) == Success(edited)
    case Set(a, c, edited, next) => a == 0 && c == net.head && edit(doc) == Success(edited) && Names(net, next, edited)
    case Scan(a, c, edited, next, b) => a == 0 && next == CurrentUri(net) && Overlaps(net, c, b) == []
    case PostUri(a, edited, next, overlaps) => a == 0 && next == CurrentUri(net) && overlaps == []
    case _ => false
  }

  predicate HasWritten(job: Job) {
    job.Mutating? && (job.pc.Scan? || job.pc.PostUri?)
  }

  ghost predicate Running(q: Queue, template: Option<string>, doc: Json) {
    && q.next < |q.tasks|
    && match q.job
       case Idle => true
       case Mutating(pc) => !q.tasks[q.next].Nudge? && PcInv(pc, q.net, EditOf(q.tasks[q.next], template), doc)
       case NudgeRead => q.tasks[q.next].Nudge?
       case NudgeWrite(uri) => q.tasks[q.next].Nudge? && uri == CurrentUri(q.net)
  }

  ghost predicate Booked(q: Queue) {
    && q.next <= |q.tasks|
    && InQueueOrder(q.landed, q.tasks)
    && (forall i | 0 <= i < |q.landed| :: q.landed[i].ticket <= q.next)
    && (HasWritten(q.job) <==> HasLanded(q.landed, q.next))
    && (forall t | t in q.outcomes :: t < q.next)
    && (forall t | t in q.outcomes && q.outcomes[t].Completed? && !q.tasks[t].Nudge? :: HasLanded(q.landed, t))
  }

  ghost predicate QueueInv(q: Queue, template: Option<string>, first: Json, doc: Json) {
    && DocIs(q.net, doc)
    && Fold(first, q.landed, template) == Success(doc)
    && Booked(q)
    && (q.job == Idle || Running(q, template, doc))
  }

  // The document changes only when the head's edit lands.
  ghost predicate Progress(q: Queue, q': Queue, template: Option<string>, doc: Json, doc': Json) {
    || (q'.landed == q.landed && doc' == doc)
    || (q.next < |q.tasks| && !q.tasks[q.next].Nudge?
        && q'.landed == q.landed + [Landed(q.next, q.tasks[q.next])]
        && EditOf(q.tasks[q.next], template)(doc) == Success(doc'))
  }

  lemma FoldOneMore(first: Json, landed: seq<Landed>, last: Landed, template: Option<string>, doc: Json)
    requires Fold(first, landed, template) == Success(doc)
    ensures Fold(first, landed + [last], template) == EditOf(last.task, template)(doc)
  {
    assert (landed + [last])[..|landed|] == landed;
  }

  lemma WriteExtends(net: Net, uri: Uri, fate: Fate)
    requires Sound(net) && fate.Take? && fate.block > net.head && fate.ahead == [] == fate.behind
    ensures var next := Written(net, uri, fate);
            && Sound(next) && next.store == net.store && CurrentUri(next) == uri
            && |net.log| <= |next.log| && next.log[..|net.log|] == net.log
  {
    assert Written(net, uri, fate).log == net.log + [Write(uri, fate.block, true)];
  }

  // A step of a mutation running alone: it writes at most once, straight after the
  // document it read, and then returns.
  lemma AloneStep(pc: Pc, net: Net, edit: Edit, doc: Json, fate: Fate) returns (doc': Json)
    requires DocIs(net, doc) && PcInv(pc, net, edit, doc)
    requires fate.Take? ==> fate.ahead == [] == fate.behind
    ensures var (pc', net') := Step(pc, net, edit, fate);
            && DocIs(net', doc')
            && (Done(pc') || PcInv(pc', net', edit, doc'))
            && (if Lands(pc, net, pc', net') then edit(doc) == Success(doc') else doc' == doc)
            && (pc'.Scan? ==> Lands(pc, net, pc', net'))
            && (pc'.PostUri? ==> pc.Scan?)
            && (pc.Scan? || pc.PostUri? ==> pc'.PostUri? || Done(pc'))
            && (pc'.Returned? ==> Lands(pc, net, pc', net') || pc.PostUri?)
            && (Lands(pc, net, pc', net') ==> (pc.Set? || pc.Fetch?) && (pc'.Scan? || Done(pc')))
  {
    doc' := doc;
    if pc.Set? && fate.Take? && fate.block > net.head {
      doc' := pc.edited;
      SameBlockUnseen(net, pc.nextUri, fate);
      WriteExtends(net, pc.nextUri, fate);
    }
  }

  lemma LandOne(q: Queue)
    requires Booked(q) && q.next < |q.tasks| && !q.tasks[q.next].Nudge? && !HasLanded(q.landed, q.next)
    ensures var more := q.landed + [Landed(q.next, q.tasks[q.next])];
            && InQueueOrder(more, q.tasks)
            && (forall i | 0 <= i < |more| :: more[i].ticket <= q.next)
            && HasLanded(more, q.next)
            && (forall t | HasLanded(q.landed, t) :: HasLanded(more, t))
  {
    var more := q.landed + [Landed(q.next, q.tasks[q.next])];
    assert more[|q.landed|].ticket == q.next;
    forall t | HasLanded(q.landed, t) ensures HasLanded(more, t) {
      var i :| 0 <= i < |q.landed| && q.landed[i].ticket == t;
      assert more[i].ticket == t;
    }
  }

  // The books after the head's step, before it is settled or runs on.
  lemma SettleKeeps(q: Queue, outcome: Outcome)
    requires q.next < |q.tasks| && InQueueOrder(q.landed, q.tasks)
    requires forall i | 0 <= i < |q.landed| :: q.landed[i].ticket <= q.next
    requires forall t | t in q.outcomes :: t < q.next
    requires forall t | t in q.outcomes && q.outcomes[t].Completed? && !q.tasks[t].Nudge? :: HasLanded(q.landed, t)
    requires outcome.Completed? && !q.tasks[q.next].Nudge? ==> HasLanded(q.landed, q.next)
    ensures Booked(Settle(q, outcome))
  {
  }

  // The books after a mutation's step, whatever the network became.
  lemma MutateBooks(q: Queue, pc: Pc, pc': Pc, lands: bool, net': Net)
    requires Booked(q) && q.next < |q.tasks| && !q.tasks[q.next].Nudge?
    requires HasWritten(q.job) <==> HasWritten(Mutating(pc))
    requires pc'.Scan? ==> lands
    requires pc'.PostUri? ==> pc.Scan?
    requires pc.Scan? || pc.PostUri? ==> pc'.PostUri? || Done(pc')
    requires pc'.Returned? ==> lands || pc.PostUri?
    requires lands ==> (pc.Set? || pc.Fetch?) && (pc'.Scan? || Done(pc'))
    ensures Booked(After(q, pc', net', lands))
  {
    if lands {
      LandOne(q);
    }
    if Done(pc') {
      SettleKeeps(q.(net := net', landed := if lands then q.landed + [Landed(q.next, q.tasks[q.next])] else q.landed),
                  OutcomeOf(pc'));
    }
  }

  lemma AfterKeeps(
      q: Queue, pc': Pc, net': Net, lands: bool, template: Option<string>, first: Json, doc: Json, doc': Json)
    requires q.next < |q.tasks| && !q.tasks[q.next].Nudge? && Fold(first, q.landed, template) == Success(doc)
    requires Booked(After(q, pc', net', lands))
    requires DocIs(net', doc')
    requires var edit := EditOf(q.tasks[q.next], template);
             && (Done(pc') || PcInv(pc', net', edit, doc'))
             && (if lands then edit(doc) == Success(doc') else doc' == doc)
    ensures QueueInv(After(q, pc', net', lands), template, first, doc')
  {
    FoldOneMore(first, q.landed, Landed(q.next, q.tasks[q.next]), template, doc);
  }

  lemma MutateKeeps(q: Queue, pc: Pc, template: Option<string>, first: Json, doc: Json, fate: Fate) returns (doc': Json)
    requires QueueInv(q, template, first, doc) && q.next < |q.tasks| && !q.tasks[q.next].Nudge?
    requires q.job == Mutating(pc) || (q.job == Idle && pc == Checkpoint(0))
    requires fate.Take? ==> fate.ahead == [] == fate.behind
    ensures var q' := Mutate(q, pc, template, fate);
            QueueInv(q', template, first, doc') && q'.tasks == q.tasks && Progress(q, q', template, doc, doc')
  {
    var edit := EditOf(q.tasks[q.next], template);
    doc' := AloneStep(pc, q.net, edit, doc, fate);
    var (pc', net') := Step(pc, q.net, edit, fate);
    var lands := Lands(pc, q.net, pc', net');
    MutateBooks(q, pc, pc', lands, net');
    AfterKeeps(q, pc', net', lands, template, first, doc, doc');
  }

  lemma NudgeKeeps(q: Queue, job: Job, template: Option<string>, first: Json, doc: Json, fate: Fate)
    requires QueueInv(q, template, first, doc) && q.next < |q.tasks| && q.tasks[q.next].Nudge?
    requires q.job == job || (q.job == Idle && job == NudgeRead)
    requires job.NudgeRead? || job.NudgeWrite?
    requires fate.Take? ==> fate.ahead == [] == fate.behind
    ensures QueueInv(NudgeStep(q, job, fate), template, first, doc)
  {
    if job.NudgeWrite? && fate.Take? && fate.block > q.net.head {
      WriteExtends(q.net, job.uri, fate);
    }
    var after := NudgeStep(q, job, fate);
    if after.job == Idle {
      SettleKeeps(q.(net := after.net), after.outcomes[q.next]);
    }
  }

  lemma AdvanceKeeps(q: Queue, template: Option<string>, first: Json, doc: Json, fate: Fate) returns (doc': Json)
    requires QueueInv(q, template, first, doc) && q.next < |q.tasks|
    requires fate.Take? ==> fate.ahead == [] == fate.behind
    ensures var q' := Advance(q, template, fate);
            QueueInv(q', template, first, doc') && q'.tasks == q.tasks && Progress(q, q', template, doc, doc')
  {
    var job := if q.job.Idle? then Begin(q.tasks[q.next]) else q.job;
    doc' := doc;
    if job.Mutating? {
      doc' := MutateKeeps(q, job.pc, template, first, doc, fate);
    } else {
      NudgeKeeps(q, job, template, first, doc, fate);
    }
  }

  lemma EnqueueKeeps(q: Queue, template: Option<string>, first: Json, doc: Json, task: Task)
    requires QueueInv(q, template, first, doc)
    ensures QueueInv(Happen(q, template, Enqueue(task)), template, first, doc)
  {
  }

  lemma PublishKeepsPc(pc: Pc, net: Net, edit: Edit, doc: Json, uri: Uri, published: Json)
    requires DocIs(net, doc) && PcInv(pc, net, edit, doc)
    ensures PcInv(pc, Outside(net, Publish(uri, published)), edit, doc)
  {
  }

  lemma PublishKeeps(q: Queue, template: Option<string>, first: Json, doc: Json, uri: Uri, published: Json)
    requires QueueInv(q, template, first, doc)
    ensures QueueInv(Happen(q, template, Published(uri, published)), template, first, doc)
  {
    if q.job.Mutating? {
      PublishKeepsPc(q.job.pc, q.net, EditOf(q.tasks[q.next], template), doc, uri, published);
    }
  }

  lemma CrashKeeps(q: Queue, template: Option<string>, first: Json, doc: Json)
    requires QueueInv(q, template, first, doc)
    ensures QueueInv(Happen(q, template, Crash), template, first, doc)
  {
  }

  lemma OtherKeeps(q: Queue, template: Option<string>, first: Json, doc: Json, happening: Happening)
    requires QueueInv(q, template, first, doc) && (happening.Answer? ==> q.next == |q.tasks|)
    ensures QueueInv(Happen(q, template, happening), template, first, doc)
  {
    match happening
    case Enqueue(task) => EnqueueKeeps(q, template, first, doc, task);
    case Published(uri, published) => PublishKeeps(q, template, first, doc, uri, published);
    case Crash => CrashKeeps(q, template, first, doc);
    case Answer(_) =>
  }

  lemma {:induction false} PlayKeeps(
      q: Queue, template: Option<string>, first: Json, doc: Json, happenings: seq<Happening>)
    returns (doc': Json)
    requires QueueInv(q, template, first, doc) && Alone(happenings)
    ensures QueueInv(Play(q, template, happenings), template, first, doc')
    decreases |happenings|
  {
    doc' := doc;
    if happenings != [] {
      assert AloneIn(happenings[0]);
      if happenings[0].Answer? && q.next < |q.tasks| {
        doc' := AdvanceKeeps(q, template, first, doc, happenings[0].fate);
      } else {
        OtherKeeps(q, template, first, doc, happenings[0]);
      }
      doc' := PlayKeeps(Happen(q, template, happenings[0]), template, first, doc', happenings[1..]);
    }
  }

  // No update is lost inside one process: whatever failed or crashed on the way, the
  // document is the first one with the landed edits applied in the order they were
  // queued, each at most once, and every mutation that reported success is among them.
  lemma LandedEditsInQueueOrder(net: Net, first: Json, template: Option<string>, happenings: seq<Happening>)
    requires Sound(net) && Names(net, CurrentUri(net), first) && Alone(happenings)
    ensures var q := Play(Opened(net), template, happenings);
            && CurrentUri(q.net) in q.net.store
            && Fold(first, q.landed, template) == Success(q.net.store[CurrentUri(q.net)])
            && InQueueOrder(q.landed, q.tasks)
            && (forall t | t in q.outcomes && q.outcomes[t].Completed? ::
                  t < |q.tasks| && (q.tasks[t].Nudge? || HasLanded(q.landed, t)))
  {
    var doc := PlayKeeps(Opened(net), template, first, first, happenings);
  }

  // ---------------------------------------------------------------- what an edit may not touch

  // The workflow under this id, the same in both documents.
  ghost predicate KeepsWorkflow(before: Json, after: Json, id: string) {
    && Readable(before) && Readable(after) && id in Workflow(before)
    && id in Workflow(after) && Workflow(after)[id] == Workflow(before)[id]
  }

  lemma EditKeepsTemplate(task: Task, id: string, doc: Json)
    requires EditOf(task, Some(id))(doc).Success? && Readable(doc) && id in Workflow(doc)
    ensures KeepsWorkflow(doc, EditOf(task, Some(id))(doc).value, id)
  {
    match task
    case Add(spec) =>
      if !(spec.workflowId in Workflow(doc)) {
        AddSpecification(doc, spec, Some(id));
      }
    case Remove(other) => RemoveTakesOne(doc, other, [id]);
    case Nudge =>
  }

  lemma {:induction false} FoldKeepsTemplate(first: Json, landed: seq<Landed>, id: string)
    requires Fold(first, landed, Some(id)).Success? && Readable(first) && id in Workflow(first)
    ensures KeepsWorkflow(first, Fold(first, landed, Some(id)).value, id)
    decreases |landed|
  {
    if landed != [] {
      var n := |landed| - 1;
      FoldKeepsTemplate(first, landed[..n], id);
      EditKeepsTemplate(landed[n].task, id, Fold(first, landed[..n], Some(id)).value);
    }
  }

  // Whatever is queued, the workflow every add clones stays in the document as it was:
  // no removal takes it out and no add overwrites it.
  lemma TemplateSurvives(net: Net, first: Json, id: string, happenings: seq<Happening>)
    requires Sound(net) && Names(net, CurrentUri(net), first) && Alone(happenings)
    requires Readable(first) && id in Workflow(first)
    ensures var end := Play(Opened(net), Some(id), happenings).net;
            CurrentUri(end) in end.store && KeepsWorkflow(first, end.store[CurrentUri(end)], id)
  {
    LandedEditsInQueueOrder(net, first, Some(id), happenings);
    FoldKeepsTemplate(first, Play(Opened(net), Some(id), happenings).landed, id);
  }

  // ---------------------------------------------------------------- nudges

  // A nudge reads the URI, then writes that same URI once more in a block of its own, and
  // completes exactly when both are answered; it never changes what the document says.
  lemma NudgeAnnouncesAgain(q: Queue, template: Option<string>, first: Json, doc: Json, fate: Fate)
    requires QueueInv(q, template, first, doc) && q.next < |q.tasks| && q.tasks[q.next].Nudge?
    requires fate.Take? ==> fate.ahead == [] == fate.behind
    ensures var q' := Advance(q, template, fate);
            var mined := q.job.NudgeWrite? && fate.Take? && fate.block > q.net.head;
            && q'.net.store == q.net.store
            && q'.net.log == q.net.log + (if mined then [Write(CurrentUri(q.net), fate.block, true)] else [])
            && (q'.next == q.next <==> !q.job.NudgeWrite? && fate.Take? && fate.replied)
            && (q'.next == q.next ==> q'.job == NudgeWrite(CurrentUri(q.net)))
            && (q'.next != q.next ==>
                  && q'.next == q.next + 1 && q'.job == Idle && q.next in q'.outcomes
                  && q'.outcomes[q.next] == (if mined && fate.replied then Completed(CurrentUri(q.net))
                                             else Failed(PortFailed)))
  {
  }
}
