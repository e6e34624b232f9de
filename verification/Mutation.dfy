/**
 * `LoopDeployer.mutateService` of `packages/loop-deploy/src/deployer.ts` as a machine that
 * takes one port call at a time: checkpoint, fetch, edit, pin, set, scan for overlapping
 * writes, merge, retry. The manager is a block-stamped log of URI writes, IPFS an
 * immutable store, and other writers and failing ports are events between the steps.
 */
module Mutation {
  import opened Wrappers
  import opened ServiceDoc

  type Uri = string

  // ---------------------------------------------------------------- the world the ports see

  datatype Write = Write(uri: Uri, block: nat, ours: bool)

  datatype Net = Net(store: map<Uri, Json>, log: seq<Write>, head: nat)

  // Some URI is set, and blocks are written in order, none beyond the head.
  ghost predicate Sound(net: Net) {
    && net.log != []
    && (forall i | 0 <= i < |net.log| :: net.log[i].block <= net.head)
  }

  function CurrentUri(net: Net): Uri {
    if net.log == [] then "" else net.log[|net.log| - 1].uri
  }

  // `ServiceURIUpdated` events from block `lo` to block `hi`, both included.
  function Updates(log: seq<Write>, lo: int, hi: int): seq<Uri> {
    if log == [] then []
    else
      var last := log[|log| - 1];
      Updates(log[..|log| - 1], lo, hi) + if lo <= last.block <= hi then [last.uri] else []
  }

  function Others(uris: seq<Uri>, block: nat): seq<Write> {
    seq(|uris|, i requires 0 <= i < |uris| => Write(uris[i], block, false))
  }

  // How a port call ends: refused without effect, or taken, with or without the reply
  // coming back. A write is mined in `block`, among the writes of others.
  datatype Fate =
    | Refuse
    | Take(uri: Uri, block: nat, ahead: seq<Uri>, behind: seq<Uri>, replied: bool)

  datatype Event =
    | External(mined: nat, uris: seq<Uri>)      // others write in a new block
    | Publish(published: Uri, doc: Json)        // others pin a document
    | Reply(fate: Fate)                         // the next port call is answered

  function Outside(net: Net, event: Event): Net {
    match event
    case External(block, uris) =>
      if block <= net.head then net else net.(log := net.log + Others(uris, block), head := block)
    case Publish(uri, doc) =>
      if uri in net.store then net else net.(store := net.store[uri := doc])
    case Reply(_) => net
  }

  // A pin never changes what a URI names.
  predicate CanPin(net: Net, uri: Uri, doc: Json) {
    uri in net.store ==> net.store[uri] == doc
  }

  function Pinned(net: Net, uri: Uri, doc: Json): Net {
    net.(store := net.store[uri := doc])
  }

  // A write submitted now is mined in a block after the head.
  function Written(net: Net, uri: Uri, fate: Fate): Net
    requires fate.Take?
  {
    net.(log := net.log + Others(fate.ahead, fate.block) + [Write(uri, fate.block, true)]
                + Others(fate.behind, fate.block),
         head := fate.block)
  }

  // ---------------------------------------------------------------- one call of mutateService

  type Edit = Json -> Result<Json, DocError>

  datatype Fault = PortFailed | Unfetchable | EditFailed(error: DocError) | MergeFailed(error: DocError) | Exhausted

  datatype Pc =
    | Checkpoint(attempt: nat)
    | GetUri(attempt: nat, checkpoint: nat)
    | Fetch(attempt: nat, checkpoint: nat, uri: Uri)
    | Pin(attempt: nat, checkpoint: nat, edited: Json)
    | Set(attempt: nat, checkpoint: nat, edited: Json, nextUri: Uri)
    | Scan(attempt: nat, checkpoint: nat, edited: Json, nextUri: Uri, writeBlock: nat)
    | PostUri(attempt: nat, edited: Json, nextUri: Uri, overlaps: seq<Uri>)
    | FetchClobbered(attempt: nat, edited: Json, merged: Json, rest: seq<Uri>)
    | MergePin(attempt: nat, merged: Json)
    | MergeSet(attempt: nat, mergedUri: Uri)
    | Returned(uri: Uri)
    | Threw(fault: Fault)

  const MAX_ATTEMPTS: nat := 5

  predicate Done(pc: Pc) {
    pc.Returned? || pc.Threw?
  }

  function Retry(attempt: nat): Pc {
    if attempt + 1 < MAX_ATTEMPTS then Checkpoint(attempt + 1) else Threw(Exhausted)
  }

  // The reply, or the exception a lost reply raises.
  function Then(fate: Fate, pc: Pc): Pc
    requires fate.Take?
  {
    if fate.replied then pc else Threw(PortFailed)
  }

  function AfterFetch(attempt: nat, checkpoint: nat, uri: Uri, doc: Json, edit: Edit): Pc {
    match edit(doc)
    case Failure(e) => Threw(EditFailed(e))
    case Success(edited) => if edited == doc then Returned(uri) else Pin(attempt, checkpoint, edited)
  }

  function AfterPostUri(attempt: nat, edited: Json, nextUri: Uri, overlaps: seq<Uri>, postUri: Uri): Pc {
    if postUri != nextUri then Retry(attempt)
    else if overlaps == [] then Returned(nextUri)
    else FetchClobbered(attempt, edited, edited, overlaps)
  }

  function AfterMerge(attempt: nat, edited: Json, merged: Json, rest: seq<Uri>): Pc {
    if rest != [] then FetchClobbered(attempt, edited, merged, rest)
    else if merged == edited then Retry(attempt)
    else MergePin(attempt, merged)
  }

  function Overlaps(net: Net, checkpoint: nat, writeBlock: nat): seq<Uri> {
    if writeBlock - 1 < checkpoint + 1 then [] else Updates(net.log, checkpoint + 1, writeBlock - 1)
  }

  function Step(pc: Pc, net: Net, edit: Edit, fate: Fate): (Pc, Net) {
    if Done(pc) then (pc, net)
    else if fate.Refuse? then (Threw(PortFailed), net)
    else match pc
      case Checkpoint(a) => (Then(fate, GetUri(a, net.head)), net)
      case GetUri(a, c) => (Then(fate, Fetch(a, c, CurrentUri(net))), net)
      case Fetch(a, c, uri) =>
        if uri !in net.store then (Threw(Unfetchable), net)
        else (Then(fate, AfterFetch(a, c, uri, net.store[uri], edit)), net)
      case Pin(a, c, edited) =>
        if !CanPin(net, fate.uri, edited) then (Threw(PortFailed), net)
        else (Then(fate, Set(a, c, edited, fate.uri)), Pinned(net, fate.uri, edited))
      case Set(a, c, edited, nextUri) =>
        if fate.block <= net.head then (Threw(PortFailed), net)
        else (Then(fate, Scan(a, c, edited, nextUri, fate.block)), Written(net, nextUri, fate))
      case Scan(a, c, edited, nextUri, b) =>
        (Then(fate, PostUri(a, edited, nextUri, Overlaps(net, c, b))), net)
      case PostUri(a, edited, nextUri, overlaps) =>
        (Then(fate, AfterPostUri(a, edited, nextUri, overlaps, CurrentUri(net))), net)
      case FetchClobbered(a, edited, merged, rest) =>
        if rest == [] || rest[0] !in net.store then (Threw(Unfetchable), net)
        else (match MergeMissing(merged, net.store[rest[0]])
              case Failure(e) => (Then(fate, Threw(MergeFailed(e))), net)
              case Success(more) => (Then(fate, AfterMerge(a, edited, more, rest[1..])), net))
      case MergePin(a, merged) =>
        if !CanPin(net, fate.uri, merged) then (Threw(PortFailed), net)
        else (Then(fate, MergeSet(a, fate.uri)), Pinned(net, fate.uri, merged))
      case MergeSet(a, uri) =>
        if fate.block <= net.head then (Threw(PortFailed), net)
        else (Then(fate, Retry(a)), Written(net, uri, fate))
      case _ => (pc, net)
  }

  // The call under a script of events. It stops when it returns or throws; a script
  // that ends first is a process that died there.
  function Run(pc: Pc, net: Net, edit: Edit, events: seq<Event>): (Pc, Net, seq<Event>)
    decreases |events|
  {
    if Done(pc) || events == [] then (pc, net, events)
    else if events[0].Reply? then
      var next := Step(pc, net, edit, events[0].fate);
      Run(next.0, next.1, edit, events[1..])
    else Run(pc, Outside(net, events[0]), edit, events[1..])
  }

  // A port call that is refused or whose reply is lost raises, and only a write or a pin
  // that went through has changed anything by then.
  lemma LostRepliesThrow(pc: Pc, net: Net, edit: Edit, fate: Fate)
    requires !Done(pc) && (fate.Refuse? || !fate.replied)
    ensures var (pc', net') := Step(pc, net, edit, fate);
            && pc'.Threw?
            && (fate.Refuse? ==> net' == net)
            && (net'.log != net.log ==> (pc.Set? || pc.MergeSet?) && fate.block > net.head)
            && (net'.store != net.store ==> pc.Pin? || pc.MergePin?)
  {
  }

  // ---------------------------------------------------------------- safety, whatever others do

  // The URI was the manager's at some moment since the log had n0 entries.
  ghost predicate WasCurrent(log: seq<Write>, n0: nat, uri: Uri) {
    exists i :: n0 - 1 <= i < |log| && 0 <= i && log[i].uri == uri
  }

  ghost predicate Reflects(edit: Edit, doc: Json) {
    exists base :: edit(base) == Success(doc)
  }

  function OurWrites(log: seq<Write>, n0: nat): nat {
    if |log| <= n0 then 0
    else OurWrites(log[..|log| - 1], n0) + if log[|log| - 1].ours then 1 else 0
  }

  function Attempts(pc: Pc): nat {
    if Done(pc) then MAX_ATTEMPTS - 1 else pc.attempt
  }

  function WriteBudget(pc: Pc): nat {
    if Done(pc) then 2 * MAX_ATTEMPTS
    else if pc.Scan? || pc.PostUri? || pc.FetchClobbered? || pc.MergePin? || pc.MergeSet? then 2 * pc.attempt + 1
    else 2 * pc.attempt
  }

  // What the attempts behind a call have written at the least, one write each.
  function WritesDone(pc: Pc): nat {
    if pc == Threw(Exhausted) then MAX_ATTEMPTS
    else if Done(pc) then 0
    else if pc.Scan? || pc.PostUri? || pc.FetchClobbered? || pc.MergePin? || pc.MergeSet? then pc.attempt + 1
    else pc.attempt
  }

  ghost predicate Names(net: Net, uri: Uri, doc: Json) {
    uri in net.store && net.store[uri] == doc
  }

  ghost predicate Safe(pc: Pc, net: Net, edit: Edit, n0: nat) {
    && 1 <= n0 <= |net.log|
    && Attempts(pc) < MAX_ATTEMPTS
    && WritesDone(pc) <= OurWrites(net.log, n0) <= WriteBudget(pc)
    && match pc
       case Fetch(_, _, uri) => WasCurrent(net.log, n0, uri)
       case Pin(_, _, edited) => Reflects(edit, edited)
       case Set(_, _, edited, next) => Reflects(edit, edited) && Names(net, next, edited)
       case Scan(_, _, edited, next, _) => Reflects(edit, edited) && Names(net, next, edited)
       case PostUri(_, edited, next, _) => Reflects(edit, edited) && Names(net, next, edited)
       case Returned(uri) => WasCurrent(net.log, n0, uri) && uri in net.store && Reflects(edit, net.store[uri])
       case _ => true
  }

  // The log only grows, and of the new entries at most `ours` are ours.
  ghost predicate Grows(net: Net, next: Net, ours: nat) {
    && |net.log| <= |next.log| && next.log[..|net.log|] == net.log
    && OurWrites(next.log, |net.log|) <= ours
    && (forall uri | uri in net.store :: uri in next.store && next.store[uri] == net.store[uri])
  }

  lemma {:induction false} OurWritesSplit(log: seq<Write>, n0: nat, m: nat)
    requires n0 <= m <= |log|
    ensures OurWrites(log, n0) == OurWrites(log[..m], n0) + OurWrites(log, m)
    decreases |log|
  {
    if |log| == m {
      assert log[..m] == log;
    } else {
      OurWritesSplit(log[..|log| - 1], n0, m);
      assert log[..|log| - 1][..m] == log[..m];
    }
  }

  lemma {:induction false} OthersAreNotOurs(log: seq<Write>, uris: seq<Uri>, block: nat)
    ensures OurWrites(log + Others(uris, block), |log|) == 0
    decreases |uris|
  {
    if uris == [] {
      assert log + Others(uris, block) == log;
    } else {
      var n := |uris| - 1;
      var all := log + Others(uris, block);
      assert all[..|all| - 1] == log + Others(uris[..n], block);
      OthersAreNotOurs(log, uris[..n], block);
    }
  }

  // Others' writes are mined and their documents stay.
  lemma OutsideGrows(net: Net, event: Event)
    ensures Grows(net, Outside(net, event), 0)
    ensures event.External? && event.mined > net.head && event.uris != [] ==>
              CurrentUri(Outside(net, event)) == event.uris[|event.uris| - 1]
    ensures event.Publish? && event.published !in net.store ==> Names(Outside(net, event), event.published, event.doc)
  {
    match event
    case External(block, uris) => OthersAreNotOurs(net.log, uris, block);
    case _ =>
  }

  lemma WrittenGrows(net: Net, uri: Uri, fate: Fate)
    requires fate.Take?
    ensures Grows(net, Written(net, uri, fate), 1) && OurWrites(Written(net, uri, fate).log, |net.log|) == 1
    ensures var log := Written(net, uri, fate).log;
            |net.log| + |fate.ahead| < |log| && log[|net.log| + |fate.ahead|] == Write(uri, fate.block, true)
  {
    var front := net.log + Others(fate.ahead, fate.block);
    var middle := front + [Write(uri, fate.block, true)];
    var all := middle + Others(fate.behind, fate.block);
    OthersAreNotOurs(net.log, fate.ahead, fate.block);
    OthersAreNotOurs(middle, fate.behind, fate.block);
    assert middle[..|middle| - 1] == front;
    OurWritesSplit(all, |net.log|, |middle|);
    assert all[..|middle|] == middle;
  }

  lemma GrowsKeepsCount(net: Net, next: Net, n0: nat, ours: nat)
    requires n0 <= |net.log| && Grows(net, next, ours)
    ensures OurWrites(next.log, n0) == OurWrites(net.log, n0) + OurWrites(next.log, |net.log|)
    ensures forall uri | WasCurrent(net.log, n0, uri) :: WasCurrent(next.log, n0, uri)
  {
    OurWritesSplit(next.log, n0, |net.log|);
    forall uri | WasCurrent(net.log, n0, uri) ensures WasCurrent(next.log, n0, uri) {
      var i :| n0 - 1 <= i < |net.log| && 0 <= i && net.log[i].uri == uri;
      assert next.log[i] == next.log[..|net.log|][i];
    }
  }

  lemma OutsideSafe(pc: Pc, net: Net, edit: Edit, n0: nat, event: Event)
    requires Safe(pc, net, edit, n0) && !event.Reply?
    ensures Safe(pc, Outside(net, event), edit, n0)
  {
    OutsideGrows(net, event);
    GrowsKeepsCount(net, Outside(net, event), n0, 0);
  }

  lemma WriteSafe(pc: Pc, net: Net, edit: Edit, n0: nat, fate: Fate)
    requires Safe(pc, net, edit, n0) && (pc.Set? || pc.MergeSet?) && fate.Take? && fate.block > net.head
    ensures var next := Step(pc, net, edit, fate); Safe(next.0, next.1, edit, n0)
  {
    var uri := if pc.Set? then pc.nextUri else pc.mergedUri;
    WrittenGrows(net, uri, fate);
    GrowsKeepsCount(net, Written(net, uri, fate), n0, 1);
  }

  lemma HeadIsCurrent(net: Net, n0: nat)
    requires 1 <= n0 <= |net.log|
    ensures WasCurrent(net.log, n0, CurrentUri(net))
  {
    assert net.log[|net.log| - 1].uri == CurrentUri(net);
  }

  lemma FetchSafe(pc: Pc, net: Net, edit: Edit, n0: nat, fate: Fate)
    requires Safe(pc, net, edit, n0) && pc.Fetch?
    ensures var next := Step(pc, net, edit, fate); Safe(next.0, next.1, edit, n0)
  {
    if pc.uri in net.store {
      assert edit(net.store[pc.uri]).Success? ==> Reflects(edit, edit(net.store[pc.uri]).value);
    }
  }

  lemma ReadSafe(pc: Pc, net: Net, edit: Edit, n0: nat, fate: Fate)
    requires Safe(pc, net, edit, n0) && (pc.Checkpoint? || pc.GetUri? || pc.Scan? || pc.PostUri?)
    ensures var next := Step(pc, net, edit, fate); Safe(next.0, next.1, edit, n0)
  {
    HeadIsCurrent(net, n0);
  }

  lemma StepSafe(pc: Pc, net: Net, edit: Edit, n0: nat, fate: Fate)
    requires Safe(pc, net, edit, n0)
    ensures var next := Step(pc, net, edit, fate); Safe(next.0, next.1, edit, n0)
  {
    if pc.Set? || pc.MergeSet? {
      if fate.Take? && fate.block > net.head {
        WriteSafe(pc, net, edit, n0, fate);
      }
    } else if pc.Checkpoint? || pc.GetUri? || pc.Scan? || pc.PostUri? {
      ReadSafe(pc, net, edit, n0, fate);
    } else if pc.Fetch? {
      FetchSafe(pc, net, edit, n0, fate);
    }
  }

  lemma {:induction false} RunSafe(pc: Pc, net: Net, edit: Edit, n0: nat, events: seq<Event>)
    requires Safe(pc, net, edit, n0)
    ensures var end := Run(pc, net, edit, events); Safe(end.0, end.1, edit, n0)
    decreases |events|
  {
    if !Done(pc) && events != [] {
      if events[0].Reply? {
        StepSafe(pc, net, edit, n0, events[0].fate);
        var next := Step(pc, net, edit, events[0].fate);
        RunSafe(next.0, next.1, edit, n0, events[1..]);
      } else {
        OutsideSafe(pc, net, edit, n0, events[0]);
        RunSafe(pc, Outside(net, events[0]), edit, n0, events[1..]);
      }
    }
  }

  // Whatever other writers and failing ports do: a call that returns names a document
  // that is a result of its edit, at a URI that was the manager's during the call, and
  // no call writes more than ten times or passes five attempts. It gives up only with
  // all five made, each of which wrote.
  lemma MutationIsSafe(net: Net, edit: Edit, events: seq<Event>)
    requires net.log != []
    ensures var end := Run(Checkpoint(0), net, edit, events);
            && OurWrites(end.1.log, |net.log|) <= 10
            && (!Done(end.0) ==> end.0.attempt < 5)
            && (end.0 == Threw(Exhausted) ==> 5 <= OurWrites(end.1.log, |net.log|))
            && (end.0.Returned? ==>
                && WasCurrent(end.1.log, |net.log|, end.0.uri)
                && end.0.uri in end.1.store
                && Reflects(edit, end.1.store[end.0.uri]))
  {
    assert OurWrites(net.log, |net.log|) == 0;
    RunSafe(Checkpoint(0), net, edit, |net.log|, events);
  }
}
