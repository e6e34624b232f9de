/**
 * What a mutation that adds one workflow does to the writes of others, whatever they write
 * and whenever, over all its attempts. A write that one of ours replaced survives, in a write
 * of ours that is current at the end or that somebody else replaced, unless it falls in one
 * of three windows: mined in the block of an attempt's first write, ahead of it; mined
 * between that and the attempt's merge; or replaced by an attempt that was itself overtaken
 * before it looked.
 */
module Attempts {
  import opened Wrappers
  import opened ServiceDoc
  import opened Mutation
  import opened ConcurrentAdditions

  // ---------------------------------------------------------------- the attempts of a run

  // An attempt: its checkpoint, the length of the log then, the entry it read its base
  // from, the entry it wrote, and the document it wrote.
  datatype Attempt = Attempt(checkpoint: nat, n0: nat, base: nat, mine: nat, edited: Json)

  // How an attempt that wrote went on: its re-read found the URI of entry `at`, or it left
  // entry `last` as its final write.
  datatype Ending = Overtaken(at: nat) | Closed(last: nat)

  datatype Turn = Turn(h: Attempt, end: Ending)

  // The attempt under way, and the ones before it that wrote.
  datatype Notes = Notes(h: Attempt, turns: seq<Turn>) {
    function Ended(end: Ending): Notes {
      Notes(h, turns + [Turn(h, end)])
    }
  }

  // What a port call adds to the notes.
  ghost function Noted(pc: Pc, net: Net, edit: Edit, notes: Notes, fate: Fate): Notes {
    if Done(pc) || fate.Refuse? then notes
    else match pc
      case Checkpoint(_) => notes.(h := Attempt(net.head, |net.log|, 0, 0, Null))
      case GetUri(_, _) => if net.log == [] then notes else notes.(h := notes.h.(base := |net.log| - 1))
      case Fetch(_, _, uri) =>
        if uri in net.store && edit(net.store[uri]).Success? then
          notes.(h := notes.h.(edited := edit(net.store[uri]).value))
        else notes
      case Set(_, _, _, _) =>
        if fate.block > net.head then notes.(h := notes.h.(mine := |net.log| + |fate.ahead|)) else notes
      case PostUri(_, _, nextUri, overlaps) =>
        if CurrentUri(net) != nextUri && net.log != [] then notes.Ended(Overtaken(|net.log| - 1))
        else if overlaps == [] then notes.Ended(Closed(notes.h.mine))
        else notes
      case FetchClobbered(_, edited, merged, rest) =>
        if |rest| == 1 && rest[0] in net.store && MergeMissing(merged, net.store[rest[0]]) == Success(edited) then
          notes.Ended(Closed(notes.h.mine))
        else notes
      case MergeSet(_, _) =>
        if fate.block > net.head then notes.Ended(Closed(|net.log| + |fate.ahead|)) else notes
      case _ => notes
  }

  ghost function Trace(pc: Pc, net: Net, edit: Edit, notes: Notes, events: seq<Event>): Notes
    decreases |events|
  {
    if Done(pc) || events == [] then notes
    else if events[0].Reply? then
      var next := Step(pc, net, edit, events[0].fate);
      Trace(next.0, next.1, edit, Noted(pc, net, edit, notes, events[0].fate), events[1..])
    else Trace(pc, Outside(net, events[0]), edit, notes, events[1..])
  }

  const START := Notes(Attempt(0, 0, 0, 0, Null), [])

  // The attempts of a call that wrote and went on.
  ghost function Turns(net: Net, edit: Edit, events: seq<Event>): seq<Turn> {
    Trace(Checkpoint(0), net, edit, START, events).turns
  }

  // Under the script the call returns `uri` and leaves `after`, and these attempts wrote.
  ghost predicate Call(net: Net, edit: Edit, events: seq<Event>, uri: Uri, after: Net, turns: seq<Turn>) {
    && Run(Checkpoint(0), net, edit, events).0 == Returned(uri)
    && Run(Checkpoint(0), net, edit, events).1 == after
    && Turns(net, edit, events) == turns
  }

  // ---------------------------------------------------------------- what a turn says of the log

  // Since its checkpoint, nobody but others wrote, in later blocks.
  ghost predicate Before(log: seq<Write>, h: Attempt, until: nat)
    requires until <= |log|
  {
    && 1 <= h.n0 <= until
    && (forall i | 0 <= i < h.n0 :: log[i].block <= h.checkpoint)
    && (forall i | h.n0 <= i < until :: !log[i].ours && h.checkpoint < log[i].block)
  }

  ghost predicate Based(store: map<Uri, Json>, log: seq<Write>, edit: Edit, h: Attempt) {
    && h.n0 - 1 <= h.base < |log|
    && log[h.base].uri in store
    && edit(store[log[h.base].uri]) == Success(h.edited)
    && h.edited != store[log[h.base].uri]
  }

  // The attempt's first write: the edited base, over whatever stood there.
  ghost predicate Opened(store: map<Uri, Json>, log: seq<Write>, edit: Edit, h: Attempt) {
    && h.mine < |log| && log[h.mine].ours
    && Before(log, h, h.mine) && (forall i | h.n0 <= i < h.mine :: log[i].block <= log[h.mine].block)
    && Based(store, log, edit, h) && h.base < h.mine
    && log[h.mine].uri in store && store[log[h.mine].uri] == h.edited
  }

  // The documents written strictly between the checkpoint and our block.
  ghost function Between(log: seq<Write>, h: Attempt): seq<Uri>
    requires h.mine < |log|
  {
    var b := log[h.mine].block;
    if b - 1 < h.checkpoint + 1 then [] else Updates(log[..h.mine + 1], h.checkpoint + 1, b - 1)
  }

  ghost predicate OthersOnly(log: seq<Write>, lo: int, hi: int) {
    forall i | 0 <= i < |log| && lo < i < hi :: !log[i].ours
  }

  // An overtaken turn is followed by another URI of others; a closed one ends on a write of ours.
  ghost predicate Shaped(store: map<Uri, Json>, log: seq<Write>, edit: Edit, t: Turn) {
    && Opened(store, log, edit, t.h)
    && match t.end
       case Overtaken(at) =>
         t.h.mine < at < |log| && log[at].uri != log[t.h.mine].uri && OthersOnly(log, t.h.mine, at + 1)
       case Closed(last) => t.h.mine <= last < |log| && log[last].ours && OthersOnly(log, t.h.mine, last)
  }

  // The last document of a closed turn has collected what was written strictly between.
  ghost predicate Accounts(store: map<Uri, Json>, log: seq<Write>, edit: Edit, t: Turn) {
    && Shaped(store, log, edit, t)
    && (t.end.Closed? ==>
          && log[t.end.last].uri in store
          && Collected(store, Between(log, t.h), store[log[t.end.last].uri], t.h.edited))
  }

  ghost predicate Wrote(t: Turn, m: nat) {
    m == t.h.mine || t.end == Closed(m)
  }

  ghost predicate ByATurn(turns: seq<Turn>, m: nat) {
    exists t | t in turns :: Wrote(t, m)
  }

  // No two turns share their first write, and none has `open`.
  ghost predicate Apart(turns: seq<Turn>, open: int) {
    && (forall t | t in turns :: t.h.mine != open)
    && (forall t, u | t in turns && u in turns && t.h.mine == u.h.mine :: t == u)
  }

  // Every write of ours since the log had n0 entries is one of a turn, but for `open`.
  ghost predicate AllAccounted(net: Net, edit: Edit, n0: nat, turns: seq<Turn>, open: int) {
    && (forall t | t in turns :: n0 <= t.h.n0 && Accounts(net.store, net.log, edit, t))
    && Apart(turns, open)
    && (forall m: nat {:trigger ByATurn(turns, m)} | n0 <= m < |net.log| && m != open && net.log[m].ours ::
          ByATurn(turns, m))
  }

  // ---------------------------------------------------------------- what holds between port calls

  ghost predicate Early(net: Net, edit: Edit, n0: nat, notes: Notes) {
    && AllAccounted(net, edit, n0, notes.turns, -1)
    && n0 <= notes.h.n0 <= |net.log| && notes.h.checkpoint <= net.head
    && Before(net.log, notes.h, |net.log|)
  }

  ghost predicate Late(net: Net, edit: Edit, n0: nat, notes: Notes) {
    && AllAccounted(net, edit, n0, notes.turns, notes.h.mine)
    && n0 <= notes.h.n0 && Opened(net.store, net.log, edit, notes.h)
    && (forall i | notes.h.mine < i < |net.log| :: !net.log[i].ours && net.log[notes.h.mine].block <= net.log[i].block)
  }

  ghost predicate Merging(net: Net, h: Attempt, merged: Json, rest: seq<Uri>) {
    && h.mine < |net.log|
    && var all := Between(net.log, h);
    && |rest| <= |all|
    && all[|all| - |rest|..] == rest
    && Collected(net.store, all[..|all| - |rest|], merged, h.edited)
  }

  // Entry p has the URI, and what came later is not ours.
  ghost predicate ReadAt(log: seq<Write>, n0: nat, uri: Uri, p: nat) {
    n0 <= p + 1 <= |log| && log[p].uri == uri && OthersOnly(log, p, |log|)
  }

  ghost predicate Inv(pc: Pc, net: Net, edit: Edit, n0: nat, notes: Notes) {
    && Sound(net) && 1 <= n0 <= |net.log|
    && var h := notes.h;
    match pc
    case Threw(_) => true
    case Returned(uri) => AllAccounted(net, edit, n0, notes.turns, -1) && exists p: nat :: ReadAt(net.log, n0, uri, p)
    case Checkpoint(_) => AllAccounted(net, edit, n0, notes.turns, -1)
    case GetUri(_, c) => Early(net, edit, n0, notes) && c == h.checkpoint
    case Fetch(_, c, uri) =>
      Early(net, edit, n0, notes) && c == h.checkpoint && h.n0 - 1 <= h.base < |net.log| && net.log[h.base].uri == uri
    case Pin(_, c, edited) =>
      Early(net, edit, n0, notes) && c == h.checkpoint && Based(net.store, net.log, edit, h) && edited == h.edited
    case Set(_, c, edited, next) =>
      && Early(net, edit, n0, notes) && c == h.checkpoint && Based(net.store, net.log, edit, h) && edited == h.edited
      && Names(net, next, edited)
    case Scan(_, c, edited, next, b) =>
      && Late(net, edit, n0, notes) && c == h.checkpoint && edited == h.edited
      && net.log[h.mine] == Write(next, b, true)
    case PostUri(_, edited, next, overlaps) =>
      && Late(net, edit, n0, notes) && edited == h.edited
      && net.log[h.mine].uri == next && overlaps == Between(net.log, h)
    case FetchClobbered(_, edited, merged, rest) =>
      Late(net, edit, n0, notes) && edited == h.edited && Merging(net, h, merged, rest)
    case MergePin(_, merged) =>
      Late(net, edit, n0, notes) && Collected(net.store, Between(net.log, h), merged, h.edited)
    case MergeSet(_, uri) =>
      && Late(net, edit, n0, notes) && uri in net.store
      && Collected(net.store, Between(net.log, h), net.store[uri], h.edited)
  }

  // ---------------------------------------------------------------- a longer log, a larger store

  ghost predicate Extends(net: Net, more: Net) {
    && StoreGrows(net.store, more.store)
    && |net.log| <= |more.log|
    && (forall i | 0 <= i < |net.log| :: more.log[i] == net.log[i])
  }

  lemma OpenedStays(net: Net, more: Net, edit: Edit, h: Attempt)
    requires Extends(net, more) && Opened(net.store, net.log, edit, h)
    ensures Opened(more.store, more.log, edit, h) && Between(more.log, h) == Between(net.log, h)
  {
    assert more.log[..h.mine + 1] == net.log[..h.mine + 1];
  }

  lemma AccountsStay(net: Net, more: Net, edit: Edit, t: Turn)
    requires Extends(net, more) && Accounts(net.store, net.log, edit, t)
    ensures Accounts(more.store, more.log, edit, t)
  {
    OpenedStays(net, more, edit, t.h);
    if t.end.Closed? {
      CollectedStable(net.store, more.store, Between(net.log, t.h), net.store[net.log[t.end.last].uri], t.h.edited);
    }
  }

  lemma AllStay(net: Net, more: Net, edit: Edit, n0: nat, turns: seq<Turn>, open: int, left: int)
    requires Extends(net, more) && AllAccounted(net, edit, n0, turns, open)
    requires open == left || (open == -1 && left >= |net.log|)
    requires forall i | |net.log| <= i < |more.log| && i != left :: !more.log[i].ours
    ensures AllAccounted(more, edit, n0, turns, left)
  {
    forall t | t in turns ensures Accounts(more.store, more.log, edit, t) {
      AccountsStay(net, more, edit, t);
    }
    forall m: nat | n0 <= m < |more.log| && m != left && more.log[m].ours ensures ByATurn(turns, m) {
      assert net.log[m].ours;
    }
  }

  // What others do: they append writes in later blocks and pin documents.
  ghost predicate Foreign(net: Net, more: Net) {
    && Extends(net, more) && Sound(more) && net.head <= more.head
    && (forall i | |net.log| <= i < |more.log| :: !more.log[i].ours && net.head < more.log[i].block)
  }

  lemma OutsideIsForeign(net: Net, event: Event)
    requires Sound(net) && !event.Reply?
    ensures Foreign(net, Outside(net, event))
  {
  }

  lemma EarlyStays(net: Net, more: Net, edit: Edit, n0: nat, notes: Notes)
    requires Foreign(net, more) && Early(net, edit, n0, notes)
    ensures Early(more, edit, n0, notes)
    ensures Based(net.store, net.log, edit, notes.h) ==> Based(more.store, more.log, edit, notes.h)
  {
    AllStay(net, more, edit, n0, notes.turns, -1, -1);
  }

  lemma LateStays(net: Net, more: Net, edit: Edit, n0: nat, notes: Notes)
    requires Sound(net) && Foreign(net, more) && Late(net, edit, n0, notes)
    ensures Late(more, edit, n0, notes) && Between(more.log, notes.h) == Between(net.log, notes.h)
  {
    AllStay(net, more, edit, n0, notes.turns, notes.h.mine, notes.h.mine);
    OpenedStays(net, more, edit, notes.h);
  }

  lemma ForeignKeeps(pc: Pc, net: Net, more: Net, edit: Edit, n0: nat, notes: Notes)
    requires Inv(pc, net, edit, n0, notes) && Foreign(net, more) && !Done(pc)
    ensures Inv(pc, more, edit, n0, notes)
  {
    var h := notes.h;
    if pc.Checkpoint? {
      AllStay(net, more, edit, n0, notes.turns, -1, -1);
    } else if pc.GetUri? || pc.Fetch? || pc.Pin? || pc.Set? {
      EarlyStays(net, more, edit, n0, notes);
    } else {
      LateStays(net, more, edit, n0, notes);
      var all := Between(net.log, h);
      if pc.FetchClobbered? {
        CollectedStable(net.store, more.store, all[..|all| - |pc.rest|], pc.merged, h.edited);
      } else if pc.MergePin? || pc.MergeSet? {
        CollectedStable(net.store, more.store, all,
                        if pc.MergePin? then pc.merged else net.store[pc.mergedUri], h.edited);
      }
    }
  }

  // ---------------------------------------------------------------- what a port call keeps

  lemma OneMoreApart(turns: seq<Turn>, t: Turn)
    requires Apart(turns, t.h.mine)
    ensures Apart(turns + [t], -1)
  {
  }

  lemma OneMoreWrote(turns: seq<Turn>, t: Turn, m: nat)
    requires ByATurn(turns, m) || Wrote(t, m)
    ensures ByATurn(turns + [t], m)
  {
    if Wrote(t, m) {
      assert t in turns + [t];
    } else {
      var u :| u in turns && Wrote(u, m);
      assert u in turns + [t];
    }
  }

  lemma OneMoreTurn(net: Net, edit: Edit, n0: nat, notes: Notes, end: Ending)
    requires Late(net, edit, n0, notes)
    requires Accounts(net.store, net.log, edit, Turn(notes.h, end))
    ensures AllAccounted(net, edit, n0, notes.Ended(end).turns, -1)
  {
    var t := Turn(notes.h, end);
    OneMoreApart(notes.turns, t);
    forall m: nat | n0 <= m < |net.log| && net.log[m].ours ensures ByATurn(notes.Ended(end).turns, m) {
      assert m != notes.h.mine ==> ByATurn(notes.turns, m);
      OneMoreWrote(notes.turns, t, m);
    }
  }

  lemma EditedReadable(store: map<Uri, Json>, log: seq<Write>, edit: Edit, id: string, h: Attempt)
    requires AddsOne(edit, id) && Based(store, log, edit, h)
    ensures Readable(store[log[h.base].uri]) && Readable(h.edited) && id !in Workflow(store[log[h.base].uri])
    ensures id in Workflow(h.edited)
  {
    assert edit(store[log[h.base].uri]).Success?;
  }

  lemma NothingCollected(store: map<Uri, Json>, edited: Json)
    requires Readable(edited)
    ensures Collected(store, [], edited, edited)
  {
    assert AllReadable(store, []) && IdsIn(store, []) == {};
  }

  lemma ReadStepKeeps(pc: Pc, net: Net, edit: Edit, n0: nat, notes: Notes, fate: Fate)
    requires (pc.Checkpoint? || pc.GetUri?) && Inv(pc, net, edit, n0, notes)
    requires fate.Take?
    ensures var next := Step(pc, net, edit, fate); Inv(next.0, next.1, edit, n0, Noted(pc, net, edit, notes, fate))
  {
  }

  lemma FetchStepKeeps(pc: Pc, net: Net, edit: Edit, n0: nat, notes: Notes, fate: Fate)
    requires pc.Fetch? && Inv(pc, net, edit, n0, notes)
    requires fate.Take?
    ensures var next := Step(pc, net, edit, fate); Inv(next.0, next.1, edit, n0, Noted(pc, net, edit, notes, fate))
  {
    var next := Step(pc, net, edit, fate);
    if next.0.Returned? {
      assert ReadAt(net.log, n0, pc.uri, notes.h.base);
    }
  }

  lemma PinStepKeeps(pc: Pc, net: Net, edit: Edit, n0: nat, notes: Notes, fate: Fate)
    requires (pc.Pin? || pc.MergePin?) && Inv(pc, net, edit, n0, notes)
    requires fate.Take?
    ensures var next := Step(pc, net, edit, fate); Inv(next.0, next.1, edit, n0, Noted(pc, net, edit, notes, fate))
  {
    var next := Step(pc, net, edit, fate);
    if !next.0.Threw? {
      ForeignKeeps(pc, net, next.1, edit, n0, notes);
    }
  }

  // `more` is `net` after our write at entry w, among writes of others in its block.
  ghost predicate OneWrite(net: Net, more: Net, w: nat, write: Write) {
    && Extends(net, more) && Sound(more) && more.store == net.store && write.ours
    && |net.log| <= w < |more.log| && more.log[w] == write
    && (forall i | |net.log| <= i < |more.log| :: more.log[i].block == write.block && (more.log[i].ours <==> i == w))
  }

  lemma WrittenIsOneWrite(net: Net, uri: Uri, fate: Fate)
    requires Sound(net) && fate.Take? && fate.block > net.head
    ensures OneWrite(net, Written(net, uri, fate), |net.log| + |fate.ahead|, Write(uri, fate.block, true))
  {
  }

  // Our first write ends the early part of an attempt.
  lemma WriteOpens(net: Net, edit: Edit, n0: nat, notes: Notes, more: Net, w: nat, write: Write)
    requires Sound(net) && net.head < write.block && Early(net, edit, n0, notes)
    requires Based(net.store, net.log, edit, notes.h) && Names(net, write.uri, notes.h.edited)
    requires OneWrite(net, more, w, write)
    ensures Sound(more) && Late(more, edit, n0, notes.(h := notes.h.(mine := w))) && more.log[w] == write
  {
    AllStay(net, more, edit, n0, notes.turns, -1, w);
  }

  lemma SetStepKeeps(pc: Pc, net: Net, edit: Edit, n0: nat, notes: Notes, fate: Fate)
    requires pc.Set? && Inv(pc, net, edit, n0, notes)
    requires fate.Take?
    ensures var next := Step(pc, net, edit, fate); Inv(next.0, next.1, edit, n0, Noted(pc, net, edit, notes, fate))
  {
    if fate.block > net.head {
      WrittenIsOneWrite(net, pc.nextUri, fate);
      WriteOpens(net, edit, n0, notes, Written(net, pc.nextUri, fate), |net.log| + |fate.ahead|,
                 Write(pc.nextUri, fate.block, true));
    }
  }

  lemma {:induction false} LaterBlocksAreUnseen(log: seq<Write>, n: nat, lo: int, hi: int)
    requires n <= |log| && forall i | n <= i < |log| :: hi < log[i].block
    ensures Updates(log, lo, hi) == Updates(log[..n], lo, hi)
    decreases |log|
  {
    if n == |log| {
      assert log[..n] == log;
    } else {
      var front := log[..|log| - 1];
      LaterBlocksAreUnseen(front, n, lo, hi);
      assert front[..n] == log[..n];
    }
  }

  lemma ScanSees(net: Net, edit: Edit, n0: nat, notes: Notes)
    requires Late(net, edit, n0, notes)
    ensures Overlaps(net, notes.h.checkpoint, net.log[notes.h.mine].block) == Between(net.log, notes.h)
  {
    var h := notes.h;
    LaterBlocksAreUnseen(net.log, h.mine + 1, h.checkpoint + 1, net.log[h.mine].block - 1);
  }

  lemma ScanStepKeeps(pc: Pc, net: Net, edit: Edit, n0: nat, notes: Notes, fate: Fate)
    requires pc.Scan? && Inv(pc, net, edit, n0, notes)
    requires fate.Take?
    ensures var next := Step(pc, net, edit, fate); Inv(next.0, next.1, edit, n0, Noted(pc, net, edit, notes, fate))
  {
    ScanSees(net, edit, n0, notes);
  }

  // What the re-read leads to.
  lemma RereadKeeps(a: nat, net: Net, edit: Edit, n0: nat, notes: Notes, next: Uri, overlaps: seq<Uri>)
    requires Sound(net) && 1 <= n0 && Late(net, edit, n0, notes) && Readable(notes.h.edited)
    requires net.log[notes.h.mine].uri == next && overlaps == Between(net.log, notes.h)
    ensures Inv(AfterPostUri(a, notes.h.edited, next, overlaps, CurrentUri(net)), net, edit, n0,
                if CurrentUri(net) != next then notes.Ended(Overtaken(|net.log| - 1))
                else if overlaps == [] then notes.Ended(Closed(notes.h.mine))
                else notes)
  {
    var h := notes.h;
    NothingCollected(net.store, h.edited);
    if CurrentUri(net) != next {
      OneMoreTurn(net, edit, n0, notes, Overtaken(|net.log| - 1));
    } else if overlaps == [] {
      OneMoreTurn(net, edit, n0, notes, Closed(h.mine));
      assert ReadAt(net.log, n0, next, |net.log| - 1);
    } else {
      assert overlaps[..0] == [] && overlaps[0..] == overlaps;
    }
  }

  lemma PostUriIs(pc: Pc, net: Net, edit: Edit, notes: Notes, fate: Fate)
    requires pc.PostUri? && fate.Take? && net.log != []
    ensures Step(pc, net, edit, fate)
            == (Then(fate, AfterPostUri(pc.attempt, pc.edited, pc.nextUri, pc.overlaps, CurrentUri(net))), net)
    ensures Noted(pc, net, edit, notes, fate)
            == if CurrentUri(net) != pc.nextUri then notes.Ended(Overtaken(|net.log| - 1))
               else if pc.overlaps == [] then notes.Ended(Closed(notes.h.mine))
               else notes
  {
  }

  lemma ThenKeeps(pc: Pc, net: Net, edit: Edit, n0: nat, notes: Notes, fate: Fate)
    requires Inv(pc, net, edit, n0, notes) && fate.Take?
    ensures Inv(Then(fate, pc), net, edit, n0, notes)
  {
  }

  lemma PostUriStepKeeps(pc: Pc, net: Net, edit: Edit, id: string, n0: nat, notes: Notes, fate: Fate)
    requires AddsOne(edit, id) && pc.PostUri? && Inv(pc, net, edit, n0, notes)
    requires fate.Take?
    ensures var next := Step(pc, net, edit, fate); Inv(next.0, next.1, edit, n0, Noted(pc, net, edit, notes, fate))
  {
    EditedReadable(net.store, net.log, edit, id, notes.h);
    RereadKeeps(pc.attempt, net, edit, n0, notes, pc.nextUri, pc.overlaps);
    PostUriIs(pc, net, edit, notes, fate);
    ThenKeeps(AfterPostUri(pc.attempt, pc.edited, pc.nextUri, pc.overlaps, CurrentUri(net)), net, edit, n0,
              Noted(pc, net, edit, notes, fate), fate);
  }

  // One clobbered document fetched and merged in.
  lemma OneMerged(net: Net, h: Attempt, merged: Json, rest: seq<Uri>, more: Json)
    requires Merging(net, h, merged, rest)
    requires rest != [] && rest[0] in net.store && MergeMissing(merged, net.store[rest[0]]) == Success(more)
    ensures if |rest| == 1 then Collected(net.store, Between(net.log, h), more, h.edited)
            else Merging(net, h, more, rest[1..])
  {
    var all := Between(net.log, h);
    var n := |all| - |rest|;
    assert all[n] == all[n..][0] == rest[0];
    MergeCollects(net.store, all[..n], rest[0], merged, h.edited, more);
    assert all[..n + 1] == all[..n] + [rest[0]];
    assert all[n + 1..] == rest[1..];
    if |rest| == 1 {
      assert all[..n + 1] == all;
    }
  }

  lemma FetchKeeps(a: nat, net: Net, edit: Edit, n0: nat, notes: Notes, merged: Json, rest: seq<Uri>, more: Json)
    requires Sound(net) && 1 <= n0 && Late(net, edit, n0, notes) && Merging(net, notes.h, merged, rest)
    requires rest != [] && rest[0] in net.store && MergeMissing(merged, net.store[rest[0]]) == Success(more)
    ensures Inv(AfterMerge(a, notes.h.edited, more, rest[1..]), net, edit, n0,
                if |rest| == 1 && more == notes.h.edited then notes.Ended(Closed(notes.h.mine)) else notes)
  {
    OneMerged(net, notes.h, merged, rest, more);
    if |rest| == 1 && more == notes.h.edited {
      OneMoreTurn(net, edit, n0, notes, Closed(notes.h.mine));
    }
  }

  lemma MergeStepKeeps(pc: Pc, net: Net, edit: Edit, n0: nat, notes: Notes, fate: Fate)
    requires pc.FetchClobbered? && Inv(pc, net, edit, n0, notes)
    requires fate.Take?
    ensures var next := Step(pc, net, edit, fate); Inv(next.0, next.1, edit, n0, Noted(pc, net, edit, notes, fate))
  {
    if pc.rest != [] && pc.rest[0] in net.store {
      var more := MergeMissing(pc.merged, net.store[pc.rest[0]]);
      if more.Success? {
        FetchKeeps(pc.attempt, net, edit, n0, notes, pc.merged, pc.rest, more.value);
      }
    }
  }

  // The merge write ends an attempt.
  lemma MergeCloses(net: Net, edit: Edit, n0: nat, notes: Notes, more: Net, w: nat, write: Write)
    requires Late(net, edit, n0, notes) && OneWrite(net, more, w, write) && write.uri in net.store
    requires Collected(net.store, Between(net.log, notes.h), net.store[write.uri], notes.h.edited)
    ensures AllAccounted(more, edit, n0, notes.Ended(Closed(w)).turns, -1) && |net.log| <= |more.log|
  {
    var h, t := notes.h, Turn(notes.h, Closed(w));
    var all := notes.turns + [t];
    OpenedStays(net, more, edit, h);
    OneMoreApart(notes.turns, t);
    forall u | u in all ensures n0 <= u.h.n0 && Accounts(more.store, more.log, edit, u) {
      if u in notes.turns {
        AccountsStay(net, more, edit, u);
      }
    }
    forall m: nat | n0 <= m < |more.log| && more.log[m].ours ensures ByATurn(all, m) {
      assert m != h.mine && m != w ==> net.log[m].ours && ByATurn(notes.turns, m);
      OneMoreWrote(notes.turns, t, m);
    }
  }

  lemma RetryKeeps(a: nat, fate: Fate, net: Net, edit: Edit, n0: nat, notes: Notes)
    requires Sound(net) && 1 <= n0 <= |net.log| && fate.Take? && AllAccounted(net, edit, n0, notes.turns, -1)
    ensures Inv(Then(fate, Retry(a)), net, edit, n0, notes)
  {
  }

  lemma MergeSetIs(pc: Pc, net: Net, edit: Edit, notes: Notes, fate: Fate)
    requires pc.MergeSet? && fate.Take? && fate.block > net.head
    ensures Step(pc, net, edit, fate) == (Then(fate, Retry(pc.attempt)), Written(net, pc.mergedUri, fate))
    ensures Noted(pc, net, edit, notes, fate) == notes.Ended(Closed(|net.log| + |fate.ahead|))
  {
  }

  lemma MergeSetStepKeeps(pc: Pc, net: Net, edit: Edit, n0: nat, notes: Notes, fate: Fate)
    requires pc.MergeSet? && Inv(pc, net, edit, n0, notes)
    requires fate.Take? && fate.block > net.head
    ensures var next := Step(pc, net, edit, fate); Inv(next.0, next.1, edit, n0, Noted(pc, net, edit, notes, fate))
  {
    WrittenIsOneWrite(net, pc.mergedUri, fate);
    MergeCloses(net, edit, n0, notes, Written(net, pc.mergedUri, fate), |net.log| + |fate.ahead|,
                Write(pc.mergedUri, fate.block, true));
    RetryKeeps(pc.attempt, fate, Written(net, pc.mergedUri, fate), edit, n0,
               notes.Ended(Closed(|net.log| + |fate.ahead|)));
    MergeSetIs(pc, net, edit, notes, fate);
  }

  lemma EarlyKeeps(pc: Pc, net: Net, edit: Edit, n0: nat, notes: Notes, fate: Fate)
    requires pc.Checkpoint? || pc.GetUri? || pc.Fetch? || pc.Pin? || pc.Set?
    requires Inv(pc, net, edit, n0, notes) && fate.Take?
    ensures var next := Step(pc, net, edit, fate); Inv(next.0, next.1, edit, n0, Noted(pc, net, edit, notes, fate))
  {
    if pc.Pin? {
      PinStepKeeps(pc, net, edit, n0, notes, fate);
    } else if pc.Set? {
      SetStepKeeps(pc, net, edit, n0, notes, fate);
    } else if pc.Fetch? {
      FetchStepKeeps(pc, net, edit, n0, notes, fate);
    } else {
      ReadStepKeeps(pc, net, edit, n0, notes, fate);
    }
  }

  lemma LookKeeps(pc: Pc, net: Net, edit: Edit, id: string, n0: nat, notes: Notes, fate: Fate)
    requires pc.Scan? || pc.PostUri?
    requires AddsOne(edit, id) && Inv(pc, net, edit, n0, notes) && fate.Take?
    ensures var next := Step(pc, net, edit, fate); Inv(next.0, next.1, edit, n0, Noted(pc, net, edit, notes, fate))
  {
    if pc.Scan? {
      ScanStepKeeps(pc, net, edit, n0, notes, fate);
    } else {
      PostUriStepKeeps(pc, net, edit, id, n0, notes, fate);
    }
  }

  lemma RescueKeeps(pc: Pc, net: Net, edit: Edit, n0: nat, notes: Notes, fate: Fate)
    requires pc.FetchClobbered? || pc.MergePin? || pc.MergeSet?
    requires Inv(pc, net, edit, n0, notes) && fate.Take?
    ensures var next := Step(pc, net, edit, fate); Inv(next.0, next.1, edit, n0, Noted(pc, net, edit, notes, fate))
  {
    if pc.FetchClobbered? {
      MergeStepKeeps(pc, net, edit, n0, notes, fate);
    } else if pc.MergePin? {
      PinStepKeeps(pc, net, edit, n0, notes, fate);
    } else if fate.block > net.head {
      MergeSetStepKeeps(pc, net, edit, n0, notes, fate);
    }
  }

  lemma StepKeeps(pc: Pc, net: Net, edit: Edit, id: string, n0: nat, notes: Notes, fate: Fate)
    requires AddsOne(edit, id) && Inv(pc, net, edit, n0, notes) && !Done(pc)
    ensures var next := Step(pc, net, edit, fate); Inv(next.0, next.1, edit, n0, Noted(pc, net, edit, notes, fate))
  {
    if fate.Refuse? {
    } else if pc.Checkpoint? || pc.GetUri? || pc.Fetch? || pc.Pin? || pc.Set? {
      EarlyKeeps(pc, net, edit, n0, notes, fate);
    } else if pc.Scan? || pc.PostUri? {
      LookKeeps(pc, net, edit, id, n0, notes, fate);
    } else {
      RescueKeeps(pc, net, edit, n0, notes, fate);
    }
  }

  lemma {:induction false} RunKeeps(pc: Pc, net: Net, edit: Edit, id: string, n0: nat, notes: Notes, events: seq<Event>)
    requires AddsOne(edit, id) && Inv(pc, net, edit, n0, notes)
    ensures var end := Run(pc, net, edit, events); Inv(end.0, end.1, edit, n0, Trace(pc, net, edit, notes, events))
    decreases |events|
  {
    if !Done(pc) && events != [] {
      if events[0].Reply? {
        StepKeeps(pc, net, edit, id, n0, notes, events[0].fate);
        var next := Step(pc, net, edit, events[0].fate);
        RunKeeps(next.0, next.1, edit, id, n0, Noted(pc, net, edit, notes, events[0].fate), events[1..]);
      } else {
        OutsideIsForeign(net, events[0]);
        ForeignKeeps(pc, net, Outside(net, events[0]), edit, n0, notes);
        RunKeeps(pc, Outside(net, events[0]), edit, id, n0, notes, events[1..]);
      }
    }
  }

  // ---------------------------------------------------------------- giving up

  // So many turns have ended as attempts were made.
  ghost predicate Counted(pc: Pc, turns: seq<Turn>) {
    && (!Done(pc) ==> |turns| == pc.attempt < 5)
    && (pc == Threw(Exhausted) ==> |turns| == 5)
  }

  lemma StepCounts(pc: Pc, net: Net, edit: Edit, notes: Notes, fate: Fate)
    requires net.log != [] && Counted(pc, notes.turns) && !Done(pc)
    ensures Step(pc, net, edit, fate).1.log != []
    ensures Counted(Step(pc, net, edit, fate).0, Noted(pc, net, edit, notes, fate).turns)
  {
  }

  lemma {:induction false} RunCounts(pc: Pc, net: Net, edit: Edit, notes: Notes, events: seq<Event>)
    requires net.log != [] && Counted(pc, notes.turns)
    ensures Counted(Run(pc, net, edit, events).0, Trace(pc, net, edit, notes, events).turns)
    decreases |events|
  {
    if !Done(pc) && events != [] {
      if events[0].Reply? {
        StepCounts(pc, net, edit, notes, events[0].fate);
        var next := Step(pc, net, edit, events[0].fate);
        RunCounts(next.0, next.1, edit, Noted(pc, net, edit, notes, events[0].fate), events[1..]);
      } else {
        RunCounts(pc, Outside(net, events[0]), edit, notes, events[1..]);
      }
    }
  }

  // A call gives up only after five attempts, each of which wrote.
  lemma GivesUpAfterFive(net: Net, edit: Edit, events: seq<Event>)
    requires net.log != [] && Run(Checkpoint(0), net, edit, events).0 == Threw(Exhausted)
    ensures |Turns(net, edit, events)| == 5
    ensures 5 <= OurWrites(Run(Checkpoint(0), net, edit, events).1.log, |net.log|) <= 10
  {
    RunCounts(Checkpoint(0), net, edit, START, events);
    MutationIsSafe(net, edit, events);
  }

  // ---------------------------------------------------------------- what a turn keeps

  // Over every script: each write of ours belongs to a turn, every turn is what `Accounts`
  // says, and a call that returns names an entry after which we wrote no more.
  lemma EveryWriteIsAccounted(
      net: Net, edit: Edit, id: string, events: seq<Event>, uri: Uri, after: Net, turns: seq<Turn>)
    returns (p: nat)
    requires AddsOne(edit, id) && Sound(net) && Call(net, edit, events, uri, after, turns)
    ensures AllAccounted(after, edit, |net.log|, turns, -1) && ReadAt(after.log, |net.log|, uri, p)
  {
    RunKeeps(Checkpoint(0), net, edit, id, |net.log|, START, events);
    p :| ReadAt(after.log, |net.log|, uri, p);
  }

  // The URI's document has exactly the workflows of the turn's base, the added one, and those
  // of the documents set strictly between.
  ghost predicate Leaves(store: map<Uri, Json>, log: seq<Write>, edit: Edit, id: string, t: Turn, uri: Uri) {
    && t.h.base < t.h.mine < |log| && log[t.h.base].uri in store && uri in store
    && HoldsEveryAddition(store, store[log[t.h.base].uri], edit, id, Between(log, t.h), store[uri])
  }

  // A turn that was not overtaken leaves that.
  lemma ClosedTurnHolds(store: map<Uri, Json>, log: seq<Write>, edit: Edit, id: string, t: Turn)
    requires AddsOne(edit, id) && Accounts(store, log, edit, t) && t.end.Closed?
    ensures Leaves(store, log, edit, id, t, log[t.end.last].uri)
  {
    EditedReadable(store, log, edit, id, t.h);
  }

  // Every document another writer set strictly between is among those merged.
  lemma {:induction false} EveryOverlapIsSeen(log: seq<Write>, lo: int, hi: int, i: nat)
    requires i < |log| && lo <= log[i].block <= hi
    ensures log[i].uri in Updates(log, lo, hi)
    decreases |log|
  {
    if i < |log| - 1 {
      EveryOverlapIsSeen(log[..|log| - 1], lo, hi, i);
    }
  }

  // The scan lists documents in the order they were set.
  lemma {:induction false} UpdatesInOrder(log: seq<Write>, lo: int, hi: int, i: nat)
    requires i < |log| && lo <= log[i].block <= hi
    ensures Updates(log[..i], lo, hi) + [log[i].uri] <= Updates(log, lo, hi)
    decreases |log|
  {
    var front := log[..|log| - 1];
    if i < |log| - 1 {
      assert front[..i] == log[..i];
      UpdatesInOrder(front, lo, hi, i);
    }
  }

  lemma {:induction false} NobodyBrings(store: map<Uri, Json>, log: seq<Write>, lo: int, hi: int, k: string)
    requires forall j | 0 <= j < |log| && lo <= log[j].block <= hi :: !Brings(store, log[j].uri, k)
    ensures k !in IdsIn(store, Updates(log, lo, hi))
    decreases |log|
  {
    if log != [] {
      var front, last := log[..|log| - 1], log[|log| - 1];
      var before := Updates(front, lo, hi);
      NobodyBrings(store, front, lo, hi, k);
      if lo <= last.block <= hi {
        assert (before + [last.uri])[..|before|] == before;
        assert !Brings(store, log[|log| - 1].uri, k);
      } else {
        assert before + [] == before;
      }
    }
  }

  // No document set strictly between, before entry i, has the workflow.
  ghost predicate FirstToBring(store: map<Uri, Json>, log: seq<Write>, h: Attempt, i: nat, k: string)
    requires i <= h.mine < |log|
  {
    forall j | 0 <= j < i && h.checkpoint < log[j].block < log[h.mine].block :: !Brings(store, log[j].uri, k)
  }

  lemma OverlapIsListed(log: seq<Write>, h: Attempt, i: nat)
    requires i <= h.mine < |log| && h.checkpoint < log[i].block < log[h.mine].block
    ensures log[i].uri in Between(log, h)
  {
    assert log[..h.mine + 1][i] == log[i];
    EveryOverlapIsSeen(log[..h.mine + 1], h.checkpoint + 1, log[h.mine].block - 1, i);
  }

  lemma ListedSurvives(
      store: map<Uri, Json>, base: Json, edit: Edit, id: string, uris: seq<Uri>, doc: Json, uri: Uri, k: string)
    requires AllReadable(store, uris) && HoldsEveryAddition(store, base, edit, id, uris, doc)
    requires uri in uris && Brings(store, uri, k)
    ensures k in Workflow(doc) && k in IdsIn(store, uris)
    ensures k !in Workflow(base) && k != id ==> Workflow(doc)[k] == FirstVersion(store, uris, k)
  {
    EveryIdIsSeen(store, uris, uri);
  }

  lemma ClosedIsReadable(store: map<Uri, Json>, log: seq<Write>, edit: Edit, t: Turn)
    requires Accounts(store, log, edit, t) && t.end.Closed?
    ensures AllReadable(store, Between(log, t.h))
  {
  }

  // Unless a turn was overtaken, every single write strictly between is rescued: its workflows
  // are all in the document, and each one that neither our base nor our add has is there as
  // the first writer to bring it left it.
  lemma OverlapsSurvive(store: map<Uri, Json>, log: seq<Write>, edit: Edit, id: string, t: Turn, i: nat, k: string)
    requires AddsOne(edit, id) && Accounts(store, log, edit, t) && t.end.Closed?
    requires i <= t.h.mine && t.h.checkpoint < log[i].block < log[t.h.mine].block
    ensures log[i].uri in store && Readable(store[log[i].uri])
    ensures Readable(store[log[t.h.base].uri]) && Readable(store[log[t.end.last].uri])
    ensures var base, theirs, doc :=
              Workflow(store[log[t.h.base].uri]), Workflow(store[log[i].uri]), Workflow(store[log[t.end.last].uri]);
            k in theirs ==>
              && k in doc
              && (k !in base && k != id && FirstToBring(store, log, t.h, i, k) ==> doc[k] == theirs[k])
  {
    ClosedTurnHolds(store, log, edit, id, t);
    ClosedIsReadable(store, log, edit, t);
    OverlapIsListed(log, t.h, i);
    if Brings(store, log[i].uri, k) {
      ListedSurvives(store, store[log[t.h.base].uri], edit, id, Between(log, t.h), store[log[t.end.last].uri],
                     log[i].uri, k);
      if FirstToBring(store, log, t.h, i, k) {
        OverlapVersion(store, log, t.h, i, k);
      }
    }
  }

  lemma OverlapVersion(store: map<Uri, Json>, log: seq<Write>, h: Attempt, i: nat, k: string)
    requires i <= h.mine < |log| && h.checkpoint < log[i].block < log[h.mine].block
    requires AllReadable(store, Between(log, h)) && Brings(store, log[i].uri, k)
    requires FirstToBring(store, log, h, i, k)
    ensures k in IdsIn(store, Between(log, h))
    ensures FirstVersion(store, Between(log, h), k) == Workflow(store[log[i].uri])[k]
  {
    var front, lo, hi := log[..h.mine + 1], h.checkpoint + 1, log[h.mine].block - 1;
    var all, before := Between(log, h), Updates(front[..i], lo, hi);
    UpdatesInOrder(front, lo, hi, i);
    assert (before + [log[i].uri])[|before|] == log[i].uri;
    assert all[|before|] == log[i].uri && all[..|before|] == before;
    assert AllReadable(store, before);
    assert forall j | 0 <= j < i :: front[..i][j] == log[j];
    NobodyBrings(store, front[..i], lo, hi, k);
    FirstVersionIs(store, all, |before|, k);
  }

  // ---------------------------------------------------------------- the three windows

  // The document at `later` has every workflow of the one at `sooner`.
  ghost predicate Keeps(store: map<Uri, Json>, sooner: Uri, later: Uri) {
    forall k | Brings(store, sooner, k) :: Brings(store, later, k)
  }

  // Mined in the block of an attempt's first write, ahead of it.
  ghost predicate SharedOurBlock(log: seq<Write>, t: Turn, i: nat) {
    t.h.n0 <= i < t.h.mine < |log| && log[i].block == log[t.h.mine].block
  }

  // Mined after an attempt's first write and before its merge.
  ghost predicate CameBeforeMerge(t: Turn, i: nat) {
    t.end.Closed? && t.h.mine < i < t.end.last
  }

  // Replaced by an attempt whose re-read found somebody else's URI.
  ghost predicate FellWithOurs(t: Turn, i: nat) {
    t.end.Overtaken? && t.h.n0 <= i < t.h.mine
  }

  ghost predicate InWindow(log: seq<Write>, turns: seq<Turn>, i: nat) {
    exists t | t in turns :: SharedOurBlock(log, t, i) || CameBeforeMerge(t, i) || FellWithOurs(t, i)
  }

  // A write of ours has all the workflows of entry i, and is entry p or was replaced by others.
  ghost predicate Carried(store: map<Uri, Json>, log: seq<Write>, p: nat, i: nat)
    requires p < |log|
  {
    exists c: nat ::
      i < c <= p && log[c].ours && Keeps(store, log[i].uri, log[c].uri) && (c == p || !log[c + 1].ours)
  }

  lemma BaseIsKept(store: map<Uri, Json>, log: seq<Write>, edit: Edit, id: string, h: Attempt)
    requires AddsOne(edit, id) && Opened(store, log, edit, h)
    ensures Keeps(store, log[h.base].uri, log[h.mine].uri)
  {
    EditedReadable(store, log, edit, id, h);
  }

  lemma EditedIsKept(store: map<Uri, Json>, log: seq<Write>, edit: Edit, t: Turn)
    requires Accounts(store, log, edit, t) && t.end.Closed?
    ensures Keeps(store, log[t.h.mine].uri, log[t.end.last].uri)
  {
  }

  // An attempt that opens right after a write of ours read that as its base.
  lemma OpensOnOurs(store: map<Uri, Json>, log: seq<Write>, edit: Edit, h: Attempt)
    requires Opened(store, log, edit, h) && h.mine > 0 && log[h.mine - 1].ours
    ensures h.base == h.mine - 1
  {
  }

  lemma MergeFollows(store: map<Uri, Json>, log: seq<Write>, edit: Edit, t: Turn)
    requires Shaped(store, log, edit, t) && t.end.Closed? && t.end.last > 0 && log[t.end.last - 1].ours
    ensures t.h.mine == t.end.last || t.h.mine == t.end.last - 1
  {
  }

  lemma OpenKeepsOurs(store: map<Uri, Json>, log: seq<Write>, edit: Edit, id: string, h: Attempt)
    requires AddsOne(edit, id) && Opened(store, log, edit, h) && h.mine > 0 && log[h.mine - 1].ours
    ensures Keeps(store, log[h.mine - 1].uri, log[h.mine].uri)
  {
    OpensOnOurs(store, log, edit, h);
    BaseIsKept(store, log, edit, id, h);
  }

  // A write of ours that follows one of ours keeps what that had.
  lemma TurnKeepsOurs(store: map<Uri, Json>, log: seq<Write>, edit: Edit, id: string, t: Turn, c: nat)
    requires AddsOne(edit, id) && Accounts(store, log, edit, t) && Wrote(t, c + 1)
    requires c + 1 < |log| && log[c].ours
    ensures Keeps(store, log[c].uri, log[c + 1].uri)
  {
    if c + 1 == t.h.mine {
      OpenKeepsOurs(store, log, edit, id, t.h);
    } else {
      MergeFollows(store, log, edit, t);
      EditedIsKept(store, log, edit, t);
    }
  }

  lemma OursKeepsOurs(net: Net, edit: Edit, id: string, n0: nat, turns: seq<Turn>, c: nat)
    requires AddsOne(edit, id) && AllAccounted(net, edit, n0, turns, -1)
    requires n0 <= c + 1 < |net.log| && net.log[c].ours && net.log[c + 1].ours
    ensures Keeps(net.store, net.log[c].uri, net.log[c + 1].uri)
  {
    assert ByATurn(turns, c + 1);
    var t :| t in turns && Wrote(t, c + 1);
    TurnKeepsOurs(net.store, net.log, edit, id, t, c);
  }

  lemma {:induction false} CarriedOn(
      net: Net, edit: Edit, id: string, n0: nat, turns: seq<Turn>, p: nat, i: nat, c: nat)
    requires AddsOne(edit, id) && AllAccounted(net, edit, n0, turns, -1)
    requires p < |net.log| && OthersOnly(net.log, p, |net.log|)
    requires n0 <= i + 1 && i < c <= p && net.log[c].ours && Keeps(net.store, net.log[i].uri, net.log[c].uri)
    ensures Carried(net.store, net.log, p, i)
    decreases p - c
  {
    if c < p && net.log[c + 1].ours {
      OursKeepsOurs(net, edit, id, n0, turns, c);
      CarriedOn(net, edit, id, n0, turns, p, i, c + 1);
    }
  }

  // What the turn that replaced entry i made of it.
  lemma ReplacedBy(store: map<Uri, Json>, log: seq<Write>, edit: Edit, id: string, t: Turn, i: nat) returns (c: nat)
    requires AddsOne(edit, id) && Accounts(store, log, edit, t) && Wrote(t, i + 1)
    requires i + 1 < |log| && !log[i].ours
    requires !SharedOurBlock(log, t, i) && !CameBeforeMerge(t, i) && !FellWithOurs(t, i)
    ensures i < c < |log| && log[c].ours && Keeps(store, log[i].uri, log[c].uri)
  {
    if i < t.h.n0 {
      c := t.h.mine;
      BaseIsKept(store, log, edit, id, t.h);
    } else {
      c := t.end.last;
      forall k | Brings(store, log[i].uri, k) ensures Brings(store, log[c].uri, k) {
        OverlapsSurvive(store, log, edit, id, t, i, k);
      }
    }
  }

  lemma OutsideWindows(net: Net, edit: Edit, id: string, n0: nat, turns: seq<Turn>, p: nat, i: nat)
    requires AddsOne(edit, id) && AllAccounted(net, edit, n0, turns, -1)
    requires p < |net.log| && OthersOnly(net.log, p, |net.log|)
    requires n0 <= i + 1 < |net.log| && !net.log[i].ours && net.log[i + 1].ours && !InWindow(net.log, turns, i)
    ensures Carried(net.store, net.log, p, i)
  {
    assert ByATurn(turns, i + 1);
    var t :| t in turns && Wrote(t, i + 1);
    var c := ReplacedBy(net.store, net.log, edit, id, t, i);
    CarriedOn(net, edit, id, n0, turns, p, i, c);
  }

  // The exact account of a call that returns, over every script. A write by somebody else that
  // a write of ours replaced is carried by a write of ours, which is the one the call returned
  // on or was itself replaced by somebody else; or else it fell in one of the three windows.
  lemma LostOnlyInThreeWindows(
      net: Net, edit: Edit, id: string, events: seq<Event>, uri: Uri, after: Net, turns: seq<Turn>)
    returns (p: nat)
    requires AddsOne(edit, id) && Sound(net) && Call(net, edit, events, uri, after, turns)
    ensures ReadAt(after.log, |net.log|, uri, p)
    ensures forall i: nat | |net.log| <= i + 1 < |after.log| && !after.log[i].ours && after.log[i + 1].ours ::
              Carried(after.store, after.log, p, i) || InWindow(after.log, turns, i)
  {
    p := EveryWriteIsAccounted(net, edit, id, events, uri, after, turns);
    forall i: nat | |net.log| <= i + 1 < |after.log| && !after.log[i].ours && after.log[i + 1].ours
                    && !InWindow(after.log, turns, i)
      ensures Carried(after.store, after.log, p, i)
    {
      OutsideWindows(after, edit, id, |net.log|, turns, p, i);
    }
  }

  // In the windows nothing is kept for its own sake: a workflow that neither the base, nor the
  // add, nor a document set strictly between has is gone from both writes of the turn.
  lemma WindowsKeepNothing(store: map<Uri, Json>, log: seq<Write>, edit: Edit, id: string, t: Turn, k: string)
    requires AddsOne(edit, id) && Accounts(store, log, edit, t)
    requires k != id && !Brings(store, log[t.h.base].uri, k)
    ensures !Brings(store, log[t.h.mine].uri, k)
    ensures t.end.Closed? && k !in IdsIn(store, Between(log, t.h)) ==> !Brings(store, log[t.end.last].uri, k)
  {
    EditedReadable(store, log, edit, id, t.h);
  }

  // When nobody else writes after a turn's first write, the call returns on what it left: the
  // current document holds every addition, and nothing else.
  lemma MergeKeepsConcurrentAdditions(
      net: Net, edit: Edit, id: string, events: seq<Event>, uri: Uri, after: Net, turns: seq<Turn>, t: Turn)
    requires AddsOne(edit, id) && Sound(net) && Call(net, edit, events, uri, after, turns)
    requires t in turns && forall i | t.h.mine < i < |after.log| :: after.log[i].ours
    ensures uri == CurrentUri(after) && Leaves(after.store, after.log, edit, id, t, uri)
  {
    var p := EveryWriteIsAccounted(net, edit, id, events, uri, after, turns);
    LastTurnIsCurrent(after, edit, id, |net.log|, turns, t, uri, p);
  }

  lemma AloneIsNotOvertaken(store: map<Uri, Json>, log: seq<Write>, edit: Edit, t: Turn)
    requires Shaped(store, log, edit, t) && forall i | t.h.mine < i < |log| :: log[i].ours
    ensures t.end.Closed?
  {
  }

  lemma ReadsOurLast(log: seq<Write>, n0: nat, uri: Uri, p: nat)
    requires ReadAt(log, n0, uri, p) && log[|log| - 1].ours
    ensures uri == log[|log| - 1].uri
  {
  }

  lemma LastTurnIsCurrent(net: Net, edit: Edit, id: string, n0: nat, turns: seq<Turn>, t: Turn, uri: Uri, p: nat)
    requires AddsOne(edit, id) && AllAccounted(net, edit, n0, turns, -1) && t in turns
    requires forall i | t.h.mine < i < |net.log| :: net.log[i].ours
    requires ReadAt(net.log, n0, uri, p)
    ensures uri == CurrentUri(net) && Leaves(net.store, net.log, edit, id, t, uri)
  {
    AloneIsNotOvertaken(net.store, net.log, edit, t);
    NoTurnAfter(net, edit, id, n0, turns, t);
    ReadsOurLast(net.log, n0, uri, p);
    ClosedTurnHolds(net.store, net.log, edit, id, t);
  }

  // An attempt after it finds the workflow there and does not write.
  lemma NoTurnAfter(net: Net, edit: Edit, id: string, n0: nat, turns: seq<Turn>, t: Turn)
    requires AddsOne(edit, id) && AllAccounted(net, edit, n0, turns, -1) && t in turns && t.end.Closed?
    requires forall i | t.h.mine < i < |net.log| :: net.log[i].ours
    ensures t.end.last == |net.log| - 1
  {
    var last := t.end.last;
    if last + 1 < |net.log| {
      assert ByATurn(turns, last + 1);
      var u :| u in turns && Wrote(u, last + 1);
      NoneFollows(net, edit, id, n0, turns, t, u);
    }
  }

  lemma NoneFollows(net: Net, edit: Edit, id: string, n0: nat, turns: seq<Turn>, t: Turn, u: Turn)
    requires AddsOne(edit, id) && AllAccounted(net, edit, n0, turns, -1) && t in turns && t.end.Closed?
    requires forall i | t.h.mine < i < |net.log| :: net.log[i].ours
    requires t.end.last + 1 < |net.log| && u in turns
    ensures !Wrote(u, t.end.last + 1)
  {
    if Wrote(u, t.end.last + 1) {
      assert Accounts(net.store, net.log, edit, t) && Accounts(net.store, net.log, edit, u);
      FollowerIsTheTurn(net.store, net.log, edit, id, t, u);
    }
  }

  lemma FollowerIsTheTurn(store: map<Uri, Json>, log: seq<Write>, edit: Edit, id: string, t: Turn, u: Turn)
    requires AddsOne(edit, id) && Accounts(store, log, edit, t) && Shaped(store, log, edit, u) && t.end.Closed?
    requires forall i | t.h.mine < i < |log| :: log[i].ours
    requires t.end.last + 1 < |log| && Wrote(u, t.end.last + 1)
    ensures u.h.mine == t.h.mine == t.end.last
  {
    WritesBring(store, log, edit, id, t);
    LastIsOurs(store, log, edit, t);
    FollowsOnlyItsOwn(store, log, edit, id, u, t.end.last);
  }

  lemma LastIsOurs(store: map<Uri, Json>, log: seq<Write>, edit: Edit, t: Turn)
    requires Shaped(store, log, edit, t) && t.end.Closed?
    requires forall i | t.h.mine < i < |log| :: log[i].ours
    ensures t.h.mine <= t.end.last < |log| && log[t.end.last].ours
    ensures t.h.mine == t.end.last || (t.h.mine == t.end.last - 1 && log[t.h.mine].ours)
  {
    if t.h.mine < t.end.last {
      MergeFollows(store, log, edit, t);
    }
  }

  lemma WritesBring(store: map<Uri, Json>, log: seq<Write>, edit: Edit, id: string, t: Turn)
    requires AddsOne(edit, id) && Accounts(store, log, edit, t)
    ensures Brings(store, log[t.h.mine].uri, id)
    ensures t.end.Closed? ==> Brings(store, log[t.end.last].uri, id)
  {
    EditedReadable(store, log, edit, id, t.h);
  }

  lemma OpensOnlyWithout(store: map<Uri, Json>, log: seq<Write>, edit: Edit, id: string, h: Attempt)
    requires AddsOne(edit, id) && Opened(store, log, edit, h) && h.mine > 0 && log[h.mine - 1].ours
    ensures !Brings(store, log[h.mine - 1].uri, id)
  {
    OpensOnOurs(store, log, edit, h);
    EditedReadable(store, log, edit, id, h);
  }

  lemma FollowsOnlyItsOwn(store: map<Uri, Json>, log: seq<Write>, edit: Edit, id: string, u: Turn, c: nat)
    requires AddsOne(edit, id) && Shaped(store, log, edit, u) && Wrote(u, c + 1)
    requires c + 1 < |log| && log[c].ours && Brings(store, log[c].uri, id)
    ensures u.h.mine == c && (c > 0 && log[c - 1].ours ==> !Brings(store, log[c - 1].uri, id))
  {
    if u.h.mine == c + 1 {
      OpensOnlyWithout(store, log, edit, id, u.h);
    } else {
      MergeFollows(store, log, edit, u);
      if c > 0 && log[c - 1].ours {
        OpensOnlyWithout(store, log, edit, id, u.h);
      }
    }
  }
}
