/**
 * Scripts of port calls and other writers' writes, played on the machine of `Mutation`: the
 * calls that return, and the three windows in which a write of another process is replaced
 * without its document ever being fetched.
 */
module MutationScripts {
  import opened Wrappers
  import opened ServiceDoc
  import opened Mutation

  // A reply that carries nothing but its arrival.
  const SEEN := Take("", 0, [], [], true)

  // The scan stops one block short of our own: documents set in that block ahead of ours
  // are replaced, and the call returns as if nobody had written.
  lemma SameBlockWritesAreLost(attempt: nat, net: Net, edit: Edit, edited: Json, uri: Uri, block: nat, ahead: seq<Uri>)
    requires Sound(net) && Names(net, uri, edited) && block > net.head
    ensures var end := Run(Set(attempt, net.head, edited, uri), net, edit,
                           [Reply(Take(uri, block, ahead, [], true)), Reply(SEEN), Reply(SEEN)]);
            && end.0 == Returned(uri) && CurrentUri(end.1) == uri && Names(end.1, uri, edited)
            && Updates(end.1.log, block, block) == ahead + [uri]
  {
    var fate, seen := Take(uri, block, ahead, [], true), SEEN;
    var after := Written(net, uri, fate);
    SameBlockUnseen(net, uri, fate);
    var pc1, pc2 := Scan(attempt, net.head, edited, uri, block), PostUri(attempt, edited, uri, []);
    RunReply(Set(attempt, net.head, edited, uri), net, edit, fate, [Reply(seen), Reply(seen)]);
    RunReply(pc1, after, edit, seen, [Reply(seen)]);
    RunReply(pc2, after, edit, seen, []);
    assert [Reply(fate)] + [Reply(seen), Reply(seen)] == [Reply(fate), Reply(seen), Reply(seen)];
    assert [Reply(seen)] + [Reply(seen)] == [Reply(seen), Reply(seen)];
    assert [Reply(seen)] + [] == [Reply(seen)];
  }

  lemma RunReply(pc: Pc, net: Net, edit: Edit, fate: Fate, rest: seq<Event>)
    requires !Done(pc)
    ensures var next := Step(pc, net, edit, fate);
            Run(pc, net, edit, [Reply(fate)] + rest) == Run(next.0, next.1, edit, rest)
  {
    var events := [Reply(fate)] + rest;
    assert events[1..] == rest;
  }

  lemma SameBlockUnseen(net: Net, uri: Uri, fate: Fate)
    requires Sound(net) && fate.Take? && fate.block > net.head && fate.behind == []
    ensures var after := Written(net, uri, fate);
            && Overlaps(after, net.head, fate.block) == []
            && CurrentUri(after) == uri
            && Updates(after.log, fate.block, fate.block) == fate.ahead + [uri]
  {
    var after, b := Written(net, uri, fate), fate.block;
    var front := net.log + Others(fate.ahead, b);
    assert Others(fate.behind, b) == [];
    assert after.log == front + [Write(uri, b, true)] && after.log[..|after.log| - 1] == front;
    NoneInRange(net.log, net.head + 1, b - 1);
    OthersInRange(net.log, fate.ahead, b, net.head + 1, b - 1);
    NoneInRange(net.log, b, b);
    OthersInRange(net.log, fate.ahead, b, b, b);
  }

  lemma {:induction false} NoneInRange(log: seq<Write>, lo: int, hi: int)
    requires forall i | 0 <= i < |log| :: log[i].block < lo
    ensures Updates(log, lo, hi) == []
    decreases |log|
  {
    if log != [] {
      NoneInRange(log[..|log| - 1], lo, hi);
    }
  }

  lemma UpdatesOfOneMore(log: seq<Write>, last: Write, lo: int, hi: int)
    ensures Updates(log + [last], lo, hi) == Updates(log, lo, hi) + if lo <= last.block <= hi then [last.uri] else []
  {
    assert (log + [last])[..|log|] == log;
  }

  lemma OthersOfOneMore(log: seq<Write>, uris: seq<Uri>, uri: Uri, block: nat)
    ensures log + Others(uris + [uri], block) == log + Others(uris, block) + [Write(uri, block, false)]
  {
  }

  lemma {:induction false} OthersInRange(log: seq<Write>, uris: seq<Uri>, block: nat, lo: int, hi: int)
    requires Updates(log, lo, hi) == []
    ensures Updates(log + Others(uris, block), lo, hi) == if lo <= block <= hi then uris else []
    decreases |uris|
  {
    if uris == [] {
      assert log + Others(uris, block) == log;
    } else {
      var front, last := uris[..|uris| - 1], uris[|uris| - 1];
      assert uris == front + [last];
      OthersInRange(log, front, block, lo, hi);
      UpdatesOfOneMore(log + Others(front, block), Write(last, block, false), lo, hi);
      OthersOfOneMore(log, front, last, block);
    }
  }

  lemma RunOutside(pc: Pc, net: Net, edit: Edit, event: Event, rest: seq<Event>)
    requires !Done(pc) && !event.Reply?
    ensures Run(pc, net, edit, [event] + rest) == Run(pc, Outside(net, event), edit, rest)
  {
    var events := [event] + rest;
    assert events[1..] == rest;
  }

  // The merge is written without another scan: a document set since the attempt's first write
  // is replaced, and the next attempt, which finds its workflow there, returns before it looks.
  lemma LateWritesAreLost(
      attempt: nat, net: Net, edit: Edit, merged: Json, uri: Uri, late: Uri, lateBlock: nat, block: nat)
    requires attempt < 4 && net.head < lateBlock < block
    requires Names(net, uri, merged) && edit(merged) == Success(merged)
    ensures var end := Run(MergeSet(attempt, uri), net, edit,
                           [External(lateBlock, [late])] + ([Reply(Take(uri, block, [], [], true))] + VERIFY));
            && end.0 == Returned(uri) && Names(end.1, uri, merged)
            && end.1.log == net.log + [Write(late, lateBlock, false), Write(uri, block, true)]
  {
    var event, write := External(lateBlock, [late]), Take(uri, block, [], [], true);
    var between := Outside(net, event);
    RunOutside(MergeSet(attempt, uri), net, edit, event, [Reply(write)] + VERIFY);
    RunReply(MergeSet(attempt, uri), between, edit, write, VERIFY);
    VerifyingAttemptReturns(attempt + 1, Written(between, uri, write), edit, uri, merged);
  }

  // An attempt whose re-read finds somebody else's URI forgets what its scan found: the
  // documents it replaced are never fetched, and if the edit is in place already the call
  // returns on the other's document.
  lemma OvertakenWritesAreLost(
      attempt: nat, net: Net, edit: Edit, edited: Json, next: Uri, overlaps: seq<Uri>, thief: Uri, block: nat)
    requires attempt < 4 && net.head < block && thief != next
    requires thief in net.store && edit(net.store[thief]) == Success(net.store[thief])
    ensures var end := Run(PostUri(attempt, edited, next, overlaps), net, edit,
                           [External(block, [thief])] + ([Reply(SEEN)] + VERIFY));
            && end.0 == Returned(thief) && end.1.store == net.store
            && end.1.log == net.log + [Write(thief, block, false)]
  {
    var event := External(block, [thief]);
    RunOutside(PostUri(attempt, edited, next, overlaps), net, edit, event, [Reply(SEEN)] + VERIFY);
    RunReply(PostUri(attempt, edited, next, overlaps), Outside(net, event), edit, SEEN, VERIFY);
    VerifyingAttemptReturns(attempt + 1, Outside(net, event), edit, thief, net.store[thief]);
  }

  // ---------------------------------------------------------------- calls that return

  // Three answered reads, and an answered pin, write, scan and re-read.
  function ReadsThen(rest: seq<Event>): seq<Event> {
    [Reply(SEEN)] + ([Reply(SEEN)] + ([Reply(SEEN)] + rest))
  }

  function Undisturbed(uri: Uri, block: nat): seq<Event> {
    ReadsThen([Reply(SEEN.(uri := uri))] + [Reply(Take(uri, block, [], [], true)), Reply(SEEN), Reply(SEEN)])
  }

  // The edit has something to do, and its result can be pinned at `pin` and set in `block`.
  ghost predicate CanEdit(net: Net, edit: Edit, pin: Uri, block: nat) {
    && Sound(net) && CurrentUri(net) in net.store && net.head < block
    && edit(net.store[CurrentUri(net)]).Success?
    && edit(net.store[CurrentUri(net)]).value != net.store[CurrentUri(net)]
    && CanPin(net, pin, edit(net.store[CurrentUri(net)]).value)
  }

  // With every port answering and nobody in the way, seven port calls make the edit current,
  // in any of the five attempts.
  lemma UndisturbedCallReturns(attempt: nat, net: Net, edit: Edit, uri: Uri, block: nat)
    requires attempt < 5 && CanEdit(net, edit, uri, block)
    ensures var end := Run(Checkpoint(attempt), net, edit, Undisturbed(uri, block));
            && end.0 == Returned(uri) && CurrentUri(end.1) == uri
            && Names(end.1, uri, edit(net.store[CurrentUri(net)]).value)
  {
    var edited := edit(net.store[CurrentUri(net)]).value;
    var write := [Reply(Take(uri, block, [], [], true)), Reply(SEEN), Reply(SEEN)];
    ReadsLeadToPin(attempt, net, edit, edited, [Reply(SEEN.(uri := uri))] + write);
    RunReply(Pin(attempt, net.head, edited), net, edit, SEEN.(uri := uri), write);
    SameBlockWritesAreLost(attempt, Pinned(net, uri, edited), edit, edited, uri, block, []);
  }

  lemma ReadsLeadToPin(attempt: nat, net: Net, edit: Edit, edited: Json, rest: seq<Event>)
    requires CurrentUri(net) in net.store
    requires var doc := net.store[CurrentUri(net)]; edit(doc) == Success(edited) && edited != doc
    ensures Run(Checkpoint(attempt), net, edit, ReadsThen(rest)) == Run(Pin(attempt, net.head, edited), net, edit, rest)
  {
    RunReply(Checkpoint(attempt), net, edit, SEEN, [Reply(SEEN)] + ([Reply(SEEN)] + rest));
    RunReply(GetUri(attempt, net.head), net, edit, SEEN, [Reply(SEEN)] + rest);
    RunReply(Fetch(attempt, net.head, CurrentUri(net)), net, edit, SEEN, rest);
  }

  // A call that finds one replaced document rescues it: it pins and sets the merge, and
  // the next attempt finds nothing left to do.
  lemma RescuingCallReturns(
      attempt: nat, net: Net, edit: Edit, edited: Json, other: Uri, merged: Json, uri: Uri, block: nat)
    requires attempt < 4 && block > net.head
    requires other in net.store && MergeMissing(edited, net.store[other]) == Success(merged) && merged != edited
    requires CanPin(net, uri, merged) && edit(merged) == Success(merged)
    ensures var write := Take(uri, block, [], [], true);
            var end := Run(FetchClobbered(attempt, edited, edited, [other]), net, edit,
                           [Reply(SEEN)] + ([Reply(SEEN.(uri := uri))] + ([Reply(write)] + VERIFY)));
            end.0 == Returned(uri) && CurrentUri(end.1) == uri && Names(end.1, uri, merged)
  {
    var pin, write := SEEN.(uri := uri), Take(uri, block, [], [], true);
    OneRescueLeadsToPin(attempt, net, edit, edited, other, merged, [Reply(pin)] + ([Reply(write)] + VERIFY));
    RunReply(MergePin(attempt, merged), net, edit, pin, [Reply(write)] + VERIFY);
    MergeIsVerified(attempt, Pinned(net, uri, merged), edit, uri, merged, block);
  }

  lemma OneRescueLeadsToPin(
      attempt: nat, net: Net, edit: Edit, edited: Json, other: Uri, merged: Json, rest: seq<Event>)
    requires other in net.store && MergeMissing(edited, net.store[other]) == Success(merged) && merged != edited
    ensures Run(FetchClobbered(attempt, edited, edited, [other]), net, edit, [Reply(SEEN)] + rest)
            == Run(MergePin(attempt, merged), net, edit, rest)
  {
    assert [other][1..] == [];
    RunReply(FetchClobbered(attempt, edited, edited, [other]), net, edit, SEEN, rest);
  }

  // The three reads of an attempt with nothing to do.
  const VERIFY := [Reply(SEEN)] + ([Reply(SEEN)] + ([Reply(SEEN)] + []))

  lemma MergeIsVerified(attempt: nat, net: Net, edit: Edit, uri: Uri, merged: Json, block: nat)
    requires attempt < 4 && block > net.head
    requires Names(net, uri, merged) && edit(merged) == Success(merged)
    ensures var write := Take(uri, block, [], [], true);
            var end := Run(MergeSet(attempt, uri), net, edit, [Reply(write)] + VERIFY);
            end.0 == Returned(uri) && CurrentUri(end.1) == uri && Names(end.1, uri, merged)
  {
    var write := Take(uri, block, [], [], true);
    assert Others([], block) == [];
    RunReply(MergeSet(attempt, uri), net, edit, write, VERIFY);
    VerifyingAttemptReturns(attempt + 1, Written(net, uri, write), edit, uri, merged);
  }

  lemma VerifyingAttemptReturns(attempt: nat, net: Net, edit: Edit, uri: Uri, doc: Json)
    requires CurrentUri(net) == uri && Names(net, uri, doc) && edit(doc) == Success(doc)
    ensures Run(Checkpoint(attempt), net, edit, VERIFY) == (Returned(uri), net, [])
  {
    RunReply(Checkpoint(attempt), net, edit, SEEN, [Reply(SEEN)] + ([Reply(SEEN)] + []));
    RunReply(GetUri(attempt, net.head), net, edit, SEEN, [Reply(SEEN)] + []);
    RunReply(Fetch(attempt, net.head, uri), net, edit, SEEN, []);
  }

  // ---------------------------------------------------------------- attempts that are overtaken

  // Somebody sets `thief` after an attempt's write, before its re-read.
  datatype Raid = Raid(pin: Uri, block: nat, thief: Uri, thiefBlock: nat)

  ghost predicate CanRaid(net: Net, edit: Edit, raid: Raid) {
    CanEdit(net, edit, raid.pin, raid.block) && raid.block < raid.thiefBlock && raid.thief != raid.pin
  }

  ghost function Raided(net: Net, edit: Edit, raid: Raid): Net
    requires CanRaid(net, edit, raid)
  {
    Net(net.store[raid.pin := edit(net.store[CurrentUri(net)]).value],
        net.log + [Write(raid.pin, raid.block, true), Write(raid.thief, raid.thiefBlock, false)],
        raid.thiefBlock)
  }

  function RaidEvents(raid: Raid, rest: seq<Event>): seq<Event> {
    ReadsThen([Reply(SEEN.(uri := raid.pin))]
              + ([Reply(Take(raid.pin, raid.block, [], [], true))]
                 + ([Reply(SEEN)] + ([External(raid.thiefBlock, [raid.thief])] + ([Reply(SEEN)] + rest)))))
  }

  lemma OneRaid(attempt: nat, net: Net, edit: Edit, raid: Raid, rest: seq<Event>)
    requires CanRaid(net, edit, raid)
    ensures Run(Checkpoint(attempt), net, edit, RaidEvents(raid, rest))
            == Run(Retry(attempt), Raided(net, edit, raid), edit, rest)
  {
    var edited, write := edit(net.store[CurrentUri(net)]).value, Take(raid.pin, raid.block, [], [], true);
    var event := External(raid.thiefBlock, [raid.thief]);
    var pinned := Pinned(net, raid.pin, edited);
    var mine := Written(pinned, raid.pin, write);
    var taken, over := Outside(mine, event), [Reply(SEEN)] + rest;
    var scan := Scan(attempt, net.head, edited, raid.pin, raid.block);
    var post := PostUri(attempt, edited, raid.pin, Overlaps(mine, net.head, raid.block));
    var set_ := Set(attempt, net.head, edited, raid.pin);
    ReadsLeadToPin(attempt, net, edit, edited,
                   [Reply(SEEN.(uri := raid.pin))] + ([Reply(write)] + ([Reply(SEEN)] + ([event] + over))));
    RunReply(Pin(attempt, net.head, edited), net, edit, SEEN.(uri := raid.pin),
             [Reply(write)] + ([Reply(SEEN)] + ([event] + over)));
    RunReply(set_, pinned, edit, write, [Reply(SEEN)] + ([event] + over));
    RunReply(scan, mine, edit, SEEN, [event] + over);
    RunOutside(post, mine, edit, event, over);
    RunReply(post, taken, edit, SEEN, rest);
    assert taken.log == net.log + [Write(raid.pin, raid.block, true), Write(raid.thief, raid.thiefBlock, false)];
  }

  ghost predicate CanRaidAll(net: Net, edit: Edit, raids: seq<Raid>)
    decreases |raids|
  {
    raids == [] || (CanRaid(net, edit, raids[0]) && CanRaidAll(Raided(net, edit, raids[0]), edit, raids[1..]))
  }

  ghost function AllRaided(net: Net, edit: Edit, raids: seq<Raid>): Net
    requires CanRaidAll(net, edit, raids)
    decreases |raids|
  {
    if raids == [] then net else AllRaided(Raided(net, edit, raids[0]), edit, raids[1..])
  }

  function AllRaids(raids: seq<Raid>, rest: seq<Event>): seq<Event>
    decreases |raids|
  {
    if raids == [] then rest else RaidEvents(raids[0], AllRaids(raids[1..], rest))
  }

  lemma {:induction false} RaidsGoOn(attempt: nat, net: Net, edit: Edit, raids: seq<Raid>, rest: seq<Event>)
    requires attempt + |raids| < 5 && CanRaidAll(net, edit, raids)
    ensures Run(Checkpoint(attempt), net, edit, AllRaids(raids, rest))
            == Run(Checkpoint(attempt + |raids|), AllRaided(net, edit, raids), edit, rest)
    decreases |raids|
  {
    if raids != [] {
      OneRaid(attempt, net, edit, raids[0], AllRaids(raids[1..], rest));
      RaidsGoOn(attempt + 1, Raided(net, edit, raids[0]), edit, raids[1..], rest);
    }
  }

  lemma {:induction false} AllRaidedIs(net: Net, edit: Edit, raids: seq<Raid>, last: Raid)
    requires CanRaidAll(net, edit, raids + [last])
    ensures CanRaidAll(net, edit, raids) && CanRaid(AllRaided(net, edit, raids), edit, last)
    ensures AllRaided(net, edit, raids + [last]) == Raided(AllRaided(net, edit, raids), edit, last)
    decreases |raids|
  {
    if raids == [] {
      assert raids + [last] == [last] && [last][1..] == [];
    } else {
      assert (raids + [last])[1..] == raids[1..] + [last] && (raids + [last])[0] == raids[0];
      AllRaidedIs(Raided(net, edit, raids[0]), edit, raids[1..], last);
    }
  }

  lemma {:induction false} LastRaid(raids: seq<Raid>, last: Raid, rest: seq<Event>)
    ensures AllRaids(raids + [last], rest) == AllRaids(raids, RaidEvents(last, rest))
    decreases |raids|
  {
    if raids == [] {
      assert raids + [last] == [last] && [last][1..] == [];
    } else {
      assert (raids + [last])[1..] == raids[1..] + [last] && (raids + [last])[0] == raids[0];
      LastRaid(raids[1..], last, rest);
    }
  }

  // A call overtaken up to four times and then left alone returns, with its edit current.
  lemma OvertakenCallReturns(net: Net, edit: Edit, raids: seq<Raid>, uri: Uri, block: nat)
    requires |raids| <= 4 && CanRaidAll(net, edit, raids)
    requires CanEdit(AllRaided(net, edit, raids), edit, uri, block)
    ensures var base := AllRaided(net, edit, raids);
            var end := Run(Checkpoint(0), net, edit, AllRaids(raids, Undisturbed(uri, block)));
            && end.0 == Returned(uri) && CurrentUri(end.1) == uri
            && Names(end.1, uri, edit(base.store[CurrentUri(base)]).value)
  {
    RaidsGoOn(0, net, edit, raids, Undisturbed(uri, block));
    UndisturbedCallReturns(|raids|, AllRaided(net, edit, raids), edit, uri, block);
  }

  // The fifth time it gives up.
  lemma FiveRaidsExhaust(net: Net, edit: Edit, raids: seq<Raid>, last: Raid, rest: seq<Event>)
    requires |raids| == 4 && CanRaidAll(net, edit, raids + [last])
    ensures Run(Checkpoint(0), net, edit, AllRaids(raids + [last], rest))
            == (Threw(Exhausted), AllRaided(net, edit, raids + [last]), rest)
  {
    AllRaidedIs(net, edit, raids, last);
    LastRaid(raids, last, rest);
    RaidsGoOn(0, net, edit, raids, RaidEvents(last, rest));
    OneRaid(4, AllRaided(net, edit, raids), edit, last, rest);
  }
}
