/** When a room can hold both roles: exactly which admissions, begun against one that was stopped, break the
    exclusivity of owners and assignment rooms. */
module RoleExclusivity {
  import opened Values
  import opened Coordination
  import opened CoordinationProofs
  import opened CoordinationTheorems
  import opened CoordinationRoles
  import opened OwnedPaths

  // ----- one admission -----

  /** A stopped admission left one of these rooms without the pointer of its opposite role. */
  predicate Clashes(w: World, call: OpenCall) {
    exists u :: u in Unfinished(w) && (w.dirs[u].lineage.value.assignee == call.owner
                                       || w.dirs[u].lineage.value.owner == call.assignee)
  }

  /** A room that a complete assignment names cannot be taken in the opposite role. */
  lemma PointedApart(w: World, call: OpenCall, id: Id)
    requires RoomsOk(w, call) && Pointed(w, id)
    ensures DirOf(w, id).lineage.value.assignee != call.owner && DirOf(w, id).lineage.value.owner != call.assignee
  {
  }

  lemma ExclusiveAt(w: World, a: Id, b: Id)
    requires Exclusive(w) && DirOf(w, a).lineage.Some? && DirOf(w, b).lineage.Some?
    ensures DirOf(w, a).lineage.value.owner != DirOf(w, b).lineage.value.assignee
  {
    assert a in w.dirs && b in w.dirs;
  }

  lemma ClashBreaks(w: World, call: OpenCall, after: World)
    requires Clashes(w, call) && Recorded(w, after, call, true) && DirOf(w, call.id).lineage.None?
    ensures !Exclusive(after)
  {
    var u :| u in Unfinished(w) && (w.dirs[u].lineage.value.assignee == call.owner
                                    || w.dirs[u].lineage.value.owner == call.assignee);
    assert u != call.id && DirOf(after, u).lineage == DirOf(w, u).lineage;
    if Exclusive(after) {
      ExclusiveAt(after, call.id, u);
      ExclusiveAt(after, u, call.id);
    }
  }

  lemma NoClashKeeps(w: World, call: OpenCall, after: World)
    requires Exclusive(w) && RoomsOk(w, call) && !Clashes(w, call) && Recorded(w, after, call, true)
    ensures Exclusive(after)
  {
    forall a, b | a in after.dirs && b in after.dirs && after.dirs[a].lineage.Some? && after.dirs[b].lineage.Some?
      ensures after.dirs[a].lineage.value.owner != after.dirs[b].lineage.value.assignee
    {
      if a != call.id && b != call.id {
        assert DirOf(after, a).lineage == DirOf(w, a).lineage && DirOf(after, b).lineage == DirOf(w, b).lineage;
        ExclusiveAt(w, a, b);
      } else if a != b {
        var other := if a == call.id then b else a;
        assert DirOf(after, other).lineage == DirOf(w, other).lineage;
        InUnfinished(w, other);
        if Pointed(w, other) { PointedApart(w, call, other); }
      }
    }
  }

  /** A fresh admission that began keeps the roles exclusive exactly when it takes neither room of an unfinished
      assignment in the opposite role, wherever it stops. */
  lemma AdmissionExclusiveIff(w: World, call: OpenCall, n: nat)
    requires Exclusive(w) && OpenPlan(w, call).accepted && DirOf(w, call.id).lineage.None?
    requires 0 < n <= |OpenPlan(w, call).writes|
    ensures Exclusive(PutAll(w, OpenPlan(w, call).writes[..n])) <==> !Clashes(w, call)
  {
    var after := PutAll(w, OpenPlan(w, call).writes[..n]);
    OpenPrefix(w, call, n);
    if Clashes(w, call) { ClashBreaks(w, call, after); } else { NoClashKeeps(w, call, after); }
  }

  // ----- runs -----

  /** No lineage is lost or changed. */
  ghost predicate LineagesStay(w: World, after: World) {
    forall id :: DirOf(w, id).lineage.Some? ==>
      && DirOf(after, id).lineage.Some?
      && DirOf(after, id).lineage.value.owner == DirOf(w, id).lineage.value.owner
      && DirOf(after, id).lineage.value.assignee == DirOf(w, id).lineage.value.assignee
  }

  lemma BrokenStays(w: World, after: World)
    requires LineagesStay(w, after) && !Exclusive(w)
    ensures !Exclusive(after)
  {
    var a, b :| a in w.dirs && b in w.dirs && w.dirs[a].lineage.Some? && w.dirs[b].lineage.Some?
                && w.dirs[a].lineage.value.owner == w.dirs[b].lineage.value.assignee;
    assert DirOf(w, a) == w.dirs[a] && DirOf(w, b) == w.dirs[b];
    if Exclusive(after) { ExclusiveAt(after, a, b); }
  }

  lemma SameLineages(w: World, after: World)
    requires forall id :: DirOf(after, id).lineage == DirOf(w, id).lineage
    ensures Exclusive(after) <==> Exclusive(w)
  {
    if Exclusive(w) {
      forall a, b | a in after.dirs && b in after.dirs && after.dirs[a].lineage.Some? && after.dirs[b].lineage.Some?
        ensures after.dirs[a].lineage.value.owner != after.dirs[b].lineage.value.assignee
      {
        assert DirOf(after, a).lineage == DirOf(w, a).lineage && DirOf(after, b).lineage == DirOf(w, b).lineage;
        ExclusiveAt(w, a, b);
      }
    } else {
      BrokenStays(w, after);
    }
  }

  /** The event begins a fresh admission against an unfinished assignment. */
  predicate Breaks(w: World, event: Event) {
    && event.call.Open? && event.cut > 0
    && OpenPlan(w, event.call.open).accepted && DirOf(w, event.call.open.id).lineage.None?
    && Clashes(w, event.call.open)
  }

  predicate Broken(w: World, events: seq<Event>)
    decreases events
  {
    events != [] && (Breaks(w, events[0]) || Broken(PutAll(w, Durable(w, events[0])), events[1..]))
  }

  /** A retried or refused admission leaves every lineage as it is. */
  lemma RetryLineages(w: World, call: OpenCall, n: nat)
    requires n <= |OpenPlan(w, call).writes|
    requires n == 0 || DirOf(w, call.id).lineage.Some?
    ensures forall id :: DirOf(PutAll(w, OpenPlan(w, call).writes[..n]), id).lineage == DirOf(w, id).lineage
  {
    var writes := OpenPlan(w, call).writes[..n];
    if n > 0 { RetryWrites(w, call); }
    hide OpenPlan, PutAll;
    forall x | x in writes ensures !x.PutLineage? {
      assert x in OpenPlan(w, call).writes;
    }
    forall id ensures DirOf(PutAll(w, writes), id).lineage == DirOf(w, id).lineage {
      LineagesKept(w, writes, id);
    }
  }

  lemma RetryWrites(w: World, call: OpenCall)
    requires OpenPlan(w, call).accepted && DirOf(w, call.id).lineage.Some?
    ensures forall x :: x in OpenPlan(w, call).writes ==> !x.PutLineage?
  {
    OpenWrites(w, call);
    hide OpenPlan;
  }

  lemma EventStays(w: World, event: Event)
    ensures LineagesStay(w, PutAll(w, Durable(w, event)))
  {
    var n := Min(event.cut, |PlanOf(w, event.call).writes|);
    if !event.call.Open? {
      OtherCallsKeepRoles(w, event.call, n);
    } else if n == 0 || DirOf(w, event.call.open.id).lineage.Some? {
      RetryLineages(w, event.call.open, n);
    } else {
      OpenPrefix(w, event.call.open, n);
    }
  }

  lemma EventExclusiveIff(w: World, event: Event)
    requires Exclusive(w)
    ensures Exclusive(PutAll(w, Durable(w, event))) <==> !Breaks(w, event)
  {
    var n := Min(event.cut, |PlanOf(w, event.call).writes|);
    if !event.call.Open? {
      OtherCallsKeepRoles(w, event.call, n);
      SameLineages(w, PutAll(w, Durable(w, event)));
    } else if n == 0 || DirOf(w, event.call.open.id).lineage.Some? {
      RetryLineages(w, event.call.open, n);
      SameLineages(w, PutAll(w, Durable(w, event)));
      if n == 0 && OpenPlan(w, event.call.open).accepted { OpenWrites(w, event.call.open); }
    } else {
      AdmissionExclusiveIff(w, event.call.open, n);
    }
  }

  lemma {:induction false} RunStays(w: World, events: seq<Event>)
    ensures LineagesStay(w, Run(w, events))
    decreases events
  {
    if events != [] {
      EventStays(w, events[0]);
      RunStays(PutAll(w, Durable(w, events[0])), events[1..]);
    }
  }

  /** Over every run with any cuts: the roles are exclusive afterwards exactly when no fresh admission began that took
      a room of an assignment unfinished at that moment in the opposite role. */
  lemma {:induction false} RunExclusiveIff(w: World, events: seq<Event>)
    requires Exclusive(w)
    ensures Exclusive(Run(w, events)) <==> !Broken(w, events)
    decreases events
  {
    if events != [] {
      var next := PutAll(w, Durable(w, events[0]));
      EventExclusiveIff(w, events[0]);
      if Breaks(w, events[0]) {
        RunStays(next, events[1..]);
        BrokenStays(next, Run(next, events[1..]));
      } else {
        RunExclusiveIff(next, events[1..]);
      }
    }
  }

  // ----- what a stopped admission lets happen -----

  predicate Ended(d: Dir, before: Dir) {
    d.lineage == before.lineage && d.lifecycle.Some? && !EngagedStage(d.lifecycle.value.stage) && Resolved(d)
  }

  /** Nothing but the new assignment and the one it ends differs in the directories. */
  ghost predicate OpenedDirs(w: World, call: OpenCall, after: World)
    requires call.owner in w.rooms
  {
    && call.id in after.dirs && after.dirs[call.id].lineage == Some(LineageOf(w, call))
    && Engaged(after.dirs[call.id]) && Resolved(after.dirs[call.id])
    && (forall id :: id in after.dirs && id != call.id ==> id in w.dirs)
    && forall id :: id in w.dirs && id != call.id ==>
         && id in after.dirs
         && (after.dirs[id] == w.dirs[id] || (Some(id) == call.supersedes && Ended(after.dirs[id], w.dirs[id])))
  }

  lemma AdmittedDirs(w: World, call: OpenCall)
    requires Inv(w) && call.owner in w.rooms && DirOf(w, call.id).lineage.None?
    ensures OpenedDirs(w, call, Admitted(w, call, 1)) && OpenedDirs(w, call, Admitted(w, call, 2))
  {
    assert call.id in w.dirs ==> DirOk(call.id, w.dirs[call.id]);
  }

  lemma MarkedDirs(w: World, call: OpenCall, mid: World)
    requires Inv(w) && call.owner in w.rooms && call.assignee in w.rooms && SupersedesOk(w, call)
    requires OpenedDirs(w, call, mid) && call.supersedes.Some? && call.supersedes != Some(call.id)
    ensures MarkSuperseded(w, call) != [] && OpenedDirs(w, call, PutAll(mid, MarkSuperseded(w, call)))
  {
    var prior := call.supersedes.value;
    assert prior in w.dirs && DirOk(prior, w.dirs[prior]);
    assert mid.dirs[prior] == w.dirs[prior] || Ended(mid.dirs[prior], w.dirs[prior]);
    PutOne(mid, MarkSuperseded(w, call)[0]);
  }

  lemma StoppedDirs(w: World, call: OpenCall, n: nat)
    requires Inv(w) && OpenPlan(w, call).accepted && DirOf(w, call.id).lineage.None?
    requires 0 < n <= |OpenPlan(w, call).writes|
    ensures OpenedDirs(w, call, PutAll(w, OpenPlan(w, call).writes[..n]))
  {
    FreshPrefix(w, call, n);
    AdmittedDirs(w, call);
    if call.supersedes.Some? { MarkedDirs(w, call, Admitted(w, call, 2)); }
    var m := 2 + |MarkSuperseded(w, call)|;
    if n >= m {
      PointersKeepDirs(PutAll(Admitted(w, call, 2), MarkSuperseded(w, call)), w, call, n - m);
    }
  }

  /** An admission that takes a room of another in the opposite role, acceptable before that one began. */
  predicate Follows(w: World, call: OpenCall, second: OpenCall) {
    && OpenPlan(w, call).accepted && DirOf(w, call.id).lineage.None?
    && OpenPlan(w, second).accepted && DirOf(w, second.id).lineage.None?
    && second.id != call.id && (second.owner == call.assignee || second.assignee == call.owner)
  }

  lemma FollowsSupersedes(w: World, call: OpenCall, second: OpenCall, after: World)
    requires Inv(w) && Follows(w, call, second) && OpenedDirs(w, call, after)
    requires second.assignee in after.rooms
    requires after.rooms[second.assignee].unsettled == w.rooms[second.assignee].unsettled
    ensures SupersedesOk(after, second)
  {
    if second.supersedes.Some? {
      var prior := second.supersedes.value;
      assert prior in w.dirs && prior != call.id && Some(prior) != call.supersedes;
    }
  }

  lemma FollowsFree(w: World, call: OpenCall, second: OpenCall, after: World)
    requires Inv(w) && Follows(w, call, second) && OpenedDirs(w, call, after)
    requires second.assignee in after.rooms && after.rooms[second.assignee].pointer == w.rooms[second.assignee].pointer
    ensures AssigneeFree(after, second)
  {
    var pointer := w.rooms[second.assignee].pointer;
    if pointer.Some? {
      forall prior | prior in pointer.value.ids && prior != second.id && Some(prior) != second.supersedes
        ensures DirOf(after, prior).lifecycle.Some? && !EngagedStage(DirOf(after, prior).lifecycle.value.stage)
      {
        assert prior in w.dirs && DirOk(prior, w.dirs[prior]);
        assert prior != call.id;
      }
    }
  }

  lemma FollowsRooms(w: World, call: OpenCall, second: OpenCall, k: int, after: World)
    requires Inv(w) && Follows(w, call, second) && OpenedDirs(w, call, after)
    requires RoomsOk(w, call) && RoomsOk(w, second) && after.rooms == RoomsWith(w, call, k)
    ensures RoomsOk(after, second)
            <==> (second.owner == call.assignee ==> k < 2) && (second.assignee == call.owner ==> k < 1)
  {
    if (second.owner == call.assignee ==> k < 2) && (second.assignee == call.owner ==> k < 1) {
      assert after.rooms[second.assignee] == w.rooms[second.assignee];
      assert after.rooms[second.owner] == w.rooms[second.owner];
      FollowsSupersedes(w, call, second, after);
      FollowsFree(w, call, second, after);
    }
  }

  lemma FollowsAdmissible(w: World, call: OpenCall, second: OpenCall, after: World)
    requires Inv(w) && Follows(w, call, second) && OpenedDirs(w, call, after)
    requires RoomsOk(w, call) && RoomsOk(w, second)
    ensures var l := LineageOf(w, second);
      Admissible(after, l.owner, l.repo, l.paths, Excluded(second))
      <==> Overlap(Elements(second.paths), Elements(call.paths)) == {}
  {
    var l := LineageOf(w, second);
    assert call.id !in Excluded(second);
    assert Conflicts(after.dirs[call.id], l.owner, l.repo, l.paths)
           <==> Overlap(Elements(second.paths), Elements(call.paths)) != {};
    forall other | other in after.dirs && other !in Excluded(second) && other != call.id
      ensures !Conflicts(after.dirs[other], l.owner, l.repo, l.paths)
    {
      assert other in w.dirs && !Conflicts(w.dirs[other], l.owner, l.repo, l.paths);
    }
  }

  /** How many writes of the first admission must be missing for the second to be accepted: both rooms are free until
      their own pointer is written, the owner's before the assignment room's. */
  function Missing(call: OpenCall, second: OpenCall): nat { if second.assignee == call.owner then 2 else 1 }

  /** What a stopped admission lets its two rooms do: an admission in which one of them takes the opposite role,
      acceptable before, is still accepted exactly until the stopped one wrote that room's pointer, provided the two
      path lists do not overlap. */
  lemma StoppedRoomOpensIff(w: World, call: OpenCall, n: nat, second: OpenCall)
    requires Inv(w) && Follows(w, call, second) && n <= |OpenPlan(w, call).writes|
    ensures OpenPlan(PutAll(w, OpenPlan(w, call).writes[..n]), second).accepted
            <==> n == 0 || (&& n + Missing(call, second) <= |OpenPlan(w, call).writes|
                            && Overlap(Elements(second.paths), Elements(call.paths)) == {})
  {
    var after, k := PutAll(w, OpenPlan(w, call).writes[..n]), n + 2 - |OpenPlan(w, call).writes|;
    if n == 0 {
      assert after == w;
    } else {
      StoppedDirs(w, call, n);
      OpenPrefix(w, call, n);
      OpenWrites(w, second);
      FollowsRooms(w, call, second, k, after);
      FollowsAdmissible(w, call, second, after);
      assert DirOf(after, second.id).lineage.None?;
      FollowsPlan(w, call, second, k, after);
    }
  }

  lemma FollowsPlan(w: World, call: OpenCall, second: OpenCall, k: int, after: World)
    requires Follows(w, call, second) && RoomsOk(w, call) && RoomsOk(w, second)
    requires after.rooms == RoomsWith(w, call, k) && DirOf(after, second.id).lineage.None?
    ensures var l := LineageOf(w, second);
      OpenPlan(after, second).accepted
      <==> RoomsOk(after, second) && Admissible(after, l.owner, l.repo, l.paths, Excluded(second))
  {
    assert LineageOf(after, second).repo == LineageOf(w, second).repo;
  }

  /** Then one room has both roles in two engaged assignments as soon as the second lineage is written. */
  lemma CrashBreaksRoles(w: World, call: OpenCall, n: nat, second: OpenCall, m: nat)
    requires Inv(w) && Follows(w, call, second) && 0 < n <= |OpenPlan(w, call).writes|
    requires var stopped := PutAll(w, OpenPlan(w, call).writes[..n]);
      OpenPlan(stopped, second).accepted && 0 < m <= |OpenPlan(stopped, second).writes|
    ensures var stopped := PutAll(w, OpenPlan(w, call).writes[..n]);
            var after := PutAll(stopped, OpenPlan(stopped, second).writes[..m]);
      && Engaged(DirOf(after, call.id)) && Engaged(DirOf(after, second.id)) && !Exclusive(after)
      && (second.owner == call.assignee ==>
            DirOf(after, second.id).lineage.value.owner == DirOf(after, call.id).lineage.value.assignee)
      && (second.assignee == call.owner ==>
            DirOf(after, second.id).lineage.value.assignee == DirOf(after, call.id).lineage.value.owner)
  {
    var stopped := PutAll(w, OpenPlan(w, call).writes[..n]);
    StoppedDirs(w, call, n);
    OpenPrefix(w, call, n);
    PlanLegal(w, Open(call));
    PrefixKeeps(w, OpenPlan(w, call).writes, n);
    StoppedDirs(stopped, second, m);
    SecondKeepsFirst(w, call, second, stopped);
  }

  lemma SecondKeepsFirst(w: World, call: OpenCall, second: OpenCall, stopped: World)
    requires Follows(w, call, second)
    ensures second.supersedes != Some(call.id)
  {
  }

  // ----- a witness -----

  const BARE := Room(0, true, false, None)
  const ROOMS := map["p" := BARE, "q" := BARE, "r" := BARE]

  lemma OnePath(c: char)
    requires c !in {'/', '\\', '\0', '.'}
    ensures OwnedPathsOk([[c]]) && Elements([[c]]) == {[c]}
  {
    SplitPlain([c]);
    assert !Less([c], [c]);
  }

  lemma DisjointPaths()
    ensures Overlap({"a"}, {"b"}) == {}
  {
    assert !Under("a", "b") && !Under("b", "a");
    forall p ensures p !in Overlap({"a"}, {"b"}) {
    }
  }

  function FirstCall(): OpenCall { OpenCall("p", "one", "q", ["a"], None, 0, 0, 0, true) }

  function SecondCall(): OpenCall { OpenCall("q", "two", "r", ["b"], None, 0, 0, 0, true) }

  /** From an empty controller home: the assignment room of one stopped admission becomes the owner of the next. */
  lemma CrashExample()
    ensures var w := World(map[], ROOMS);
      var after := Run(w, [Event(Open(FirstCall()), 1), Event(Open(SecondCall()), 1)]);
      && Inv(w) && PointersOk(w)
      && Engaged(DirOf(after, "one")) && Engaged(DirOf(after, "two"))
      && DirOf(after, "two").lineage.value.owner == DirOf(after, "one").lineage.value.assignee
  {
    var w := World(map[], ROOMS);
    var first, second := Event(Open(FirstCall()), 1), Event(Open(SecondCall()), 1);
    OnePath('a');
    OnePath('b');
    DisjointPaths();
    OverlapSymmetric({"a"}, {"b"});
    assert OpenPlan(w, FirstCall()) == FreshPlan(w, FirstCall());
    var w1 := Put(w, PutLineage(LineageOf(w, FirstCall())));
    FreshPrefix(w, FirstCall(), 1);
    assert PutAll(w, Durable(w, first)) == w1;
    assert RoomsOk(w1, SecondCall());
    assert !Conflicts(w1.dirs["one"], "q", 0, {"b"});
    assert OpenPlan(w1, SecondCall()) == FreshPlan(w1, SecondCall());
    FreshPrefix(w1, SecondCall(), 1);
    assert [first, second][1..] == [second] && [second][1..] == [];
    assert Run(w1, [second]) == Run(PutAll(w1, Durable(w1, second)), []);
  }

  function MirrorCall(): OpenCall { OpenCall("r", "two", "p", ["b"], None, 0, 0, 0, true) }

  /** The mirror: the owner of one stopped admission becomes the assignment room of the next. */
  lemma MirrorExample()
    ensures var w := World(map[], ROOMS);
      var after := Run(w, [Event(Open(FirstCall()), 1), Event(Open(MirrorCall()), 1)]);
      && Inv(w) && PointersOk(w)
      && Engaged(DirOf(after, "one")) && Engaged(DirOf(after, "two"))
      && DirOf(after, "two").lineage.value.assignee == DirOf(after, "one").lineage.value.owner
  {
    var w := World(map[], ROOMS);
    var first, second := Event(Open(FirstCall()), 1), Event(Open(MirrorCall()), 1);
    OnePath('a');
    OnePath('b');
    DisjointPaths();
    OverlapSymmetric({"a"}, {"b"});
    assert OpenPlan(w, FirstCall()) == FreshPlan(w, FirstCall());
    var w1 := Put(w, PutLineage(LineageOf(w, FirstCall())));
    FreshPrefix(w, FirstCall(), 1);
    assert PutAll(w, Durable(w, first)) == w1;
    assert RoomsOk(w1, MirrorCall());
    assert !Conflicts(w1.dirs["one"], "r", 0, {"b"});
    assert OpenPlan(w1, MirrorCall()) == FreshPlan(w1, MirrorCall());
    FreshPrefix(w1, MirrorCall(), 1);
    assert [first, second][1..] == [second] && [second][1..] == [];
    assert Run(w1, [second]) == Run(PutAll(w1, Durable(w1, second)), []);
  }

  function SupersedingCall(): OpenCall { OpenCall("p", "two", "q", ["a"], Some("one"), 0, 0, 0, true) }

  lemma FirstAccepted()
    ensures OpenPlan(World(map[], ROOMS), FirstCall()).accepted
  {
    OnePath('a');
  }

  /** An admission that supersedes is reached: after a whole first one, the same rooms may open its successor. */
  lemma SupersedingExample()
    ensures var w := Run(World(map[], ROOMS), [Event(Open(FirstCall()), 4)]);
      && Inv(w) && OpenPlan(w, SupersedingCall()).accepted && |OpenPlan(w, SupersedingCall()).writes| == 5
      && DirOf(w, "two").lineage.None? && DirOf(w, "one").lifecycle.Some?
  {
    var w, call := World(map[], ROOMS), FirstCall();
    var event := Event(Open(call), 4);
    FirstAccepted();
    PlainPrefix(w, call, 4);
    RunKeepsInv(w, [event]);
    assert [event][1..] == [];
    var after := Interrupted(w, call, 4);
    assert Run(w, [event]) == Run(after, []) == after;
    InterruptedDirs(w, call, 4);
    InterruptedRooms(w, call, 4);
    OnePath('a');
    assert RoomsOk(after, SupersedingCall());
    assert OpenPlan(after, SupersedingCall()) == FreshPlan(after, SupersedingCall());
  }
}
