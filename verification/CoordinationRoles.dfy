/** Room pointers under crashes: exactly which runs leave an assignment without its pointers, and what such an
    assignment lets its room do. */
module CoordinationRoles {
  import opened Values
  import opened Coordination
  import opened CoordinationProofs
  import opened CoordinationTheorems
  import opened OwnedPaths

  // ----- room pointers -----

  /** Both rooms of the assignment name it. */
  predicate Pointed(w: World, id: Id) {
    var lineage := DirOf(w, id).lineage;
    && lineage.Some?
    && Names(w, lineage.value.owner, Owner, id)
    && Names(w, lineage.value.assignee, Assignee, id)
  }

  /** The room pointers of every assignment are in place. */
  predicate PointersOk(w: World) {
    forall id :: id in w.dirs && w.dirs[id].lineage.Some? ==> Pointed(w, id)
  }

  /** The assignments whose room pointers are incomplete. */
  function Unfinished(w: World): set<Id> {
    set id | id in w.dirs && w.dirs[id].lineage.Some? && !Pointed(w, id)
  }

  lemma PointersOkUnfinished(w: World)
    ensures PointersOk(w) <==> Unfinished(w) == {}
  {
    if Unfinished(w) == {} {
      forall id | id in w.dirs && w.dirs[id].lineage.Some? ensures Pointed(w, id) {
        assert id !in Unfinished(w);
      }
    }
  }

  /** No room is the owner of one assignment and the assignment room of another. */
  predicate Exclusive(w: World) {
    forall a, b :: a in w.dirs && b in w.dirs && w.dirs[a].lineage.Some? && w.dirs[b].lineage.Some? ==>
      w.dirs[a].lineage.value.owner != w.dirs[b].lineage.value.assignee
  }

  /** Complete pointers are enough. */
  lemma RoleExclusive(w: World)
    requires PointersOk(w)
    ensures Exclusive(w)
  {
    forall a, b | a in w.dirs && b in w.dirs && w.dirs[a].lineage.Some? && w.dirs[b].lineage.Some?
      ensures w.dirs[a].lineage.value.owner != w.dirs[b].lineage.value.assignee
    {
      assert Pointed(w, a) && Pointed(w, b);
    }
  }

  /** Every assignment a room names has a lineage, and its assignment room never names it before its owner. */
  ghost predicate Named(w: World) {
    && (forall room, id :: room in w.rooms && id in Ids(w.rooms[room].pointer) ==> DirOf(w, id).lineage.Some?)
    && forall id :: DirOf(w, id).lineage.Some? && Names(w, DirOf(w, id).lineage.value.assignee, Assignee, id) ==>
         Names(w, DirOf(w, id).lineage.value.owner, Owner, id)
  }

  /** A new controller home has nothing unfinished. */
  lemma NewHomeInv(w: World)
    requires w.dirs == map[] && forall room :: room in w.rooms ==> w.rooms[room].pointer.None?
    ensures Inv(w) && Named(w) && PointersOk(w)
  {
  }

  // ----- what a prefix of an admission leaves -----

  /** The writes of an admission before its room pointers. */
  function Admit(w: World, call: OpenCall): seq<Write>
    requires call.owner in w.rooms
  {
    var recorded := DirOf(w, call.id);
    if recorded.lineage.None? then
      [PutLineage(LineageOf(w, call)), PutLifecycle(call.id, NewLifecycle(LineageOf(w, call)))]
      + MarkSuperseded(w, call)
    else if recorded.lifecycle.None? then [PutLifecycle(call.id, NewLifecycle(recorded.lineage.value))]
    else []
  }

  /** The call works on two rooms, and repeats the lineage on record if there is one. */
  predicate Opens(w: World, call: OpenCall) {
    && call.owner in w.rooms && call.assignee in w.rooms && call.owner != call.assignee
    && (DirOf(w, call.id).lineage.Some? ==> DirOf(w, call.id).lineage.value.owner == call.owner
                                            && DirOf(w, call.id).lineage.value.assignee == call.assignee)
  }

  lemma OpenWrites(w: World, call: OpenCall)
    requires OpenPlan(w, call).accepted
    ensures RoomsOk(w, call) && Opens(w, call)
    ensures OpenPlan(w, call).writes == Admit(w, call) + Pointers(w, call)
  {
  }

  /** Writes to other records than lineages leave lineages alone. */
  lemma {:induction false} LineagesKept(w: World, ws: seq<Write>, id: Id)
    requires forall x :: x in ws && x.PutLineage? ==> x.lineage.id != id
    ensures DirOf(PutAll(w, ws), id).lineage == DirOf(w, id).lineage
    decreases ws
  {
    if ws != [] {
      assert ws[0] in ws && forall x :: x in ws[1..] ==> x in ws;
      LineagesKept(Put(w, ws[0]), ws[1..], id);
    }
  }

  lemma {:induction false} RoomsKept(w: World, ws: seq<Write>)
    requires forall x :: x in ws ==> !x.PutPointer? && !x.PutRooms?
    ensures PutAll(w, ws).rooms == w.rooms
    decreases ws
  {
    if ws != [] {
      assert ws[0] in ws && forall x :: x in ws[1..] ==> x in ws;
      RoomsKept(Put(w, ws[0]), ws[1..]);
    }
  }

  /** The rooms once so many of the two pointers are written. */
  function RoomsWith(w: World, call: OpenCall, k: int): map<Id, Room>
    requires call.owner in w.rooms && call.assignee in w.rooms
  {
    var owner, assignee := w.rooms[call.owner], w.rooms[call.assignee];
    var first := w.rooms[call.owner := owner.(pointer := Some(Pointer(Owner, Ids(owner.pointer) + {call.id})))];
    if k <= 0 then w.rooms
    else if k == 1 then first
    else first[call.assignee := assignee.(pointer := Some(Pointer(Assignee, Ids(assignee.pointer) + {call.id})))]
  }

  lemma PointerPrefix(w: World, mid: World, call: OpenCall, k: nat)
    requires call.owner in w.rooms && call.assignee in w.rooms && call.owner != call.assignee
    requires mid.rooms == w.rooms && k <= 2
    ensures var after := PutAll(mid, Pointers(w, call)[..k]);
            after.rooms == RoomsWith(w, call, k) && after.dirs == mid.dirs
  {
    var ps := Pointers(w, call);
    assert ps[..0] == [] && ps[..1] == [ps[0]] && ps[..2] == [ps[0], ps[1]];
    PutOne(mid, ps[0]);
    PutTwo(mid, ps[0], ps[1]);
  }

  /** The lineages after a prefix of an admission that began. */
  ghost predicate Recorded(w: World, dirs: World, call: OpenCall, begun: bool) {
    && (forall id :: id != call.id ==> DirOf(dirs, id).lineage == DirOf(w, id).lineage)
    && (if begun then DirOf(dirs, call.id).lineage.Some?
                      && DirOf(dirs, call.id).lineage.value.owner == call.owner
                      && DirOf(dirs, call.id).lineage.value.assignee == call.assignee
        else DirOf(dirs, call.id).lineage == DirOf(w, call.id).lineage)
  }

  lemma AdmitPrefix(w: World, call: OpenCall, k: nat)
    requires Opens(w, call) && k <= |Admit(w, call)|
    ensures PutAll(w, Admit(w, call)[..k]).rooms == w.rooms
    ensures Recorded(w, PutAll(w, Admit(w, call)[..k]), call, k > 0 || DirOf(w, call.id).lineage.Some?)
  {
    var ws := Admit(w, call);
    RoomsKept(w, ws[..k]);
    forall id | id != call.id ensures DirOf(PutAll(w, ws[..k]), id).lineage == DirOf(w, id).lineage {
      LineagesKept(w, ws[..k], id);
    }
    if DirOf(w, call.id).lineage.Some? || k == 0 {
      LineagesKept(w, ws[..k], call.id);
    } else {
      assert ws[..k][0] == PutLineage(LineageOf(w, call)) && ws[..k][1..] == ws[1..k];
      LineagesKept(Put(w, ws[0]), ws[1..k], call.id);
    }
  }

  lemma WritesPrefix(w: World, call: OpenCall, n: nat)
    requires Opens(w, call) && |Admit(w, call)| <= n <= |Admit(w, call)| + 2
    ensures var after := PutAll(w, (Admit(w, call) + Pointers(w, call))[..n]);
      && after.rooms == RoomsWith(w, call, n - |Admit(w, call)|)
      && after.dirs == PutAll(w, Admit(w, call)).dirs
  {
    var admit, ps, k := Admit(w, call), Pointers(w, call), n - |Admit(w, call)|;
    assert (admit + ps)[..n] == admit + ps[..k];
    PutAllConcat(w, admit, ps[..k]);
    RoomsKept(w, admit);
    PointerPrefix(w, PutAll(w, admit), call, k);
  }

  /** The rooms and lineages after any prefix of an accepted admission. */
  lemma OpenPrefix(w: World, call: OpenCall, n: nat)
    requires OpenPlan(w, call).accepted && n <= |OpenPlan(w, call).writes|
    ensures RoomsOk(w, call) && Opens(w, call) && |OpenPlan(w, call).writes| >= 2
    ensures PutAll(w, OpenPlan(w, call).writes[..n]).rooms
            == RoomsWith(w, call, n + 2 - |OpenPlan(w, call).writes|)
    ensures Recorded(w, PutAll(w, OpenPlan(w, call).writes[..n]), call, n > 0 || DirOf(w, call.id).lineage.Some?)
  {
    OpenWrites(w, call);
    PrefixRecorded(w, call, OpenPlan(w, call).writes, n);
  }

  lemma PrefixRecorded(w: World, call: OpenCall, writes: seq<Write>, n: nat)
    requires Opens(w, call) && writes == Admit(w, call) + Pointers(w, call) && n <= |writes|
    ensures PutAll(w, writes[..n]).rooms == RoomsWith(w, call, n - |Admit(w, call)|)
    ensures Recorded(w, PutAll(w, writes[..n]), call, n > 0 || DirOf(w, call.id).lineage.Some?)
  {
    var admit := Admit(w, call);
    if n <= |admit| {
      assert writes[..n] == admit[..n];
      AdmitPrefix(w, call, n);
    } else {
      assert admit[..|admit|] == admit;
      AdmitPrefix(w, call, |admit|);
      WritesPrefix(w, call, n);
    }
  }

  // ----- one admission -----

  /** Pointers written for one assignment leave every other name in place. */
  lemma NamesOthers(w: World, call: OpenCall, k: int, after: World, room: Id, role: Role, id: Id)
    requires RoomsOk(w, call) && after.rooms == RoomsWith(w, call, k) && id != call.id
    ensures Names(after, room, role, id) <==> Names(w, room, role, id)
  {
  }

  lemma NamesOwn(w: World, call: OpenCall, k: int, after: World)
    requires RoomsOk(w, call) && after.rooms == RoomsWith(w, call, k)
    ensures Names(after, call.owner, Owner, call.id) <==> k >= 1 || Names(w, call.owner, Owner, call.id)
    ensures Names(after, call.assignee, Assignee, call.id) <==> k >= 2 || Names(w, call.assignee, Assignee, call.id)
  {
  }

  lemma PointedOthers(w: World, call: OpenCall, k: int, after: World, begun: bool, id: Id)
    requires RoomsOk(w, call) && after.rooms == RoomsWith(w, call, k) && Recorded(w, after, call, begun)
    requires id != call.id
    ensures Pointed(after, id) <==> Pointed(w, id)
  {
    var lineage := DirOf(w, id).lineage;
    if lineage.Some? {
      NamesOthers(w, call, k, after, lineage.value.owner, Owner, id);
      NamesOthers(w, call, k, after, lineage.value.assignee, Assignee, id);
    }
  }

  /** The whole admission sets its pointers; a fresh one stopped after its first write does not; a repeated one
      stopped early changes nothing. */
  lemma PointedOwn(w: World, call: OpenCall, n: nat)
    requires OpenPlan(w, call).accepted && n <= |OpenPlan(w, call).writes|
    ensures n == |OpenPlan(w, call).writes| ==> Pointed(PutAll(w, OpenPlan(w, call).writes[..n]), call.id)
    ensures n < |OpenPlan(w, call).writes| && Named(w) ==>
              (Pointed(PutAll(w, OpenPlan(w, call).writes[..n]), call.id) <==> Pointed(w, call.id))
  {
    OpenPrefix(w, call, n);
    OpenWrites(w, call);
    NamesOwn(w, call, n + 2 - |OpenPlan(w, call).writes|, PutAll(w, OpenPlan(w, call).writes[..n]));
  }

  /** What one admission stopped after so many writes adds to the unfinished assignments, or takes from them. */
  function AfterOpen(w: World, call: OpenCall, n: nat, open: set<Id>): set<Id> {
    var plan := OpenPlan(w, call);
    if !plan.accepted || n == 0 then open
    else if n >= |plan.writes| then open - {call.id}
    else if DirOf(w, call.id).lineage.None? then open + {call.id}
    else open
  }

  lemma InUnfinished(w: World, id: Id)
    ensures id in Unfinished(w) <==> DirOf(w, id).lineage.Some? && !Pointed(w, id)
  {
  }

  lemma OpenUnfinished(w: World, call: OpenCall, n: nat)
    requires Named(w) && n <= |OpenPlan(w, call).writes|
    ensures Unfinished(PutAll(w, OpenPlan(w, call).writes[..n])) == AfterOpen(w, call, n, Unfinished(w))
  {
    if OpenPlan(w, call).accepted {
      var after := PutAll(w, OpenPlan(w, call).writes[..n]);
      OpenPrefix(w, call, n);
      forall id ensures id in Unfinished(after) <==> id in AfterOpen(w, call, n, Unfinished(w)) {
        InUnfinished(w, id);
        InUnfinished(after, id);
        if id == call.id {
          PointedOwn(w, call, n);
        } else {
          PointedOthers(w, call, n + 2 - |OpenPlan(w, call).writes|, after,
                        n > 0 || DirOf(w, call.id).lineage.Some?, id);
        }
      }
    } else {
      assert OpenPlan(w, call).writes == [];
    }
  }

  /** A fresh admission stopped anywhere keeps all room pointers complete exactly when none or all of its writes
      happened. */
  lemma AdmissionPrefixIff(w: World, call: OpenCall, n: nat)
    requires PointersOk(w) && Named(w)
    requires OpenPlan(w, call).accepted && DirOf(w, call.id).lineage.None? && n <= |OpenPlan(w, call).writes|
    ensures PointersOk(PutAll(w, OpenPlan(w, call).writes[..n])) <==> n == 0 || n == |OpenPlan(w, call).writes|
  {
    PointersOkUnfinished(w);
    PointersOkUnfinished(PutAll(w, OpenPlan(w, call).writes[..n]));
    OpenUnfinished(w, call, n);
    assert 0 < n < |OpenPlan(w, call).writes| ==> call.id in AfterOpen(w, call, n, Unfinished(w));
  }

  lemma NamedRoom(w: World, call: OpenCall, k: int, after: World, room: Id, id: Id)
    requires RoomsOk(w, call) && after.rooms == RoomsWith(w, call, k)
    requires room in after.rooms && id in Ids(after.rooms[room].pointer) && id != call.id
    ensures room in w.rooms && id in Ids(w.rooms[room].pointer)
  {
  }

  lemma OpenNamed(w: World, call: OpenCall, n: nat)
    requires Named(w) && n <= |OpenPlan(w, call).writes|
    ensures Named(PutAll(w, OpenPlan(w, call).writes[..n]))
  {
    if OpenPlan(w, call).accepted && n > 0 {
      var after, k := PutAll(w, OpenPlan(w, call).writes[..n]), n + 2 - |OpenPlan(w, call).writes|;
      OpenPrefix(w, call, n);
      OpenWrites(w, call);
      forall room, id | room in after.rooms && id in Ids(after.rooms[room].pointer)
        ensures DirOf(after, id).lineage.Some?
      {
        if id != call.id { NamedRoom(w, call, k, after, room, id); }
      }
      forall id | DirOf(after, id).lineage.Some? && Names(after, DirOf(after, id).lineage.value.assignee, Assignee, id)
        ensures Names(after, DirOf(after, id).lineage.value.owner, Owner, id)
      {
        OwnerFirst(w, call, k, after, id);
      }
    } else {
      assert OpenPlan(w, call).writes[..n] == [];
    }
  }

  lemma OwnerFirst(w: World, call: OpenCall, k: int, after: World, id: Id)
    requires Named(w) && RoomsOk(w, call) && after.rooms == RoomsWith(w, call, k) && Recorded(w, after, call, true)
    requires DirOf(w, call.id).lineage.Some? ==> DirOf(w, call.id).lineage.value.owner == call.owner
                                                 && DirOf(w, call.id).lineage.value.assignee == call.assignee
    requires DirOf(after, id).lineage.Some? && Names(after, DirOf(after, id).lineage.value.assignee, Assignee, id)
    ensures Names(after, DirOf(after, id).lineage.value.owner, Owner, id)
  {
    if id == call.id {
      NamesOwn(w, call, k, after);
    } else {
      NamesOthers(w, call, k, after, DirOf(w, id).lineage.value.owner, Owner, id);
      NamesOthers(w, call, k, after, DirOf(w, id).lineage.value.assignee, Assignee, id);
    }
  }

  // ----- the other calls -----

  /** Neither lineages nor room pointers change. */
  ghost predicate SameRoles(w: World, after: World) {
    && (forall id :: DirOf(after, id).lineage == DirOf(w, id).lineage)
    && (forall room :: room in w.rooms ==> room in after.rooms && after.rooms[room].pointer == w.rooms[room].pointer)
    && forall room :: room in after.rooms && room !in w.rooms ==> after.rooms[room].pointer.None?
  }

  lemma SameRolesKeep(w: World, after: World)
    requires SameRoles(w, after)
    ensures Unfinished(after) == Unfinished(w) && (Named(w) ==> Named(after))
  {
    forall id ensures id in Unfinished(after) <==> id in Unfinished(w) {
      InUnfinished(w, id);
      InUnfinished(after, id);
    }
    if Named(w) {
      forall room, id | room in after.rooms && id in Ids(after.rooms[room].pointer)
        ensures DirOf(after, id).lineage.Some?
      {
        assert room in w.rooms;
      }
    }
  }

  lemma OtherCallsKeepRoles(w: World, call: Call, n: nat)
    requires !call.Open? && n <= |PlanOf(w, call).writes|
    ensures SameRoles(w, PutAll(w, PlanOf(w, call).writes[..n]))
  {
    var ws := PlanOf(w, call).writes[..n];
    if call.Rooms? {
      if n == 1 { PutOne(w, ws[0]); assert ws == [ws[0]]; }
    } else {
      OtherWrites(w, call);
      assert forall x :: x in ws ==> x in PlanOf(w, call).writes;
      RoomsKept(w, ws);
      forall id ensures DirOf(PutAll(w, ws), id).lineage == DirOf(w, id).lineage { LineagesKept(w, ws, id); }
    }
  }

  lemma OtherWrites(w: World, call: Call)
    requires !call.Open? && !call.Rooms?
    ensures forall x :: x in PlanOf(w, call).writes ==> !x.PutPointer? && !x.PutRooms? && !x.PutLineage?
  {
  }

  // ----- runs -----

  /** The unfinished assignments after a call, from the calls and cuts alone: a fresh admission stopped between its
      first and its last write adds its own, an admission carried through takes its own away. */
  function AfterEvent(w: World, event: Event, open: set<Id>): set<Id> {
    if event.call.Open? then AfterOpen(w, event.call.open, event.cut, open) else open
  }

  function LeftOpen(w: World, events: seq<Event>, open: set<Id>): set<Id>
    decreases events
  {
    if events == [] then open
    else LeftOpen(PutAll(w, Durable(w, events[0])), events[1..], AfterEvent(w, events[0], open))
  }

  lemma EventUnfinished(w: World, event: Event)
    requires Named(w)
    ensures Named(PutAll(w, Durable(w, event)))
    ensures Unfinished(PutAll(w, Durable(w, event))) == AfterEvent(w, event, Unfinished(w))
  {
    var n := Min(event.cut, |PlanOf(w, event.call).writes|);
    if event.call.Open? {
      OpenUnfinished(w, event.call.open, n);
      OpenNamed(w, event.call.open, n);
    } else {
      OtherCallsKeepRoles(w, event.call, n);
      SameRolesKeep(w, PutAll(w, Durable(w, event)));
    }
  }

  /** Over every run with any cuts: an assignment lacks a room pointer exactly when its admission was stopped
      between its first and its last write and no later call carried it through. */
  lemma {:induction false} UnfinishedExactly(w: World, events: seq<Event>)
    requires Named(w)
    ensures Named(Run(w, events)) && Unfinished(Run(w, events)) == LeftOpen(w, events, Unfinished(w))
    decreases events
  {
    if events != [] {
      EventUnfinished(w, events[0]);
      UnfinishedExactly(PutAll(w, Durable(w, events[0])), events[1..]);
    }
  }

  /** So the room pointers are complete after a run exactly when it left no admission open. */
  lemma PointersOkIff(w: World, events: seq<Event>)
    requires Named(w)
    ensures PointersOk(Run(w, events)) <==> LeftOpen(w, events, Unfinished(w)) == {}
  {
    UnfinishedExactly(w, events);
    PointersOkUnfinished(Run(w, events));
  }

  /** Every operation of the run was carried through. */
  predicate Whole(w: World, events: seq<Event>)
    decreases events
  {
    events == [] || (events[0].cut >= |PlanOf(w, events[0].call).writes|
                     && Whole(PutAll(w, Durable(w, events[0])), events[1..]))
  }

  lemma OpenKeepsPointers(w: World, call: OpenCall)
    requires PointersOk(w)
    ensures PointersOk(PutAll(w, OpenPlan(w, call).writes))
  {
    var writes := OpenPlan(w, call).writes;
    assert writes[..|writes|] == writes;
    if OpenPlan(w, call).accepted {
      var after := PutAll(w, writes);
      OpenPrefix(w, call, |writes|);
      PointedOwn(w, call, |writes|);
      forall id | id in after.dirs && after.dirs[id].lineage.Some? && id != call.id ensures Pointed(after, id) {
        PointedOthers(w, call, 2, after, true, id);
        assert DirOf(w, id).lineage.Some?;
      }
    }
  }

  /** Over runs without a crash, room pointers stay complete, so no room is ever on both sides. */
  lemma {:induction false} WholeRunsKeepRoles(w: World, events: seq<Event>)
    requires Inv(w) && PointersOk(w) && Whole(w, events)
    ensures PointersOk(Run(w, events))
    decreases events
  {
    if events != [] {
      var call := events[0].call;
      var writes := PlanOf(w, call).writes;
      assert Durable(w, events[0]) == writes[..|writes|] == writes;
      PlanLegal(w, call);
      PrefixKeeps(w, writes, |writes|);
      if call.Open? {
        OpenKeepsPointers(w, call.open);
      } else {
        OtherCallsKeepRoles(w, call, |writes|);
        SameRolesKeep(w, PutAll(w, writes));
        PointersOkUnfinished(w);
        PointersOkUnfinished(PutAll(w, writes));
      }
      WholeRunsKeepRoles(PutAll(w, writes), events[1..]);
    }
  }
}
