/** Exactly which handbacks, preflights and imports are recorded, and what every imported assignment proves after any
    run. */
module CoordinationRecords {
  import opened Values
  import opened Coordination
  import opened CoordinationProofs
  import opened CoordinationTheorems

  // ----- what an imported assignment proves -----

  /** The import is stored and names the last preflight, which is stored, was not blocked and is about the stored latest
      handback. No path of the handback is missing; without a resolution the preflight was ready, and the owner changed
      the handback's paths to its bytes and nothing else. */
  predicate ImportProven(d: Dir) {
    d.lifecycle.Some? && d.lifecycle.value.stage == Imported ==>
      var c := d.lifecycle.value;
      && c.imported.Some? && c.imported.value in d.imports
      && var r := c.imported.value;
      var p, h := r.preflight, r.preflight.handback;
      && p in d.preflights && c.preflights != [] && c.preflights[|c.preflights| - 1] == p && !p.blocked
      && h in d.handbacks && c.latest == Some(h) && d.lineage == Some(c.lineage)
      && (forall path :: path in h.changed ==> path in r.destination || path in r.identical)
      && (r.resolution.None? ==> p.ready && r.destination <= h.changed <= r.identical)
  }

  predicate Proven(w: World) { forall id :: id in w.dirs ==> ImportProven(w.dirs[id]) }

  /** A write that imports nothing. */
  predicate ImportsNothing(x: Write) { x.PutLifecycle? ==> x.lifecycle.stage != Imported }

  lemma PutProven(w: World, x: Write)
    requires Inv(w) && Proven(w) && Legal(w, x) && ImportsNothing(x)
    ensures Proven(Put(w, x))
  {
    assert forall id :: ImportProven(DirOf(w, id));
    if x.PutLineage? { assert x.lineage.id in w.dirs ==> DirOk(x.lineage.id, w.dirs[x.lineage.id]); }
  }

  lemma {:induction false} PrefixProven(w: World, ws: seq<Write>, n: nat)
    requires Inv(w) && Proven(w) && AllLegal(w, ws) && n <= |ws| && forall x :: x in ws ==> ImportsNothing(x)
    ensures Proven(PutAll(w, ws[..n]))
    decreases n
  {
    if n > 0 {
      assert ws[0] in ws && forall x :: x in ws[1..] ==> x in ws;
      LegalKeeps(w, ws[0]);
      PutProven(w, ws[0]);
      PrefixProven(Put(w, ws[0]), ws[1..], n - 1);
      assert ws[..n][1..] == ws[1..][..n - 1];
    }
  }

  /** A refusal keeps what an imported assignment proves. */
  lemma RefusalProven(w: World, id: Id, c: Lifecycle, reason: int, n: nat)
    requires Proven(w) && id in w.dirs && w.dirs[id].lifecycle == Some(c) && n <= 1
    ensures Proven(PutAll(w, RefusePlan(id, c, reason).writes[..n]))
  {
    var ws := RefusePlan(id, c, reason).writes;
    if n == 1 {
      assert ws[..1] == ws;
      PutOne(w, ws[0]);
      assert ImportProven(w.dirs[id]);
    } else {
      assert ws[..0] == [];
    }
  }

  lemma OpenImportsNothing(w: World, call: OpenCall)
    ensures forall x :: x in OpenPlan(w, call).writes ==> ImportsNothing(x)
  {
    hide OwnedPathsOk, RoomsOk, Admissible;
  }

  lemma ImportTwo(w: World, call: ImportCall, n: nat)
    requires Inv(w) && Proven(w) && n <= 2 && DirOf(w, call.id).lifecycle.Some?
    requires ImportReady(DirOf(w, call.id), DirOf(w, call.id).lifecycle.value, call)
    ensures var c, r := DirOf(w, call.id).lifecycle.value, ImportOf(call);
            Proven(PutAll(w, [StoreImport(call.id, r),
                              PutLifecycle(call.id, c.(imported := Some(r), stage := Imported))][..n]))
  {
    var c, r := DirOf(w, call.id).lifecycle.value, ImportOf(call);
    var x, y := StoreImport(call.id, r), PutLifecycle(call.id, c.(imported := Some(r), stage := Imported));
    assert [x, y][..2] == [x, y] && [x, y][..1] == [x] && [x, y][..0] == [];
    PutOne(w, x);
    PutTwo(w, x, y);
    ReadyPaths(DirOf(w, call.id), c, call);
    assert forall id :: ImportProven(DirOf(w, id));
  }

  lemma ReadyPaths(d: Dir, c: Lifecycle, call: ImportCall)
    requires ImportReady(d, c, call)
    ensures forall path :: path in call.preflight.handback.changed ==> path in call.destination || path in call.identical
    ensures call.resolution.None? ==>
              call.preflight.ready && call.destination <= call.preflight.handback.changed <= call.identical
  {
    var changed := call.preflight.handback.changed;
    forall path | path in changed ensures path in call.destination || path in call.identical {
      assert path in changed - call.destination && path !in call.identical ==> path in MissingPaths(call);
    }
    if call.resolution.None? {
      forall path | path in call.destination ensures path in changed {
        assert path !in call.destination - changed;
      }
      forall path | path in changed ensures path in call.identical {
        assert path in call.destination ==> path in changed * call.destination;
      }
    }
  }

  lemma CallProven(w: World, call: Call, n: nat)
    requires Inv(w) && Proven(w) && n <= |PlanOf(w, call).writes|
    ensures Proven(PutAll(w, PlanOf(w, call).writes[..n]))
  {
    PlanLegal(w, call);
    match call
    case Open(c) =>
      OpenImportsNothing(w, c);
      PrefixProven(w, PlanOf(w, call).writes, n);
    case Rooms(rooms) => PrefixProven(w, PlanOf(w, call).writes, n);
    case RecordHandback(c) => HandbackProven(w, c, n);
    case RunPreflight(c) => PreflightProven(w, c, n);
    case RecordImport(c) => RecordProven(w, c, n);
  }

  lemma HandbackProven(w: World, call: HandbackCall, n: nat)
    requires Inv(w) && Proven(w) && n <= |HandbackPlan(w, call).writes| && AllLegal(w, HandbackPlan(w, call).writes)
    ensures Proven(PutAll(w, HandbackPlan(w, call).writes[..n]))
  {
    var plan := HandbackPlan(w, call);
    if plan.accepted {
      PrefixProven(w, plan.writes, n);
    } else if plan.writes != [] {
      var reason :| plan == RefusePlan(call.id, DirOf(w, call.id).lifecycle.value, reason);
      RefusalProven(w, call.id, DirOf(w, call.id).lifecycle.value, reason, n);
    }
  }

  lemma PreflightProven(w: World, call: PreflightCall, n: nat)
    requires Inv(w) && Proven(w) && n <= |PreflightPlan(w, call).writes| && AllLegal(w, PreflightPlan(w, call).writes)
    ensures Proven(PutAll(w, PreflightPlan(w, call).writes[..n]))
  {
    var plan := PreflightPlan(w, call);
    if plan.accepted {
      PrefixProven(w, plan.writes, n);
    } else if plan.writes != [] {
      var reason :| plan == RefusePlan(call.id, DirOf(w, call.id).lifecycle.value, reason);
      RefusalProven(w, call.id, DirOf(w, call.id).lifecycle.value, reason, n);
    }
  }

  lemma RecordProven(w: World, call: ImportCall, n: nat)
    requires Inv(w) && Proven(w) && n <= |ImportPlan(w, call).writes|
    ensures Proven(PutAll(w, ImportPlan(w, call).writes[..n]))
  {
    var plan := ImportPlan(w, call);
    if plan.writes == [] {
    } else if plan.accepted {
      ImportTwo(w, call, n);
    } else {
      var reason :| plan == RefusePlan(call.id, DirOf(w, call.id).lifecycle.value, reason);
      RefusalProven(w, call.id, DirOf(w, call.id).lifecycle.value, reason, n);
    }
  }

  /** Over every run with any cuts each imported assignment proves its import. A new home has none. */
  lemma {:induction false} RunProves(w: World, events: seq<Event>)
    requires Inv(w) && Proven(w)
    ensures Proven(Run(w, events))
    decreases events
  {
    if events != [] {
      var writes := PlanOf(w, events[0].call).writes;
      var n := Min(events[0].cut, |writes|);
      PlanLegal(w, events[0].call);
      PrefixKeeps(w, writes, n);
      CallProven(w, events[0].call, n);
      RunProves(PutAll(w, Durable(w, events[0])), events[1..]);
    }
  }

  lemma NewHomeProven(rooms: map<Id, Room>)
    ensures Inv(World(map[], rooms)) && Proven(World(map[], rooms))
  {
  }

  // ----- exactly which calls are accepted -----

  /** The room's pointer names the assignment in this role. */
  ghost predicate Pointing(w: World, room: Id, role: Role, id: Id) {
    room in w.rooms && exists ids: set<Id> :: w.rooms[room].pointer == Some(Pointer(role, ids)) && id in ids
  }

  lemma PointingIff(w: World, room: Id, role: Role, id: Id)
    ensures Names(w, room, role, id) <==> Pointing(w, room, role, id)
  {
    if Names(w, room, role, id) {
      assert w.rooms[room].pointer == Some(Pointer(role, w.rooms[room].pointer.value.ids));
    }
  }

  /** A handback is recorded exactly for an engaged assignment, by its own room while that still points to it, over valid
      evidence, when the candidate changes something and nothing outside the owned paths. */
  lemma HandbackIff(w: World, call: HandbackCall)
    ensures var d := DirOf(w, call.id);
            && (HandbackPlan(w, call).accepted
                <==> && d.lineage.Some? && d.lifecycle.Some? && d.lifecycle.value.stage in {Active, HandbackRecorded}
                     && d.lineage.value.assignee == call.room && Pointing(w, call.room, Assignee, call.id)
                     && call.valid && call.changed != {}
                     && forall path :: path in call.changed ==> Covered(path, d.lineage.value.paths))
            && (HandbackPlan(w, call).accepted ==>
                  exists c: Lifecycle ::
                    && HandbackPlan(w, call).writes
                       == [StoreHandback(call.id, Handback(call.id, call.changed, call.evidence)),
                           PutLifecycle(call.id, c)]
                    && c == d.lifecycle.value.(handbacks := c.handbacks, latest := c.latest, stage := HandbackRecorded)
                    && c.latest == Some(Handback(call.id, call.changed, call.evidence)) && c.latest.value in c.handbacks)
  {
    PointingIff(w, call.room, Assignee, call.id);
    hide Covered;
  }

  /** A preflight is recorded exactly for the stored latest handback, by the owner while it still points to the
      assignment, over valid evidence; it is ready exactly when nothing blocks it and the preview is clean. */
  lemma PreflightIff(w: World, call: PreflightCall)
    ensures var d := DirOf(w, call.id);
            && (PreflightPlan(w, call).accepted
                <==> && d.lineage.Some? && d.lifecycle.Some? && d.lifecycle.value.stage == HandbackRecorded
                     && d.lineage.value.owner == call.room && Pointing(w, call.room, Owner, call.id)
                     && call.handback in d.handbacks && d.lifecycle.value.latest == Some(call.handback) && call.valid)
            && (PreflightPlan(w, call).accepted ==>
                  exists p: Preflight, c: Lifecycle ::
                    && PreflightPlan(w, call).writes == [StorePreflight(call.id, p), PutLifecycle(call.id, c)]
                    && p.handback == call.handback && (p.blocked <==> call.blocked)
                    && (p.ready <==> call.clean && !call.blocked)
                    && c == d.lifecycle.value.(preflights := c.preflights) && p in c.preflights
                    && d.lifecycle.value.preflights <= c.preflights)
  {
    PointingIff(w, call.room, Owner, call.id);
    if PreflightPlan(w, call).accepted {
      var p := Preflight(call.id, call.handback, call.blocked, !call.blocked && call.clean, call.head);
      assert PreflightPlan(w, call).writes[0] == StorePreflight(call.id, p);
      var c := PreflightPlan(w, call).writes[1].lifecycle;
      assert p in c.preflights;
    }
  }

  /** A new import is recorded exactly for the last preflight, stored, unblocked and about the stored latest handback, by
      the owner while it still points to the assignment, when something of the handback arrived and none of its paths is
      missing. A resolution may stand in only for a preflight that was not ready and for other changes of the owner. */
  lemma ImportIff(w: World, call: ImportCall)
    requires DirOf(w, call.id).lifecycle.Some? && DirOf(w, call.id).lifecycle.value.stage != Imported
    ensures var d := DirOf(w, call.id);
            var c, p, h := d.lifecycle.value, call.preflight, call.preflight.handback;
            && (ImportPlan(w, call).accepted
                <==> && d.lineage == Some(c.lineage) && c.stage == HandbackRecorded
                     && c.lineage.owner == call.room && Pointing(w, call.room, Owner, call.id)
                     && p in d.preflights && |c.preflights| > 0 && c.preflights[|c.preflights| - 1] == p && !p.blocked
                     && h in d.handbacks && c.latest == Some(h) && call.verified
                     && ((exists path :: path in h.changed && path in call.destination) || call.ancestor)
                     && (forall path :: path in h.changed ==> path in call.destination || path in call.identical)
                     && (call.resolution.None? ==> p.ready && call.destination <= h.changed <= call.identical))
            && (ImportPlan(w, call).accepted ==>
                  var r := Import(p, call.operation, call.resolution, call.destination, call.identical, call.head);
                  ImportPlan(w, call).writes
                  == [StoreImport(call.id, r), PutLifecycle(call.id, c.(imported := Some(r), stage := Imported))])
  {
    PointingIff(w, call.room, Owner, call.id);
    ImportPathsIff(call);
    hide Incorporates, MissingPaths, FaithfulImport;
  }

  /** The three questions about paths, asked of single paths. */
  lemma ImportPathsIff(call: ImportCall)
    ensures var h := call.preflight.handback;
            && (Incorporates(call) <==> (exists path :: path in h.changed && path in call.destination) || call.ancestor)
            && (MissingPaths(call) == {}
                <==> forall path :: path in h.changed ==> path in call.destination || path in call.identical)
            && (MissingPaths(call) == {} ==>
                  (FaithfulImport(call) <==> call.destination <= h.changed <= call.identical))
  {
    var changed, destination := call.preflight.handback.changed, call.destination;
    assert forall path :: path in changed * destination <==> path in changed && path in destination;
    assert (exists path :: path in changed && path in destination) ==> changed * destination != {};
    if changed * destination != {} {
      var path :| path in changed * destination;
    }
    if MissingPaths(call) == {} {
      forall path | path in changed ensures path in destination || path in call.identical {
        assert path !in MissingPaths(call);
      }
    }
    assert forall path :: path in destination - changed <==> path in destination && path !in changed;
  }

  /** A recorded import answers its own preflight, operation and resolution and refuses every other, and nothing replaces
      it. */
  lemma ImportedIff(w: World, call: ImportCall)
    requires Inv(w) && Proven(w)
    requires DirOf(w, call.id).lifecycle.Some? && DirOf(w, call.id).lifecycle.value.stage == Imported
    ensures var r := DirOf(w, call.id).lifecycle.value.imported.value;
            && DirOf(w, call.id).lifecycle.value.imported.Some?
            && (ImportPlan(w, call).accepted
                <==> && DirOf(w, call.id).lineage.value.owner == call.room && r.preflight == call.preflight
                     && r.operation == call.operation && r.resolution == call.resolution)
            && (ImportPlan(w, call).accepted ==> ImportPlan(w, call).writes == [])
  {
    assert call.id in w.dirs && ImportProven(w.dirs[call.id]) && DirOk(call.id, w.dirs[call.id]);
  }

  /** Nothing in the other assignments stands in the way: all evidence is readable, and no other engaged assignment
      belongs to this owner or covers a path of the call in the same repository. */
  ghost predicate NothingInTheWay(w: World, call: OpenCall, repo: int) {
    forall other :: other in w.dirs && other != call.id && Some(other) != call.supersedes ==>
      var d := w.dirs[other];
      && (d.lifecycle.Some? ==> d.lineage.Some? && d.lifecycle.value.lineage == d.lineage.value)
      && (d.lineage.Some? && (d.lifecycle.Some? ==> d.lifecycle.value.stage in {Active, HandbackRecorded}) ==>
            && d.lineage.value.owner != call.owner
            && (d.lineage.value.repo == repo ==> Apart(Elements(call.paths), d.lineage.value.paths)))
  }

  /** No path whatever is covered by both. */
  ghost predicate Apart(a: set<Path>, b: set<Path>) { forall path :: !(Covered(path, a) && Covered(path, b)) }

  lemma AdmissibleIff(w: World, call: OpenCall)
    requires call.owner in w.rooms
    ensures Admissible(w, call.owner, w.rooms[call.owner].repo, Elements(call.paths), Excluded(call))
            <==> NothingInTheWay(w, call, w.rooms[call.owner].repo)
  {
    forall other | other in w.dirs && w.dirs[other].lineage.Some?
      ensures Overlap(Elements(call.paths), w.dirs[other].lineage.value.paths) == {}
              <==> Apart(Elements(call.paths), w.dirs[other].lineage.value.paths)
    {
      OverlapEmptyIff(Elements(call.paths), w.dirs[other].lineage.value.paths);
    }
    hide Overlap, Apart, Elements;
  }

  /** The named prior assignment lies between the same two rooms, is engaged, and its room is at rest. */
  predicate MaySupersede(w: World, call: OpenCall, prior: Id) {
    var d := DirOf(w, prior);
    && d.lineage.Some? && d.lifecycle.Some? && d.lifecycle.value.stage in {Active, HandbackRecorded}
    && d.lineage.value.owner == call.owner && d.lineage.value.assignee == call.assignee
    && call.assignee in w.rooms && !w.rooms[call.assignee].unsettled
  }

  predicate Over(w: World, id: Id) {
    var d := DirOf(w, id);
    d.lineage.Some? && d.lifecycle.Some? && d.lifecycle.value.stage in {Imported, Superseded}
  }

  /** The assignment room points to nothing, or as an assignment room to this call's assignment, the superseded one and
      readable ones that have ended, unless the call's own has. */
  predicate MayTakeOn(w: World, call: OpenCall)
    requires call.assignee in w.rooms
  {
    var pointer := w.rooms[call.assignee].pointer;
    pointer.Some? ==>
      && pointer.value.role == Assignee
      && forall prior :: prior in pointer.value.ids && prior != call.id && Some(prior) != call.supersedes ==>
           && DirOf(w, prior).lifecycle.Some?
           && (Over(w, call.id) || DirOf(w, prior).lifecycle.value.stage in {Imported, Superseded})
  }

  /** Two different normal rooms of one repository, a possible owner and a free assignment room, over admissible paths. */
  predicate MayOpen(w: World, call: OpenCall) {
    && OwnedPathsOk(call.paths) && call.verdict
    && call.owner != call.assignee && call.owner in w.rooms && call.assignee in w.rooms
    && w.rooms[call.owner].normal && w.rooms[call.assignee].normal
    && w.rooms[call.owner].repo == w.rooms[call.assignee].repo
    && (w.rooms[call.owner].pointer.Some? ==> w.rooms[call.owner].pointer.value.role == Owner)
    && MayTakeOn(w, call)
    && (call.supersedes.Some? ==> MaySupersede(w, call, call.supersedes.value))
  }

  /** A new assignment is admitted exactly between two different normal rooms of one repository, an owner that is no
      assignment room and an assignment room that is free, over admissible paths that nothing stands in the way of. */
  lemma FreshIff(w: World, call: OpenCall)
    requires DirOf(w, call.id).lineage.None?
    ensures OpenPlan(w, call).accepted <==> MayOpen(w, call) && NothingInTheWay(w, call, w.rooms[call.owner].repo)
  {
    if call.owner in w.rooms { AdmissibleIff(w, call); }
    hide OwnedPathsOk, Admissible, NothingInTheWay;
  }

  /** What it pins: the two rooms, their repository, exactly the paths of the call, and what it supersedes. */
  lemma FreshPins(w: World, call: OpenCall)
    requires OpenPlan(w, call).accepted && DirOf(w, call.id).lineage.None?
    ensures var l := Lineage(call.id, call.owner, call.assignee, w.rooms[call.owner].repo, (set p | p in call.paths),
                             call.supersedes, call.basis, call.policy, call.start);
            OpenPlan(w, call).writes
            == [PutLineage(l), PutLifecycle(call.id, Lifecycle(l, Active, [], None, [], None, None, []))]
               + (if call.supersedes.None? then []
                  else [PutLifecycle(call.supersedes.value,
                                     DirOf(w, call.supersedes.value).lifecycle.value.(stage := Superseded,
                                                                                      supersededBy := Some(call.id)))])
               + Listed(w, call)
  {
    hide OwnedPathsOk, Admissible;
  }

  /** Both rooms point to the assignment besides whatever they pointed to, the owner as owner. */
  function Listed(w: World, call: OpenCall): seq<Write>
    requires call.owner in w.rooms && call.assignee in w.rooms
  {
    var before, mine := w.rooms[call.owner].pointer, w.rooms[call.assignee].pointer;
    [PutPointer(call.owner, Pointer(Owner, (if before.Some? then before.value.ids else {}) + {call.id})),
     PutPointer(call.assignee, Pointer(Assignee, (if mine.Some? then mine.value.ids else {}) + {call.id}))]
  }

  /** The stored lineage is the one the call asks for; the account policy and the start stay as they were recorded. */
  predicate AsksFor(l: Lineage, call: OpenCall, repo: int) {
    && l.id == call.id && l.owner == call.owner && l.assignee == call.assignee && l.repo == repo
    && l.paths == (set p | p in call.paths) && l.supersedes == call.supersedes && l.basis == call.basis
  }

  /** A repeated admission is accepted exactly for the stored lineage, under the conditions of a new one; if the assignment
      has ended nothing can be in its way. It completes the lifecycle, if that is missing, and both pointers. */
  lemma RetryIff(w: World, call: OpenCall)
    requires DirOf(w, call.id).lineage.Some?
    ensures var d := DirOf(w, call.id);
            OpenPlan(w, call).accepted
            <==> && MayOpen(w, call) && AsksFor(d.lineage.value, call, w.rooms[call.owner].repo)
                 && (d.lifecycle.Some? ==> d.lifecycle.value.lineage == d.lineage.value)
                 && (Over(w, call.id) || NothingInTheWay(w, call, w.rooms[call.owner].repo))
    ensures var d := DirOf(w, call.id);
            OpenPlan(w, call).accepted ==>
              OpenPlan(w, call).writes
              == (if d.lifecycle.Some? then []
                  else [PutLifecycle(call.id, Lifecycle(d.lineage.value, Active, [], None, [], None, None, []))])
                 + Listed(w, call)
  {
    if call.owner in w.rooms {
      AdmissibleIff(w, call);
      AsksForIff(w, call);
    }
    hide OwnedPathsOk, Admissible, NothingInTheWay, AsksFor, LineageOf;
  }

  lemma AsksForIff(w: World, call: OpenCall)
    requires call.owner in w.rooms && DirOf(w, call.id).lineage.Some?
    ensures var l := DirOf(w, call.id).lineage.value;
            l == LineageOf(w, call).(start := l.start) <==> AsksFor(l, call, w.rooms[call.owner].repo)
    ensures LineageOf(w, call).repo == w.rooms[call.owner].repo && LineageOf(w, call).paths == Elements(call.paths)
  {
  }

  // ----- refusals -----

  /** One more refusal is recorded, of which the newest twenty are kept, and nothing else changes. */
  predicate RefusalAdded(before: Lifecycle, after: Lifecycle) {
    && after == before.(refusals := after.refusals)
    && |after.refusals| == Min(|before.refusals| + 1, 20)
    && forall k :: 0 <= k < |after.refusals| - 1 ==>
         after.refusals[k] == before.refusals[|before.refusals| + 1 - |after.refusals| + k]
  }

  lemma RefusalIs(id: Id, c: Lifecycle, reason: int)
    ensures var p := RefusePlan(id, c, reason);
            && !p.accepted && |p.writes| == 1 && p.writes[0].PutLifecycle? && p.writes[0].id == id
            && RefusalAdded(c, p.writes[0].lifecycle)
            && p.writes[0].lifecycle.refusals[|p.writes[0].lifecycle.refusals| - 1] == reason
  {
  }

  /** The calls that only record: a handback, a preflight or an import. */
  predicate Records(call: Call) { call.RecordHandback? || call.RunPreflight? || call.RecordImport? }

  function Caller(call: Call): (Id, Id)
    requires Records(call)
  {
    match call
    case RecordHandback(c) => (c.room, c.id)
    case RunPreflight(c) => (c.room, c.id)
    case RecordImport(c) => (c.room, c.id)
  }

  /** Whatever call a known room makes about a readable assignment and is refused leaves one more refusal there. */
  lemma RefusalsRecorded(w: World, call: Call)
    requires Records(call) && !PlanOf(w, call).accepted && Caller(call).0 in w.rooms
    requires DirOf(w, Caller(call).1).lineage.Some? && DirOf(w, Caller(call).1).lifecycle.Some?
    ensures exists after: Lifecycle :: PlanOf(w, call).writes == [PutLifecycle(Caller(call).1, after)]
                                       && RefusalAdded(DirOf(w, Caller(call).1).lifecycle.value, after)
  {
    var id := Caller(call).1;
    var reason := RefusedFor(w, call);
    RefusalIs(id, DirOf(w, id).lifecycle.value, reason);
    assert PlanOf(w, call).writes == [PutLifecycle(id, PlanOf(w, call).writes[0].lifecycle)];
  }

  lemma RefusedFor(w: World, call: Call) returns (reason: int)
    requires Records(call) && !PlanOf(w, call).accepted && Caller(call).0 in w.rooms
    requires DirOf(w, Caller(call).1).lineage.Some? && DirOf(w, Caller(call).1).lifecycle.Some?
    ensures PlanOf(w, call) == RefusePlan(Caller(call).1, DirOf(w, Caller(call).1).lifecycle.value, reason)
  {
    var c := DirOf(w, Caller(call).1).lifecycle.value;
    hide RefusePlan, Covered, ImportReady, AlreadyImported, Names;
    reason :| PlanOf(w, call) == RefusePlan(Caller(call).1, c, reason);
  }
}
