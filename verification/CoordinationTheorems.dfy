/** Disjoint scopes, one engagement per owner, final stages, interrupted admissions and role exclusivity. */
module CoordinationTheorems {
  import opened Values
  import opened Coordination
  import opened CoordinationProofs

  /** Two engaged assignments of one repository cover no path in common, unless one names the other as
      superseded. */
  lemma EngagedDisjoint(w: World, a: Id, b: Id, path: Path)
    requires Inv(w) && a in w.dirs && b in w.dirs && a != b
    requires Engaged(w.dirs[a]) && Engaged(w.dirs[b])
    ensures var la, lb := w.dirs[a].lineage.value, w.dirs[b].lineage.value;
      la.repo == lb.repo && !SupersedesPair(la, lb) ==> !(Covered(path, la.paths) && Covered(path, lb.paths))
  {
    OverlapEmptyIff(w.dirs[a].lineage.value.paths, w.dirs[b].lineage.value.paths);
  }

  /** One engaged assignment per owner, with the same exception. */
  lemma OneEngagedPerOwner(w: World, a: Id, b: Id)
    requires Inv(w) && a in w.dirs && b in w.dirs && a != b
    requires Engaged(w.dirs[a]) && Engaged(w.dirs[b])
    requires w.dirs[a].lineage.value.owner == w.dirs[b].lineage.value.owner
    ensures w.dirs[a].lineage.value.supersedes == Some(b) || w.dirs[b].lineage.value.supersedes == Some(a)
  {
    assert DirOk(a, w.dirs[a]) && DirOk(b, w.dirs[b]);
    assert Compatible(w.dirs[a].lineage.value, w.dirs[b].lineage.value);
  }

  /** Handbacks recorded for two engaged assignments of one repository touch no path in common. */
  lemma HandbacksDisjoint(w: World, a: Id, b: Id, h: Handback, k: Handback)
    requires Inv(w) && a in w.dirs && b in w.dirs && a != b
    requires Engaged(w.dirs[a]) && Engaged(w.dirs[b])
    requires w.dirs[a].lifecycle.Some? && h in w.dirs[a].lifecycle.value.handbacks
    requires w.dirs[b].lifecycle.Some? && k in w.dirs[b].lifecycle.value.handbacks
    requires w.dirs[a].lineage.value.repo == w.dirs[b].lineage.value.repo
    requires !SupersedesPair(w.dirs[a].lineage.value, w.dirs[b].lineage.value)
    ensures h.changed !! k.changed
  {
    assert DirOk(a, w.dirs[a]) && DirOk(b, w.dirs[b]);
    forall path | path in h.changed ensures path !in k.changed { EngagedDisjoint(w, a, b, path); }
  }

  // ----- final stages -----

  /** What a finished assignment keeps. */
  predicate Final(before: Dir, now: Dir) {
    && now.lineage == before.lineage
    && before.lifecycle.Some? && now.lifecycle.Some?
    && now.lifecycle.value.stage == before.lifecycle.value.stage
    && now.lifecycle.value.imported == before.lifecycle.value.imported
    && now.lifecycle.value.supersededBy == before.lifecycle.value.supersededBy
  }

  predicate Finished(d: Dir) {
    d.lineage.Some? && d.lifecycle.Some? && !EngagedStage(d.lifecycle.value.stage)
  }

  lemma {:induction false} WritesKeepFinal(w: World, ws: seq<Write>, n: nat, id: Id)
    requires AllLegal(w, ws) && n <= |ws| && Finished(DirOf(w, id))
    ensures Final(DirOf(w, id), DirOf(PutAll(w, ws[..n]), id))
    decreases n
  {
    if n > 0 {
      var next := Put(w, ws[0]);
      assert Final(DirOf(w, id), DirOf(next, id));
      WritesKeepFinal(next, ws[1..], n - 1, id);
      assert ws[..n][1..] == ws[1..][..n - 1];
    }
  }

  /** Imported and superseded are absorbing: no run changes the stage, the lineage or the import record of a
      finished assignment. */
  lemma {:induction false} TerminalAbsorbing(w: World, events: seq<Event>, id: Id)
    requires Inv(w) && Finished(DirOf(w, id))
    ensures Final(DirOf(w, id), DirOf(Run(w, events), id))
    decreases events
  {
    if events != [] {
      var writes := PlanOf(w, events[0].call).writes;
      var n := Min(events[0].cut, |writes|);
      PlanLegal(w, events[0].call);
      PrefixKeeps(w, writes, n);
      WritesKeepFinal(w, writes, n, id);
      TerminalAbsorbing(PutAll(w, Durable(w, events[0])), events[1..], id);
    }
  }

  // ----- interrupted admissions -----

  /** The directory writes of a fresh admission. */
  function AdmitWrites(w: World, call: OpenCall): seq<Write>
    requires call.owner in w.rooms
  {
    [PutLineage(LineageOf(w, call)), PutLifecycle(call.id, NewLifecycle(LineageOf(w, call)))]
  }

  lemma AdmitPut(w: World, call: OpenCall, n: nat)
    requires call.owner in w.rooms && n <= 2
    ensures PutAll(w, AdmitWrites(w, call)[..n]) == Admitted(w, call, n)
  {
    var admit := AdmitWrites(w, call);
    assert admit[..2] == admit && admit[..1] == [admit[0]] && admit[..0] == [];
    PutOne(w, admit[0]);
    PutTwo(w, admit[0], admit[1]);
  }

  lemma MarksPut(w: World, call: OpenCall, k: nat)
    requires call.owner in w.rooms && call.assignee in w.rooms && k <= 2
    ensures var ws := AdmitWrites(w, call) + MarkSuperseded(w, call) + Pointers(w, call)[..k];
            PutAll(w, ws) == PutAll(PutAll(Admitted(w, call, 2), MarkSuperseded(w, call)), Pointers(w, call)[..k])
  {
    var admit, marks := AdmitWrites(w, call), MarkSuperseded(w, call);
    assert admit[..2] == admit;
    AdmitPut(w, call, 2);
    PutAllConcat(w, admit, marks);
    PutAllConcat(w, admit + marks, Pointers(w, call)[..k]);
  }

  /** The world after each prefix of a fresh admission: the lineage, the lifecycle, the superseded record and
      the two room pointers. */
  lemma FreshPrefix(w: World, call: OpenCall, n: nat)
    requires call.owner in w.rooms && call.assignee in w.rooms && n <= |FreshPlan(w, call).writes|
    requires FreshPlan(w, call).accepted
    ensures n <= 2 ==> PutAll(w, FreshPlan(w, call).writes[..n]) == Admitted(w, call, n)
    ensures var m := 2 + |MarkSuperseded(w, call)|;
      n >= m ==> PutAll(w, FreshPlan(w, call).writes[..n])
                 == PutAll(PutAll(Admitted(w, call, 2), MarkSuperseded(w, call)), Pointers(w, call)[..n - m])
  {
    var admit, marks, pointers := AdmitWrites(w, call), MarkSuperseded(w, call), Pointers(w, call);
    var writes := FreshPlan(w, call).writes;
    assert writes == admit + marks + pointers;
    if n <= 2 {
      assert writes[..n] == admit[..n];
      AdmitPut(w, call, n);
    }
    if n >= 2 + |marks| {
      assert writes[..n] == admit + marks + pointers[..n - 2 - |marks|];
      MarksPut(w, call, n - 2 - |marks|);
    }
  }

  function Admitted(w: World, call: OpenCall, n: nat): World
    requires call.owner in w.rooms
  {
    var l := LineageOf(w, call);
    if n == 0 then w
    else if n == 1 then Put(w, PutLineage(l))
    else Put(Put(w, PutLineage(l)), PutLifecycle(call.id, NewLifecycle(l)))
  }

  lemma PointersKeepDirs(w: World, before: World, call: OpenCall, n: nat)
    requires call.owner in before.rooms && call.assignee in before.rooms && n <= 2
    ensures PutAll(w, Pointers(before, call)[..n]).dirs == w.dirs
  {
    var ps := Pointers(before, call);
    assert ps[..0] == [] && ps[..1] == [ps[0]] && ps[..2] == [ps[0], ps[1]];
    PutOne(w, ps[0]);
    PutTwo(w, ps[0], ps[1]);
  }

  lemma PriorKept(w: World, call: OpenCall, n: nat)
    requires call.owner in w.rooms && call.supersedes.Some? && call.supersedes.value != call.id && n <= 2
    ensures DirOf(Admitted(w, call, n), call.supersedes.value) == DirOf(w, call.supersedes.value)
  {
  }

  lemma PriorEnded(w: World, call: OpenCall, k: nat)
    requires call.owner in w.rooms && call.assignee in w.rooms && k <= 2
    requires call.supersedes.Some? && DirOf(w, call.supersedes.value).lifecycle.Some?
    ensures var after := PutAll(PutAll(Admitted(w, call, 2), MarkSuperseded(w, call)), Pointers(w, call)[..k]);
            !Engaged(DirOf(after, call.supersedes.value))
  {
    PutOne(Admitted(w, call, 2), MarkSuperseded(w, call)[0]);
    PointersKeepDirs(PutAll(Admitted(w, call, 2), MarkSuperseded(w, call)), w, call, k);
  }

  /** An admission that names a superseded assignment ends it exactly when it got past its third write. */
  lemma SupersedesIff(w: World, call: OpenCall, n: nat)
    requires Inv(w) && OpenPlan(w, call).accepted && DirOf(w, call.id).lineage.None? && call.supersedes.Some?
    requires n <= |OpenPlan(w, call).writes|
    ensures Engaged(DirOf(w, call.supersedes.value))
    ensures var after := DirOf(PutAll(w, OpenPlan(w, call).writes[..n]), call.supersedes.value);
      Engaged(after) <==> n < 3
  {
    FreshPrefix(w, call, n);
    if n < 3 {
      PriorKept(w, call, n);
    } else {
      PriorEnded(w, call, n - 3);
    }
  }

  /** A retried admission writes to no other assignment: what an interrupted supersession left engaged stays
      engaged. */
  lemma RetryTouchesOnlyItself(w: World, call: OpenCall, n: nat, other: Id)
    requires DirOf(w, call.id).lineage.Some? && n <= |OpenPlan(w, call).writes| && other != call.id
    ensures DirOf(PutAll(w, OpenPlan(w, call).writes[..n]), other) == DirOf(w, other)
  {
    var writes := OpenPlan(w, call).writes;
    if writes != [] {
      var ps := Pointers(w, call);
      var admit := if DirOf(w, call.id).lifecycle.None?
                   then [PutLifecycle(call.id, NewLifecycle(DirOf(w, call.id).lineage.value))] else [];
      assert writes == admit + ps;
      if n <= |admit| {
        assert writes[..n] == admit[..n];
        if n == 1 { assert admit[..1] == [admit[0]]; PutOne(w, admit[0]); }
      } else {
        assert writes[..n] == admit + ps[..n - |admit|];
        PutAllConcat(w, admit, ps[..n - |admit|]);
        if admit != [] { PutOne(w, admit[0]); }
        PointersKeepDirs(PutAll(w, admit), w, call, n - |admit|);
      }
    }
  }

  /** The world of a fresh admission without supersession: so many of its directory writes, then so many of its
      room pointers. */
  function Interrupted(w: World, call: OpenCall, n: nat): World
    requires call.owner in w.rooms && call.assignee in w.rooms
  {
    var admitted := Admitted(w, call, n);
    if n <= 2 then admitted
    else if n == 3 then Put(admitted, Pointers(w, call)[0])
    else Put(Put(admitted, Pointers(w, call)[0]), Pointers(w, call)[1])
  }

  lemma PlainPrefix(w: World, call: OpenCall, n: nat)
    requires OpenPlan(w, call).accepted && DirOf(w, call.id).lineage.None? && call.supersedes.None?
    requires n <= |OpenPlan(w, call).writes|
    ensures |OpenPlan(w, call).writes| == 4
    ensures PutAll(w, OpenPlan(w, call).writes[..n]) == Interrupted(w, call, n)
  {
    FreshPrefix(w, call, n);
    var ps := Pointers(w, call);
    if n > 2 {
      assert ps[..1] == [ps[0]] && ps[..2] == [ps[0], ps[1]];
      PutOne(Admitted(w, call, 2), ps[0]);
      PutTwo(Admitted(w, call, 2), ps[0], ps[1]);
    }
  }

  lemma InterruptedDirs(w: World, call: OpenCall, n: nat)
    requires call.owner in w.rooms && call.assignee in w.rooms && DirOf(w, call.id).lineage.None?
    requires Inv(w) && 1 <= n <= 4
    ensures DirOf(Interrupted(w, call, n), call.id).lineage == Some(LineageOf(w, call))
    ensures DirOf(Interrupted(w, call, n), call.id).lifecycle
            == if n == 1 then None else Some(NewLifecycle(LineageOf(w, call)))
    ensures forall other :: other != call.id ==> DirOf(Interrupted(w, call, n), other) == DirOf(w, other)
    ensures forall other :: other in Interrupted(w, call, n).dirs && other != call.id ==> other in w.dirs
  {
    assert call.id in w.dirs ==> DirOk(call.id, w.dirs[call.id]);
  }

  lemma InterruptedRooms(w: World, call: OpenCall, n: nat)
    requires call.owner in w.rooms && call.assignee in w.rooms && call.owner != call.assignee && n <= 4
    ensures call.owner in Interrupted(w, call, n).rooms && call.assignee in Interrupted(w, call, n).rooms
    ensures var rooms := Interrupted(w, call, n).rooms;
      && rooms[call.owner] == (if n <= 2 then w.rooms[call.owner] else w.rooms[call.owner].(pointer :=
           Some(Pointer(Owner, Ids(w.rooms[call.owner].pointer) + {call.id}))))
      && rooms[call.assignee] == (if n <= 3 then w.rooms[call.assignee] else w.rooms[call.assignee].(pointer :=
           Some(Pointer(Assignee, Ids(w.rooms[call.assignee].pointer) + {call.id}))))
  {
  }

  lemma RetryRooms(w: World, call: OpenCall, n: nat)
    requires Inv(w) && RoomsOk(w, call) && DirOf(w, call.id).lineage.None? && 1 <= n <= 4
    requires call.supersedes.None? || n <= 2
    ensures RoomsOk(Interrupted(w, call, n), call)
  {
    InterruptedDirs(w, call, n);
    InterruptedRooms(w, call, n);
  }

  lemma RetryAdmissible(w: World, call: OpenCall, n: nat)
    requires Inv(w) && RoomsOk(w, call) && DirOf(w, call.id).lineage.None? && 1 <= n <= 4
    requires call.supersedes.None? || n <= 2
    requires var l := LineageOf(w, call); Admissible(w, l.owner, l.repo, l.paths, Excluded(call))
    ensures var l := LineageOf(w, call); Admissible(Interrupted(w, call, n), l.owner, l.repo, l.paths, Excluded(call))
  {
    InterruptedDirs(w, call, n);
    var after := Interrupted(w, call, n);
    forall other | other in after.dirs && other !in Excluded(call)
      ensures !Conflicts(after.dirs[other], call.owner, w.rooms[call.owner].repo, Elements(call.paths))
    {
      assert DirOf(after, other) == DirOf(w, other);
    }
  }

  lemma RetryWrites(w: World, call: OpenCall, n: nat)
    requires Inv(w) && OpenPlan(w, call).accepted && DirOf(w, call.id).lineage.None?
    requires 1 <= n <= 4 && (call.supersedes.None? || n <= 2)
    ensures call.owner in Interrupted(w, call, n).rooms && call.assignee in Interrupted(w, call, n).rooms
    ensures var after := Interrupted(w, call, n);
      OpenPlan(after, call) == Plan((if n == 1 then [PutLifecycle(call.id, NewLifecycle(LineageOf(w, call)))] else [])
                                    + Pointers(after, call), true)
  {
    InterruptedDirs(w, call, n);
    InterruptedRooms(w, call, n);
    RetryRooms(w, call, n);
    RetryAdmissible(w, call, n);
    assert LineageOf(Interrupted(w, call, n), call) == LineageOf(w, call);
  }

  /** Pointers written again over a partial admission give the complete one. */
  lemma PointersAgain(w: World, call: OpenCall, n: nat)
    requires call.owner in w.rooms && call.assignee in w.rooms && call.owner != call.assignee && 2 <= n <= 4
    ensures call.owner in Interrupted(w, call, n).rooms && call.assignee in Interrupted(w, call, n).rooms
    ensures PutAll(Interrupted(w, call, n), Pointers(Interrupted(w, call, n), call)) == Interrupted(w, call, 4)
  {
    InterruptedRooms(w, call, n);
    var after := Interrupted(w, call, n);
    var ps := Pointers(after, call);
    PutTwo(after, ps[0], ps[1]);
    assert PutAll(after, ps).rooms == Interrupted(w, call, 4).rooms;
  }

  /** An admission without supersession, stopped anywhere after its lineage, is completed by the identical call to
      the very world the uninterrupted call leaves. */
  lemma RetryCompletes(w: World, call: OpenCall, n: nat)
    requires Inv(w) && OpenPlan(w, call).accepted && DirOf(w, call.id).lineage.None? && call.supersedes.None?
    requires 1 <= n <= |OpenPlan(w, call).writes|
    ensures var stopped := PutAll(w, OpenPlan(w, call).writes[..n]);
      && OpenPlan(stopped, call).accepted
      && PutAll(stopped, OpenPlan(stopped, call).writes) == PutAll(w, OpenPlan(w, call).writes)
  {
    PlainPrefix(w, call, n);
    PlainPrefix(w, call, 4);
    assert OpenPlan(w, call).writes[..4] == OpenPlan(w, call).writes;
    RetryWrites(w, call, n);
    var stopped := Interrupted(w, call, n);
    if n == 1 {
      var start := PutLifecycle(call.id, NewLifecycle(LineageOf(w, call)));
      PutAllConcat(stopped, [start], Pointers(stopped, call));
      PutOne(stopped, start);
      assert Pointers(stopped, call) == Pointers(Interrupted(w, call, 2), call);
      PointersAgain(w, call, 2);
    } else {
      assert [] + Pointers(stopped, call) == Pointers(stopped, call);
      PointersAgain(w, call, n);
    }
  }

  /** With supersession the identical call is accepted exactly until the superseded record is marked: room
      pointers a crash skips from there on are not repaired by repeating the call. */
  lemma SupersedingRetryIff(w: World, call: OpenCall, n: nat)
    requires Inv(w) && OpenPlan(w, call).accepted && DirOf(w, call.id).lineage.None? && call.supersedes.Some?
    requires 1 <= n <= |OpenPlan(w, call).writes|
    ensures OpenPlan(PutAll(w, OpenPlan(w, call).writes[..n]), call).accepted <==> n < 3
  {
    if n < 3 {
      FreshPrefix(w, call, n);
      RetryWrites(w, call, n);
    } else {
      SupersedesIff(w, call, n);
    }
  }

  // ----- interrupted records -----

  lemma HandbackRetry(w: World, call: HandbackCall, n: nat)
    requires HandbackPlan(w, call).accepted && 1 <= n <= 2
    ensures |HandbackPlan(w, call).writes| == 2
    ensures var stopped := PutAll(w, HandbackPlan(w, call).writes[..n]);
      && HandbackPlan(stopped, call).accepted
      && PutAll(stopped, HandbackPlan(stopped, call).writes) == PutAll(w, HandbackPlan(w, call).writes)
  {
    var ws := HandbackPlan(w, call).writes;
    assert ws[..1] == [ws[0]] && ws[..2] == [ws[0], ws[1]] == ws;
    PutOne(w, ws[0]);
    PutTwo(w, ws[0], ws[1]);
    var stopped := PutAll(w, ws[..n]);
    assert HandbackPlan(stopped, call).writes == ws;
    PutTwo(stopped, ws[0], ws[1]);
  }

  lemma PreflightRetry(w: World, call: PreflightCall, n: nat)
    requires PreflightPlan(w, call).accepted && 1 <= n <= 2
    ensures |PreflightPlan(w, call).writes| == 2
    ensures var stopped := PutAll(w, PreflightPlan(w, call).writes[..n]);
      && PreflightPlan(stopped, call).accepted
      && PutAll(stopped, PreflightPlan(stopped, call).writes) == PutAll(w, PreflightPlan(w, call).writes)
  {
    var ws := PreflightPlan(w, call).writes;
    assert ws[..1] == [ws[0]] && ws[..2] == [ws[0], ws[1]] == ws;
    PutOne(w, ws[0]);
    PutTwo(w, ws[0], ws[1]);
    var stopped := PutAll(w, ws[..n]);
    assert PreflightPlan(stopped, call).writes == ws;
    PutTwo(stopped, ws[0], ws[1]);
  }

  lemma ImportRetry(w: World, call: ImportCall, n: nat)
    requires ImportPlan(w, call).accepted && ImportPlan(w, call).writes != [] && 1 <= n <= 2
    ensures |ImportPlan(w, call).writes| == 2
    ensures var stopped := PutAll(w, ImportPlan(w, call).writes[..n]);
      && ImportPlan(stopped, call).accepted
      && PutAll(stopped, ImportPlan(stopped, call).writes) == PutAll(w, ImportPlan(w, call).writes)
  {
    var ws := ImportPlan(w, call).writes;
    assert ws[..1] == [ws[0]] && ws[..2] == [ws[0], ws[1]] == ws;
    PutOne(w, ws[0]);
    PutTwo(w, ws[0], ws[1]);
    var stopped := PutAll(w, ws[..n]);
    if n == 1 {
      assert ImportPlan(stopped, call).writes == ws;
      PutTwo(stopped, ws[0], ws[1]);
    } else {
      assert ImportPlan(stopped, call).writes == [];
    }
  }

  /** A handback, preflight or import that was accepted, stopped after any of its writes: the identical call is
      accepted again and leaves the very world the uninterrupted one leaves. */
  lemma RecordRetryCompletes(w: World, call: Call, n: nat)
    requires call.RecordHandback? || call.RunPreflight? || call.RecordImport?
    requires PlanOf(w, call).accepted && n <= |PlanOf(w, call).writes|
    ensures var stopped := PutAll(w, PlanOf(w, call).writes[..n]);
      && PlanOf(stopped, call).accepted
      && PutAll(stopped, PlanOf(stopped, call).writes) == PutAll(w, PlanOf(w, call).writes)
  {
    if n == 0 {
      assert PutAll(w, PlanOf(w, call).writes[..0]) == w;
    } else {
      match call
      case RecordHandback(c) => HandbackRetry(w, c, if n == 1 then 1 else 2);
      case RunPreflight(c) => PreflightRetry(w, c, if n == 1 then 1 else 2);
      case RecordImport(c) => ImportRetry(w, c, if n == 1 then 1 else 2);
    }
  }
}
