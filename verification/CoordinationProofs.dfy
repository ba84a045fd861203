/** Engaged assignments never share a path over any run, wherever an operation stops. */
module CoordinationProofs {
  import opened Values
  import opened Coordination

  // ----- the invariant -----

  predicate SupersedesPair(a: Lineage, b: Lineage) { a.supersedes == Some(b.id) || b.supersedes == Some(a.id) }

  /** Two reservations are compatible: one names the other as superseded, or they have different owners and,
      in one repository, no overlap. */
  predicate Compatible(a: Lineage, b: Lineage) {
    || SupersedesPair(a, b)
    || (a.owner != b.owner && (a.repo == b.repo ==> Overlap(a.paths, b.paths) == {}))
  }

  predicate PairsOk(dirs: map<Id, Dir>) {
    forall a, b :: a in dirs && b in dirs && a != b && Engaged(dirs[a]) && Engaged(dirs[b]) ==>
      Compatible(dirs[a].lineage.value, dirs[b].lineage.value)
  }

  predicate CoveredAll(changed: set<Path>, owned: set<Path>) {
    forall path :: path in changed ==> Covered(path, owned)
  }

  predicate HandbacksOk(c: Lifecycle) {
    && (forall h :: h in c.handbacks ==> CoveredAll(h.changed, c.lineage.paths))
    && (c.latest.Some? ==> c.latest.value in c.handbacks)
  }

  predicate DirOk(id: Id, d: Dir) {
    && Resolved(d)
    && (d.lineage.Some? ==> d.lineage.value.id == id)
    && (d.lifecycle.Some? ==> HandbacksOk(d.lifecycle.value))
  }

  predicate Inv(w: World) {
    && (forall id :: id in w.dirs ==> DirOk(id, w.dirs[id]))
    && PairsOk(w.dirs)
  }

  // ----- one write -----

  /** What a lifecycle may become: it keeps its lineage, never re-engages, and a terminal stage is final. */
  predicate NextLifecycle(a: Lifecycle, b: Lifecycle) {
    && b.lineage == a.lineage
    && (!EngagedStage(a.stage) ==> b.stage == a.stage && b.imported == a.imported && b.supersededBy == a.supersededBy)
  }

  predicate Legal(w: World, x: Write) {
    match x
    case PutLineage(l) =>
      && DirOf(w, l.id).lineage.None?
      && Admissible(w, l.owner, l.repo, l.paths, {l.id} + if l.supersedes.Some? then {l.supersedes.value} else {})
    case PutLifecycle(id, c) =>
      && DirOf(w, id).lineage == Some(c.lineage)
      && HandbacksOk(c)
      && (DirOf(w, id).lifecycle.Some? ==> NextLifecycle(DirOf(w, id).lifecycle.value, c))
    case StoreHandback(id, _) => id in w.dirs
    case StorePreflight(id, _) => id in w.dirs
    case StoreImport(id, _) => id in w.dirs
    case PutPointer(_, _) => true
    case PutRooms(_) => true
  }

  lemma OverlapSymmetric(a: set<Path>, b: set<Path>)
    ensures Overlap(a, b) == Overlap(b, a)
  {
  }

  lemma CompatibleSymmetric(a: Lineage, b: Lineage)
    ensures Compatible(a, b) <==> Compatible(b, a)
  {
    OverlapSymmetric(a.paths, b.paths);
  }

  lemma PairsReplace(dirs: map<Id, Dir>, id: Id, d: Dir)
    requires PairsOk(dirs)
    requires Engaged(d) ==> forall other :: other in dirs && other != id && Engaged(dirs[other]) ==>
                              Compatible(d.lineage.value, dirs[other].lineage.value)
    ensures PairsOk(dirs[id := d])
  {
    var now := dirs[id := d];
    forall a, b | a in now && b in now && a != b && Engaged(now[a]) && Engaged(now[b])
      ensures Compatible(now[a].lineage.value, now[b].lineage.value)
    {
      CompatibleSymmetric(now[a].lineage.value, now[b].lineage.value);
    }
  }

  lemma LineageLegal(w: World, l: Lineage)
    requires Inv(w) && Legal(w, PutLineage(l))
    ensures Inv(Put(w, PutLineage(l)))
  {
    var d := DirOf(w, l.id).(lineage := Some(l));
    forall other | other in w.dirs && other != l.id && Engaged(w.dirs[other])
      ensures Compatible(l, w.dirs[other].lineage.value)
    {
      assert DirOk(other, w.dirs[other]);
      if l.supersedes != Some(other) { assert !Conflicts(w.dirs[other], l.owner, l.repo, l.paths); }
    }
    assert l.id in w.dirs ==> DirOk(l.id, w.dirs[l.id]);
    PairsReplace(w.dirs, l.id, d);
  }

  lemma LifecycleLegal(w: World, id: Id, c: Lifecycle)
    requires Inv(w) && Legal(w, PutLifecycle(id, c))
    ensures Inv(Put(w, PutLifecycle(id, c)))
  {
    assert DirOk(id, w.dirs[id]);
    PairsReplace(w.dirs, id, DirOf(w, id).(lifecycle := Some(c)));
  }

  lemma StoreLegal(w: World, id: Id, d: Dir)
    requires Inv(w) && id in w.dirs
    requires d.lineage == w.dirs[id].lineage && d.lifecycle == w.dirs[id].lifecycle
    ensures Inv(WithDir(w, id, d))
  {
    assert DirOk(id, w.dirs[id]);
    PairsReplace(w.dirs, id, d);
  }

  lemma LegalKeeps(w: World, x: Write)
    requires Inv(w) && Legal(w, x)
    ensures Inv(Put(w, x))
  {
    match x
    case PutLineage(l) => LineageLegal(w, l);
    case PutLifecycle(id, c) => LifecycleLegal(w, id, c);
    case StoreHandback(id, h) => StoreLegal(w, id, DirOf(w, id).(handbacks := DirOf(w, id).handbacks + {h}));
    case StorePreflight(id, p) => StoreLegal(w, id, DirOf(w, id).(preflights := DirOf(w, id).preflights + {p}));
    case StoreImport(id, r) => StoreLegal(w, id, DirOf(w, id).(imports := DirOf(w, id).imports + {r}));
    case PutPointer(_, _) =>
    case PutRooms(_) =>
  }

  predicate AllLegal(w: World, ws: seq<Write>)
    decreases ws
  {
    ws == [] || (Legal(w, ws[0]) && AllLegal(Put(w, ws[0]), ws[1..]))
  }

  /** Every prefix of legal writes keeps the invariant. */
  lemma {:induction false} PrefixKeeps(w: World, ws: seq<Write>, n: nat)
    requires Inv(w) && AllLegal(w, ws) && n <= |ws|
    ensures Inv(PutAll(w, ws[..n]))
    decreases n
  {
    if n > 0 {
      LegalKeeps(w, ws[0]);
      PrefixKeeps(Put(w, ws[0]), ws[1..], n - 1);
      assert ws[..n][1..] == ws[1..][..n - 1];
    }
  }

  // ----- the plans -----

  lemma {:induction false} LegalConcat(w: World, a: seq<Write>, b: seq<Write>)
    requires AllLegal(w, a) && AllLegal(PutAll(w, a), b)
    ensures AllLegal(w, a + b)
    decreases a
  {
    if a == [] {
      assert a + b == b;
    } else {
      LegalConcat(Put(w, a[0]), a[1..], b);
      assert (a + b)[1..] == a[1..] + b;
    }
  }

  lemma {:induction false} PutAllConcat(w: World, a: seq<Write>, b: seq<Write>)
    ensures PutAll(w, a + b) == PutAll(PutAll(w, a), b)
    decreases a
  {
    if a == [] {
      assert a + b == b;
    } else {
      PutAllConcat(Put(w, a[0]), a[1..], b);
      assert (a + b)[1..] == a[1..] + b;
    }
  }

  lemma PointersLegal(w: World, before: World, call: OpenCall)
    requires call.owner in before.rooms && call.assignee in before.rooms
    ensures AllLegal(w, Pointers(before, call))
  {
  }

  lemma AdmitLegal(w: World, call: OpenCall)
    requires Inv(w) && call.owner in w.rooms && DirOf(w, call.id).lineage.None?
    requires var l := LineageOf(w, call); Admissible(w, l.owner, l.repo, l.paths, Excluded(call))
    ensures var l := LineageOf(w, call);
            AllLegal(w, [PutLineage(l), PutLifecycle(call.id, NewLifecycle(l))])
  {
    var l := LineageOf(w, call);
    var ws := [PutLineage(l), PutLifecycle(call.id, NewLifecycle(l))];
    assert call.id in w.dirs ==> DirOk(call.id, w.dirs[call.id]);
    assert Legal(w, ws[0]) && Legal(Put(w, ws[0]), ws[1]);
    assert ws[1..] == [ws[1]] && ws[1..][1..] == [];
  }

  lemma AdmitDirs(w: World, l: Lineage, c: Lifecycle)
    ensures var after := PutAll(w, [PutLineage(l), PutLifecycle(l.id, c)]);
      && after.rooms == w.rooms
      && after.dirs == w.dirs[l.id := DirOf(w, l.id).(lineage := Some(l), lifecycle := Some(c))]
  {
    PutTwo(w, PutLineage(l), PutLifecycle(l.id, c));
  }

  lemma PutOne(w: World, x: Write)
    ensures PutAll(w, [x]) == Put(w, x)
  {
    assert [x][1..] == [];
  }

  lemma PutTwo(w: World, x: Write, y: Write)
    ensures PutAll(w, [x, y]) == Put(Put(w, x), y)
  {
    assert [x, y][1..] == [y];
    PutOne(Put(w, x), y);
  }

  lemma SupersedeLegal(w: World, after: World, call: OpenCall)
    requires Inv(w) && call.assignee in w.rooms && SupersedesOk(w, call)
    requires call.supersedes.Some? ==> DirOf(after, call.supersedes.value) == DirOf(w, call.supersedes.value)
    ensures AllLegal(after, MarkSuperseded(w, call))
  {
    if call.supersedes.Some? {
      var id := call.supersedes.value;
      assert DirOk(id, w.dirs[id]);
    }
  }

  lemma FreshLegal(w: World, call: OpenCall)
    requires Inv(w) && RoomsOk(w, call) && DirOf(w, call.id).lineage.None?
    ensures AllLegal(w, FreshPlan(w, call).writes)
  {
    if FreshPlan(w, call).writes != [] {
      var l := LineageOf(w, call);
      var admit := [PutLineage(l), PutLifecycle(call.id, NewLifecycle(l))];
      AdmitLegal(w, call);
      AdmitDirs(w, l, NewLifecycle(l));
      SupersedeLegal(w, PutAll(w, admit), call);
      LegalConcat(w, admit, MarkSuperseded(w, call));
      PointersLegal(PutAll(w, admit + MarkSuperseded(w, call)), w, call);
      LegalConcat(w, admit + MarkSuperseded(w, call), Pointers(w, call));
    }
  }

  lemma RetryLegal(w: World, call: OpenCall)
    requires Inv(w) && RoomsOk(w, call) && DirOf(w, call.id).lineage.Some?
    ensures AllLegal(w, RetryPlan(w, call).writes)
  {
    var start := PutLifecycle(call.id, NewLifecycle(DirOf(w, call.id).lineage.value));
    PointersLegal(w, w, call);
    if DirOf(w, call.id).lifecycle.None? {
      assert AllLegal(w, [start]) by { assert [start][1..] == []; }
      PointersLegal(PutAll(w, [start]), w, call);
      LegalConcat(w, [start], Pointers(w, call));
    }
  }

  lemma OneLegal(w: World, x: Write)
    requires Legal(w, x)
    ensures AllLegal(w, [x])
  {
    assert [x][1..] == [];
  }

  lemma RefuseLegal(w: World, id: Id, reason: int)
    requires Inv(w) && DirOf(w, id).lineage.Some? && DirOf(w, id).lifecycle.Some?
    ensures AllLegal(w, RefusePlan(id, DirOf(w, id).lifecycle.value, reason).writes)
  {
    assert DirOk(id, w.dirs[id]);
    OneLegal(w, RefusePlan(id, DirOf(w, id).lifecycle.value, reason).writes[0]);
  }

  lemma TwoLegal(w: World, x: Write, y: Write)
    requires Legal(w, x) && Legal(Put(w, x), y)
    ensures AllLegal(w, [x, y])
  {
    assert [x, y][1..] == [y];
    OneLegal(Put(w, x), y);
  }

  lemma HandbackLegal(w: World, call: HandbackCall)
    requires Inv(w)
    ensures AllLegal(w, HandbackPlan(w, call).writes)
  {
    var d := DirOf(w, call.id);
    if d.lineage.Some? && d.lifecycle.Some? {
      var c := d.lifecycle.value;
      assert DirOk(call.id, w.dirs[call.id]);
      RefuseLegal(w, call.id, 0);
      RefuseLegal(w, call.id, 1);
      RefuseLegal(w, call.id, 2);
      RefuseLegal(w, call.id, 3);
      if HandbackPlan(w, call).accepted {
        var h := Handback(call.id, call.changed, call.evidence);
        assert CoveredAll(h.changed, c.lineage.paths);
        TwoLegal(w, HandbackPlan(w, call).writes[0], HandbackPlan(w, call).writes[1]);
      }
    }
  }

  lemma PreflightLegal(w: World, call: PreflightCall)
    requires Inv(w)
    ensures AllLegal(w, PreflightPlan(w, call).writes)
  {
    var d := DirOf(w, call.id);
    if d.lineage.Some? && d.lifecycle.Some? {
      assert DirOk(call.id, w.dirs[call.id]);
      RefuseLegal(w, call.id, 0);
      RefuseLegal(w, call.id, 4);
      RefuseLegal(w, call.id, 5);
      if PreflightPlan(w, call).accepted {
        TwoLegal(w, PreflightPlan(w, call).writes[0], PreflightPlan(w, call).writes[1]);
      }
    }
  }

  lemma ImportLegal(w: World, call: ImportCall)
    requires Inv(w)
    ensures AllLegal(w, ImportPlan(w, call).writes)
  {
    var d := DirOf(w, call.id);
    if d.lineage.Some? && d.lifecycle.Some? {
      assert DirOk(call.id, w.dirs[call.id]);
      RefuseLegal(w, call.id, 4);
      RefuseLegal(w, call.id, 6);
      RefuseLegal(w, call.id, 7);
      if ImportPlan(w, call).accepted && ImportPlan(w, call).writes != [] {
        TwoLegal(w, ImportPlan(w, call).writes[0], ImportPlan(w, call).writes[1]);
      }
    }
  }

  lemma PlanLegal(w: World, call: Call)
    requires Inv(w)
    ensures AllLegal(w, PlanOf(w, call).writes)
  {
    match call
    case Open(c) =>
      if OwnedPathsOk(c.paths) && RoomsOk(w, c) {
        if DirOf(w, c.id).lineage.Some? { RetryLegal(w, c); } else { FreshLegal(w, c); }
      }
    case RecordHandback(c) => HandbackLegal(w, c);
    case RunPreflight(c) => PreflightLegal(w, c);
    case RecordImport(c) => ImportLegal(w, c);
    case Rooms(rooms) => OneLegal(w, PutRooms(rooms));
  }

  lemma {:induction false} RunKeepsInv(w: World, events: seq<Event>)
    requires Inv(w)
    ensures Inv(Run(w, events))
    decreases events
  {
    if events != [] {
      var writes := PlanOf(w, events[0].call).writes;
      PlanLegal(w, events[0].call);
      PrefixKeeps(w, writes, Min(events[0].cut, |writes|));
      RunKeepsInv(PutAll(w, Durable(w, events[0])), events[1..]);
    }
  }
}
