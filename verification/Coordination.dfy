/** Two-room coordination: an owner room hands some paths of a repository over to another room. Every operation is
    a sequence of file replacements, and a crash may stop it after any prefix. */
module Coordination {
  import opened Values

  type Path = string

  const OWNED_PATH_LIMIT: nat := 200
  const REFUSAL_LIMIT: nat := 20

  // ----- path sets -----

  predicate StartsWith(s: string, prefix: string) { |prefix| <= |s| && s[..|prefix|] == prefix }

  /** The path is the item or lies below it. */
  predicate Under(path: Path, item: Path) { path == item || StartsWith(path, item + "/") }

  predicate Covered(path: Path, owned: set<Path>) { exists item :: item in owned && Under(path, item) }

  function Overlap(first: set<Path>, second: set<Path>): set<Path> {
    (set p | p in first && Covered(p, second)) + (set p | p in second && Covered(p, first))
  }

  lemma PrefixShared(path: string, a: string, b: string)
    requires StartsWith(path, a) && StartsWith(path, b) && |a| <= |b|
    ensures StartsWith(b, a)
  {
    assert path[..|b|][..|a|] == path[..|a|];
  }

  lemma UnderEach(path: Path, a: Path, b: Path)
    requires Under(path, a) && Under(path, b) && |a| <= |b|
    ensures Under(b, a)
  {
    assert a + "/" != "" && (a + "/")[..|a|] == a && (b + "/")[..|b|] == b;
    assert StartsWith(path, a) && StartsWith(path, b) by {
      assert StartsWith(path, a + "/") ==> path[..|a|] == path[..|a| + 1][..|a|];
      assert StartsWith(path, b + "/") ==> path[..|b|] == path[..|b| + 1][..|b|];
    }
    PrefixShared(path, a, b);
    if |a| < |b| {
      PrefixShared(path, a + "/", b);
    }
  }

  lemma UnderTrans(path: Path, a: Path, b: Path)
    requires Under(path, a) && Under(a, b)
    ensures Under(path, b)
  {
    if path != a && a != b {
      var p := b + "/";
      assert StartsWith(a + "/", p) by { assert (a + "/")[..|p|] == a[..|p|]; }
      assert path[..|a| + 1][..|p|] == path[..|p|];
    }
  }

  /** The overlap of two path lists is empty exactly when no path at all is covered by both. */
  lemma OverlapEmptyIff(first: set<Path>, second: set<Path>)
    ensures Overlap(first, second) == {} <==> forall path :: !(Covered(path, first) && Covered(path, second))
  {
    if Overlap(first, second) != {} {
      var p :| p in Overlap(first, second);
      assert Under(p, p) && Covered(p, first) && Covered(p, second);
    }
    forall path | Covered(path, first) && Covered(path, second) ensures Overlap(first, second) != {} {
      var a :| a in first && Under(path, a);
      var b :| b in second && Under(path, b);
      if |a| <= |b| {
        UnderEach(path, a, b);
        assert b in Overlap(first, second);
      } else {
        UnderEach(path, b, a);
        assert a in Overlap(first, second);
      }
    }
  }

  // ----- admitted path lists -----

  /** The order strings are sorted in: by code point, a prefix first. */
  predicate Less(a: string, b: string)
    decreases a
  {
    if b == "" then false
    else if a == "" then true
    else a[0] < b[0] || (a[0] == b[0] && Less(a[1..], b[1..]))
  }

  function Split(s: string): (parts: seq<string>)
    ensures parts != []
  {
    if s == "" then [""]
    else
      var rest := Split(s[1..]);
      if s[0] == '/' then [""] + rest else [[s[0]] + rest[0]] + rest[1..]
  }

  /** Normalized and relative; the 512-byte bound on the encoding is not part of this model. */
  predicate RelativePath(path: Path) {
    && path != "" && '\\' !in path && '\0' !in path
    && forall part :: part in Split(path) ==> part !in {"", ".", "..", ".git"}
  }

  /** Sorted neighbours are not an ancestor and its descendant. */
  predicate NeighboursOk(paths: set<Path>) {
    forall a, b :: a in paths && b in paths && Neighbours(a, b, paths) ==> !StartsWith(b, a + "/")
  }

  predicate Neighbours(a: Path, b: Path, paths: set<Path>) {
    Less(a, b) && forall c :: c in paths ==> !(Less(a, c) && Less(c, b))
  }

  predicate OwnedPathsOk(paths: seq<Path>) {
    && 0 < |paths| <= OWNED_PATH_LIMIT
    && (forall p :: p in paths ==> RelativePath(p))
    && Distinct(paths)
    && NeighboursOk(Elements(paths))
  }

  // ----- records -----

  /** basis is everything else the lineage pins (specifications, handoff, interface, authorization and
      account names); policy is the recorded account policy; start is volatile provenance. */
  datatype Lineage = Lineage(id: Id, owner: Id, assignee: Id, repo: int, paths: set<Path>, supersedes: Option<Id>,
                             basis: int, policy: int, start: int)

  datatype Stage = Active | HandbackRecorded | Imported | Superseded

  datatype Handback = Handback(id: Id, changed: set<Path>, evidence: int)

  datatype Preflight = Preflight(id: Id, handback: Sha<Handback>, blocked: bool, ready: bool, head: int)

  /** destination: the paths the owner changed since the preflight; identical: the handback's paths that hold the
      handback's bytes now; head: the owner's commit after the import. */
  datatype Import = Import(preflight: Sha<Preflight>, operation: int, resolution: Option<int>, destination: set<Path>,
                           identical: set<Path>, head: int)

  datatype Lifecycle = Lifecycle(lineage: Sha<Lineage>, stage: Stage, handbacks: seq<Sha<Handback>>,
                                 latest: Option<Sha<Handback>>, preflights: seq<Sha<Preflight>>,
                                 imported: Option<Sha<Import>>, supersededBy: Option<Id>, refusals: seq<int>)

  /** One assignment directory. */
  datatype Dir = Dir(lineage: Option<Lineage>, lifecycle: Option<Lifecycle>, handbacks: set<Handback>,
                     preflights: set<Preflight>, imports: set<Import>)

  datatype Role = Owner | Assignee

  datatype Pointer = Pointer(role: Role, ids: set<Id>)

  /** unsettled: the room has a request that has not reached a terminal state. */
  datatype Room = Room(repo: int, normal: bool, unsettled: bool, pointer: Option<Pointer>)

  datatype World = World(dirs: map<Id, Dir>, rooms: map<Id, Room>)

  const EMPTY := Dir(None, None, {}, {}, {})

  function DirOf(w: World, id: Id): Dir { if id in w.dirs then w.dirs[id] else EMPTY }

  function NewLifecycle(lineage: Lineage): Lifecycle {
    Lifecycle(lineage, Active, [], None, [], None, None, [])
  }

  predicate EngagedStage(stage: Stage) { stage == Active || stage == HandbackRecorded }

  /** Whether the assignment reserves its paths: it does so already when only its lineage was written. */
  predicate Engaged(d: Dir) {
    d.lineage.Some? && (d.lifecycle.Some? ==> EngagedStage(d.lifecycle.value.stage))
  }

  /** Evidence that cannot be resolved refuses every admission. */
  predicate Resolved(d: Dir) {
    && (d.lifecycle.Some? ==> d.lineage.Some? && d.lifecycle.value.lineage == d.lineage.value)
  }

  // ----- durable writes -----

  datatype Write =
    | PutLineage(lineage: Lineage)
    | PutLifecycle(id: Id, lifecycle: Lifecycle)
    | StoreHandback(id: Id, handback: Handback)
    | StorePreflight(id: Id, preflight: Preflight)
    | StoreImport(id: Id, record: Import)
    | PutPointer(room: Id, pointer: Pointer)
    | PutRooms(rooms: map<Id, Room>)

  function WithDir(w: World, id: Id, d: Dir): World { w.(dirs := w.dirs[id := d]) }

  function Put(w: World, x: Write): World {
    match x
    case PutLineage(l) => WithDir(w, l.id, DirOf(w, l.id).(lineage := Some(l)))
    case PutLifecycle(id, c) => WithDir(w, id, DirOf(w, id).(lifecycle := Some(c)))
    case StoreHandback(id, h) => WithDir(w, id, DirOf(w, id).(handbacks := DirOf(w, id).handbacks + {h}))
    case StorePreflight(id, p) => WithDir(w, id, DirOf(w, id).(preflights := DirOf(w, id).preflights + {p}))
    case StoreImport(id, r) => WithDir(w, id, DirOf(w, id).(imports := DirOf(w, id).imports + {r}))
    case PutPointer(room, p) =>
      if room in w.rooms then w.(rooms := w.rooms[room := w.rooms[room].(pointer := Some(p))]) else w
    case PutRooms(rooms) => w.(rooms := rooms)
  }

  function PutAll(w: World, ws: seq<Write>): World
    decreases ws
  {
    if ws == [] then w else PutAll(Put(w, ws[0]), ws[1..])
  }

  datatype Plan = Plan(writes: seq<Write>, accepted: bool)

  const REFUSED := Plan([], false)

  // ----- admission -----

  /** verdict stands for the specification, handoff, agreement and account checks, which read no
      assignment record. */
  datatype OpenCall = OpenCall(owner: Id, id: Id, assignee: Id, paths: seq<Path>, supersedes: Option<Id>,
                               basis: int, policy: int, start: int, verdict: bool)

  /** Whether another assignment stands in the way: it is unreadable, or it is engaged and either covers one of the
      paths in the same repository or belongs to the same owner. */
  predicate Conflicts(other: Dir, owner: Id, repo: int, owned: set<Path>) {
    || !Resolved(other)
    || (Engaged(other) && ((other.lineage.value.repo == repo && Overlap(owned, other.lineage.value.paths) != {})
                           || other.lineage.value.owner == owner))
  }

  predicate Admissible(w: World, owner: Id, repo: int, owned: set<Path>, exclude: set<Id>) {
    forall other :: other in w.dirs && other !in exclude ==> !Conflicts(w.dirs[other], owner, repo, owned)
  }

  function Excluded(call: OpenCall): set<Id> {
    {call.id} + if call.supersedes.Some? then {call.supersedes.value} else {}
  }

  predicate TerminalRepair(w: World, id: Id) {
    var d := DirOf(w, id);
    d.lineage.Some? && d.lifecycle.Some? && !EngagedStage(d.lifecycle.value.stage)
  }

  predicate SupersedesOk(w: World, call: OpenCall)
    requires call.assignee in w.rooms
  {
    call.supersedes.Some? ==>
      var prior := DirOf(w, call.supersedes.value);
      && prior.lineage.Some? && prior.lifecycle.Some?
      && prior.lineage.value.owner == call.owner && prior.lineage.value.assignee == call.assignee
      && EngagedStage(prior.lifecycle.value.stage)
      && !w.rooms[call.assignee].unsettled
  }

  /** An assignment room already in coordination admits only a retry, a named supersession, or an
      assignment after its earlier ones ended. */
  predicate AssigneeFree(w: World, call: OpenCall)
    requires call.assignee in w.rooms
  {
    var pointer := w.rooms[call.assignee].pointer;
    pointer.Some? ==>
      && pointer.value.role == Assignee
      && forall prior :: prior in pointer.value.ids && prior != call.id && Some(prior) != call.supersedes ==>
           && DirOf(w, prior).lifecycle.Some?
           && (EngagedStage(DirOf(w, prior).lifecycle.value.stage) ==> TerminalRepair(w, call.id))
  }

  predicate RoomsOk(w: World, call: OpenCall) {
    && call.owner != call.assignee
    && call.owner in w.rooms && call.assignee in w.rooms
    && w.rooms[call.owner].normal && w.rooms[call.assignee].normal
    && (w.rooms[call.owner].pointer.Some? ==> w.rooms[call.owner].pointer.value.role == Owner)
    && w.rooms[call.assignee].repo == w.rooms[call.owner].repo
    && SupersedesOk(w, call)
    && AssigneeFree(w, call)
    && call.verdict
  }

  function LineageOf(w: World, call: OpenCall): Lineage
    requires call.owner in w.rooms
  {
    var recorded := DirOf(w, call.id).lineage;
    Lineage(call.id, call.owner, call.assignee, w.rooms[call.owner].repo, Elements(call.paths), call.supersedes,
            call.basis, if recorded.Some? then recorded.value.policy else call.policy, call.start)
  }

  function Ids(pointer: Option<Pointer>): set<Id> { if pointer.Some? then pointer.value.ids else {} }

  /** The writes that add the assignment to the pointers of its two rooms, owner first. */
  function Pointers(w: World, call: OpenCall): seq<Write>
    requires call.owner in w.rooms && call.assignee in w.rooms
  {
    [PutPointer(call.owner, Pointer(Owner, Ids(w.rooms[call.owner].pointer) + {call.id})),
     PutPointer(call.assignee, Pointer(Assignee, Ids(w.rooms[call.assignee].pointer) + {call.id}))]
  }

  function MarkSuperseded(w: World, call: OpenCall): seq<Write> {
    if call.supersedes.None? || DirOf(w, call.supersedes.value).lifecycle.None? then []
    else
      var prior := DirOf(w, call.supersedes.value).lifecycle.value;
      [PutLifecycle(call.supersedes.value, prior.(stage := Superseded, supersededBy := Some(call.id)))]
  }

  function FreshPlan(w: World, call: OpenCall): Plan
    requires call.owner in w.rooms && call.assignee in w.rooms
  {
    var lineage := LineageOf(w, call);
    if !Admissible(w, call.owner, lineage.repo, lineage.paths, Excluded(call)) then REFUSED
    else Plan([PutLineage(lineage), PutLifecycle(call.id, NewLifecycle(lineage))]
              + MarkSuperseded(w, call) + Pointers(w, call), true)
  }

  /** The plan of a call whose assignment already has a lineage. */
  function RetryPlan(w: World, call: OpenCall): Plan
    requires call.owner in w.rooms && call.assignee in w.rooms && DirOf(w, call.id).lineage.Some?
  {
    var d, lineage := DirOf(w, call.id), LineageOf(w, call);
    if d.lineage.value != lineage.(start := d.lineage.value.start) then REFUSED
    else if !TerminalRepair(w, call.id)
            && !Admissible(w, call.owner, lineage.repo, lineage.paths, Excluded(call)) then REFUSED
    else if d.lifecycle.None? then
      Plan([PutLifecycle(call.id, NewLifecycle(d.lineage.value))] + Pointers(w, call), true)
    else if d.lifecycle.value.lineage != d.lineage.value then REFUSED
    else Plan(Pointers(w, call), true)
  }

  function OpenPlan(w: World, call: OpenCall): Plan {
    if !OwnedPathsOk(call.paths) || !RoomsOk(w, call) then REFUSED
    else if DirOf(w, call.id).lineage.Some? then RetryPlan(w, call)
    else FreshPlan(w, call)
  }

  // ----- handback, preflight, import -----

  function LastOf<T>(s: seq<T>, n: nat): seq<T> { if |s| <= n then s else s[|s| - n..] }

  /** A refusal appends one bounded record and changes no state. */
  function RefusePlan(id: Id, c: Lifecycle, reason: int): Plan {
    Plan([PutLifecycle(id, c.(refusals := LastOf(c.refusals + [reason], REFUSAL_LIMIT)))], false)
  }

  predicate Names(w: World, room: Id, role: Role, id: Id) {
    && room in w.rooms && w.rooms[room].pointer.Some?
    && w.rooms[room].pointer.value.role == role && id in w.rooms[room].pointer.value.ids
  }

  /** valid: every recorded fact outside the assignment record matches (specification, checkpoint, acceptance,
      receipt, provenance, ancestry); changed: the paths the candidate touches over the baseline. */
  datatype HandbackCall = HandbackCall(room: Id, id: Id, valid: bool, changed: set<Path>, evidence: int)

  function HandbackPlan(w: World, call: HandbackCall): Plan {
    var d := DirOf(w, call.id);
    if d.lineage.None? || d.lifecycle.None? then REFUSED
    else
      var lineage, c := d.lineage.value, d.lifecycle.value;
      if !EngagedStage(c.stage) then RefusePlan(call.id, c, 0)
      else if lineage.assignee != call.room then RefusePlan(call.id, c, 1)
      else if call.room !in w.rooms then REFUSED
      else if !Names(w, call.room, Assignee, call.id) then RefusePlan(call.id, c, 1)
      else if !call.valid || call.changed == {} then RefusePlan(call.id, c, 2)
      else if exists path :: path in call.changed && !Covered(path, lineage.paths) then RefusePlan(call.id, c, 3)
      else
        var h := Handback(call.id, call.changed, call.evidence);
        Plan([StoreHandback(call.id, h),
              PutLifecycle(call.id, c.(handbacks := if h in c.handbacks then c.handbacks else c.handbacks + [h],
                                       latest := Some(h), stage := HandbackRecorded))], true)
  }

  datatype PreflightCall = PreflightCall(room: Id, id: Id, handback: Sha<Handback>, valid: bool, blocked: bool,
                                         clean: bool, head: int)

  function PreflightPlan(w: World, call: PreflightCall): Plan {
    var d := DirOf(w, call.id);
    if d.lineage.None? || d.lifecycle.None? then REFUSED
    else
      var lineage, c := d.lineage.value, d.lifecycle.value;
      if lineage.owner != call.room then RefusePlan(call.id, c, 4)
      else if c.stage != HandbackRecorded then RefusePlan(call.id, c, 0)
      else if call.handback !in d.handbacks || c.latest != Some(call.handback) then RefusePlan(call.id, c, 5)
      else if call.room !in w.rooms then REFUSED
      else if !Names(w, call.room, Owner, call.id) || !call.valid then RefusePlan(call.id, c, 4)
      else
        var p := Preflight(call.id, call.handback, call.blocked, !call.blocked && call.clean, call.head);
        Plan([StorePreflight(call.id, p),
              PutLifecycle(call.id, c.(preflights := if p in c.preflights then c.preflights
                                                     else c.preflights + [p]))], true)
  }

  /** verified: authority is unchanged, the owner's commit moved on from the preflight's and the handback is still what
      it was; ancestor: the handback's commit is in the owner's history. */
  datatype ImportCall = ImportCall(room: Id, id: Id, preflight: Sha<Preflight>, operation: int,
                                   resolution: Option<int>, verified: bool, ancestor: bool, destination: set<Path>,
                                   identical: set<Path>, head: int)

  /** Something of the handback arrived, by its paths or by its history. */
  predicate Incorporates(call: ImportCall) {
    call.preflight.handback.changed * call.destination != {} || call.ancestor
  }

  /** The handback's paths the owner neither touched nor holds. */
  function MissingPaths(call: ImportCall): set<Path> {
    set path | path in call.preflight.handback.changed - call.destination && path !in call.identical
  }

  /** The owner touched nothing but the handback's paths, and those hold its bytes. */
  predicate FaithfulImport(call: ImportCall) {
    && call.destination - call.preflight.handback.changed == {}
    && forall path :: path in call.preflight.handback.changed * call.destination ==> path in call.identical
  }

  predicate ImportReady(d: Dir, c: Lifecycle, call: ImportCall) {
    && c.stage == HandbackRecorded
    && call.preflight in d.preflights
    && c.preflights != [] && c.preflights[|c.preflights| - 1] == call.preflight
    && !call.preflight.blocked
    && c.latest == Some(call.preflight.handback)
    && d.lineage == Some(c.lineage)
    && call.preflight.handback in d.handbacks
    && call.verified
    && Incorporates(call) && MissingPaths(call) == {}
    && (!FaithfulImport(call) ==> call.resolution.Some?)
    && (!call.preflight.ready ==> call.resolution.Some?)
  }

  /** The recorded import, read back from its file, is the one this call asks for. */
  predicate AlreadyImported(d: Dir, c: Lifecycle, call: ImportCall) {
    && c.imported.Some? && c.imported.value in d.imports
    && c.imported.value.preflight == call.preflight
    && c.imported.value.operation == call.operation && c.imported.value.resolution == call.resolution
  }

  function ImportOf(call: ImportCall): Import {
    Import(call.preflight, call.operation, call.resolution, call.destination, call.identical, call.head)
  }

  /** The import record is stored first; the lifecycle that names it follows. */
  function ImportPlan(w: World, call: ImportCall): Plan {
    var d := DirOf(w, call.id);
    if d.lineage.None? || d.lifecycle.None? then REFUSED
    else
      var lineage, c := d.lineage.value, d.lifecycle.value;
      if lineage.owner != call.room then RefusePlan(call.id, c, 4)
      else if c.stage == Imported then
        if AlreadyImported(d, c, call) then Plan([], true) else RefusePlan(call.id, c, 6)
      else if call.room !in w.rooms then REFUSED
      else if !ImportReady(d, c, call) || !Names(w, call.room, Owner, call.id) then RefusePlan(call.id, c, 7)
      else
        var record := ImportOf(call);
        Plan([StoreImport(call.id, record),
              PutLifecycle(call.id, c.(imported := Some(record), stage := Imported))], true)
  }

  // ----- runs -----

  /** Rooms come and settle on their own; their repository and their coordination pointer are not theirs to
      change. */
  predicate RoomsMove(before: map<Id, Room>, now: map<Id, Room>) {
    && (forall id :: id in before ==> id in now && now[id].repo == before[id].repo
                                      && now[id].pointer == before[id].pointer)
    && forall id :: id in now && id !in before ==> now[id].pointer.None?
  }

  datatype Call =
    | Open(open: OpenCall)
    | RecordHandback(handback: HandbackCall)
    | RunPreflight(preflight: PreflightCall)
    | RecordImport(record: ImportCall)
    | Rooms(rooms: map<Id, Room>)

  function PlanOf(w: World, call: Call): Plan {
    match call
    case Open(c) => OpenPlan(w, c)
    case RecordHandback(c) => HandbackPlan(w, c)
    case RunPreflight(c) => PreflightPlan(w, c)
    case RecordImport(c) => ImportPlan(w, c)
    case Rooms(rooms) => if RoomsMove(w.rooms, rooms) then Plan([PutRooms(rooms)], true) else REFUSED
  }

  datatype Event = Event(call: Call, cut: nat)

  function Durable(w: World, event: Event): seq<Write> {
    var writes := PlanOf(w, event.call).writes;
    writes[..Min(event.cut, |writes|)]
  }

  function Run(w: World, events: seq<Event>): World
    decreases events
  {
    if events == [] then w else Run(PutAll(w, Durable(w, events[0])), events[1..])
  }
}
