/** The controller home the coordination calls work on: assignment directories, room states and a machine
    that may stop before any file replacement. Each call performs exactly the prefix of its plan that the
    remaining writes allow. */
module CoordinationController {
  import opened Values
  import opened Coordination
  import opened CoordinationProofs

  datatype Outcome = Stopped | Answered(accepted: bool)

  class Controller {
    var dirs: map<Id, Dir>
    var rooms: map<Id, Room>
    /** How many more durable writes happen before the machine stops. */
    var power: nat

    constructor (w: World, power: nat)
      ensures Contents() == w && this.power == power
    {
      dirs, rooms, this.power := w.dirs, w.rooms, power;
    }

    function Contents(): World
      reads this
    {
      World(dirs, rooms)
    }

    /** This object went through the writes, as far as the machine got. */
    twostate predicate Wrote(writes: seq<Write>, stopped: bool)
      reads this
    {
      var n := Min(old(power), |writes|);
      && Contents() == PutAll(old(Contents()), writes[..n])
      && power == old(power) - n
      && (stopped <==> n < |writes|)
    }

    twostate predicate Performed(plan: Plan, o: Outcome)
      reads this
    {
      Wrote(plan.writes, o.Stopped?) && (o.Answered? ==> o.accepted == plan.accepted)
    }

    /** The writes one after another, stopping where the machine stops. */
    method WriteAll(writes: seq<Write>) returns (stopped: bool)
      modifies this
      ensures Wrote(writes, stopped)
    {
      ghost var w := Contents();
      for k := 0 to |writes|
        invariant power == old(power) - k
        invariant Contents() == PutAll(w, writes[..k])
      {
        if power == 0 { return true; }
        power := power - 1;
        var now := Put(Contents(), writes[k]);
        dirs, rooms := now.dirs, now.rooms;
        assert writes[..k + 1] == writes[..k] + [writes[k]];
        PutAllConcat(w, writes[..k], [writes[k]]);
        PutOne(PutAll(w, writes[..k]), writes[k]);
      }
      assert writes[..|writes|] == writes;
      return false;
    }

    /** One pass over the assignment directories, in any order, that stops at the first conflict. */
    method Scan(owner: Id, repo: int, owned: set<Path>, exclude: set<Id>) returns (clear: bool)
      ensures clear <==> Admissible(Contents(), owner, repo, owned, exclude)
    {
      var left := dirs.Keys;
      while left != {}
        invariant left <= dirs.Keys
        invariant forall other :: other in dirs && other !in left && other !in exclude ==>
                    !Conflicts(dirs[other], owner, repo, owned)
        decreases left
      {
        var other :| other in left;
        left := left - {other};
        if other !in exclude {
          var d := dirs[other];
          if d.lifecycle.Some? && (d.lineage.None? || d.lifecycle.value.lineage != d.lineage.value) { return false; }
          if d.lineage.Some? && (d.lifecycle.None? || EngagedStage(d.lifecycle.value.stage)) {
            if d.lineage.value.repo == repo && Overlap(owned, d.lineage.value.paths) != {} { return false; }
            if d.lineage.value.owner == owner { return false; }
          }
        }
      }
      return true;
    }

    /** Whether every assignment the room's pointer names is over, is this call's own or is the one this call
        replaces. */
    method PriorsFree(call: OpenCall) returns (free: bool)
      requires call.assignee in rooms
      ensures free <==> AssigneeFree(Contents(), call)
    {
      var pointer := rooms[call.assignee].pointer;
      if pointer.None? { return true; }
      if pointer.value.role != Assignee { return false; }
      var left := pointer.value.ids;
      while left != {}
        invariant left <= pointer.value.ids
        invariant forall prior :: prior in pointer.value.ids - left - {call.id} && Some(prior) != call.supersedes ==>
                    && DirOf(Contents(), prior).lifecycle.Some?
                    && (EngagedStage(DirOf(Contents(), prior).lifecycle.value.stage)
                        ==> TerminalRepair(Contents(), call.id))
        decreases left
      {
        var prior :| prior in left;
        left := left - {prior};
        if prior != call.id && Some(prior) != call.supersedes {
          var lifecycle := DirOf(Contents(), prior).lifecycle;
          if lifecycle.None? { return false; }
          if EngagedStage(lifecycle.value.stage) && !TerminalRepair(Contents(), call.id) { return false; }
        }
      }
      return true;
    }

    method Admit(call: OpenCall) returns (admitted: bool)
      ensures admitted <==> OwnedPathsOk(call.paths) && RoomsOk(Contents(), call)
    {
      if !OwnedPathsOk(call.paths) || call.owner == call.assignee { return false; }
      if call.owner !in rooms || call.assignee !in rooms { return false; }
      if !rooms[call.owner].normal || !rooms[call.assignee].normal || !call.verdict { return false; }
      var pointer := rooms[call.owner].pointer;
      if pointer.Some? && pointer.value.role != Owner { return false; }
      if rooms[call.assignee].repo != rooms[call.owner].repo || !SupersedesOk(Contents(), call) { return false; }
      admitted := PriorsFree(call);
    }

    /** Admits one owner and assignment room pair: lineage, lifecycle, the superseded record, then the pointers. */
    method AssignmentOpen(call: OpenCall) returns (o: Outcome)
      modifies this
      ensures Performed(OpenPlan(old(Contents()), call), o)
    {
      var admitted := Admit(call);
      if !admitted { return Answered(false); }
      var d, lineage := DirOf(Contents(), call.id), LineageOf(Contents(), call);
      var writes: seq<Write> := [];
      if d.lineage.Some? {
        if d.lineage.value != lineage.(start := d.lineage.value.start) { return Answered(false); }
        var clear := true;
        if !TerminalRepair(Contents(), call.id) {
          clear := Scan(call.owner, lineage.repo, lineage.paths, Excluded(call));
        }
        if !clear { return Answered(false); }
        if d.lifecycle.None? {
          writes := [PutLifecycle(call.id, NewLifecycle(d.lineage.value))];
        } else if d.lifecycle.value.lineage != d.lineage.value {
          return Answered(false);
        }
      } else {
        var clear := Scan(call.owner, lineage.repo, lineage.paths, Excluded(call));
        if !clear { return Answered(false); }
        writes := [PutLineage(lineage), PutLifecycle(call.id, NewLifecycle(lineage))];
        writes := writes + MarkSuperseded(Contents(), call);
      }
      writes := writes + Pointers(Contents(), call);
      assert writes == OpenPlan(Contents(), call).writes;
      var stopped := WriteAll(writes);
      return if stopped then Stopped else Answered(true);
    }

    /** Refuses with one bounded record and no change of state. */
    method Refuse(id: Id, c: Lifecycle, reason: int) returns (o: Outcome)
      modifies this
      ensures Performed(RefusePlan(id, c, reason), o)
    {
      var stopped := WriteAll(RefusePlan(id, c, reason).writes);
      return if stopped then Stopped else Answered(false);
    }

    /** The first changed path no owned path covers. */
    method Drift(changed: set<Path>, owned: set<Path>) returns (drifted: bool)
      ensures drifted <==> exists path :: path in changed && !Covered(path, owned)
    {
      var left := changed;
      while left != {}
        invariant left <= changed
        invariant forall path :: path in changed && path !in left ==> Covered(path, owned)
        decreases left
      {
        var path :| path in left;
        left := left - {path};
        if !Covered(path, owned) { return true; }
      }
      return false;
    }

    method RecordHandback(call: HandbackCall) returns (o: Outcome)
      modifies this
      ensures Performed(HandbackPlan(old(Contents()), call), o)
    {
      var d := DirOf(Contents(), call.id);
      if d.lineage.None? || d.lifecycle.None? { return Answered(false); }
      var lineage, c := d.lineage.value, d.lifecycle.value;
      if !EngagedStage(c.stage) { o := Refuse(call.id, c, 0); return; }
      if lineage.assignee != call.room { o := Refuse(call.id, c, 1); return; }
      if call.room !in rooms { return Answered(false); }
      if !Names(Contents(), call.room, Assignee, call.id) { o := Refuse(call.id, c, 1); return; }
      if !call.valid || call.changed == {} { o := Refuse(call.id, c, 2); return; }
      var drifted := Drift(call.changed, lineage.paths);
      if drifted { o := Refuse(call.id, c, 3); return; }
      var h := Handback(call.id, call.changed, call.evidence);
      var handbacks := c.handbacks;
      if h !in handbacks { handbacks := handbacks + [h]; }
      var stopped := WriteAll([StoreHandback(call.id, h),
                               PutLifecycle(call.id, c.(handbacks := handbacks, latest := Some(h),
                                                        stage := HandbackRecorded))]);
      return if stopped then Stopped else Answered(true);
    }

    method RunPreflight(call: PreflightCall) returns (o: Outcome)
      modifies this
      ensures Performed(PreflightPlan(old(Contents()), call), o)
    {
      var d := DirOf(Contents(), call.id);
      if d.lineage.None? || d.lifecycle.None? { return Answered(false); }
      var lineage, c := d.lineage.value, d.lifecycle.value;
      if lineage.owner != call.room { o := Refuse(call.id, c, 4); return; }
      if c.stage != HandbackRecorded { o := Refuse(call.id, c, 0); return; }
      if call.handback !in d.handbacks || c.latest != Some(call.handback) { o := Refuse(call.id, c, 5); return; }
      if call.room !in rooms { return Answered(false); }
      if !Names(Contents(), call.room, Owner, call.id) || !call.valid { o := Refuse(call.id, c, 4); return; }
      var p := Preflight(call.id, call.handback, call.blocked, !call.blocked && call.clean, call.head);
      var preflights := c.preflights;
      if p !in preflights { preflights := preflights + [p]; }
      var stopped := WriteAll([StorePreflight(call.id, p), PutLifecycle(call.id, c.(preflights := preflights))]);
      return if stopped then Stopped else Answered(true);
    }

    method RecordImport(call: ImportCall) returns (o: Outcome)
      modifies this
      ensures Performed(ImportPlan(old(Contents()), call), o)
    {
      var d := DirOf(Contents(), call.id);
      if d.lineage.None? || d.lifecycle.None? { return Answered(false); }
      var lineage, c := d.lineage.value, d.lifecycle.value;
      if lineage.owner != call.room { o := Refuse(call.id, c, 4); return; }
      if c.stage == Imported {
        if AlreadyImported(d, c, call) { return Answered(true); }
        o := Refuse(call.id, c, 6);
        return;
      }
      if call.room !in rooms { return Answered(false); }
      if !ImportReady(d, c, call) || !Names(Contents(), call.room, Owner, call.id) {
        o := Refuse(call.id, c, 7);
        return;
      }
      var record := ImportOf(call);
      var stopped := WriteAll([StoreImport(call.id, record),
                               PutLifecycle(call.id, c.(imported := Some(record), stage := Imported))]);
      return if stopped then Stopped else Answered(true);
    }
  }
}
