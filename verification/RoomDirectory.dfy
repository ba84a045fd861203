/** The room directory the calls work on: files created once, a saved state replaced whole, and a
    machine that may stop before any durable write. Each method performs exactly the prefix of its
    plan that the remaining writes allow. */
module RoomDirectory {
  import opened Values
  import opened EngineeringModel
  import opened EngineeringTransition
  import opened RoomRuns

  datatype Outcome = Stopped | Answered(reply: Reply)

  /** The plan was performed up to the write where the machine stopped, and answered only when all of
      it was performed. */
  predicate Through(before: Disk, power: nat, plan: Plan, after: Disk, left: nat, o: Outcome) {
    var n := Min(power, |plan.writes|);
    && after == PutAll(before, plan.writes[..n])
    && left == power - n
    && o == if n == |plan.writes| then Answered(plan.reply) else Stopped
  }

  /** What a new attempt does once its intent is made. */
  function BeginPlan(d: Disk, intent: Intent, env: Env): Plan {
    var published := WithPointer(WithIntent(d, intent), PendingLink(intent));
    if !JournalOk(published, true) then Plan([StoreIntent(intent)], Refusal)
    else
      var rest := AdvancePlan(published, intent, None, env);
      Plan([StoreIntent(intent), SavePointer(PendingLink(intent))] + rest.writes, rest.reply)
  }

  class Directory {
    var requests: map<Id, Intent>
    var attempts: map<Id, Marker>
    var records: map<Id, Record>
    var resolutions: map<Id, Resolution>
    var outcomes: set<SemanticOutcome>
    var room: Room
    var patched: multiset<Id>
    /** How many more durable writes happen before the machine stops. */
    var power: nat

    constructor (disk: Disk, power: nat)
      ensures Contents() == disk && this.power == power
    {
      requests, attempts, records := disk.files.requests, disk.files.attempts, disk.files.records;
      resolutions, outcomes, room, patched := disk.resolutions, disk.outcomes, disk.room, disk.patched;
      this.power := power;
    }

    function Contents(): Disk
      reads this
    {
      Disk(Files(requests, attempts, records), resolutions, outcomes, room, patched)
    }

    /** This object went through the plan from its earlier contents. */
    twostate predicate Performed(plan: Plan, o: Outcome)
      reads this
    {
      Through(old(Contents()), old(power), plan, Contents(), power, o)
    }

    /** One durable write, or the stop before it. */
    method Write(w: Write) returns (done: bool)
      modifies this
      ensures done <==> old(power) > 0
      ensures power == if done then old(power) - 1 else 0
      ensures Contents() == if done then Put(old(Contents()), w) else old(Contents())
    {
      if power == 0 { return false; }
      power := power - 1;
      match w {
        case StoreIntent(x) => requests := requests[x.id := x];
        case StoreMarker(m) => attempts := attempts[m.id := m];
        case SendPatch(id, _) => patched := patched + multiset{id};
        case StoreRecord(r) => records := records[r.id := r];
        case StoreResolution(v) => resolutions := resolutions[v.id := v];
        case SavePointer(p) => room := room.(pointer := Some(p));
        case SaveResolutions(ps) => room := room.(resolutions := ps);
        case SaveEngineer(b) => room := room.(engineer := Some(b));
        case SaveRequest(r) => room := room.(requests := room.requests + [r]);
        case SaveProgress(rs, policy, other, seen) =>
          room := room.(requests := rs, policy := policy, other := other);
          outcomes := seen;
      }
      done := true;
    }

    /** The engineer is bound once; an identical repeat changes nothing. */
    method BindEngineer(binding: Binding, allowed: bool) returns (o: Outcome)
      modifies this
      ensures Performed(BindPlan(old(Contents()), binding, allowed), o)
    {
      if !allowed { return Answered(Refusal); }
      if room.engineer.Some? {
        return Answered(if room.engineer == Some(binding) then StillPending(false) else Refusal);
      }
      if UsesSession(room, binding.session) { return Answered(Refusal); }
      ghost var d := Contents();
      var done := Write(SaveEngineer(binding));
      assert PutAll(d, [SaveEngineer(binding)]) == Put(d, SaveEngineer(binding)) by {
        PutAllOne(d, SaveEngineer(binding));
      }
      assert [SaveEngineer(binding)][..1] == [SaveEngineer(binding)];
      if !done { return Stopped; }
      return Answered(StillPending(false));
    }

    /** The journal reader over the directory's files and a saved or proposed room state. */
    method Journal(state: Room, allowPending: bool) returns (ok: bool)
      ensures ok == JournalOk(Contents().(room := state), allowPending)
    {
      var chain := ReadChain(Files(requests, attempts, records), state.engineer, state.pointer, allowPending);
      ok := chain.Success?
            && HistoryOk(state.initial, RequestIds(state.requests), state.pointer)
            && ResolutionsOk(BaseHistory(state), LedgerOf(Contents().(room := state)));
    }

    /** Two writes with a check of the proposed state in between. */
    method StoreThenSave(store: Write, save: Write, proposed: Room, allowPending: bool, reply: Reply)
      returns (o: Outcome, through: bool)
      requires Put(Put(Contents(), store), save) == Put(Contents(), store).(room := proposed)
      modifies this
      ensures var both := JournalOk(Put(Put(old(Contents()), store), save), allowPending);
              && Performed(if both then Plan([store, save], reply) else Plan([store], Refusal), o)
              && (through <==> both && old(power) >= 2)
    {
      ghost var d := Contents();
      var done := Write(store);
      if !done { return Stopped, false; }
      assert PutAll(d, [store]) == Put(d, store) by { PutAllOne(d, store); }
      assert Contents().(room := proposed) == Put(Put(d, store), save);
      var ok := Journal(proposed, allowPending);
      assert ok == JournalOk(Put(Put(d, store), save), allowPending);
      if !ok { return Answered(Refusal), false; }
      done := Write(save);
      assert PutAll(d, [store, save]) == Put(Put(d, store), save) by { PutAllTwo(d, store, save); }
      assert [store, save][..1] == [store] && [store, save][..2] == [store, save];
      if !done { return Stopped, false; }
      return Answered(reply), true;
    }

    method Publish(intent: Intent, record: Record) returns (o: Outcome)
      requires record.id == intent.id
      modifies this
      ensures Performed(PublishPlan(old(Contents()), intent, record), o)
    {
      if intent.id in records && records[intent.id] != record { return Answered(Refusal); }
      var save, through := TerminalLink(intent, record), false;
      o, through := StoreThenSave(StoreRecord(record), SavePointer(save), room.(pointer := Some(save)), false,
                                  Terminal(record));
    }

    /** Inspects twice and publishes the record, or leaves the attempt pending. */
    method Settle(intent: Intent, marker: Option<Marker>, result: PatchResult, stored: Option<Record>, env: Env,
                  sent: bool)
      returns (o: Outcome)
      requires stored.Some? ==> stored.value.id == intent.id
      modifies this
      ensures Performed(SettlePlan(old(Contents()), intent, marker, result, stored, env, sent), o)
    {
      hide Inspect, Unchanged, CommitObserved, PublishPlan;
      if stored.Some? && !stored.value.outcome.Committed? { return Answered(Refusal); }
      if !Observable(intent, env.observe) { return Answered(StillPending(sent)); }
      var after := env.observe.value;
      if stored.Some? && after != stored.value.after { return Answered(StillPending(sent)); }
      if stored.None? && !CommitObserved(intent, after) { return Answered(StillPending(sent)); }
      var frozen := Inspect(Contents(), env.settle, intent.target, Replaying(!Reset(intent)),
                            intent.inputs.transcript, Some(intent.id));
      if frozen.Refused? { return Answered(StillPending(sent)); }
      if !Unchanged(intent.evidence, frozen.value, if Reset(intent) then Exactly else TargetSettingsOnly) {
        return Answered(StillPending(sent));
      }
      var record := CommitRecord(intent, marker, result, after, env.now);
      if stored.Some? { record := stored.value; }
      o := Publish(intent, record);
    }

    /** Marker and PATCH where the attempt has none yet, then the settlement. */
    method Advance(intent: Intent, marker: Option<Marker>, env: Env) returns (o: Outcome)
      modifies this
      ensures Performed(AdvancePlan(old(Contents()), intent, marker, env), o)
    {
      if Reset(intent) { o := Settle(intent, marker, NO_PATCH, None, env, false); return; }
      if marker.Some? { o := Settle(intent, marker, ALREADY_ATTEMPTED, None, env, false); return; }
      var live := Inspect(Contents(), env.advance, intent.target, Replaying(false), intent.inputs.transcript,
                          Some(intent.id));
      if live.Refused? || !Unchanged(intent.evidence, live.value, Exactly) { return Answered(Refusal); }
      var attempt := NewMarker(intent, env.now);
      if intent.id in attempts && attempts[intent.id] != attempt { return Answered(Refusal); }
      o := PatchOnce(intent, attempt, env);
    }

    /** The marker is durable before the PATCH, and the settlement follows it. */
    method PatchOnce(intent: Intent, attempt: Marker, env: Env) returns (o: Outcome)
      requires attempt.id == intent.id
      modifies this
      ensures var sent := WithPatch(WithMarker(old(Contents()), attempt), intent.id);
              var rest := SettlePlan(sent, intent, Some(attempt), env.patchResult, None, env, true);
              Performed(Plan([StoreMarker(attempt), SendPatch(intent.id, intent.patch)] + rest.writes, rest.reply), o)
    {
      hide SettlePlan;
      ghost var d, p := Contents(), power;
      ghost var sends := [StoreMarker(attempt), SendPatch(intent.id, intent.patch)];
      ghost var rest := SettlePlan(WithPatch(WithMarker(d, attempt), intent.id), intent, Some(attempt),
                                   env.patchResult, None, env, true);
      PutAllOne(d, sends[0]);
      PutAllTwo(d, sends[0], sends[1]);
      var done := Write(StoreMarker(attempt));
      if !done {
        StopsWithin(d, p, sends, rest, Contents(), power);
        return Stopped;
      }
      done := Write(SendPatch(intent.id, intent.patch));
      if !done {
        assert sends[..1] == [sends[0]];
        StopsWithin(d, p, sends, rest, Contents(), power);
        return Stopped;
      }
      ghost var sent, left := Contents(), power;
      o := Settle(intent, Some(attempt), env.patchResult, None, env, true);
      ContinuesAfter(d, p, sends, sent, left, rest, Contents(), power, o);
    }

    /** Intent and pending pointer of a request no attempt carries, then its advance. */
    method Apply(inputs: Inputs, env: Env) returns (o: Outcome)
      modifies this
      ensures Performed(ApplyPlan(old(Contents()), inputs, env), o)
    {
      hide Inspect, IntentOk, AdvancePlan, JournalOk;
      if env.resolved.None? || env.resolved.value.selector.Configured() != inputs.target { return Answered(Refusal); }
      var evidence := Inspect(Contents(), env.audit, env.resolved.value, Auditing, inputs.transcript, None);
      if evidence.Refused? || inputs.source != evidence.value.source.Configured() || evidence.value != inputs.audit
         || inputs.spec != evidence.value.spec || inputs.candidate != evidence.value.candidate
         || inputs.history != evidence.value.native.history {
        return Answered(Refusal);
      }
      var intent := NewIntent(room, inputs, evidence.value, env.now);
      if !IntentOk(room.engineer, inputs.id, intent) { return Answered(Refusal); }
      if inputs.id in requests && requests[inputs.id] != intent { return Answered(Refusal); }
      o := Begin(intent, env);
    }

    /** Store the intent, publish its pending pointer, then advance. */
    method Begin(intent: Intent, env: Env) returns (o: Outcome)
      modifies this
      ensures Performed(BeginPlan(old(Contents()), intent, env), o)
    {
      hide JournalOk, AdvancePlan;
      ghost var d, p := Contents(), power;
      ghost var begins := [StoreIntent(intent), SavePointer(PendingLink(intent))];
      ghost var rest := AdvancePlan(WithPointer(WithIntent(d, intent), PendingLink(intent)), intent, None, env);
      PutAllTwo(d, begins[0], begins[1]);
      var through;
      o, through := StoreThenSave(StoreIntent(intent), SavePointer(PendingLink(intent)),
                                  room.(pointer := Some(PendingLink(intent))), true, StillPending(false));
      if !through {
        if o.Stopped? { StopsWithin(d, p, begins, rest, Contents(), power); }
        return;
      }
      assert begins[..2] == begins;
      ghost var published, left := Contents(), power;
      o := Advance(intent, None, env);
      ContinuesAfter(d, p, begins, published, left, rest, Contents(), power, o);
    }

    /** Gives a pending attempt up over an unchanged room, or repeats the answer of a terminal one. */
    method AbandonLocked(call: AbandonCall, env: Env) returns (o: Outcome)
      modifies this
      ensures Performed(AbandonPlan(old(Contents()), call, env), o)
    {
      if !IsText(call.authorization) || !IsText(call.diagnosis) || !env.settled { return Answered(Refusal); }
      var ok := Journal(room, true);
      var link := AttemptOf(Lineage(room.pointer), call.id);
      if !ok || link.None? { return Answered(Refusal); }
      var intent := link.value.intent;
      var marker, record := Find(attempts, call.id), Find(records, call.id);
      if intent.inputs.database != call.database || intent.inputs.transcript != call.transcript {
        return Answered(Refusal);
      }
      var abandonment := AbandonmentOf(link.value, marker, intent.inputs, call.authorization, call.diagnosis);
      if record.Some? && record.value.outcome != Abandoned(abandonment) { return Answered(Refusal); }
      if !link.value.state.Pending? { return Answered(Terminal(link.value.state.record)); }
      var frozen := Inspect(Contents(), env.abandon, intent.target, Abandoning, call.transcript, Some(call.id));
      if frozen.Refused? || !Unchanged(intent.evidence, frozen.value, LivenessOnly) { return Answered(Refusal); }
      LinkIds(Contents(), link.value);
      var closing := AbandonRecord(intent, marker, frozen.value, abandonment, env.now);
      if record.Some? { closing := record.value; }
      o := Publish(intent, closing);
    }

    /** Goes on from the marker and record of the pending attempt. */
    method Reconcile(intent: Intent, env: Env) returns (o: Outcome)
      requires intent.id in records ==> records[intent.id].id == intent.id
      modifies this
      ensures Performed(ReconcilePlan(old(Contents()), intent, env), o)
    {
      var marker, record := Find(attempts, intent.id), Find(records, intent.id);
      if record.None? { o := Advance(intent, marker, env); return; }
      match record.value.outcome {
        case Abandoned(a) =>
          o := AbandonLocked(AbandonCall(intent.id, intent.inputs.database, intent.inputs.transcript,
                                         a.authorization, a.diagnosis), env);
        case Committed => o := Settle(intent, marker, record.value.result, record, env, false);
      }
    }

    method ClaimResolution(value: Resolution, allowPending: bool) returns (o: Outcome)
      modifies this
      ensures Performed(ResolutionPlan(old(Contents()), value, allowPending), o)
    {
      var more := MoreResolutions(Contents(), value);
      var through;
      o, through := StoreThenSave(StoreResolution(value), SaveResolutions(more), room.(resolutions := more),
                                  allowPending, Reaudit);
    }

    /** Claims the resolution an earlier call left unclaimed, or stores and claims the one the newest engineer
        request proves. */
    method AdoptResolution(now: int) returns (o: Outcome)
      modifies this
      ensures Performed(AdoptPlan(old(Contents()), now), o)
    {
      hide JournalOk, ResolutionPlan, RequestOk, LatestEngineer, NewResolution;
      if room.engineer.None? { return Answered(StillPending(false)); }
      var ok := Journal(room, false);
      if !ok { return Answered(Refusal); }
      var epoch := LastEpoch(EpochsOf(room));
      if !Adopting(epoch) { return Answered(StillPending(false)); }
      var interrupted, latest := PendingResolution(Contents()), LatestIn(room, epoch);
      if interrupted.Some? {
        o := ClaimResolution(resolutions[interrupted.value], false);
        return;
      }
      if latest.None? { return Answered(StillPending(false)); }
      var request := room.requests[latest.value - 1];
      if !ProvesModel(Contents(), epoch.selector.family, request) { return Answered(StillPending(false)); }
      if !RequestOk(EpochsOf(room), request, latest.value) || request.id in resolutions { return Answered(Refusal); }
      o := ClaimResolution(NewResolution(epoch, request, latest.value, now), false);
    }

    /** Read or reconcile this request's own attempt, or apply it as a new one. */
    method Attempt(inputs: Inputs, env: Env) returns (o: Outcome)
      requires JournalOk(Contents(), true)
      modifies this
      ensures Performed(AttemptPlan(old(Contents()), inputs, env), o)
    {
      var link := AttemptOf(Lineage(room.pointer), inputs.id);
      if !env.settled { return Answered(Refusal); }
      if link.None? {
        if IsPending(room.pointer) { return Answered(Refusal); }
        o := Apply(inputs, env);
        return;
      }
      if link.value.intent.inputs != inputs { return Answered(Refusal); }
      if !link.value.state.Pending? { return Answered(Terminal(link.value.state.record)); }
      LinkIds(Contents(), link.value);
      o := Reconcile(link.value.intent, env);
    }

    /** An interrupted adoption is claimed first; the previous audit then no longer applies. */
    method Dispatch(inputs: Inputs, env: Env) returns (o: Outcome)
      modifies this
      ensures Performed(DispatchPlan(old(Contents()), inputs, env), o)
    {
      var ok := Journal(room, true);
      if !ok { return Answered(Refusal); }
      var interrupted := PendingResolution(Contents());
      if interrupted.None? {
        o := Attempt(inputs, env);
      } else if IsPending(room.pointer) {
        o := Answered(Refusal);
      } else {
        o := ClaimResolution(resolutions[interrupted.value], true);
      }
    }

    /** Saves the pending pointer of an intent that has none, if this request stored it. */
    method Claim(id: Id, inputs: Inputs) returns (o: Outcome)
      modifies this
      ensures var claim := ClaimPlan(old(Contents()), id, inputs);
              Performed(if claim.Refused? then REFUSED else Plan(claim.value, StillPending(false)), o)
    {
      hide PointersOk, JournalOk, IntentOk;
      if !PointersOk(Contents()) { return Answered(Refusal); }
      var unclaimed := requests.Keys - LineageIds(room.pointer);
      if unclaimed == {} { return Answered(StillPending(false)); }
      if unclaimed != {id} { return Answered(Refusal); }
      assert id in unclaimed;
      var intent := requests[id];
      if intent.id != id || intent.inputs != inputs || intent.previous != room.pointer || intent.before != room
         || !IntentOk(room.engineer, id, intent) {
        return Answered(Refusal);
      }
      RestoreIntent(Contents(), intent);
      var ok := Journal(room.(pointer := Some(PendingLink(intent))), true);
      if !ok { return Answered(Refusal); }
      var through;
      o, through := StoreThenSave(StoreIntent(intent), SavePointer(PendingLink(intent)),
                                  room.(pointer := Some(PendingLink(intent))), true, StillPending(false));
    }

    /** The claim, then whatever the claimed room asks for. */
    method Proceed(inputs: Inputs, env: Env) returns (o: Outcome)
      modifies this
      ensures Performed(ClaimThenDispatch(old(Contents()), inputs, env), o)
    {
      ghost var d, p := Contents(), power;
      ghost var claim := ClaimPlan(d, inputs.id, inputs);
      hide ClaimPlan, DispatchPlan;
      o := Claim(inputs.id, inputs);
      if o == Answered(Refusal) { return; }
      ghost var rest := DispatchPlan(PutAll(d, claim.value), inputs, env);
      if o.Stopped? {
        StopsWithin(d, p, claim.value, rest, Contents(), power);
        return;
      }
      assert claim.value[..|claim.value|] == claim.value;
      ghost var claimed, left := Contents(), power;
      o := Dispatch(inputs, env);
      ContinuesAfter(d, p, claim.value, claimed, left, rest, Contents(), power, o);
    }

    /** Precondition, claim and dispatch of one call. */
    method TransitionLocked(inputs: Inputs, precondition: Option<bool>, env: Env) returns (o: Outcome)
      modifies this
      ensures Performed(TransitionPlan(old(Contents()), inputs, precondition, env), o)
    {
      if precondition.Some? {
        var ok := Journal(room, true);
        if !ok || (!precondition.value && inputs.id !in LineageIds(room.pointer)) { return Answered(Refusal); }
      }
      o := Proceed(inputs, env);
    }
  }

  lemma PutAllOne(d: Disk, w: Write)
    ensures PutAll(d, [w]) == Put(d, w)
  {
    assert PutAll(Put(d, w), []) == Put(d, w);
  }

  lemma PutAllTwo(d: Disk, v: Write, w: Write)
    ensures PutAll(d, [v, w]) == Put(Put(d, v), w)
  {
    assert [v, w] == [v] + [w];
    PutAllConcat(d, [v], [w]);
    PutAllOne(d, v);
    PutAllOne(Put(d, v), w);
  }

  /** A machine that stops within the first writes stops within the whole plan. */
  lemma StopsWithin(d: Disk, power: nat, first: seq<Write>, rest: Plan, after: Disk, left: nat)
    requires power < |first| && after == PutAll(d, first[..power]) && left == 0
    ensures Through(d, power, Plan(first + rest.writes, rest.reply), after, left, Stopped)
  {
    assert (first + rest.writes)[..power] == first[..power];
  }

  /** All of the first writes, then the rest of the plan from there, is the whole plan. */
  lemma ContinuesAfter(d: Disk, power: nat, first: seq<Write>, mid: Disk, midway: nat, rest: Plan, after: Disk,
                       left: nat, o: Outcome)
    requires |first| <= power && mid == PutAll(d, first) && midway == power - |first|
    requires Through(mid, midway, rest, after, left, o)
    ensures Through(d, power, Plan(first + rest.writes, rest.reply), after, left, o)
  {
    var n := Min(midway, |rest.writes|);
    assert (first + rest.writes)[..|first| + n] == first + rest.writes[..n];
    PutAllConcat(d, first, rest.writes[..n]);
  }

  lemma RestoreIntent(d: Disk, x: Intent)
    requires Find(d.files.requests, x.id) == Some(x)
    ensures WithIntent(d, x) == d
  {
    MapPutSame(d.files.requests, x.id, x);
  }

  /** A published attempt's files carry its own request id. */
  lemma LinkIds(d: Disk, link: Pointer)
    requires JournalOk(d, true) && link in Lineage(d.room.pointer)
    ensures link.intent.id == link.id
    ensures link.id in d.files.records ==> d.files.records[link.id].id == link.id
  {
    assert LinkOk(d.files, d.room.engineer, link);
  }
}
