/** What a request does for its own pending attempt while the room stays as audited: the attempt is committed once the
    target shows, or given up, from whatever a stop left of its marker, PATCH and record. */
module AttemptProgress {
  import opened Values
  import opened EngineeringModel
  import opened EngineeringTransition
  import opened JournalProofs
  import opened RoomRuns
  import opened TransitionSafety
  import opened TransitionProtocol
  import opened RoomTheorems

  /** The attempt is the room's pending one, and the room is still the one its intent was made from, audited as this
      probe shows it. */
  predicate Ongoing(d: Disk, x: Intent, audit: Probe) {
    && Working(d, x) && PendingResolution(d).None?
    && d.room.engineer.Some?
    && d.room.(pointer := x.previous) == x.before
    && x.evidence == InspectedEvidence(x.before, d.room.engineer.value, x.target, audit)
  }

  /** What the target shows when only the configured model and effort changed. */
  function Shown(observed: Observed, target: Pin): Observed {
    observed.(settings := TargetSettings(observed.settings, target))
  }

  /** The call's two inspections after the PATCH find the target in the room that was audited. */
  predicate ShowsTarget(env: Env, audit: Probe, target: Pin) {
    && env.settled
    && env.observe == Some(Shown(audit.observed, target))
    && env.settle == Some(audit.(observed := Shown(audit.observed, target)))
  }

  // ----- what the inspections answer -----

  lemma OngoingRoom(d: Disk, x: Intent, audit: Probe)
    requires Ongoing(d, x, audit)
    ensures IntentOk(d.room.engineer, x.id, x) && !IsPending(x.previous) && AuditedRoom(d.room) == x.before
    ensures Find(d.files.requests, x.id) == Some(x)
  {
    WorkingIs(d, x);
    PreviousSettled(d.room.pointer.value);
  }

  lemma PreviousSettled(p: Pointer)
    requires ChainShape(Lineage(Some(p)))
    ensures !IsPending(p.intent.previous)
  {
    var older := Lineage(p.intent.previous);
    assert Lineage(Some(p)) == older + [p];
    if p.intent.previous.Some? {
      assert (older + [p])[|older| - 1] == older[|older| - 1] == p.intent.previous.value;
    }
  }

  lemma OngoingEpochs(d: Disk, x: Intent, audit: Probe)
    requires Ongoing(d, x, audit)
    ensures EpochsOf(d.room) == EpochsOf(x.before) && LastEpoch(EpochsOf(d.room)).selector == x.source
    ensures RequestIds(d.room.requests) == x.evidence.requests && Distinct(x.evidence.requests)
    ensures InspectedEvidence(d.room, d.room.engineer.value, x.target, audit) == x.evidence
  {
    OngoingRoom(d, x, audit);
    assert x.before.pointer == x.previous && BaseHistory(x.before) == BaseHistory(d.room);
  }

  /** What the intent's own check says of the audit. */
  lemma OngoingAudit(d: Disk, x: Intent, audit: Probe)
    requires Ongoing(d, x, audit)
    ensures x.target.selector.Configured() == x.source.Configured() ==> x.target.selector == x.source && x.source.Family?
    ensures PinOk(x.target)
    ensures OwnerMatches(d.room.engineer.value, x.inputs.transcript, audit.observed)
    ensures audit.observed.controller == "ready" && audit.observed.owner.activity == "idle"
    ensures audit.observed.settings.effort == EFFORT && audit.observed.settings.model == x.source.Configured()
    ensures Before(x.evidence) == audit.observed
  {
    OngoingRoom(d, x, audit);
    hide Working, PendingResolution, Good;
  }

  /** What an inspection of a pending room answers when nothing refuses. */
  lemma InspectsLive(d: Disk, probe: Probe, target: Pin, mode: Mode, transcript: string, id: Id)
    requires JournalOk(d, true) && PendingResolution(d).None? && d.room.engineer.Some? && !mode.Auditing?
    requires IsPending(d.room.pointer) ==> d.room.pointer.value.id == id
    requires TargetOk(mode, LastEpoch(EpochsOf(d.room)).selector, target)
    requires OwnerMatches(d.room.engineer.value, transcript, probe.observed) && LivenessOk(mode, probe.observed)
    requires mode == Replaying(true) ==> probe.observed.settings == TargetSettings(probe.observed.settings, target)
    requires Distinct(RequestIds(d.room.requests))
    ensures Inspect(d, Some(probe), target, mode, transcript, Some(id))
            == Success(InspectedEvidence(d.room, d.room.engineer.value, target, probe))
  {
    hide JournalOk, PendingResolution, TargetOk, OwnerMatches, LivenessOk, RequestIds;
  }

  lemma OngoingJournal(d: Disk, x: Intent, audit: Probe)
    requires Ongoing(d, x, audit)
    ensures JournalOk(d, true) && PendingResolution(d).None?
    ensures d.room.engineer.Some? && d.room.pointer == Some(PendingLink(x))
  {
  }

  /** The room as audited answers its own evidence. */
  lemma OngoingInspects(d: Disk, x: Intent, audit: Probe, mode: Mode)
    requires Ongoing(d, x, audit) && mode in {Replaying(false), Abandoning}
    ensures Inspect(d, Some(audit), x.target, mode, x.inputs.transcript, Some(x.id)) == Success(x.evidence)
  {
    hide Ongoing, Inspect, JournalOk, PendingResolution, OwnerMatches, RequestIds, EpochsOf, InspectedEvidence;
    OngoingJournal(d, x, audit);
    OngoingEpochs(d, x, audit);
    OngoingAudit(d, x, audit);
    InspectsLive(d, audit, x.target, mode, x.inputs.transcript, x.id);
  }

  lemma SameIsUnchanged(e: Evidence)
    ensures Unchanged(e, e, Exactly)
  {
  }

  /** The target of a reset shows already. */
  lemma ResetShown(d: Disk, x: Intent, audit: Probe)
    requires Ongoing(d, x, audit) && Reset(x)
    ensures Shown(audit.observed, x.target) == audit.observed
  {
    OngoingAudit(d, x, audit);
  }

  lemma ShownUnchanged(room: Room, engineer: Binding, target: Pin, audit: Probe)
    ensures Unchanged(InspectedEvidence(room, engineer, target, audit),
                      InspectedEvidence(room, engineer, target, audit.(observed := Shown(audit.observed, target))),
                      TargetSettingsOnly)
  {
  }

  predicate Settleable(d: Disk, x: Intent, probe: Option<Probe>) {
    var live := Inspect(d, probe, x.target, Replaying(!Reset(x)), x.inputs.transcript, Some(x.id));
    live.Success? && Unchanged(x.evidence, live.value, if Reset(x) then Exactly else TargetSettingsOnly)
  }

  lemma ShownSettles(d: Disk, x: Intent, audit: Probe)
    requires Ongoing(d, x, audit)
    ensures Settleable(d, x, Some(audit.(observed := Shown(audit.observed, x.target))))
  {
    hide Ongoing, Inspect, JournalOk, PendingResolution, RequestIds, EpochsOf, InspectedEvidence, Unchanged;
    var shown := audit.(observed := Shown(audit.observed, x.target));
    if Reset(x) {
      ResetShown(d, x, audit);
      OngoingInspects(d, x, audit, Replaying(false));
      SameIsUnchanged(x.evidence);
    } else {
      OngoingJournal(d, x, audit);
      OngoingEpochs(d, x, audit);
      OngoingAudit(d, x, audit);
      InspectsLive(d, shown, x.target, Replaying(true), x.inputs.transcript, x.id);
      ShownUnchanged(d.room, d.room.engineer.value, x.target, audit);
    }
  }

  lemma ShownObserved(d: Disk, x: Intent, audit: Probe)
    requires Ongoing(d, x, audit)
    ensures Observable(x, Some(Shown(audit.observed, x.target))) && CommitObserved(x, Shown(audit.observed, x.target))
  {
    OngoingRoom(d, x, audit);
    OngoingAudit(d, x, audit);
    if Reset(x) { ResetShown(d, x, audit); }
    hide Working, PendingResolution;
  }

  // ----- the record of a commit -----

  /** What the settlement publishes: the record on disk, or a new one. */
  function CommitFor(d: Disk, x: Intent, marker: Option<Marker>, result: PatchResult, audit: Probe, now: int): Record {
    if x.id in d.files.records then d.files.records[x.id]
    else CommitRecord(x, marker, result, Shown(audit.observed, x.target), now)
  }

  /** A committed record of the attempt saw exactly the target. */
  lemma StoredSaw(d: Disk, x: Intent, audit: Probe)
    requires Ongoing(d, x, audit) && x.id in d.files.records && d.files.records[x.id].outcome.Committed?
    ensures d.files.records[x.id].after == Shown(audit.observed, x.target)
  {
    StoredOk(d, x, d.files.records[x.id]);
    OngoingAudit(d, x, audit);
    if Reset(x) { ResetShown(d, x, audit); }
    hide Working, PendingResolution;
  }

  lemma OngoingSettles(d: Disk, x: Intent, audit: Probe, result: PatchResult, env: Env, sent: bool)
    requires Ongoing(d, x, audit) && ShowsTarget(env, audit, x.target)
    requires x.id in d.files.records ==> d.files.records[x.id].outcome.Committed?
    requires x.id !in d.files.records ==> if Reset(x) then result == NO_PATCH else x.id in d.files.attempts
    ensures var marker := Find(d.files.attempts, x.id);
            var r := CommitFor(d, x, marker, result, audit, env.now);
            SettlePlan(d, x, marker, result, Find(d.files.records, x.id), env, sent)
            == Plan([StoreRecord(r), SavePointer(TerminalLink(x, r))], Terminal(r))
  {
    var marker, stored := Find(d.files.attempts, x.id), Find(d.files.records, x.id);
    var r := CommitFor(d, x, marker, result, audit, env.now);
    hide Unchanged, CommitObserved, Observable, Inspect, Ongoing, Working, Publishable, PublishPlan, PendingResolution;
    CommitPublishable(d, x, audit, result, env);
    ShownSettles(d, x, audit);
    ShownObserved(d, x, audit);
    if stored.Some? { StoredSaw(d, x, audit); }
    PublishSucceeds(d, x, r);
  }

  lemma CommitPublishable(d: Disk, x: Intent, audit: Probe, result: PatchResult, env: Env)
    requires Ongoing(d, x, audit) && ShowsTarget(env, audit, x.target)
    requires x.id in d.files.records ==> d.files.records[x.id].outcome.Committed?
    requires x.id !in d.files.records ==> if Reset(x) then result == NO_PATCH else x.id in d.files.attempts
    ensures Publishable(d, x, CommitFor(d, x, Find(d.files.attempts, x.id), result, audit, env.now))
  {
    hide CommitObserved, Observable, Ongoing, Working, Publishable, PendingResolution;
    OngoingEpochs(d, x, audit);
    OngoingWorks(d, x, audit);
    ShownObserved(d, x, audit);
    SettlePublishes(d, x, Find(d.files.attempts, x.id), result, Find(d.files.records, x.id), env);
  }

  lemma OngoingWorks(d: Disk, x: Intent, audit: Probe)
    requires Ongoing(d, x, audit)
    ensures Working(d, x) && PendingResolution(d).None?
  {
  }

  // ----- the plan of the identical request -----

  /** Whether the identical request still has the PATCH to send. */
  predicate Unsent(d: Disk, x: Intent) { !Reset(x) && x.id !in d.files.attempts && x.id !in d.files.records }

  /** The disk once it was sent. */
  function SentFrom(d: Disk, x: Intent, now: int): Disk {
    if Unsent(d, x) then WithPatch(WithMarker(d, NewMarker(x, now)), x.id) else d
  }

  function SendWrites(d: Disk, x: Intent, now: int): seq<Write> {
    if Unsent(d, x) then [StoreMarker(NewMarker(x, now)), SendPatch(x.id, x.patch)] else []
  }

  lemma MarkedOngoing(d: Disk, x: Intent, audit: Probe, now: int)
    requires Ongoing(d, x, audit)
    ensures Ongoing(SentFrom(d, x, now), x, audit) && SentFrom(d, x, now).files.records == d.files.records
    ensures Unsent(d, x) ==> Find(SentFrom(d, x, now).files.attempts, x.id) == Some(NewMarker(x, now))
    ensures PutAll(d, SendWrites(d, x, now)) == SentFrom(d, x, now)
  {
    hide Working, PendingResolution, InspectedEvidence;
    if Unsent(d, x) {
      SendLegal(d, x, now);
      SentAdoptsNothing(d, x, now);
      PutTwo(d, StoreMarker(NewMarker(x, now)), SendPatch(x.id, x.patch));
    }
  }

  lemma SentAdoptsNothing(d: Disk, x: Intent, now: int)
    ensures PendingResolution(WithPatch(WithMarker(d, NewMarker(x, now)), x.id)) == PendingResolution(d)
  {
  }

  /** How the PATCH went, as far as this call knows. */
  function ResultFor(d: Disk, x: Intent, env: Env): PatchResult {
    if Reset(x) then NO_PATCH else if x.id in d.files.attempts then ALREADY_ATTEMPTED else env.patchResult
  }

  /** The committed record of the identical request. */
  function CommitOf(d: Disk, x: Intent, audit: Probe, env: Env): Record {
    var sent := SentFrom(d, x, env.now);
    CommitFor(sent, x, Find(sent.files.attempts, x.id), ResultFor(d, x, env), audit, env.now)
  }

  function CommitWrites(d: Disk, x: Intent, audit: Probe, env: Env): seq<Write> {
    var r := CommitOf(d, x, audit, env);
    SendWrites(d, x, env.now) + [StoreRecord(r), SavePointer(TerminalLink(x, r))]
  }

  /** Nothing of the attempt speaks against its commit: no abandonment is stored, the target shows, and as long as the
      PATCH is not sent the room is as audited. */
  predicate Committable(d: Disk, x: Intent, audit: Probe, env: Env) {
    && Ongoing(d, x, audit) && ShowsTarget(env, audit, x.target)
    && (x.id in d.files.records ==> d.files.records[x.id].outcome.Committed?)
    && (Unsent(d, x) ==> env.advance == Some(audit))
  }

  lemma SendInspects(d: Disk, x: Intent, audit: Probe, env: Env)
    requires Committable(d, x, audit, env) && Unsent(d, x)
    ensures var live := Inspect(d, env.advance, x.target, Replaying(false), x.inputs.transcript, Some(x.id));
            live.Success? && Unchanged(x.evidence, live.value, Exactly)
  {
    hide Inspect, Unchanged, Ongoing;
    OngoingInspects(d, x, audit, Replaying(false));
    SameIsUnchanged(x.evidence);
  }

  lemma OngoingAdvances(d: Disk, x: Intent, audit: Probe, env: Env)
    requires Committable(d, x, audit, env) && x.id !in d.files.records
    ensures AdvancePlan(d, x, Find(d.files.attempts, x.id), env).writes == CommitWrites(d, x, audit, env)
  {
    hide Inspect, Unchanged, Ongoing, SettlePlan;
    var sent := SentFrom(d, x, env.now);
    MarkedOngoing(d, x, audit, env.now);
    if Unsent(d, x) { SendInspects(d, x, audit, env); }
    OngoingSettles(sent, x, audit, ResultFor(d, x, env), env, Unsent(d, x));
  }

  /** Marker and PATCH come first, whatever the room shows after them. */
  lemma OngoingSends(d: Disk, x: Intent, audit: Probe, env: Env)
    requires Ongoing(d, x, audit) && Unsent(d, x) && env.advance == Some(audit)
    ensures SendWrites(d, x, env.now) <= AdvancePlan(d, x, None, env).writes
  {
    hide Inspect, Unchanged, Ongoing, SettlePlan;
    OngoingInspects(d, x, audit, Replaying(false));
    SameIsUnchanged(x.evidence);
  }

  lemma OngoingReconciles(d: Disk, x: Intent, audit: Probe, env: Env)
    requires Committable(d, x, audit, env)
    ensures ReconcilePlan(d, x, env).writes == CommitWrites(d, x, audit, env)
  {
    hide Ongoing, SettlePlan, AdvancePlan, AbandonPlan;
    if x.id in d.files.records {
      OngoingSettlesStored(d, x, audit, env);
    } else {
      OngoingAdvances(d, x, audit, env);
    }
  }

  lemma OngoingSettlesStored(d: Disk, x: Intent, audit: Probe, env: Env)
    requires Committable(d, x, audit, env) && x.id in d.files.records
    ensures SettlePlan(d, x, Find(d.files.attempts, x.id), d.files.records[x.id].result, Find(d.files.records, x.id), env,
                       false).writes == CommitWrites(d, x, audit, env)
  {
    hide Ongoing, SettlePlan;
    OngoingSettles(d, x, audit, d.files.records[x.id].result, env, false);
    var r := d.files.records[x.id];
    assert [] + [StoreRecord(r), SavePointer(TerminalLink(x, r))] == [StoreRecord(r), SavePointer(TerminalLink(x, r))];
  }

  lemma PendingIsFound(d: Disk, x: Intent)
    requires Working(d, x)
    ensures AttemptOf(Lineage(d.room.pointer), x.id) == Some(PendingLink(x)) && x.id in LineageIds(d.room.pointer)
  {
    var older := Lineage(x.previous);
    assert Lineage(d.room.pointer) == older + [PendingLink(x)];
    assert PendingLink(x) in older + [PendingLink(x)];
    var found := AttemptOf(older + [PendingLink(x)], x.id);
    assert forall k :: 0 <= k < |older| ==> (older + [PendingLink(x)])[k] == older[k];
    assert (older + [PendingLink(x)])[|older|].id == x.id;
  }

  lemma ClaimsNothing(d: Disk, inputs: Inputs)
    requires Good(d)
    ensures ClaimPlan(d, inputs.id, inputs) == Success([])
  {
    GoodUnclaimed(d);
    forall link | link in Lineage(d.room.pointer) ensures Find(d.files.requests, link.id) == Some(link.intent) {
      PublishedOk(d, link);
    }
  }

  lemma DispatchesOngoing(d: Disk, x: Intent, audit: Probe, env: Env)
    requires Ongoing(d, x, audit) && env.settled
    ensures DispatchPlan(d, x.inputs, env) == ReconcilePlan(d, x, env)
  {
    OngoingJournal(d, x, audit);
    OngoingKnows(d, x, audit);
    hide ReconcilePlan, ClaimPlan, JournalOk, Working, PendingResolution, Lineage, AttemptOf, Ongoing;
    hide LineageIds, IntentOk;
  }

  /** A call that claims nothing and whose precondition does not matter is its dispatch. */
  lemma KnownDispatches(d: Disk, inputs: Inputs, precondition: Option<bool>, env: Env)
    requires JournalOk(d, true) && ClaimPlan(d, inputs.id, inputs) == Success([])
    requires precondition.None? || inputs.id in LineageIds(d.room.pointer)
    ensures TransitionPlan(d, inputs, precondition, env) == DispatchPlan(d, inputs, env)
  {
    hide JournalOk, ClaimPlan, LineageIds, DispatchPlan;
    PutNone(d);
  }

  /** The identical request, whatever its precondition says, goes on with its own pending attempt. */
  lemma RepeatDispatches(d: Disk, x: Intent, audit: Probe, precondition: Option<bool>, env: Env)
    requires Ongoing(d, x, audit) && env.settled
    ensures TransitionPlan(d, x.inputs, precondition, env).writes == ReconcilePlan(d, x, env).writes
  {
    hide *;
    OngoingJournal(d, x, audit);
    OngoingKnows(d, x, audit);
    DispatchesOngoing(d, x, audit, env);
    KnownDispatches(d, x.inputs, precondition, env);
  }

  lemma OngoingKnows(d: Disk, x: Intent, audit: Probe)
    requires Ongoing(d, x, audit)
    ensures x.inputs.id == x.id && AttemptOf(Lineage(d.room.pointer), x.id) == Some(PendingLink(x))
    ensures x.id in LineageIds(d.room.pointer) && ClaimPlan(d, x.id, x.inputs) == Success([])
  {
    OngoingRoom(d, x, audit);
    assert x.inputs.id == x.id;
    PendingIsFound(d, x);
    ClaimsNothing(d, x.inputs);
  }

  // ----- the commit on disk -----

  /** The attempt is published as committed over its own durable record, and one epoch of its target was opened. */
  predicate CommittedTo(d: Disk, x: Intent, after: Disk) {
    && Find(after.files.requests, x.id) == Some(x) && x.id in after.files.records
    && after.room.pointer == Some(Pointer(x.id, x, CommittedAt(after.files.records[x.id])))
    && |BaseHistory(after.room)| == |History(d.room.initial, x.previous)| + 1
    && LastEpoch(BaseHistory(after.room)).selector == x.target.selector
  }

  lemma CommitPuts(d: Disk, x: Intent, audit: Probe, env: Env)
    requires Committable(d, x, audit, env)
    ensures var after := PutAll(d, CommitWrites(d, x, audit, env));
            && CommittedTo(d, x, after)
            && after.patched == d.patched + if Unsent(d, x) then multiset{x.id} else multiset{}
  {
    var r, sent := CommitOf(d, x, audit, env), SentFrom(d, x, env.now);
    hide Ongoing, CommitOf, ShowsTarget, CommittedTo, PutAll, BaseHistory, SendWrites;
    CommitIs(d, x, audit, env);
    MarkedOngoing(d, x, audit, env.now);
    OngoingRoom(d, x, audit);
    PutAllConcat(d, SendWrites(d, x, env.now), [StoreRecord(r), SavePointer(TerminalLink(x, r))]);
    PutTwo(sent, StoreRecord(r), SavePointer(TerminalLink(x, r)));
    CommitFields(d, x, sent, r);
  }

  lemma CommitFields(d: Disk, x: Intent, sent: Disk, r: Record)
    requires sent.room == d.room && r.outcome.Committed? && r.id == x.id && r.target == x.target
    requires Find(sent.files.requests, x.id) == Some(x)
    ensures CommittedTo(d, x, WithPointer(WithRecord(sent, r), TerminalLink(x, r)))
  {
  }

  lemma CommitIs(d: Disk, x: Intent, audit: Probe, env: Env)
    requires Committable(d, x, audit, env)
    ensures CommitOf(d, x, audit, env).outcome.Committed? && CommitOf(d, x, audit, env).target == x.target
    ensures CommitOf(d, x, audit, env).id == x.id
  {
    if x.id in d.files.records { StoredOk(d, x, d.files.records[x.id]); }
    hide Working, PendingResolution, InspectedEvidence;
  }

  /** The identical request as one event that is not stopped. */
  function Repeat(x: Intent, precondition: Option<bool>, env: Env): Event {
    Event(Transition(x.inputs, precondition, env), 6)
  }

  lemma RunOne(d: Disk, event: Event)
    ensures Run(d, [event]) == PutAll(d, Durable(d, event))
  {
    assert [event][1..] == [];
    assert Run(d, [event]) == Run(PutAll(d, Durable(d, event)), []);
  }

  /** An event with as many writes as its cut allows is not stopped. */
  lemma WholeRun(d: Disk, event: Event)
    requires |PlanOf(d, event.call).writes| <= event.cut
    ensures Run(d, [event]) == PutAll(d, PlanOf(d, event.call).writes)
  {
    hide PlanOf, Run;
    RunOne(d, event);
    var ws := PlanOf(d, event.call).writes;
    assert ws[..|ws|] == ws;
  }

  /** An event that is stopped after the writes its call begins with. */
  lemma CutRun(d: Disk, call: Call, ws: seq<Write>)
    requires ws <= PlanOf(d, call).writes
    ensures Run(d, [Event(call, |ws|)]) == PutAll(d, ws)
  {
    hide PlanOf, Run;
    RunOne(d, Event(call, |ws|));
    assert PlanOf(d, call).writes[..|ws|] == ws;
  }

  /** Whatever a stop left of a pending attempt, short of an abandonment: once the target shows in the room it was
      audited in, the identical request commits it. It sends the PATCH only if no marker says that it was sent. */
  lemma RepeatCommits(d: Disk, x: Intent, audit: Probe, precondition: Option<bool>, env: Env)
    requires Committable(d, x, audit, env)
    ensures var after := Run(d, [Repeat(x, precondition, env)]);
            && CommittedTo(d, x, after)
            && after.patched == d.patched + if Unsent(d, x) then multiset{x.id} else multiset{}
  {
    hide TransitionPlan, ReconcilePlan, Ongoing, Run, CommittedTo;
    RepeatDispatches(d, x, audit, precondition, env);
    OngoingReconciles(d, x, audit, env);
    WholeRun(d, Repeat(x, precondition, env));
    CommitPuts(d, x, audit, env);
  }

  // ----- a commit that is stopped and repeated -----

  /** The same room shows the target to both calls. */
  predicate ShowsAgain(env: Env, again: Env, audit: Probe, target: Pin) {
    ShowsTarget(env, audit, target) && ShowsTarget(again, audit, target) && again.advance == Some(audit)
  }

  lemma MarkerOngoing(d: Disk, x: Intent, audit: Probe, now: int)
    requires Ongoing(d, x, audit) && Unsent(d, x)
    ensures Ongoing(WithMarker(d, NewMarker(x, now)), x, audit)
  {
    hide Working, PendingResolution, InspectedEvidence;
    SendLegal(d, x, now);
    MarkerWorks(d, x, now);
    MarkerAdoptsNothing(d, NewMarker(x, now));
  }

  lemma MarkerAdoptsNothing(d: Disk, m: Marker)
    ensures PendingResolution(WithMarker(d, m)) == PendingResolution(d)
  {
  }

  lemma MarkerWorks(d: Disk, x: Intent, now: int)
    requires Working(d, x) && LegalMarker(d, NewMarker(x, now))
    ensures Working(WithMarker(d, NewMarker(x, now)), x)
  {
    hide LegalMarker, Good;
    StepMarker(d, NewMarker(x, now));
  }

  lemma RecordOngoing(d: Disk, x: Intent, audit: Probe, r: Record)
    requires Ongoing(d, x, audit) && Publishable(d, x, r)
    ensures Ongoing(WithRecord(d, r), x, audit)
  {
    hide Working, PendingResolution, InspectedEvidence, Publishable, LegalRecord;
    PublishFirst(d, x, r);
  }

  /** After any number of the commit's writes but all, the attempt can still be committed, by a room that shows the
      target again. */
  lemma StoppedCommittable(d: Disk, x: Intent, audit: Probe, env: Env, again: Env, k: nat)
    requires Committable(d, x, audit, env) && ShowsAgain(env, again, audit, x.target)
    requires k < |CommitWrites(d, x, audit, env)|
    ensures Committable(PutAll(d, CommitWrites(d, x, audit, env)[..k]), x, audit, again)
    ensures SameUnder(d, PutAll(d, CommitWrites(d, x, audit, env)[..k]))
    ensures Unsent(PutAll(d, CommitWrites(d, x, audit, env)[..k]), x) <==> Unsent(d, x) && k == 0
    ensures PutAll(d, CommitWrites(d, x, audit, env)[..k]).patched
            == d.patched + if Unsent(d, x) && k >= 2 then multiset{x.id} else multiset{}
  {
    var ws, sent, r := CommitWrites(d, x, audit, env), SentFrom(d, x, env.now), CommitOf(d, x, audit, env);
    hide Ongoing, PutAll, CommitOf, BaseHistory;
    StoppedDisks(d, x, audit, env, k);
    if k == 0 {
    } else if Unsent(d, x) && k == 1 {
      MarkerOngoing(d, x, audit, env.now);
    } else {
      MarkedOngoing(d, x, audit, env.now);
      if k == |ws| - 1 {
        CommitRecordPublishable(d, x, audit, env);
        CommitIs(d, x, audit, env);
        RecordOngoing(sent, x, audit, r);
      }
    }
  }

  /** The saved initial pin stays, so epochs are counted alike. */
  predicate SameUnder(a: Disk, b: Disk) { b.room.initial == a.room.initial }

  lemma CommitRecordPublishable(d: Disk, x: Intent, audit: Probe, env: Env)
    requires Committable(d, x, audit, env)
    ensures Publishable(SentFrom(d, x, env.now), x, CommitOf(d, x, audit, env))
  {
    hide Ongoing, Publishable;
    MarkedOngoing(d, x, audit, env.now);
    CommitPublishable(SentFrom(d, x, env.now), x, audit, ResultFor(d, x, env), env);
  }

  lemma PutOne(d: Disk, w: Write)
    ensures PutAll(d, [w]) == Put(d, w)
  {
    assert PutAll(Put(d, w), []) == Put(d, w);
  }

  /** The disks the commit's writes pass through. */
  lemma StoppedDisks(d: Disk, x: Intent, audit: Probe, env: Env, k: nat)
    requires k < |CommitWrites(d, x, audit, env)|
    ensures PutAll(d, CommitWrites(d, x, audit, env)[..k])
            == if k == 0 then d
               else if Unsent(d, x) && k == 1 then WithMarker(d, NewMarker(x, env.now))
               else if k == |CommitWrites(d, x, audit, env)| - 1
                    then WithRecord(SentFrom(d, x, env.now), CommitOf(d, x, audit, env))
               else SentFrom(d, x, env.now)
  {
    var ws, m, r := CommitWrites(d, x, audit, env), NewMarker(x, env.now), CommitOf(d, x, audit, env);
    hide CommitOf, PutAll;
    PutNone(d);
    if !Unsent(d, x) {
      assert ws[..1] == [StoreRecord(r)];
      PutOne(d, StoreRecord(r));
    } else {
      assert ws[..1] == [StoreMarker(m)] && ws[..2] == [StoreMarker(m), SendPatch(x.id, x.patch)];
      assert ws[..3] == [StoreMarker(m), SendPatch(x.id, x.patch)] + [StoreRecord(r)];
      PutOne(d, StoreMarker(m));
      PutTwo(d, StoreMarker(m), SendPatch(x.id, x.patch));
      PutAllConcat(d, [StoreMarker(m), SendPatch(x.id, x.patch)], [StoreRecord(r)]);
      PutOne(SentFrom(d, x, env.now), StoreRecord(r));
    }
  }

  lemma PutNone(d: Disk)
    ensures PutAll(d, []) == d
  {
  }

  // ----- a repeat after the end -----

  lemma CommitJournal(d: Disk, x: Intent, audit: Probe, env: Env)
    requires Committable(d, x, audit, env)
    ensures JournalOk(PutAll(d, CommitWrites(d, x, audit, env)), false)
    ensures PendingResolution(PutAll(d, CommitWrites(d, x, audit, env))).None?
  {
    var sent, r := SentFrom(d, x, env.now), CommitOf(d, x, audit, env);
    hide Ongoing, CommitOf, PendingResolution, ShowsTarget, SendWrites, JournalOk, PutAll, Publishable;
    hide SentFrom, Committable;
    CommitRecordPublishable(d, x, audit, env);
    CommitIs(d, x, audit, env);
    CommitSent(d, x, audit, env);
    PutAllConcat(d, SendWrites(d, x, env.now), [StoreRecord(r), SavePointer(TerminalLink(x, r))]);
    ClosePuts(sent, x, r);
    PublishedSettles(sent, x, r);
  }

  lemma CommitSent(d: Disk, x: Intent, audit: Probe, env: Env)
    requires Committable(d, x, audit, env)
    ensures PutAll(d, SendWrites(d, x, env.now)) == SentFrom(d, x, env.now)
  {
    hide Ongoing, ShowsTarget;
    MarkedOngoing(d, x, audit, env.now);
  }

  /** A committed record over its own pending attempt leaves a settled journal in which nothing is to adopt. */
  lemma PublishedSettles(d: Disk, x: Intent, r: Record)
    requires Publishable(d, x, r) && r.outcome.Committed?
    ensures JournalOk(WithPointer(WithRecord(d, r), TerminalLink(x, r)), false)
    ensures PendingResolution(WithPointer(WithRecord(d, r), TerminalLink(x, r))).None?
  {
    hide Working, PendingResolution, RecordOk, JournalOk;
    PublishFirst(d, x, r);
    RecordFacts(d, x, r);
    RecordedPointer(WithRecord(d, r), x, r);
    CommitAdoptsNothing(WithPointer(WithRecord(d, r), TerminalLink(x, r)));
  }

  lemma SettledIsGood(d: Disk)
    requires Inv(d) && JournalOk(d, false)
    ensures Good(d)
  {
    SoundIsGood(d);
  }

  lemma TerminalIsFound(d: Disk, link: Pointer)
    requires Good(d) && d.room.pointer == Some(link)
    ensures AttemptOf(Lineage(d.room.pointer), link.id) == Some(link)
    ensures ClaimPlan(d, link.id, link.intent.inputs) == Success([])
  {
    var older := Lineage(link.intent.previous);
    assert Lineage(d.room.pointer) == older + [link];
    assert (older + [link])[|older|] == link;
    assert forall k :: 0 <= k < |older| ==> (older + [link])[k] == older[k] && older[k].id != link.id;
    var found := AttemptOf(older + [link], link.id);
    assert link in older + [link] && link.intent.inputs.id == link.id by {
      NewestLink(d.files, d.room.engineer, d.room.pointer);
    }
    ClaimsNothing(d, link.intent.inputs);
  }

  /** Once the newest attempt is terminal the identical request writes nothing. */
  lemma TerminalAnswers(d: Disk, link: Pointer, precondition: Option<bool>, env: Env)
    requires Good(d) && d.room.pointer == Some(link) && !link.state.Pending? && PendingResolution(d).None?
    ensures TransitionPlan(d, link.intent.inputs, precondition, env).writes == []
  {
    TerminalIsFound(d, link);
    TerminalInputs(d, link);
    hide Good, JournalOk, ClaimPlan, PendingResolution, AttemptOf, Lineage, ApplyPlan, ReconcilePlan, LineageIds;
    assert PutAll(d, []) == d;
  }

  lemma TerminalInputs(d: Disk, link: Pointer)
    requires Good(d) && d.room.pointer == Some(link)
    ensures link.intent.inputs.id == link.id
  {
    NewestLink(d.files, d.room.engineer, d.room.pointer);
  }

  /** No request was created in an epoch that opens after all of them. */
  lemma CommitAdoptsNothing(d: Disk)
    requires LastEpoch(BaseHistory(d.room)).from > |d.room.requests|
    ensures PendingResolution(d).None?
  {
  }

  // ----- the abandonment -----

  /** The probe differs from the audit by liveness only. */
  predicate LivesLike(audit: Probe, probe: Probe) {
    && probe.observed.controller in {"ready", "stopped"}
    && probe.observed.owner.activity in {"idle", "exited"}
    && audit.observed.owner.generation != "" && probe.observed.owner.generation != ""
    && probe == audit.(observed := audit.observed.(
         controller := probe.observed.controller,
         owner := audit.observed.owner.(activity := probe.observed.owner.activity,
                                        generation := probe.observed.owner.generation)))
  }

  function AbandonmentFor(d: Disk, x: Intent, call: AbandonCall): Abandonment {
    AbandonmentOf(PendingLink(x), Find(d.files.attempts, x.id), x.inputs, call.authorization, call.diagnosis)
  }

  /** The call names the attempt's own evidence and gives its reasons; a stored record is this very abandonment. */
  predicate GivesUp(d: Disk, x: Intent, audit: Probe, call: AbandonCall, env: Env) {
    && Ongoing(d, x, audit) && env.settled && env.abandon.Some? && LivesLike(audit, env.abandon.value)
    && call.id == x.id && call.database == x.inputs.database && call.transcript == x.inputs.transcript
    && call.authorization != "" && call.diagnosis != ""
    && (x.id in d.files.records ==> d.files.records[x.id].outcome == Abandoned(AbandonmentFor(d, x, call)))
  }

  lemma LivelyUnchanged(d: Disk, x: Intent, audit: Probe, probe: Probe)
    requires Ongoing(d, x, audit) && LivesLike(audit, probe)
    ensures var live := Inspect(d, Some(probe), x.target, Abandoning, x.inputs.transcript, Some(x.id));
            && live == Success(InspectedEvidence(d.room, d.room.engineer.value, x.target, probe))
            && Unchanged(x.evidence, live.value, LivenessOnly)
  {
    hide Ongoing, Inspect, JournalOk, PendingResolution, RequestIds, EpochsOf, AuditedRoom;
    OngoingJournal(d, x, audit);
    OngoingEpochs(d, x, audit);
    OngoingAudit(d, x, audit);
    InspectsLive(d, probe, x.target, Abandoning, x.inputs.transcript, x.id);
  }

  /** What the abandonment publishes. */
  function GivenUp(d: Disk, x: Intent, call: AbandonCall, env: Env): Record
    requires d.room.engineer.Some? && env.abandon.Some?
  {
    if x.id in d.files.records then d.files.records[x.id]
    else AbandonRecord(x, Find(d.files.attempts, x.id),
                       InspectedEvidence(d.room, d.room.engineer.value, x.target, env.abandon.value),
                       AbandonmentFor(d, x, call), env.now)
  }

  lemma GivenUpPublishable(d: Disk, x: Intent, audit: Probe, call: AbandonCall, env: Env)
    requires GivesUp(d, x, audit, call, env)
    ensures Publishable(d, x, GivenUp(d, x, call, env)) && GivenUp(d, x, call, env).outcome.Abandoned?
  {
    hide Working, PendingResolution, Unchanged, RecordOk, Inspect, InspectedEvidence;
    LivelyUnchanged(d, x, audit, env.abandon.value);
    if x.id in d.files.records {
      StoredOk(d, x, d.files.records[x.id]);
    } else {
      AbandonRecordOk(x, Find(d.files.attempts, x.id),
                      InspectedEvidence(d.room, d.room.engineer.value, x.target, env.abandon.value),
                      AbandonmentFor(d, x, call), env.now);
    }
  }

  lemma AbandonsOngoing(d: Disk, x: Intent, audit: Probe, call: AbandonCall, env: Env)
    requires GivesUp(d, x, audit, call, env)
    ensures AbandonPlan(d, call, env) == PublishPlan(d, x, GivenUp(d, x, call, env))
  {
    hide JournalOk, Ongoing, Inspect, Unchanged, PublishPlan, AttemptOf, Lineage, AbandonmentOf, InspectedEvidence;
    hide PendingResolution, ClaimPlan, LineageIds, LivesLike, AbandonRecord;
    OngoingJournal(d, x, audit);
    OngoingKnows(d, x, audit);
    LivelyUnchanged(d, x, audit, env.abandon.value);
  }

  function CloseWrites(d: Disk, x: Intent, call: AbandonCall, env: Env): seq<Write>
    requires d.room.engineer.Some? && env.abandon.Some?
  {
    var r := GivenUp(d, x, call, env);
    [StoreRecord(r), SavePointer(TerminalLink(x, r))]
  }

  lemma ClosesOngoing(d: Disk, x: Intent, audit: Probe, call: AbandonCall, env: Env)
    requires GivesUp(d, x, audit, call, env)
    ensures AbandonPlan(d, call, env).writes == CloseWrites(d, x, call, env)
  {
    OngoingJournal(d, x, audit);
    hide Ongoing, AbandonPlan, PublishPlan, Publishable, GivenUp, LivesLike, AbandonmentFor;
    hide PendingResolution, JournalOk;
    GivenUpPublishable(d, x, audit, call, env);
    AbandonsOngoing(d, x, audit, call, env);
    PublishSucceeds(d, x, GivenUp(d, x, call, env));
  }

  /** The disk after the abandonment. */
  function Closed(d: Disk, x: Intent, call: AbandonCall, env: Env): Disk
    requires d.room.engineer.Some? && env.abandon.Some?
  {
    WithPointer(WithRecord(d, GivenUp(d, x, call, env)), TerminalLink(x, GivenUp(d, x, call, env)))
  }

  /** A pending attempt is closed by its abandonment while the room shows the audited evidence, liveness aside, and no
      commit is stored. Nothing is sent and no epoch is opened. */
  lemma AbandonCloses(d: Disk, x: Intent, audit: Probe, call: AbandonCall, env: Env)
    requires GivesUp(d, x, audit, call, env)
    ensures var after := Run(d, [Event(Abandon(call, env), 2)]);
            && after == Closed(d, x, call, env) && after.files.records[x.id].outcome.Abandoned?
            && after.room.pointer == Some(Pointer(x.id, x, AbandonedAt(after.files.records[x.id])))
            && after.patched == d.patched && BaseHistory(after.room) == BaseHistory(d.room)
  {
    OngoingJournal(d, x, audit);
    hide Ongoing, AbandonPlan, GivenUp, Run, BaseHistory, JournalOk, PendingResolution, GivesUp, AbandonmentFor;
    GivenUpIs(d, x, audit, call, env);
    AbandonRuns(d, x, audit, call, env);
    CloseFields(d, x, GivenUp(d, x, call, env));
  }

  lemma AbandonRuns(d: Disk, x: Intent, audit: Probe, call: AbandonCall, env: Env)
    requires GivesUp(d, x, audit, call, env)
    ensures Run(d, [Event(Abandon(call, env), 2)]) == Closed(d, x, call, env)
  {
    OngoingJournal(d, x, audit);
    hide Ongoing, AbandonPlan, GivenUp, Run, PutAll, JournalOk, PendingResolution, GivesUp, AbandonmentFor, PlanOf;
    ClosesOngoing(d, x, audit, call, env);
    AbandonIsPlan(d, call, env);
    WholeRun(d, Event(Abandon(call, env), 2));
    ClosePuts(d, x, GivenUp(d, x, call, env));
  }

  lemma AbandonIsPlan(d: Disk, call: AbandonCall, env: Env)
    ensures PlanOf(d, Abandon(call, env)) == AbandonPlan(d, call, env)
  {
  }

  lemma ClosePuts(d: Disk, x: Intent, r: Record)
    ensures PutAll(d, [StoreRecord(r), SavePointer(TerminalLink(x, r))])
            == WithPointer(WithRecord(d, r), TerminalLink(x, r))
  {
    PutTwo(d, StoreRecord(r), SavePointer(TerminalLink(x, r)));
  }

  lemma CloseFields(d: Disk, x: Intent, r: Record)
    requires d.room.pointer == Some(PendingLink(x)) && r.outcome.Abandoned? && r.id == x.id
    ensures var after := WithPointer(WithRecord(d, r), TerminalLink(x, r));
            && x.id in after.files.records && after.files.records[x.id] == r
            && after.room.pointer == Some(Pointer(x.id, x, AbandonedAt(r)))
            && after.patched == d.patched && BaseHistory(after.room) == BaseHistory(d.room)
  {
  }

  lemma GivenUpIs(d: Disk, x: Intent, audit: Probe, call: AbandonCall, env: Env)
    requires GivesUp(d, x, audit, call, env)
    ensures GivenUp(d, x, call, env).outcome.Abandoned? && GivenUp(d, x, call, env).id == x.id
  {
    if x.id in d.files.records { StoredOk(d, x, d.files.records[x.id]); }
    hide Working, PendingResolution, InspectedEvidence;
  }
}
