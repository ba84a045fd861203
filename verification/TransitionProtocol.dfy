/** The transition and abandonment calls only ever perform legal writes, and what follows for every
    run of calls with a crash between any two of their writes. */
module TransitionProtocol {
  import opened Values
  import opened EngineeringModel
  import opened EngineeringTransition
  import opened JournalProofs
  import opened RoomRuns
  import opened TransitionSafety

  /** The attempt a settlement or abandonment works on is the room's pending one. */
  predicate Working(d: Disk, intent: Intent) {
    Good(d) && d.room.pointer == Some(PendingLink(intent))
  }

  lemma WorkingIs(d: Disk, intent: Intent)
    requires Working(d, intent)
    ensures PendingIs(d, intent.id)
    ensures LinkOk(d.files, d.room.engineer, PendingLink(intent))
    ensures Continues(d.room.initial, intent)
  {
    NewestLink(d.files, d.room.engineer, d.room.pointer);
  }

  // ----- publishing a terminal record -----

  /** What a terminal record must satisfy for its publication to be accepted. */
  predicate Publishable(d: Disk, intent: Intent, record: Record) {
    && Working(d, intent)
    && (intent.id in d.files.records ==> d.files.records[intent.id] == record)
    && RecordOk(intent.id, intent, record, Find(d.files.attempts, intent.id))
    && PendingResolution(d).None?
    && (record.outcome.Committed? ==> intent.evidence.requests == RequestIds(d.room.requests))
  }

  lemma PublishFirst(d: Disk, intent: Intent, record: Record)
    requires Publishable(d, intent, record)
    ensures LegalRecord(d, record) && Working(WithRecord(d, record), intent)
    ensures PendingResolution(WithRecord(d, record)).None?
  {
    hide LegalRecord, Working, PendingResolution, RecordOk;
    PublishRecordLegal(d, intent, record);
    PublishKeepsWorking(d, intent, record);
    RecordAdoptsNothing(d, record);
  }

  lemma PublishKeepsWorking(d: Disk, intent: Intent, record: Record)
    requires Working(d, intent) && LegalRecord(d, record)
    ensures Working(WithRecord(d, record), intent)
  {
    hide LegalRecord, Good;
    StepRecord(d, record);
  }

  lemma RecordAdoptsNothing(d: Disk, record: Record)
    ensures PendingResolution(WithRecord(d, record)) == PendingResolution(d)
  {
  }

  lemma PublishRecordLegal(d: Disk, intent: Intent, record: Record)
    requires Publishable(d, intent, record)
    ensures LegalRecord(d, record)
  {
    WorkingIs(d, intent);
    hide RecordOk, Good, Sound;
  }

  lemma PublishSecond(d: Disk, intent: Intent, record: Record)
    requires Working(d, intent) && PendingResolution(d).None?
    requires record.outcome.Committed? ==> intent.evidence.requests == RequestIds(d.room.requests)
    requires JournalOk(WithPointer(d, TerminalLink(intent, record)), false)
    ensures LegalPointer(d, TerminalLink(intent, record))
  {
    WorkingIs(d, intent);
  }

  lemma RecordThenPointer(d: Disk, r: Record, p: Pointer)
    requires LegalRecord(d, r) && LegalPointer(WithRecord(d, r), p)
    ensures AllLegal(d, [StoreRecord(r), SavePointer(p)])
  {
    LegalTwo(d, StoreRecord(r), SavePointer(p));
  }

  lemma PublishLegal(d: Disk, intent: Intent, record: Record)
    requires Publishable(d, intent, record)
    ensures AllLegal(d, PublishPlan(d, intent, record).writes)
  {
    PublishFirst(d, intent, record);
    LegalOne(d, StoreRecord(record));
    if JournalOk(WithPointer(WithRecord(d, record), TerminalLink(intent, record)), false) {
      PublishSecond(WithRecord(d, record), intent, record);
      RecordThenPointer(d, record, TerminalLink(intent, record));
    }
  }

  // ----- publication never stops half way by the journal's own refusal -----

  /** With no interrupted adoption, an epoch opened after every request keeps every resolution. */
  lemma ResolutionsPush(h: seq<Epoch>, l: Ledger, e: Epoch)
    requires h != [] && ResolutionsOk(h, l) && l.files.Keys == ClaimedNames(l) && e.from == |l.requests| + 1
    ensures ResolutionsOk(h + [e], l)
  {
    forall i | 0 <= i < |l.pointers|
      ensures EpochIndex(h + [e], l.pointers[i].record.order) == EpochIndex(h, l.pointers[i].record.order)
    {
      IndexPush(h, e, l.pointers[i].record.order);
    }
  }

  lemma TerminalHistory(d: Disk, intent: Intent, record: Record)
    requires Working(d, intent) && Continues(d.room.initial, intent) && PinOk(intent.target)
    requires record.source == intent.source && record.target == intent.target
    requires record.outcome.Committed? ==> record.boundary == |intent.evidence.requests|
                                           && intent.evidence.requests == RequestIds(d.room.requests)
    ensures HistoryOk(d.room.initial, RequestIds(d.room.requests), Some(TerminalLink(intent, record)))
  {
    LastEpochFrom(d.room.initial, RequestIds(d.room.requests), intent.previous);
  }

  function TerminalEpoch(intent: Intent, record: Record): Epoch {
    OpenEpoch(record.target, record.boundary + 1, Some(intent.id), Some(record))
  }

  lemma TerminalEpochs(room: Room, intent: Intent, record: Record)
    requires room.pointer == Some(PendingLink(intent))
    ensures History(room.initial, Some(TerminalLink(intent, record)))
            == if record.outcome.Committed? then BaseHistory(room) + [TerminalEpoch(intent, record)]
               else BaseHistory(room)
  {
  }

  lemma TerminalResolutions(d: Disk, intent: Intent, record: Record)
    requires Working(d, intent) && PendingResolution(d).None?
    requires record.outcome.Committed? ==> record.boundary == |d.room.requests|
    ensures ResolutionsOk(History(d.room.initial, Some(TerminalLink(intent, record))), LedgerOf(d))
  {
    PendingIff(d);
    TerminalEpochs(d.room, intent, record);
    if record.outcome.Committed? {
      ResolutionsPush(BaseHistory(d.room), LedgerOf(d), TerminalEpoch(intent, record));
    }
  }

  lemma TerminalLinkOk(files: Files, engineer: Option<Binding>, intent: Intent, record: Record)
    requires LinkOk(files, engineer, PendingLink(intent)) && Find(files.records, intent.id) == Some(record)
    ensures LinkOk(files, engineer, TerminalLink(intent, record))
  {
  }

  lemma TerminalChain(d: Disk, intent: Intent, record: Record)
    requires Working(d, intent) && Find(d.files.records, intent.id) == Some(record)
    ensures ChainOk(d.files, d.room.engineer, Some(TerminalLink(intent, record)))
  {
    WorkingIs(d, intent);
    TerminalLinkOk(d.files, d.room.engineer, intent, record);
    ChainSettle(d.files, d.room.engineer, PendingLink(intent), TerminalLink(intent, record).state);
  }

  lemma RecordFacts(d: Disk, intent: Intent, record: Record)
    requires Publishable(d, intent, record)
    ensures record.id == intent.id && record.source == intent.source && record.target == intent.target
    ensures record.outcome.Committed? ==> record.boundary == |intent.evidence.requests| == |d.room.requests|
  {
  }

  lemma AcceptedPointer(d: Disk, intent: Intent, record: Record)
    requires ChainOk(d.files, d.room.engineer, Some(TerminalLink(intent, record)))
    requires HistoryOk(d.room.initial, RequestIds(d.room.requests), Some(TerminalLink(intent, record)))
    requires ResolutionsOk(History(d.room.initial, Some(TerminalLink(intent, record))), LedgerOf(d))
    ensures JournalOk(WithPointer(d, TerminalLink(intent, record)), false)
  {
  }

  lemma RecordedPointer(d: Disk, intent: Intent, record: Record)
    requires Working(d, intent) && Find(d.files.records, intent.id) == Some(record) && PendingResolution(d).None?
    requires record.source == intent.source && record.target == intent.target
    requires record.outcome.Committed? ==> record.boundary == |intent.evidence.requests|
                                           && intent.evidence.requests == RequestIds(d.room.requests)
    ensures JournalOk(WithPointer(d, TerminalLink(intent, record)), false)
  {
    WorkingIs(d, intent);
    TerminalChain(d, intent, record);
    TerminalHistory(d, intent, record);
    TerminalResolutions(d, intent, record);
    AcceptedPointer(d, intent, record);
  }

  /** Once the terminal record is durable, the journal accepts its pointer: the only thing that can
      separate the two writes is a crash. */
  lemma PublishSucceeds(d: Disk, intent: Intent, record: Record)
    requires Publishable(d, intent, record)
    ensures PublishPlan(d, intent, record)
            == Plan([StoreRecord(record), SavePointer(TerminalLink(intent, record))], Terminal(record))
  {
    PublishFirst(d, intent, record);
    RecordFacts(d, intent, record);
    RecordedPointer(WithRecord(d, record), intent, record);
  }

  // ----- the calls only perform legal writes -----

  lemma CommitRecordOk(intent: Intent, marker: Option<Marker>, result: PatchResult, after: Observed, now: int)
    requires CommitObserved(intent, after)
    requires if Reset(intent) then marker.None? && result == NO_PATCH else marker.Some?
    ensures RecordOk(intent.id, intent, CommitRecord(intent, marker, result, after, now), marker)
  {
  }

  lemma AbandonRecordOk(intent: Intent, marker: Option<Marker>, frozen: Evidence, a: Abandonment, now: int)
    requires Unchanged(intent.evidence, frozen, LivenessOnly)
    requires IsText(a.authorization) && IsText(a.diagnosis)
    ensures RecordOk(intent.id, intent, AbandonRecord(intent, marker, frozen, a, now), marker)
  {
  }

  /** An inspection that finds the frozen evidence unchanged proves that no adoption is interrupted and
      that the retained requests are exactly the audited ones. */
  lemma InspectFacts(d: Disk, probe: Option<Probe>, target: Pin, mode: Mode, transcript: string, id: Option<Id>,
                     stored: Evidence, allow: Allowance)
    requires Inspect(d, probe, target, mode, transcript, id).Success?
    requires Unchanged(stored, Inspect(d, probe, target, mode, transcript, id).value, allow)
    ensures PendingResolution(d).None? && stored.requests == RequestIds(d.room.requests)
  {
  }

  lemma StoredOk(d: Disk, intent: Intent, record: Record)
    requires Working(d, intent) && Find(d.files.records, intent.id) == Some(record)
    ensures RecordOk(intent.id, intent, record, Find(d.files.attempts, intent.id))
  {
    WorkingIs(d, intent);
  }

  lemma ResetHasNoMarker(d: Disk, intent: Intent)
    requires Working(d, intent) && Reset(intent)
    ensures intent.id !in d.files.attempts
  {
    WorkingIs(d, intent);
  }

  predicate SettleCall(d: Disk, intent: Intent, marker: Option<Marker>, result: PatchResult, stored: Option<Record>) {
    && Working(d, intent)
    && marker == Find(d.files.attempts, intent.id)
    && stored == Find(d.files.records, intent.id)
    && (stored.None? ==> if Reset(intent) then result == NO_PATCH else marker.Some?)
  }

  /** What a settlement publishes, if it gets that far. */
  function SettledRecord(intent: Intent, marker: Option<Marker>, result: PatchResult, stored: Option<Record>, env: Env)
    : Record
    requires env.observe.Some?
  {
    if stored.Some? then stored.value else CommitRecord(intent, marker, result, env.observe.value, env.now)
  }

  lemma SettlePublishes(d: Disk, intent: Intent, marker: Option<Marker>, result: PatchResult, stored: Option<Record>,
                        env: Env)
    requires SettleCall(d, intent, marker, result, stored) && env.observe.Some?
    requires stored.Some? ==> stored.value.outcome.Committed?
    requires stored.None? ==> CommitObserved(intent, env.observe.value)
    requires PendingResolution(d).None? && intent.evidence.requests == RequestIds(d.room.requests)
    ensures Publishable(d, intent, SettledRecord(intent, marker, result, stored, env))
  {
    if stored.Some? {
      StoredOk(d, intent, stored.value);
    } else {
      if Reset(intent) { ResetHasNoMarker(d, intent); }
      CommitRecordOk(intent, marker, result, env.observe.value, env.now);
    }
  }

  /** What a settlement proved when it publishes. */
  lemma SettleIs(d: Disk, intent: Intent, marker: Option<Marker>, result: PatchResult, stored: Option<Record>, env: Env,
                 sent: bool)
    requires SettlePlan(d, intent, marker, result, stored, env, sent).writes != []
    ensures env.observe.Some?
    ensures SettlePlan(d, intent, marker, result, stored, env, sent)
            == PublishPlan(d, intent, SettledRecord(intent, marker, result, stored, env))
    ensures stored.Some? ==> stored.value.outcome.Committed?
    ensures stored.None? ==> CommitObserved(intent, env.observe.value)
    ensures PendingResolution(d).None? && intent.evidence.requests == RequestIds(d.room.requests)
  {
    hide Inspect, Unchanged, CommitObserved, PublishPlan, PendingResolution;
    var mode, allow := Replaying(!Reset(intent)), if Reset(intent) then Exactly else TargetSettingsOnly;
    InspectFacts(d, env.settle, intent.target, mode, intent.inputs.transcript, Some(intent.id), intent.evidence, allow);
  }

  lemma SettleLegal(d: Disk, intent: Intent, marker: Option<Marker>, result: PatchResult, stored: Option<Record>,
                    env: Env, sent: bool)
    requires SettleCall(d, intent, marker, result, stored)
    ensures AllLegal(d, SettlePlan(d, intent, marker, result, stored, env, sent).writes)
  {
    assert AllLegal(d, []);
    hide AllLegal, SettlePlan, SettleCall, Publishable, PublishPlan, SettledRecord, CommitObserved, PendingResolution;
    if SettlePlan(d, intent, marker, result, stored, env, sent).writes != [] {
      SettleIs(d, intent, marker, result, stored, env, sent);
      SettlePublishes(d, intent, marker, result, stored, env);
      PublishLegal(d, intent, SettledRecord(intent, marker, result, stored, env));
    }
  }

  /** The first PATCH of an attempt: marker, then the action. */
  lemma SendLegal(d: Disk, intent: Intent, now: int)
    requires Working(d, intent) && !Reset(intent)
    requires intent.id !in d.files.attempts && intent.id !in d.files.records
    ensures LegalMarker(d, NewMarker(intent, now))
    ensures LegalPatch(WithMarker(d, NewMarker(intent, now)), intent.id, intent.patch)
    ensures Working(WithPatch(WithMarker(d, NewMarker(intent, now)), intent.id), intent)
  {
    var marker := NewMarker(intent, now);
    WorkingIs(d, intent);
    StepMarker(d, marker);
    WorkingIs(WithMarker(d, marker), intent);
    assert LegalPatch(WithMarker(d, marker), intent.id, intent.patch);
    StepPatch(WithMarker(d, marker), intent.id, intent.patch);
  }

  lemma MarkerThenPatch(d: Disk, m: Marker, rest: seq<Write>)
    requires LegalMarker(d, m) && LegalPatch(WithMarker(d, m), m.id, m.patch)
    requires AllLegal(WithPatch(WithMarker(d, m), m.id), rest)
    ensures AllLegal(d, [StoreMarker(m), SendPatch(m.id, m.patch)] + rest)
  {
    LegalTwo(d, StoreMarker(m), SendPatch(m.id, m.patch));
    AllLegalConcat(d, [StoreMarker(m), SendPatch(m.id, m.patch)], rest);
  }

  lemma SettlesNow(d: Disk, intent: Intent, marker: Option<Marker>, result: PatchResult)
    requires Working(d, intent) && marker == Find(d.files.attempts, intent.id) && intent.id !in d.files.records
    requires if Reset(intent) then result == NO_PATCH else marker.Some?
    ensures SettleCall(d, intent, marker, result, None)
  {
  }

  /** The first attempt: marker, PATCH, then the settlement. */
  lemma AdvanceSends(d: Disk, intent: Intent, env: Env)
    requires Working(d, intent) && !Reset(intent)
    requires intent.id !in d.files.attempts && intent.id !in d.files.records
    ensures var attempt := NewMarker(intent, env.now);
            var sent := WithPatch(WithMarker(d, attempt), intent.id);
            AllLegal(d, [StoreMarker(attempt), SendPatch(intent.id, intent.patch)]
                        + SettlePlan(sent, intent, Some(attempt), env.patchResult, None, env, true).writes)
  {
    hide Working, LegalMarker, LegalPatch, SettlePlan, SettleCall, AllLegal;
    var attempt := NewMarker(intent, env.now);
    var sent := WithPatch(WithMarker(d, attempt), intent.id);
    SendLegal(d, intent, env.now);
    SettlesNow(sent, intent, Some(attempt), env.patchResult);
    SettleLegal(sent, intent, Some(attempt), env.patchResult, None, env, true);
    MarkerThenPatch(d, attempt, SettlePlan(sent, intent, Some(attempt), env.patchResult, None, env, true).writes);
  }

  lemma AdvanceLegal(d: Disk, intent: Intent, marker: Option<Marker>, env: Env)
    requires Working(d, intent) && marker == Find(d.files.attempts, intent.id) && intent.id !in d.files.records
    ensures AllLegal(d, AdvancePlan(d, intent, marker, env).writes)
  {
    assert AllLegal(d, []);
    hide AllLegal, Inspect, Unchanged, SettlePlan, Working, SettleCall, WithPatch, WithMarker;
    if Reset(intent) {
      SettlesNow(d, intent, marker, NO_PATCH);
      SettleLegal(d, intent, marker, NO_PATCH, None, env, false);
    } else if marker.Some? {
      SettlesNow(d, intent, marker, ALREADY_ATTEMPTED);
      SettleLegal(d, intent, marker, ALREADY_ATTEMPTED, None, env, false);
    } else {
      AdvanceSends(d, intent, env);
    }
  }

  lemma PendingAttempt(d: Disk, link: Pointer)
    requires Good(d) && link in Lineage(d.room.pointer) && link.state.Pending?
    ensures Working(d, link.intent) && link == PendingLink(link.intent)
  {
    LastLink(d.room.pointer, link);
    NewestLink(d.files, d.room.engineer, d.room.pointer);
  }

  lemma AbandonPublishes(d: Disk, intent: Intent, record: Record)
    requires Working(d, intent) && record.outcome.Abandoned? && PendingResolution(d).None?
    requires intent.id in d.files.records ==> d.files.records[intent.id] == record
    requires intent.id !in d.files.records ==> RecordOk(intent.id, intent, record, Find(d.files.attempts, intent.id))
    ensures AllLegal(d, PublishPlan(d, intent, record).writes)
  {
    if intent.id in d.files.records { StoredOk(d, intent, record); }
    PublishLegal(d, intent, record);
  }

  lemma AbandonLegal(d: Disk, call: AbandonCall, env: Env)
    requires Inv(d)
    ensures AllLegal(d, AbandonPlan(d, call, env).writes)
  {
    if AbandonPlan(d, call, env).writes != [] {
      var link := AttemptOf(Lineage(d.room.pointer), call.id).value;
      var intent := link.intent;
      var marker := Find(d.files.attempts, call.id);
      SoundIsGood(d);
      PendingAttempt(d, link);
      var frozen := Inspect(d, env.abandon, intent.target, Abandoning, call.transcript, Some(call.id));
      InspectFacts(d, env.abandon, intent.target, Abandoning, call.transcript, Some(call.id), intent.evidence,
                   LivenessOnly);
      var abandonment := AbandonmentOf(link, marker, intent.inputs, call.authorization, call.diagnosis);
      AbandonRecordOk(intent, marker, frozen.value, abandonment, env.now);
      AbandonPublishes(d, intent, if call.id in d.files.records then d.files.records[call.id]
                                  else AbandonRecord(intent, marker, frozen.value, abandonment, env.now));
    }
  }

  lemma ReconcileLegal(d: Disk, intent: Intent, env: Env)
    requires Working(d, intent)
    ensures AllLegal(d, ReconcilePlan(d, intent, env).writes)
  {
    hide AllLegal, SettlePlan, AdvancePlan, AbandonPlan, Good, Cut;
    var marker, record := Find(d.files.attempts, intent.id), Find(d.files.records, intent.id);
    if record.None? {
      AdvanceLegal(d, intent, marker, env);
    } else if record.value.outcome.Committed? {
      SettleLegal(d, intent, marker, record.value.result, record, env, false);
    } else {
      var a := record.value.outcome.abandonment;
      AbandonLegal(d, AbandonCall(intent.id, intent.inputs.database, intent.inputs.transcript, a.authorization,
                                  a.diagnosis), env);
    }
  }

  // ----- claiming an interrupted intent -----

  /** The only intent an interrupted journal leaves unclaimed is the interrupted one. */
  lemma InterruptedUnclaimed(d: Disk, id: Id)
    requires InterruptedBy(d, id)
    ensures Unclaimed(d) == {id}
  {
    var ids := LineageIds(d.room.pointer);
    assert Without(d, id).files.requests.Keys == ids;
    assert d.files.requests.Keys == ids + {id};
  }

  lemma GoodUnclaimed(d: Disk)
    requires Good(d)
    ensures Unclaimed(d) == {}
  {
  }

  lemma ClaimedIsInterrupted(d: Disk, id: Id)
    requires Inv(d) && Unclaimed(d) == {id}
    ensures InterruptedBy(d, id)
  {
    if Good(d) { GoodUnclaimed(d); }
    var other :| InterruptedBy(d, other);
    InterruptedUnclaimed(d, other);
    assert other in {id};
  }

  lemma IntentThenPointer(d: Disk, x: Intent, p: Pointer)
    requires LegalIntent(d, x) && LegalPointer(WithIntent(d, x), p)
    ensures AllLegal(d, [StoreIntent(x), SavePointer(p)])
    ensures PutAll(d, [StoreIntent(x), SavePointer(p)]) == WithPointer(WithIntent(d, x), p)
  {
    LegalTwo(d, StoreIntent(x), SavePointer(p));
  }

  lemma ClaimLegal(d: Disk, id: Id, inputs: Inputs)
    requires Inv(d) && ClaimPlan(d, id, inputs).Success?
    ensures AllLegal(d, ClaimPlan(d, id, inputs).value)
  {
    if ClaimPlan(d, id, inputs).value != [] {
      ClaimedIsInterrupted(d, id);
      var x := d.files.requests[id];
      MapPutSame(d.files.requests, id, x);
      assert WithIntent(d, x) == d;
      assert LegalPointer(d, PendingLink(x));
      IntentThenPointer(d, x, PendingLink(x));
    }
  }

  // ----- applying a new request -----

  /** A resolution fills in an epoch's expectation but never its selector. */
  lemma NewestSelector(room: Room)
    ensures var base, now := LastEpoch(BaseHistory(room)), LastEpoch(EpochsOf(room));
            now == base.(expected := now.expected, resolved := now.resolved)
  {
    ResolveAllKeeps(BaseHistory(room), room.resolutions);
  }

  predicate Beginning(d: Disk, x: Intent) {
    && Good(d) && LegalIntent(d, x) && x.id !in d.files.requests
  }

  lemma BeginClaims(d: Disk, x: Intent)
    requires Beginning(d, x)
    requires JournalOk(WithPointer(WithIntent(d, x), PendingLink(x)), true)
    ensures LegalPointer(WithIntent(d, x), PendingLink(x))
    ensures Working(WithPointer(WithIntent(d, x), PendingLink(x)), x)
  {
    StepNewIntent(d, x);
    MapPutRemove(d.files.requests, x.id, x);
    assert Without(WithIntent(d, x), x.id) == d;
    assert LegalPointer(WithIntent(d, x), PendingLink(x));
    StepClaim(WithIntent(d, x), PendingLink(x));
  }

  lemma NewIntentContinues(d: Disk, inputs: Inputs, env: Env)
    requires env.resolved.Some?
    requires Inspect(d, env.audit, env.resolved.value, Auditing, inputs.transcript, None).Success?
    ensures var e := Inspect(d, env.audit, env.resolved.value, Auditing, inputs.transcript, None).value;
            Continues(d.room.initial, NewIntent(d.room, inputs, e, env.now))
  {
    NewestSelector(d.room);
  }

  lemma BeginningLegal(d: Disk, x: Intent)
    requires Beginning(d, x)
    ensures LegalIntent(d, x)
    ensures x.id !in d.files.attempts && x.id !in d.files.records
  {
    GoodUnclaimed(d);
    assert KeysOk(d.files, LineageIds(d.room.pointer));
  }

  lemma BeginRest(d: Disk, x: Intent, env: Env)
    requires Beginning(d, x)
    requires JournalOk(WithPointer(WithIntent(d, x), PendingLink(x)), true)
    ensures var published := WithPointer(WithIntent(d, x), PendingLink(x));
            AllLegal(d, [StoreIntent(x), SavePointer(PendingLink(x))]
                        + AdvancePlan(published, x, None, env).writes)
  {
    BeginningLegal(d, x);
    hide Beginning, JournalOk, LegalPointer, LegalIntent, AdvancePlan, AllLegal, Working;
    var published := WithPointer(WithIntent(d, x), PendingLink(x));
    BeginClaims(d, x);
    IntentThenPointer(d, x, PendingLink(x));
    AdvanceLegal(published, x, None, env);
    AllLegalConcat(d, [StoreIntent(x), SavePointer(PendingLink(x))], AdvancePlan(published, x, None, env).writes);
  }

  lemma ApplyLegal(d: Disk, inputs: Inputs, env: Env)
    requires Good(d) && inputs.id !in LineageIds(d.room.pointer)
    ensures AllLegal(d, ApplyPlan(d, inputs, env).writes)
  {
    if ApplyPlan(d, inputs, env).writes != [] {
      var e := Inspect(d, env.audit, env.resolved.value, Auditing, inputs.transcript, None).value;
      var x := NewIntent(d.room, inputs, e, env.now);
      NewIntentContinues(d, inputs, env);
      assert inputs.id !in d.files.requests;
      assert LegalIntent(d, x);
      LegalOne(d, StoreIntent(x));
      if JournalOk(WithPointer(WithIntent(d, x), PendingLink(x)), true) { BeginRest(d, x, env); }
    }
  }

  // ----- adopting a resolution -----

  lemma ClaimsPending(d: Disk, v: Resolution)
    requires Good(d) && LegalResolution(d, v)
    requires v.id in d.resolutions ==> PendingResolution(d) == Some(v.id)
    ensures PendingResolution(WithResolution(d, v)) == Some(v.id)
  {
    if v.id in d.resolutions {
      MapPutSame(d.resolutions, v.id, v);
      assert WithResolution(d, v) == d;
    } else {
      assert ClaimedNames(LedgerOf(d)) <= d.resolutions.Keys;
      assert ClaimedNames(LedgerOf(WithResolution(d, v))) == ClaimedNames(LedgerOf(d));
      InterruptedIsPending(WithResolution(d, v), v.id);
    }
  }

  lemma ResolutionLegal(d: Disk, v: Resolution, allowPending: bool)
    requires Good(d) && LegalResolution(d, v)
    requires v.id in d.resolutions ==> PendingResolution(d) == Some(v.id)
    ensures AllLegal(d, ResolutionPlan(d, v, allowPending).writes)
  {
    var stored, more := WithResolution(d, v), MoreResolutions(d, v);
    LegalOne(d, StoreResolution(v));
    if JournalOk(WithResolutions(stored, more), allowPending) {
      ClaimsPending(d, v);
      StepResolution(d, v);
      assert LegalResolutions(stored, more);
      LegalTwo(d, StoreResolution(v), SaveResolutions(more));
    }
  }

  lemma PendingResolutionLegal(d: Disk, allowPending: bool)
    requires Good(d) && JournalOk(d, false) && PendingResolution(d).Some?
    ensures AllLegal(d, ResolutionPlan(d, d.resolutions[PendingResolution(d).value], allowPending).writes)
  {
    PendingIff(d);
    ResolutionLegal(d, d.resolutions[PendingResolution(d).value], allowPending);
  }

  // ----- one transition call -----

  lemma AttemptIs(d: Disk, inputs: Inputs, env: Env)
    ensures var link, plan := AttemptOf(Lineage(d.room.pointer), inputs.id), AttemptPlan(d, inputs, env);
      || plan.writes == []
      || (link.None? && plan == ApplyPlan(d, inputs, env))
      || (link.Some? && link.value.state.Pending? && plan == ReconcilePlan(d, link.value.intent, env))
  {
  }

  lemma ReconcilePending(d: Disk, link: Pointer, env: Env)
    requires Good(d) && link in Lineage(d.room.pointer) && link.state.Pending?
    ensures AllLegal(d, ReconcilePlan(d, link.intent, env).writes)
  {
    PendingAttempt(d, link);
    ReconcileLegal(d, link.intent, env);
  }

  lemma AttemptLegal(d: Disk, inputs: Inputs, env: Env)
    requires Good(d)
    ensures AllLegal(d, AttemptPlan(d, inputs, env).writes)
  {
    var link := AttemptOf(Lineage(d.room.pointer), inputs.id);
    AttemptIs(d, inputs, env);
    if link.None? {
      ApplyLegal(d, inputs, env);
    } else if link.value.state.Pending? {
      ReconcilePending(d, link.value, env);
    }
  }

  lemma DispatchLegal(d: Disk, inputs: Inputs, env: Env)
    requires Inv(d)
    ensures AllLegal(d, DispatchPlan(d, inputs, env).writes)
  {
    if JournalOk(d, true) {
      SoundIsGood(d);
      if PendingResolution(d).None? {
        AttemptLegal(d, inputs, env);
      } else if !IsPending(d.room.pointer) {
        PendingResolutionLegal(d, true);
      }
    }
  }

  lemma TransitionLegal(d: Disk, inputs: Inputs, precondition: Option<bool>, env: Env)
    requires Inv(d)
    ensures AllLegal(d, TransitionPlan(d, inputs, precondition, env).writes)
  {
    var claim := ClaimPlan(d, inputs.id, inputs);
    if claim.Success? {
      ClaimLegal(d, inputs.id, inputs);
      WritesKeepInv(d, claim.value);
      var next := PutAll(d, claim.value);
      DispatchLegal(next, inputs, env);
      AllLegalConcat(d, claim.value, DispatchPlan(next, inputs, env).writes);
    }
  }
}
