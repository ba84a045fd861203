/** One engineering model transition request, as the sequence of durable writes it performs.
    A crash may stop the sequence after any prefix; only what was written survives. */
module EngineeringTransition {
  import opened Values
  import opened EngineeringModel

  /** Everything that survives a crash. patched counts the settings PATCHes already sent per request:
      that action leaves the room and cannot be taken back. */
  datatype Disk = Disk(files: Files, resolutions: map<Id, Resolution>, outcomes: set<SemanticOutcome>, room: Room,
                       patched: multiset<Id>)

  function Session(room: Room): Option<string> {
    if room.engineer.Some? then Some(room.engineer.value.session) else None
  }

  function LedgerOf(d: Disk): Ledger {
    Ledger(Session(d.room), d.room.requests, d.outcomes, d.resolutions, d.room.resolutions)
  }

  function BaseHistory(room: Room): (h: seq<Epoch>)
    ensures h != []
  {
    History(room.initial, room.pointer)
  }

  /** The same epochs with the claimed resolutions filled in. */
  function EpochsOf(room: Room): (h: seq<Epoch>)
    ensures h != []
  {
    ResolveAll(BaseHistory(room), room.resolutions)
  }

  /** The chain, its epochs and its resolutions are all accepted; the newest attempt may be pending. */
  predicate Sound(d: Disk) {
    && ChainOk(d.files, d.room.engineer, d.room.pointer)
    && HistoryOk(d.room.initial, RequestIds(d.room.requests), d.room.pointer)
    && ResolutionsOk(BaseHistory(d.room), LedgerOf(d))
  }

  predicate JournalOk(d: Disk, allowPending: bool) {
    Sound(d) && (allowPending || !IsPending(d.room.pointer))
  }

  /** The request whose resolution record is on disk but not yet claimed by the room. */
  function PendingResolution(d: Disk): Option<Id> {
    var latest := LatestEngineer(d.room.requests, Session(d.room), LastEpoch(BaseHistory(d.room)).from);
    if latest.None? then None
    else
      var name := d.room.requests[latest.value - 1].id;
      if name in d.resolutions && name !in ClaimedNames(LedgerOf(d)) then Some(name) else None
  }

  // ----- durable writes -----

  datatype Write =
    | StoreIntent(intent: Intent)
    | StoreMarker(marker: Marker)
    | SendPatch(id: Id, patch: Option<Patch>)
    | StoreRecord(record: Record)
    | StoreResolution(resolution: Resolution)
    | SavePointer(pointer: Pointer)
    | SaveResolutions(pointers: seq<ResolutionPointer>)
    | SaveEngineer(engineer: Binding)
    | SaveRequest(request: Request)
    | SaveProgress(requests: seq<Request>, policy: Option<PolicyPointer>, other: int, outcomes: set<SemanticOutcome>)

  function WithIntent(d: Disk, x: Intent): Disk {
    d.(files := d.files.(requests := d.files.requests[x.id := x]))
  }

  function WithMarker(d: Disk, m: Marker): Disk {
    d.(files := d.files.(attempts := d.files.attempts[m.id := m]))
  }

  function WithPatch(d: Disk, id: Id): Disk { d.(patched := d.patched + multiset{id}) }

  function WithRecord(d: Disk, r: Record): Disk {
    d.(files := d.files.(records := d.files.records[r.id := r]))
  }

  function WithResolution(d: Disk, v: Resolution): Disk { d.(resolutions := d.resolutions[v.id := v]) }

  function WithPointer(d: Disk, p: Pointer): Disk { d.(room := d.room.(pointer := Some(p))) }

  function WithResolutions(d: Disk, ps: seq<ResolutionPointer>): Disk { d.(room := d.room.(resolutions := ps)) }

  function WithEngineer(d: Disk, b: Binding): Disk { d.(room := d.room.(engineer := Some(b))) }

  function WithRequest(d: Disk, r: Request): Disk { d.(room := d.room.(requests := d.room.requests + [r])) }

  function WithProgress(d: Disk, rs: seq<Request>, policy: Option<PolicyPointer>, other: int,
                        outcomes: set<SemanticOutcome>): Disk
  {
    d.(room := d.room.(requests := rs, policy := policy, other := other), outcomes := outcomes)
  }

  function Put(d: Disk, w: Write): Disk {
    match w
    case StoreIntent(x) => WithIntent(d, x)
    case StoreMarker(m) => WithMarker(d, m)
    case SendPatch(id, _) => WithPatch(d, id)
    case StoreRecord(r) => WithRecord(d, r)
    case StoreResolution(v) => WithResolution(d, v)
    case SavePointer(p) => WithPointer(d, p)
    case SaveResolutions(ps) => WithResolutions(d, ps)
    case SaveEngineer(b) => WithEngineer(d, b)
    case SaveRequest(r) => WithRequest(d, r)
    case SaveProgress(rs, policy, other, outcomes) => WithProgress(d, rs, policy, other, outcomes)
  }

  function PutAll(d: Disk, ws: seq<Write>): Disk
    decreases ws
  {
    if ws == [] then d else PutAll(Put(d, ws[0]), ws[1..])
  }

  lemma {:induction false} PutAllConcat(d: Disk, a: seq<Write>, b: seq<Write>)
    ensures PutAll(d, a + b) == PutAll(PutAll(d, a), b)
    decreases a
  {
    if a == [] {
      assert a + b == b;
    } else {
      assert (a + b)[1..] == a[1..] + b;
      PutAllConcat(Put(d, a[0]), a[1..], b);
    }
  }

  datatype Reply =
    | Refusal
    | StillPending(sent: bool)
    | Terminal(record: Record)
    | Reaudit

  /** The writes one call performs, in order, and what it would answer after all of them. */
  datatype Plan = Plan(writes: seq<Write>, reply: Reply)

  const REFUSED := Plan([], Refusal)

  // ----- inspection of the live room -----

  /** What the environment answers one inspection with; None when it refuses. */
  datatype Probe = Probe(observed: Observed, spec: string, candidate: string, qualification: Option<Qualification>,
                         other: int)

  datatype Mode = Auditing | Replaying(expectTarget: bool) | Abandoning

  predicate OwnerMatches(engineer: Binding, transcript: string, observed: Observed) {
    observed.owner.binding == engineer && transcript == observed.owner.nativeSession + ".jsonl"
  }

  predicate LivenessOk(mode: Mode, observed: Observed) {
    && (observed.controller == "ready" || (mode.Abandoning? && observed.controller == "stopped"))
    && (mode.Abandoning? || mode == Replaying(true) || observed.owner.activity == "idle")
  }

  /** The room whose digest the evidence binds: a pending attempt is normalised to its predecessor. */
  function AuditedRoom(room: Room): Room {
    if IsPending(room.pointer) then room.(pointer := room.pointer.value.intent.previous) else room
  }

  function InspectedEvidence(room: Room, engineer: Binding, target: Pin, probe: Probe): Evidence {
    var observed := probe.observed;
    Evidence(AuditedRoom(room), LastEpoch(EpochsOf(room)).selector, target, engineer, RequestIds(room.requests),
             probe.spec, probe.candidate,
             Native(engineer, observed.controller, observed.settings, observed.history, observed.transcript),
             observed.owner, probe.qualification, probe.other)
  }

  predicate TargetOk(mode: Mode, source: Selector, target: Pin) {
    && (if mode.Auditing? then PinAdmitted(target) else PinOk(target))
    && (target.selector.Configured() == source.Configured() ==> target.selector == source && source.Family?)
  }

  /** The exact frozen evidence of one transition, or a refusal. */
  function Inspect(d: Disk, probe: Option<Probe>, target: Pin, mode: Mode, transcript: string,
                   request: Option<Id>): Result<Evidence>
  {
    if probe.None? || !JournalOk(d, !mode.Auditing?) || PendingResolution(d).Some? then Refused
    else if IsPending(d.room.pointer) && Some(d.room.pointer.value.id) != request then Refused
    else if d.room.engineer.None? then Refused
    else
      var engineer, observed := d.room.engineer.value, probe.value.observed;
      if !TargetOk(mode, LastEpoch(EpochsOf(d.room)).selector, target) then Refused
      else if !OwnerMatches(engineer, transcript, observed) || !LivenessOk(mode, observed) then Refused
      else if mode == Replaying(true) && observed.settings != TargetSettings(observed.settings, target) then Refused
      else if !Distinct(RequestIds(d.room.requests)) then Refused
      else Success(InspectedEvidence(d.room, engineer, target, probe.value))
  }

  predicate QualificationUnchanged(stored: Option<Qualification>, live: Option<Qualification>) {
    if stored.None? || live.None? then stored == live
    else stored.value.authority == live.value.authority && (stored.value.retained ==> live.value.retained)
  }

  predicate OwnerAbandonable(stored: Owner, live: Owner) {
    && SameOwnerIdentity(stored, live)
    && stored.activity == "idle"
    && live.activity in {"idle", "exited"}
    && IsText(stored.generation)
    && IsText(live.generation)
  }

  datatype Allowance = Exactly | TargetSettingsOnly | LivenessOnly

  /** The whole frozen evidence is unchanged, apart from what the allowance documents. */
  predicate Unchanged(stored: Evidence, live: Evidence, allow: Allowance) {
    && live == stored.(native := live.native, owner := live.owner, qualification := live.qualification)
    && live.native == stored.native.(settings := live.native.settings, controller := live.native.controller)
    && live.native.settings == (if allow.TargetSettingsOnly?
                                 then TargetSettings(stored.native.settings, stored.target)
                                 else stored.native.settings)
    && (if allow.LivenessOnly? then {stored.native.controller, live.native.controller} <= {"ready", "stopped"}
        else live.native.controller == stored.native.controller)
    && (if allow.LivenessOnly? then OwnerAbandonable(stored.owner, live.owner) else live.owner == stored.owner)
    && QualificationUnchanged(stored.qualification, live.qualification)
  }

  // ----- one call -----

  /** Everything a call learns from outside the room, in the order it asks. */
  datatype Env = Env(settled: bool, resolved: Option<Pin>, audit: Option<Probe>, advance: Option<Probe>,
                     patchResult: PatchResult, observe: Option<Observed>, settle: Option<Probe>,
                     abandon: Option<Probe>, now: int)

  function PendingLink(intent: Intent): Pointer { Pointer(intent.id, intent, Pending) }

  function TerminalLink(intent: Intent, record: Record): Pointer {
    Pointer(intent.id, intent, if record.outcome.Committed? then CommittedAt(record) else AbandonedAt(record))
  }

  /** Store the terminal record, then publish its pointer once the journal accepts it. */
  function PublishPlan(d: Disk, intent: Intent, record: Record): Plan {
    var save := TerminalLink(intent, record);
    if intent.id in d.files.records && d.files.records[intent.id] != record then REFUSED
    else if JournalOk(WithPointer(WithRecord(d, record), save), false)
    then Plan([StoreRecord(record), SavePointer(save)], Terminal(record))
    else Plan([StoreRecord(record)], Refusal)
  }

  function CommitRecord(intent: Intent, marker: Option<Marker>, result: PatchResult, after: Observed, now: int): Record
  {
    Record(intent.id, intent, marker, Committed, result, Before(intent.evidence), after, intent.source,
           intent.target, |intent.evidence.requests|, now)
  }

  predicate Observable(intent: Intent, observe: Option<Observed>) {
    && observe.Some?
    && OwnerMatches(intent.evidence.engineer, intent.inputs.transcript, observe.value)
    && (Reset(intent) || observe.value.settings == TargetSettings(observe.value.settings, intent.target))
  }

  predicate CommitObserved(intent: Intent, after: Observed) {
    var before := Before(intent.evidence);
    && after.settings == (if Reset(intent) then before.settings else TargetSettings(before.settings, intent.target))
    && after.controller == "ready"
    && after.history == before.history
    && after.transcript == before.transcript
    && after.owner == before.owner
  }

  /** The commit of a pending attempt: two inspections, either of which may leave it pending, then the record
      and its pointer. stored is the record on disk, if any, which is then published instead of a new one. */
  function SettlePlan(d: Disk, intent: Intent, marker: Option<Marker>, result: PatchResult, stored: Option<Record>,
                      env: Env, sent: bool): Plan
  {
    if stored.Some? && !stored.value.outcome.Committed? then REFUSED
    else if !Observable(intent, env.observe) then Plan([], StillPending(sent))
    else if (if stored.Some? then env.observe.value != stored.value.after
             else !CommitObserved(intent, env.observe.value)) then Plan([], StillPending(sent))
    else
      var frozen := Inspect(d, env.settle, intent.target, Replaying(!Reset(intent)), intent.inputs.transcript,
                            Some(intent.id));
      if frozen.Refused?
         || !Unchanged(intent.evidence, frozen.value, if Reset(intent) then Exactly else TargetSettingsOnly)
      then Plan([], StillPending(sent))
      else PublishPlan(d, intent, if stored.Some? then stored.value
                                  else CommitRecord(intent, marker, result, env.observe.value, env.now))
  }

  const ALREADY_ATTEMPTED := PatchResult(false, Some("one PATCH was already attempted"), None)

  function NewMarker(intent: Intent, now: int): Marker { Marker(intent.id, intent, intent.patch, now) }

  /** A pending attempt without a record: sends its PATCH if no marker says that it was sent, then settles. A
      reset sends none. */
  function AdvancePlan(d: Disk, intent: Intent, marker: Option<Marker>, env: Env): Plan {
    if Reset(intent) then SettlePlan(d, intent, marker, NO_PATCH, None, env, false)
    else if marker.Some? then SettlePlan(d, intent, marker, ALREADY_ATTEMPTED, None, env, false)
    else
      var live := Inspect(d, env.advance, intent.target, Replaying(false), intent.inputs.transcript, Some(intent.id));
      var attempt := NewMarker(intent, env.now);
      if live.Refused? || !Unchanged(intent.evidence, live.value, Exactly) then REFUSED
      else if intent.id in d.files.attempts && d.files.attempts[intent.id] != attempt then REFUSED
      else
        var sent := WithPatch(WithMarker(d, attempt), intent.id);
        var rest := SettlePlan(sent, intent, Some(attempt), env.patchResult, None, env, true);
        Plan([StoreMarker(attempt), SendPatch(intent.id, intent.patch)] + rest.writes, rest.reply)
  }

  function NewIntent(room: Room, inputs: Inputs, evidence: Evidence, now: int): Intent {
    var reset := evidence.target.selector.Configured() == evidence.source.Configured();
    Intent(inputs.id, inputs, inputs.audit, evidence, room, room.pointer, evidence.source, evidence.target,
           if reset then None else Some(PatchFor(evidence.target, evidence.native)), now)
  }

  /** A request no attempt carries. Its audit must be what the room shows now; the intent is stored before the
      journal is read again, so a refusal of the bound comes after that write. */
  function ApplyPlan(d: Disk, inputs: Inputs, env: Env): Plan {
    if env.resolved.None? || env.resolved.value.selector.Configured() != inputs.target then REFUSED
    else
      var evidence := Inspect(d, env.audit, env.resolved.value, Auditing, inputs.transcript, None);
      if evidence.Refused? || inputs.source != evidence.value.source.Configured() || evidence.value != inputs.audit
         || inputs.spec != evidence.value.spec || inputs.candidate != evidence.value.candidate
         || inputs.history != evidence.value.native.history
      then REFUSED
      else
        var intent := NewIntent(d.room, inputs, evidence.value, env.now);
        if !IntentOk(d.room.engineer, inputs.id, intent) then REFUSED
        else if inputs.id in d.files.requests && d.files.requests[inputs.id] != intent then REFUSED
        else
          var published := WithPointer(WithIntent(d, intent), PendingLink(intent));
          if !JournalOk(published, true) then Plan([StoreIntent(intent)], Refusal)
          else
            var rest := AdvancePlan(published, intent, None, env);
            Plan([StoreIntent(intent), SavePointer(PendingLink(intent))] + rest.writes, rest.reply)
  }

  /** The published attempt of this request, if any. */
  function AttemptOf(links: seq<Pointer>, id: Id): (p: Option<Pointer>)
    ensures p.Some? ==> p.value in links && p.value.id == id
    ensures p.None? ==> id !in Ids(links)
  {
    if links == [] then None
    else if links[0].id == id then Some(links[0])
    else AttemptOf(links[1..], id)
  }

  function AbandonmentOf(link: Pointer, marker: Option<Marker>, inputs: Inputs, authorization: string,
                         diagnosis: string): Abandonment
  {
    Abandonment(authorization, diagnosis,
                AbandonInputs(link.id, link.intent, marker, inputs.database, inputs.transcript, authorization,
                              diagnosis))
  }

  function AbandonRecord(intent: Intent, marker: Option<Marker>, frozen: Evidence, abandonment: Abandonment,
                         now: int): Record
  {
    Record(intent.id, intent, marker, Abandoned(abandonment), NO_PATCH, Before(intent.evidence), Before(frozen),
           intent.source, intent.target, |intent.evidence.requests|, now)
  }

  datatype AbandonCall = AbandonCall(id: Id, database: string, transcript: string, authorization: string,
                                     diagnosis: string)

  /** The abandonment of a pending attempt whose room still shows the audited evidence, liveness aside. A terminal
      attempt answers with its own record. */
  function AbandonPlan(d: Disk, call: AbandonCall, env: Env): Plan {
    var link := AttemptOf(Lineage(d.room.pointer), call.id);
    if !IsText(call.authorization) || !IsText(call.diagnosis) || !env.settled || !JournalOk(d, true) || link.None?
    then REFUSED
    else
      var intent := link.value.intent;
      var marker, record := Find(d.files.attempts, call.id), Find(d.files.records, call.id);
      var abandonment := AbandonmentOf(link.value, marker, intent.inputs, call.authorization, call.diagnosis);
      if intent.inputs.database != call.database || intent.inputs.transcript != call.transcript then REFUSED
      else if record.Some? && record.value.outcome != Abandoned(abandonment) then REFUSED
      else if !link.value.state.Pending? then Plan([], Terminal(link.value.state.record))
      else
        var frozen := Inspect(d, env.abandon, intent.target, Abandoning, call.transcript, Some(call.id));
        if frozen.Refused? || !Unchanged(intent.evidence, frozen.value, LivenessOnly) then REFUSED
        else PublishPlan(d, intent, if record.Some? then record.value
                                    else AbandonRecord(intent, marker, frozen.value, abandonment, env.now))
  }

  /** A repeated request whose attempt is pending goes on from what is on disk: no record, an abandonment or a
      commit. */
  function ReconcilePlan(d: Disk, intent: Intent, env: Env): Plan {
    var marker, record := Find(d.files.attempts, intent.id), Find(d.files.records, intent.id);
    if record.None? then AdvancePlan(d, intent, marker, env)
    else match record.value.outcome
      case Abandoned(a) =>
        AbandonPlan(d, AbandonCall(intent.id, intent.inputs.database, intent.inputs.transcript, a.authorization,
                                   a.diagnosis), env)
      case Committed => SettlePlan(d, intent, marker, record.value.result, record, env, false)
  }

  /** The published pointers a claim walks before anything else. */
  predicate PointersOk(d: Disk) {
    var links := Lineage(d.room.pointer);
    && |links| <= MAX_CHAIN
    && (forall i, j :: 0 <= i < j < |links| ==> links[i].id != links[j].id)
    && forall link :: link in links ==> Find(d.files.requests, link.id) == Some(link.intent)
  }

  function Unclaimed(d: Disk): set<Id> { d.files.requests.Keys - LineageIds(d.room.pointer) }

  /** The claim of an intent that has no pointer, by the request that stored it over the room it was stored over. It
      writes the same intent once more, which changes nothing; that write is listed only when the pointer follows. */
  function ClaimPlan(d: Disk, id: Id, inputs: Inputs): Result<seq<Write>> {
    if !PointersOk(d) then Refused
    else if Unclaimed(d) == {} then Success([])
    else if Unclaimed(d) != {id} then Refused
    else
      var intent := d.files.requests[id];
      if intent.id != id || intent.inputs != inputs || intent.previous != d.room.pointer || intent.before != d.room
         || !IntentOk(d.room.engineer, id, intent)
      then Refused
      else
        if JournalOk(WithPointer(WithIntent(d, intent), PendingLink(intent)), true)
        then Success([StoreIntent(intent), SavePointer(PendingLink(intent))]) else Refused
  }

  function MoreResolutions(d: Disk, value: Resolution): seq<ResolutionPointer> {
    d.room.resolutions + [ResolutionPointer(value.id, value)]
  }

  /** Store the resolution, then claim it once the journal accepts the claim. */
  function ResolutionPlan(d: Disk, value: Resolution, allowPending: bool): Plan {
    if JournalOk(WithResolutions(WithResolution(d, value), MoreResolutions(d, value)), allowPending)
    then Plan([StoreResolution(value), SaveResolutions(MoreResolutions(d, value))], Reaudit)
    else Plan([StoreResolution(value)], Refusal)
  }

  /** Read or reconcile this request's own attempt, or apply it as a new one. */
  function AttemptPlan(d: Disk, inputs: Inputs, env: Env): Plan {
    var link := AttemptOf(Lineage(d.room.pointer), inputs.id);
    if !env.settled then REFUSED
    else if link.None? then if IsPending(d.room.pointer) then REFUSED else ApplyPlan(d, inputs, env)
    else if link.value.intent.inputs != inputs then REFUSED
    else if !link.value.state.Pending? then Plan([], Terminal(link.value.state.record))
    else ReconcilePlan(d, link.value.intent, env)
  }

  /** An interrupted adoption is claimed first; the previous audit then no longer applies. */
  function DispatchPlan(d: Disk, inputs: Inputs, env: Env): Plan {
    if !JournalOk(d, true) then REFUSED
    else if PendingResolution(d).None? then AttemptPlan(d, inputs, env)
    else if IsPending(d.room.pointer) then REFUSED
    else ResolutionPlan(d, d.resolutions[PendingResolution(d).value], true)
  }

  /** A caller's optional revalidation, evaluated only while this request has no attempt yet. */
  predicate Precondition(d: Disk, id: Id, holds: Option<bool>) {
    holds.None? || (JournalOk(d, true) && (holds.value || id in LineageIds(d.room.pointer)))
  }

  /** The claim, then whatever the claimed room asks for. */
  function ClaimThenDispatch(d: Disk, inputs: Inputs, env: Env): Plan {
    var claim := ClaimPlan(d, inputs.id, inputs);
    if claim.Refused? then REFUSED
    else
      var rest := DispatchPlan(PutAll(d, claim.value), inputs, env);
      Plan(claim.value + rest.writes, rest.reply)
  }

  /** The whole call: the precondition first, then the claim and the dispatch. */
  function TransitionPlan(d: Disk, inputs: Inputs, precondition: Option<bool>, env: Env): Plan {
    if !Precondition(d, inputs.id, precondition) then REFUSED else ClaimThenDispatch(d, inputs, env)
  }
}
