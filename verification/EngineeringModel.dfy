/** The transition journal of one room: what each durable file holds, when the reader accepts the
    whole chain, the epochs the chain defines and the observation resolutions adopted on top. */
module EngineeringModel {
  import opened Values

  const EFFORT := "max"
  const MAX_CHAIN: nat := 32

  // ----- selectors and pinned targets -----

  datatype Selector = Family(family: string) | Exact(model: string) {
    function Configured(): string {
      match this
      case Family(f) => f
      case Exact(m) => m
    }
  }

  predicate IsDigit(c: char) { '0' <= c <= '9' }

  predicate IsLower(c: char) { 'a' <= c <= 'z' }

  predicate VersionTail(s: string) {
    |s| >= 2 && s[0] == '-' && IsDigit(s[1]) && VersionRest(s[2..])
  }

  predicate VersionRest(s: string) {
    || s == ""
    || (IsDigit(s[0]) && VersionRest(s[1..]))
    || (|s| >= 2 && s[0] == '-' && IsDigit(s[1]) && VersionRest(s[2..]))
  }

  predicate FamilyName(family: string) {
    0 < |family| <= 32 && forall i :: 0 <= i < |family| ==> IsLower(family[i])
  }

  const MODEL_PREFIX := "claude-"

  /** claude-<family>(-<digits>)+ for the given family. */
  predicate FamilyMember(family: string, model: string) {
    && FamilyName(family)
    && MODEL_PREFIX + family <= model
    && VersionTail(model[|MODEL_PREFIX| + |family|..])
  }

  function LowerRun(s: string): (n: nat)
    ensures n <= |s|
  {
    if s == "" || !IsLower(s[0]) then 0 else 1 + LowerRun(s[1..])
  }

  /** claude-<lowercase letters>(-<digits>)+. */
  predicate ExactId(model: string) {
    && MODEL_PREFIX <= model
    && var rest := model[|MODEL_PREFIX|..];
    && 0 < LowerRun(rest)
    && VersionTail(rest[LowerRun(rest)..])
  }

  predicate SelectorOk(selector: Selector) {
    match selector
    case Family(f) => FamilyName(f)
    case Exact(m) => ExactId(m)
  }

  datatype Execution = Execution(expected: string, qualification: string)

  /** A selector with the qualification entry and policy qualification pinned beside it. */
  datatype Pin = Pin(selector: Selector, execution: Option<Execution>, policy: Option<string>)

  predicate PinOk(pin: Pin) {
    && (pin.selector.Exact? ==> pin.execution.None?)
    && (pin.execution.Some? ==> pin.policy == Some(pin.execution.value.qualification))
  }

  /** A newly selected target is spelled as its kind demands, and a family target needs its
      operator-selected qualification. */
  predicate PinAdmitted(pin: Pin) {
    PinOk(pin) && SelectorOk(pin.selector) && (pin.selector.Family? ==> pin.execution.Some?)
  }

  // ----- native observations -----

  datatype Binding = Binding(session: string, conversation: string, branch: string)

  datatype Settings = Settings(model: string, effort: string, approval: string, rest: int)

  /** An abandonment compares the binding and the native session only. */
  datatype Owner = Owner(binding: Binding, nativeSession: string, activity: string, generation: string)

  datatype Native = Native(binding: Binding, controller: string, settings: Settings, history: string,
                           transcript: string)

  datatype Observed = Observed(settings: Settings, controller: string, history: string, transcript: string,
                               owner: Owner)

  function TargetSettings(settings: Settings, target: Pin): Settings {
    settings.(model := target.selector.Configured(), effort := EFFORT)
  }

  datatype Patch = Patch(session: string, model: string, effort: string, approval: Option<string>)

  function PatchFor(target: Pin, native: Native): Patch {
    Patch(native.binding.session, target.selector.Configured(), EFFORT,
          if native.settings.approval == "" then None else Some(native.settings.approval))
  }

  // ----- journal files -----

  /** retained says that the qualification proof was the room-retained one. */
  datatype Qualification = Qualification(authority: int, retained: bool)

  datatype Evidence = Evidence(state: Sha<Room>, source: Selector, target: Pin, engineer: Binding,
                               requests: seq<Id>, spec: string, candidate: string, native: Native, owner: Owner,
                               qualification: Option<Qualification>, other: int)

  datatype Inputs = Inputs(id: Id, source: string, target: string, audit: Sha<Evidence>, spec: string,
                           candidate: string, history: string, database: string, transcript: string,
                           authorization: string, reason: string)

  datatype Intent = Intent(id: Id, inputs: Inputs, audit: Sha<Evidence>, evidence: Evidence,
                           before: Sha<Room>, previous: Option<Pointer>, source: Selector, target: Pin,
                           patch: Option<Patch>, recordedAt: int)

  datatype Marker = Marker(id: Id, intent: Sha<Intent>, patch: Option<Patch>, startedAt: int)

  datatype PatchResult = PatchResult(acknowledged: bool, error: Option<string>, response: Option<int>)

  const NO_PATCH := PatchResult(false, None, None)

  datatype AbandonInputs = AbandonInputs(id: Id, intent: Sha<Intent>, marker: Option<Sha<Marker>>,
                                         database: string, transcript: string, authorization: string,
                                         diagnosis: string)

  datatype Abandonment = Abandonment(authorization: string, diagnosis: string, inputs: Sha<AbandonInputs>)

  datatype Outcome = Committed | Abandoned(abandonment: Abandonment)

  datatype Record = Record(id: Id, intent: Sha<Intent>, marker: Option<Sha<Marker>>, outcome: Outcome,
                           result: PatchResult, before: Observed, after: Observed, source: Selector, target: Pin,
                           boundary: nat, recordedAt: int)

  datatype LinkState = Pending | CommittedAt(record: Sha<Record>) | AbandonedAt(record: Sha<Record>)

  /** The saved transition pointer. Its intent digest names the intent, whose own previous pointer
      names the attempt before it. */
  datatype Pointer = Pointer(id: Id, intent: Sha<Intent>, state: LinkState)

  // ----- room state -----

  datatype SemanticOutcome = SemanticOutcome(request: Id, receipt: string, session: string, unknown: bool,
                                             observed: seq<string>)

  /** What an engineer request records about the model it was sent to. */
  datatype Frozen = Frozen(selector: Selector, configured: string, expected: Option<string>,
                           resolution: Option<Sha<Resolution>>, qualification: Option<string>)

  datatype RequestState = Completed | SettledFailure | Unsettled

  datatype Request = Request(id: Id, role: string, session: string, model: string, effort: string,
                             state: RequestState, receipt: string, outcome: Option<Sha<SemanticOutcome>>,
                             frozen: Option<Frozen>)

  datatype Resolution = Resolution(id: Id, epochRequest: Option<Id>, selector: Selector, configured: string,
                                   observed: string, outcome: Sha<SemanticOutcome>, receipt: string, order: nat,
                                   recordedAt: int)

  datatype ResolutionPointer = ResolutionPointer(id: Id, record: Sha<Resolution>)

  datatype PolicyRecord = PolicyRecord(active: bool, family: string, authorization: string,
                                       previous: Option<Sha<PolicyRecord>>, recordedAt: int)

  datatype PolicyPointer = PolicyPointer(active: bool, family: string, record: Sha<PolicyRecord>,
                                         lastApplication: int)

  /** requests are in creation order: the request at position k has created_order k + 1. */
  datatype Room = Room(pointer: Option<Pointer>, resolutions: seq<ResolutionPointer>, engineer: Option<Binding>,
                       initial: Pin, requests: seq<Request>, policy: Option<PolicyPointer>, other: int)

  function RequestIds(requests: seq<Request>): (ids: seq<Id>)
    ensures |ids| == |requests|
    ensures forall i :: 0 <= i < |ids| ==> ids[i] == requests[i].id
  {
    seq(|requests|, i requires 0 <= i < |requests| => requests[i].id)
  }

  // ----- validation of one file -----

  /** The same-selector family reset: no PATCH, only a new epoch. */
  predicate Reset(intent: Intent) {
    intent.target.selector.Configured() == intent.source.Configured()
  }

  predicate EvidenceOk(engineer: Option<Binding>, intent: Intent) {
    var evidence, inputs := intent.evidence, intent.inputs;
    && evidence.state == intent.before
    && evidence.source == intent.source
    && evidence.target == intent.target
    && engineer == Some(evidence.engineer)
    && evidence.spec == inputs.spec
    && evidence.candidate == inputs.candidate
    && evidence.native.binding == evidence.engineer
    && evidence.native.controller == "ready"
    && evidence.native.settings.model == intent.source.Configured()
    && evidence.native.settings.effort == EFFORT
    && evidence.native.history == inputs.history
    && evidence.owner.binding == evidence.engineer
    && inputs.transcript == evidence.owner.nativeSession + ".jsonl"
    && evidence.owner.activity == "idle"
    && Distinct(evidence.requests)
  }

  predicate IntentOk(engineer: Option<Binding>, id: Id, intent: Intent) {
    && intent.id == id
    && PinOk(intent.target)
    && (Reset(intent) ==> intent.target.selector == intent.source && intent.source.Family? && intent.patch.None?)
    && intent.inputs.id == id
    && intent.inputs.source == intent.source.Configured()
    && intent.inputs.target == intent.target.selector.Configured()
    && intent.inputs.audit == intent.audit == intent.evidence
    && EvidenceOk(engineer, intent)
    && (!Reset(intent) ==> intent.patch == Some(PatchFor(intent.target, intent.evidence.native)))
  }

  predicate MarkerOk(id: Id, intent: Intent, marker: Marker) {
    && !Reset(intent)
    && marker.id == id
    && marker.intent == intent
    && marker.patch == intent.patch
  }

  function Before(evidence: Evidence): Observed {
    Observed(evidence.native.settings, evidence.native.controller, evidence.native.history,
             evidence.native.transcript, evidence.owner)
  }

  predicate SameOwnerIdentity(a: Owner, b: Owner) {
    a.binding == b.binding && a.nativeSession == b.nativeSession
  }

  predicate IsText(s: string) { s != "" }

  predicate CommitOk(intent: Intent, record: Record, marker: Option<Marker>) {
    && record.after.settings == (if Reset(intent) then record.before.settings
                                 else TargetSettings(record.before.settings, intent.target))
    && record.after.controller == "ready"
    && record.after.owner == record.before.owner
    && record.boundary == |intent.evidence.requests|
    && (if Reset(intent) then marker.None? && record.marker.None? && record.result == NO_PATCH
        else marker.Some? && record.marker == marker)
  }

  predicate AbandonOk(record: Record, marker: Option<Marker>)
    requires record.outcome.Abandoned?
  {
    && record.marker == marker
    && record.after.settings == record.before.settings
    && record.after.controller in {"ready", "stopped"}
    && SameOwnerIdentity(record.after.owner, record.before.owner)
    && record.after.owner.activity in {"idle", "exited"}
    && IsText(record.after.owner.generation)
    && IsText(record.outcome.abandonment.authorization)
    && IsText(record.outcome.abandonment.diagnosis)
  }

  /** The record names this intent, repeats its selectors and audited observation, and meets the conditions of
      its own outcome. */
  predicate RecordOk(id: Id, intent: Intent, record: Record, marker: Option<Marker>) {
    && record.id == id
    && record.intent == intent
    && record.source == intent.source
    && record.target == intent.target
    && record.before == Before(intent.evidence)
    && record.after.history == record.before.history
    && record.after.transcript == record.before.transcript
    && match record.outcome
       case Committed => CommitOk(intent, record, marker)
       case Abandoned(_) => AbandonOk(record, marker)
  }

  // ----- the chain -----

  datatype Files = Files(requests: map<Id, Intent>, attempts: map<Id, Marker>, records: map<Id, Record>)

  function Find<T>(m: map<Id, T>, id: Id): Option<T> {
    if id in m then Some(m[id]) else None
  }

  /** Every published attempt, oldest first. */
  function Lineage(pointer: Option<Pointer>): seq<Pointer> {
    match pointer
    case None => []
    case Some(p) => Lineage(p.intent.previous) + [p]
  }

  function Ids(links: seq<Pointer>): set<Id> { set link | link in links :: link.id }

  function LineageIds(pointer: Option<Pointer>): set<Id> { Ids(Lineage(pointer)) }

  /** The intent file a link names is the one whose digest it recorded, and it validates. */
  predicate ReadsIntent(files: Files, engineer: Option<Binding>, link: Pointer) {
    Find(files.requests, link.id) == Some(link.intent) && IntentOk(engineer, link.id, link.intent)
  }

  predicate LinkOk(files: Files, engineer: Option<Binding>, link: Pointer) {
    var intent, marker := link.intent, Find(files.attempts, link.id);
    && ReadsIntent(files, engineer, link)
    && (marker.Some? ==> MarkerOk(link.id, intent, marker.value))
    && (link.id in files.records ==> RecordOk(link.id, intent, files.records[link.id], marker))
    && match link.state
       case Pending => true
       case CommittedAt(sha) => Find(files.records, link.id) == Some(sha) && sha.outcome.Committed?
       case AbandonedAt(sha) => Find(files.records, link.id) == Some(sha) && sha.outcome.Abandoned?
  }

  predicate IsPending(pointer: Option<Pointer>) {
    pointer.Some? && pointer.value.state.Pending?
  }

  /** At most MAX_CHAIN distinct attempts, none but the newest pending. */
  predicate ChainShape(links: seq<Pointer>) {
    && |links| <= MAX_CHAIN
    && (forall i, j :: 0 <= i < j < |links| ==> links[i].id != links[j].id)
    && (forall i :: 0 <= i < |links| - 1 ==> !links[i].state.Pending?)
  }

  predicate KeysOk(files: Files, ids: set<Id>) {
    files.requests.Keys == ids && files.attempts.Keys <= ids && files.records.Keys <= ids
  }

  /** The transition reader accepts the journal: every published attempt validates, only the newest
      may be pending and every file on disk is claimed by one of them. */
  predicate ChainOk(files: Files, engineer: Option<Binding>, pointer: Option<Pointer>) {
    && ChainShape(Lineage(pointer))
    && (forall link :: link in Lineage(pointer) ==> LinkOk(files, engineer, link))
    && KeysOk(files, LineageIds(pointer))
  }

  predicate AllRead(files: Files, engineer: Option<Binding>, links: seq<Pointer>) {
    forall link :: link in links ==> ReadsIntent(files, engineer, link)
  }

  predicate WalkOk(files: Files, engineer: Option<Binding>, links: seq<Pointer>) {
    ChainShape(links) && AllRead(files, engineer, links)
  }

  lemma ShapeExtends(link: Pointer, links: seq<Pointer>)
    requires ChainShape(links)
    ensures ChainShape([link] + links) <==>
            && |links| < MAX_CHAIN
            && (forall seen :: seen in links ==> seen.id != link.id)
            && (links != [] ==> !link.state.Pending?)
  {
    var all := [link] + links;
    if ChainShape(all) {
      forall seen | seen in links ensures seen.id != link.id {
        var i :| 0 <= i < |links| && links[i] == seen;
        assert all[0] == link && all[i + 1] == seen;
      }
      assert links != [] ==> !all[0].state.Pending?;
    }
    if |links| < MAX_CHAIN && (forall seen :: seen in links ==> seen.id != link.id)
       && (links != [] ==> !link.state.Pending?)
    {
      forall i, j | 0 <= i < j < |all| ensures all[i].id != all[j].id {
        assert all[j] == links[j - 1];
        if i > 0 { assert all[i] == links[i - 1]; }
      }
      forall i | 0 <= i < |all| - 1 ensures !all[i].state.Pending? {
        if i > 0 { assert all[i] == links[i - 1]; }
      }
    }
  }

  lemma ShapeSuffix(older: seq<Pointer>, links: seq<Pointer>)
    requires ChainShape(older + links)
    ensures ChainShape(links)
  {
    var all, n := older + links, |older|;
    assert forall i :: 0 <= i < |links| ==> links[i] == all[n + i];
  }

  /** Following the previous pointers from the saved one, newest first, back to the first attempt. */
  method WalkBack(files: Files, engineer: Option<Binding>, pointer: Option<Pointer>)
    returns (walked: Result<seq<Pointer>>)
    ensures walked == if WalkOk(files, engineer, Lineage(pointer)) then Success(Lineage(pointer)) else Refused
  {
    var links: seq<Pointer> := [];
    var cursor := pointer;
    while cursor.Some?
      invariant Lineage(pointer) == Lineage(cursor) + links
      invariant WalkOk(files, engineer, links)
      decreases cursor
    {
      var link := cursor.value;
      ghost var older := Lineage(link.intent.previous);
      assert Lineage(pointer) == older + ([link] + links);
      ShapeExtends(link, links);
      if |links| >= MAX_CHAIN || (exists seen :: seen in links && seen.id == link.id)
         || (links != [] && link.state.Pending?) || !ReadsIntent(files, engineer, link) {
        if ChainShape(Lineage(pointer)) { ShapeSuffix(older, [link] + links); }
        assert link in Lineage(pointer);
        return Refused;
      }
      links, cursor := [link] + links, files.requests[link.id].previous;
    }
    assert Lineage(pointer) == links;
    walked := Success(links);
  }

  /** One link against its marker and record files. A pending link may have a record, too: the one whose pointer
      was never saved. */
  method CheckLink(files: Files, engineer: Option<Binding>, link: Pointer) returns (ok: bool)
    requires ReadsIntent(files, engineer, link)
    ensures ok == LinkOk(files, engineer, link)
  {
    var intent, marker := files.requests[link.id], Find(files.attempts, link.id);
    if marker.Some? && !MarkerOk(link.id, intent, marker.value) { return false; }
    var record := Find(files.records, link.id);
    if !link.state.Pending? && record != Some(link.state.record) { return false; }
    if link.state.CommittedAt? && !record.value.outcome.Committed? { return false; }
    if link.state.AbandonedAt? && !record.value.outcome.Abandoned? { return false; }
    ok := record.None? || RecordOk(link.id, intent, record.value, marker);
  }

  method CheckLinks(files: Files, engineer: Option<Binding>, links: seq<Pointer>) returns (claimed: Result<set<Id>>)
    requires AllRead(files, engineer, links)
    ensures claimed == if forall link :: link in links ==> LinkOk(files, engineer, link) then Success(Ids(links))
                       else Refused
  {
    hide LinkOk, ReadsIntent;
    var ids: set<Id> := {};
    for k := 0 to |links|
      invariant forall i :: 0 <= i < k ==> LinkOk(files, engineer, links[i])
      invariant ids == Ids(links[..k])
    {
      assert links[..k + 1] == links[..k] + [links[k]] && links[k] in links;
      var ok := CheckLink(files, engineer, links[k]);
      if !ok { return Refused; }
      ids := ids + {links[k].id};
    }
    assert links[..|links|] == links;
    claimed := Success(ids);
  }

  /** The chain reader in its own form: walk back, then check each link's files, oldest first, and
      finally that no file is unclaimed. */
  method ReadChain(files: Files, engineer: Option<Binding>, pointer: Option<Pointer>, allowPending: bool)
    returns (chain: Result<seq<Pointer>>)
    ensures chain == if ChainOk(files, engineer, pointer) && (allowPending || !IsPending(pointer))
                     then Success(Lineage(pointer)) else Refused
  {
    var links := WalkBack(files, engineer, pointer);
    if links.Refused? { return Refused; }
    var claimed := CheckLinks(files, engineer, links.value);
    if claimed.Refused? { return Refused; }
    if !KeysOk(files, claimed.value) || (!allowPending && IsPending(pointer)) { return Refused; }
    chain := links;
  }

  // ----- epochs -----

  datatype Resolved = Resolved(record: Sha<Resolution>, order: nat)

  datatype Epoch = Epoch(selector: Selector, expected: Option<string>, from: nat, qualification: Option<string>,
                         qualified: bool, resolved: Option<Resolved>, request: Option<Id>,
                         record: Option<Sha<Record>>)

  function OpenEpoch(pin: Pin, from: nat, request: Option<Id>, record: Option<Sha<Record>>): Epoch {
    Epoch(pin.selector,
          match pin.selector
          case Exact(m) => Some(m)
          case Family(_) => if pin.execution.None? then None else Some(pin.execution.value.expected),
          from, pin.policy, pin.execution.Some?, None, request, record)
  }

  /** The initial epoch, then one for every commit along the lineage; resolutions are not applied yet. */
  function History(initial: Pin, pointer: Option<Pointer>): (h: seq<Epoch>)
    ensures h != []
  {
    match pointer
    case None => [OpenEpoch(initial, 1, None, None)]
    case Some(p) =>
      var h := History(initial, p.intent.previous);
      match p.state
      case CommittedAt(sha) => h + [OpenEpoch(sha.target, sha.boundary + 1, Some(p.id), Some(sha))]
      case _ => h
  }

  function LastEpoch(h: seq<Epoch>): Epoch
    requires h != []
  {
    h[|h| - 1]
  }

  /** One committed record continues the epoch before it over the retained requests. */
  predicate EpochStepOk(last: Epoch, ids: seq<Id>, intent: Intent, record: Record) {
    && PinOk(record.target) && SelectorOk(record.target.selector)
    && record.source == last.selector
    && last.from <= record.boundary + 1
    && record.boundary <= |ids|
    && ids[..record.boundary] == intent.evidence.requests
    && !(last.qualified && record.target.selector == last.selector && record.target.execution.None?)
  }

  predicate HistoryOk(initial: Pin, ids: seq<Id>, pointer: Option<Pointer>) {
    match pointer
    case None => PinOk(initial) && SelectorOk(initial.selector)
    case Some(p) =>
      && HistoryOk(initial, ids, p.intent.previous)
      && (p.state.CommittedAt? ==>
            EpochStepOk(LastEpoch(History(initial, p.intent.previous)), ids, p.intent, p.state.record))
  }

  function EpochIndex(h: seq<Epoch>, order: nat): (k: nat)
    requires h != []
    ensures k < |h|
  {
    if |h| == 1 || LastEpoch(h).from <= order then |h| - 1 else EpochIndex(h[..|h| - 1], order)
  }

  function EpochFor(h: seq<Epoch>, order: nat): Epoch
    requires h != []
  {
    h[EpochIndex(h, order)]
  }

  /** The forward scan that keeps the last epoch opened at or before the order. */
  method ScanEpochs(h: seq<Epoch>, order: nat) returns (chosen: Epoch)
    requires h != []
    ensures chosen == EpochFor(h, order)
  {
    chosen := h[0];
    var k := 0;
    while k < |h|
      invariant 0 <= k <= |h|
      invariant k == 0 ==> chosen == h[0]
      invariant k > 0 ==> chosen == EpochFor(h[..k], order)
    {
      assert h[..k + 1][..k] == h[..k];
      if h[k].from <= order { chosen := h[k]; }
      k := k + 1;
    }
    assert h[..k] == h;
  }

  // ----- observation resolutions -----

  /** session is the bound engineer's, if the room has bound one. */
  predicate IsEngineerRequest(session: Option<string>, request: Request) {
    request.role == "engineer" && session == Some(request.session)
  }

  /** The creation order of the newest engineer request created at or after an order, if any. */
  function LatestEngineer(requests: seq<Request>, session: Option<string>, from: nat): (o: Option<nat>)
    ensures o.Some? ==> 1 <= o.value <= |requests| && from <= o.value
    ensures o.Some? ==> IsEngineerRequest(session, requests[o.value - 1])
  {
    if |requests| == 0 || |requests| < from then None
    else if IsEngineerRequest(session, requests[|requests| - 1]) then Some(|requests|)
    else LatestEngineer(requests[..|requests| - 1], session, from)
  }

  predicate IsSettled(request: Request) { request.state.Completed? || request.state.SettledFailure? }

  /** A resolution file agrees with the epoch and the request of its order and with a saved outcome. */
  predicate ResolutionOk(h: seq<Epoch>, session: Option<string>, requests: seq<Request>, outcomes: set<SemanticOutcome>,
                         name: Id, value: Resolution)
    requires h != []
  {
    var epoch := EpochFor(h, value.order);
    && value.id == name
    && 1 <= value.order <= |requests|
    && epoch.qualification.None?
    && value.selector.Family?
    && epoch.selector == value.selector
    && value.configured == epoch.selector.Configured()
    && value.epochRequest == epoch.request
    && FamilyMember(value.selector.family, value.observed)
    && var request := requests[value.order - 1];
    && request.id == value.id
    && IsEngineerRequest(session, request)
    && IsSettled(request)
    && request.receipt == value.receipt
    && request.model == value.configured
    && value.outcome in outcomes
    && value.outcome.request == value.id
    && value.outcome.receipt == value.receipt
    && !value.outcome.unknown
    && value.outcome.session == request.session
    && value.outcome.observed == [value.observed]
  }

  /** Everything the resolution reader looks at. */
  datatype Ledger = Ledger(session: Option<string>, requests: seq<Request>, outcomes: set<SemanticOutcome>,
                           files: map<Id, Resolution>, pointers: seq<ResolutionPointer>)

  predicate ClaimedOk(h: seq<Epoch>, l: Ledger)
    requires h != []
  {
    && |l.pointers| <= |h|
    && (forall i :: 0 <= i < |l.pointers| ==>
          && Find(l.files, l.pointers[i].id) == Some(l.pointers[i].record)
          && ResolutionOk(h, l.session, l.requests, l.outcomes, l.pointers[i].id, l.pointers[i].record))
    && (forall i, j :: 0 <= i < j < |l.pointers| ==>
          && l.pointers[i].id != l.pointers[j].id
          && l.pointers[i].record.order < l.pointers[j].record.order
          && EpochIndex(h, l.pointers[i].record.order) != EpochIndex(h, l.pointers[j].record.order))
  }

  function ClaimedNames(l: Ledger): set<Id> { set p | p in l.pointers :: p.id }

  /** A resolution file no pointer claims yet, as an adoption stopped half way leaves it: of the newest epoch, which
      no claimed resolution belongs to, and of its newest engineer request. */
  predicate InterruptedOk(h: seq<Epoch>, l: Ledger, name: Id)
    requires h != []
  {
    && name in l.files
    && ResolutionOk(h, l.session, l.requests, l.outcomes, name, l.files[name])
    && EpochIndex(h, l.files[name].order) == |h| - 1
    && (forall i :: 0 <= i < |l.pointers| ==> EpochIndex(h, l.pointers[i].record.order) != |h| - 1)
    && LatestEngineer(l.requests, l.session, LastEpoch(h).from) == Some(l.files[name].order)
  }

  predicate ResolutionsOk(h: seq<Epoch>, l: Ledger)
    requires h != []
  {
    && ClaimedOk(h, l)
    && ClaimedNames(l) <= l.files.Keys
    && forall name :: name in l.files && name !in ClaimedNames(l) ==>
         InterruptedOk(h, l, name) && l.files.Keys == ClaimedNames(l) + {name}
  }

  function Resolve(h: seq<Epoch>, value: Resolution): (r: seq<Epoch>)
    requires h != []
    ensures |r| == |h|
  {
    var k := EpochIndex(h, value.order);
    h[k := h[k].(expected := Some(value.observed), resolved := Some(Resolved(value, value.order)))]
  }

  /** The epochs with every claimed resolution applied, in claim order. */
  function ResolveAll(h: seq<Epoch>, pointers: seq<ResolutionPointer>): (r: seq<Epoch>)
    requires h != []
    ensures |r| == |h|
  {
    if pointers == [] then h
    else Resolve(ResolveAll(h, pointers[..|pointers| - 1]), pointers[|pointers| - 1].record)
  }

  // ----- frozen request identities -----

  /** What an engineer request of this order freezes in this epoch. */
  function FrozenAt(epoch: Epoch, order: nat): Result<Frozen> {
    var carry := (expected, resolution) =>
      Success(Frozen(epoch.selector, epoch.selector.Configured(), expected, resolution, epoch.qualification));
    if epoch.selector.Exact? then carry(epoch.expected, None)
    else if epoch.qualification.Some? then
      if !epoch.qualified then Refused else carry(epoch.expected, None)
    else if epoch.resolved.Some? && epoch.resolved.value.order < order then
      carry(epoch.expected, Some(epoch.resolved.value.record))
    else carry(None, None)
  }

  /** The request still says what the epoch of its order would make it say. */
  predicate RequestOk(h: seq<Epoch>, request: Request, order: nat)
    requires h != []
  {
    var epoch := EpochFor(h, order);
    && request.model == epoch.selector.Configured()
    && request.effort == EFFORT
    && (request.frozen.None? ==> epoch.selector.Exact?)
    && (request.frozen.Some? ==> FrozenAt(epoch, order) == Success(request.frozen.value))
  }

  predicate RequestsOk(h: seq<Epoch>, session: Option<string>, requests: seq<Request>)
    requires h != []
  {
    forall k :: 0 <= k < |requests| && IsEngineerRequest(session, requests[k]) ==> RequestOk(h, requests[k], k + 1)
  }
}
