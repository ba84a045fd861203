/** The journal of extra acceptance reviews. A room has three reviews for free; each further one is named by a
    grant and spends it. Grants and consumptions alternate in a hash chain whose length must match the number of
    reviewer requests, wherever a crash falls. */
module AcceptanceExtension {
  import opened Values

  const LIMIT: nat := 3

  // ----- room state -----

  /** What a continuation puts on the review it dispatches. */
  datatype Link = Link(grantId: Id, grant: Sha<Entry>, consumption: Sha<Entry>)

  /** sent is what the request carried when it was sent; outcome is its settled result; observed is
      metadata every later observation may change. */
  datatype Request = Request(id: Id, reviewer: bool, sent: int, settled: bool, outcome: int, observed: int,
                             link: Option<Link>)

  /** pinned never changes; frozen is pinned while a grant is unused; history is the append-only record
      of acceptances and verifications. requests are in creation order. */
  datatype State = State(pinned: int, frozen: int, requests: seq<Request>, history: seq<int>, items: seq<Item>)

  /** One projected journal entry: the kind the projection recorded and the entry's digest. */
  datatype Item = Item(grant: bool, entry: Sha<Entry>)

  datatype Target = Target(review: Id, message: string)

  /** live is the rest of the inspected evidence: specification, checkpoint, candidate and native owners. */
  datatype Evidence = Evidence(target: Target, state: State, entries: seq<Entry>, attempts: nat, live: int)

  datatype Inputs = Inputs(id: Id, audit: Sha<Evidence>, authorization: string)

  datatype Entry =
    | Grant(sequence: nat, previous: Option<Sha<Entry>>, inputs: Inputs, target: Target, attempts: nat,
            evidence: Sha<Evidence>, recordedAt: int)
    | Consumption(sequence: nat, previous: Option<Sha<Entry>>, grant: Sha<Entry>, grantId: Id, review: Id,
                  message: string, request: Request, recordedAt: int)

  /** files are the journal files by sequence number; posted counts the reviews already dispatched. */
  datatype Disk = Disk(files: seq<Entry>, audits: set<Evidence>, state: State, posted: multiset<Id>)

  function Reviewers(requests: seq<Request>): seq<Request> {
    if requests == [] then []
    else
      var last := requests[|requests| - 1];
      Reviewers(requests[..|requests| - 1]) + if last.reviewer then [last] else []
  }

  predicate Has(requests: seq<Request>, id: Id) { exists k :: 0 <= k < |requests| && requests[k].id == id }

  // ----- the journal reader -----

  function Last(entries: seq<Entry>): Option<Sha<Entry>> {
    if entries == [] then None else Some(entries[|entries| - 1])
  }

  /** Numbering and hash chain. */
  predicate Chained(entries: seq<Entry>) {
    forall k :: 0 <= k < |entries| ==> entries[k].sequence == k + 1 && entries[k].previous == Last(entries[..k])
  }

  /** The projection alternates grants and consumptions and names exactly the journal files, which may
      hold one more entry that was never projected. */
  predicate Projected(files: seq<Entry>, items: seq<Item>) {
    && |items| <= |files| <= |items| + 1
    && forall k :: 0 <= k < |items| ==> items[k].entry == files[k] && items[k].grant == (k % 2 == 0)
  }

  function Entries(d: Disk): seq<Entry>
    requires |d.state.items| <= |d.files|
  {
    d.files[..|d.state.items|]
  }

  function Pending(d: Disk): Option<Entry>
    requires |d.state.items| <= |d.files| <= |d.state.items| + 1
  {
    if |d.files| == |d.state.items| then None else Some(d.files[|d.state.items|])
  }

  predicate JournalOk(d: Disk, allowPending: bool) {
    && Projected(d.files, d.state.items)
    && Chained(d.files)
    && (Pending(d).Some? ==> allowPending && Pending(d).value.Grant?)
  }

  // ----- accounting -----

  function Grants(entries: seq<Entry>): nat {
    if entries == [] then 0
    else Grants(entries[..|entries| - 1]) + if entries[|entries| - 1].Grant? then 1 else 0
  }

  function Consumptions(entries: seq<Entry>): nat {
    if entries == [] then 0
    else Consumptions(entries[..|entries| - 1]) + if entries[|entries| - 1].Consumption? then 1 else 0
  }

  /** Grant ids and intended review ids are distinct and never repurposed. */
  predicate IdentitiesOk(all: seq<Entry>) {
    && (forall i, j :: 0 <= i < j < |all| && all[i].Grant? && all[j].Grant? ==>
          all[i].inputs.id != all[j].inputs.id && all[i].target.review != all[j].target.review)
    && forall i, j :: 0 <= i < |all| && 0 <= j < |all| && all[i].Grant? && all[j].Grant? ==>
         all[i].inputs.id != all[j].target.review
  }

  predicate CountersOk(entries: seq<Entry>, requests: seq<Request>) {
    && (forall k :: 0 <= k < |entries| && entries[k].Grant? ==>
          entries[k].attempts == LIMIT + Grants(entries[..k]))
    && |Reviewers(requests)| == LIMIT + Consumptions(entries)
  }

  /** A consumption answers the grant right before it and is the next reviewer attempt. */
  predicate ConsumptionOk(entries: seq<Entry>, k: nat, attempt: Request)
    requires k < |entries| && entries[k].Consumption?
  {
    var c := entries[k];
    && 0 < k && entries[k - 1].Grant?
    && c.grant == entries[k - 1]
    && c.grantId == entries[k - 1].inputs.id
    && c.review == entries[k - 1].target.review
    && c.message == entries[k - 1].target.message
    && attempt.id == c.review
    && attempt.link == Some(Link(c.grantId, c.grant, c))
    && attempt.sent == c.request.sent && attempt.reviewer == c.request.reviewer
  }

  predicate ConsumptionsOk(entries: seq<Entry>, requests: seq<Request>)
    requires |Reviewers(requests)| == LIMIT + Consumptions(entries)
  {
    forall k :: 0 <= k < |entries| && entries[k].Consumption? ==>
      && LIMIT + Consumptions(entries[..k]) < |Reviewers(requests)|
      && ConsumptionOk(entries, k, Reviewers(requests)[LIMIT + Consumptions(entries[..k])])
  }

  function ConsumedIds(entries: seq<Entry>): set<Id> {
    set e | e in entries && e.Consumption? :: e.review
  }

  function LinkedIds(requests: seq<Request>): set<Id> {
    set r | r in requests && r.link.Some? :: r.id
  }

  predicate Unused(entries: seq<Entry>) { entries != [] && entries[|entries| - 1].Grant? }

  function LatestGrant(all: seq<Entry>): Option<Entry> {
    if all == [] then None
    else if all[|all| - 1].Grant? then Some(all[|all| - 1])
    else LatestGrant(all[..|all| - 1])
  }

  /** A request retained since the audit keeps everything but its observations. */
  predicate RetainedRequest(before: Request, now: Request) {
    && now == before.(observed := now.observed, link := now.link)
    && (before.link.Some? ==> now.link == before.link)
  }

  /** What must not have changed since the latest grant's audit. */
  predicate Retained(entries: seq<Entry>, state: State, evidence: Evidence, unused: bool) {
    var baseline := evidence.state;
    && state.pinned == baseline.pinned
    && |baseline.requests| <= |state.requests|
    && (forall k :: 0 <= k < |baseline.requests| ==> RetainedRequest(baseline.requests[k], state.requests[k]))
    && baseline.history <= state.history
    && evidence.entries <= entries
    && (unused ==> && state.frozen == baseline.frozen
                   && |state.requests| == |baseline.requests|
                   && state.history == baseline.history)
  }

  predicate LatestOk(audits: set<Evidence>, state: State, entries: seq<Entry>, all: seq<Entry>) {
    var latest := LatestGrant(all);
    latest.Some? ==>
      && latest.value.Grant?
      && latest.value.inputs.audit in audits
      && latest.value.evidence == latest.value.inputs.audit
      && latest.value.target == latest.value.evidence.target
      && Retained(entries, state, latest.value.evidence, Unused(all))
  }

  /** No grant id names a room request, and the review an unused grant intends does not exist yet. */
  predicate IntendedFree(all: seq<Entry>, requests: seq<Request>) {
    && (forall k :: 0 <= k < |all| && all[k].Grant? ==> !Has(requests, all[k].inputs.id))
    && (Unused(all) ==> !Has(requests, all[|all| - 1].target.review))
  }

  predicate Linked(entries: seq<Entry>, requests: seq<Request>) {
    LinkedIds(requests) == ConsumedIds(entries)
  }

  /** Offline integrity and accounting of the whole lane. */
  predicate Verified(d: Disk, allowPending: bool) {
    && JournalOk(d, allowPending)
    && IdentitiesOk(d.files)
    && IntendedFree(d.files, d.state.requests)
    && CountersOk(Entries(d), d.state.requests)
    && ConsumptionsOk(Entries(d), d.state.requests)
    && Linked(Entries(d), d.state.requests)
    && LatestOk(d.audits, d.state, Entries(d), d.files)
  }

  /** A room that never used the lane. */
  predicate Blank(d: Disk) { d.state.items == [] && d.files == [] && LinkedIds(d.state.requests) == {} }

  predicate Validated(d: Disk, allowPending: bool) {
    if Blank(d) then |Reviewers(d.state.requests)| <= LIMIT else Verified(d, allowPending)
  }

  // ----- durable writes -----

  datatype Write =
    | StoreAudit(evidence: Evidence)
    | StoreEntry(entry: Entry)
    | SaveState(state: State)
    | Post(id: Id, message: string)

  function Put(d: Disk, w: Write): Disk {
    match w
    case StoreAudit(e) => d.(audits := d.audits + {e})
    case StoreEntry(e) => d.(files := d.files + [e])
    case SaveState(s) => d.(state := s)
    case Post(id, _) => d.(posted := d.posted + multiset{id})
  }

  function PutAll(d: Disk, ws: seq<Write>): Disk
    decreases ws
  {
    if ws == [] then d else PutAll(Put(d, ws[0]), ws[1..])
  }

  /** The disk after each prefix of a short list of writes. */
  lemma PrefixWrites(d: Disk, ws: seq<Write>)
    ensures PutAll(d, ws[..0]) == d
    ensures |ws| >= 1 ==> PutAll(d, ws[..1]) == Put(d, ws[0])
    ensures |ws| >= 2 ==> PutAll(d, ws[..2]) == Put(Put(d, ws[0]), ws[1])
    ensures |ws| >= 3 ==> PutAll(d, ws[..3]) == Put(Put(Put(d, ws[0]), ws[1]), ws[2])
    decreases ws
  {
    if |ws| >= 1 {
      assert ws[..1][1..] == [];
      PrefixWrites(Put(d, ws[0]), ws[1..]);
      assert |ws| >= 2 ==> ws[..2][1..] == ws[1..][..1];
      assert |ws| >= 3 ==> ws[..3][1..] == ws[1..][..2];
    }
  }

  datatype Plan = Plan(writes: seq<Write>, accepted: bool)

  const REFUSED := Plan([], false)

  // ----- operations -----

  predicate AllSettled(requests: seq<Request>) { forall k :: 0 <= k < |requests| ==> requests[k].settled }

  function EvidenceOf(d: Disk, target: Target, live: int): Evidence
    requires |d.state.items| <= |d.files|
  {
    Evidence(target, d.state, Entries(d), |Reviewers(d.state.requests)|, live)
  }

  /** Some grant of the journal already uses this id, as its own or as its review's. */
  predicate Claimed(entries: seq<Entry>, id: Id) {
    exists k :: 0 <= k < |entries| && entries[k].Grant? && (entries[k].inputs.id == id || entries[k].target.review == id)
  }

  /** The eligibility of an audit or a new grant, or of reconciling the pending one. */
  predicate Inspects(d: Disk, target: Target, reconcile: bool) {
    && AllSettled(d.state.requests)
    && Validated(d, reconcile)
    && |Reviewers(d.state.requests)| >= LIMIT
    && |Reviewers(d.state.requests)| == LIMIT + Consumptions(Entries(d))
    && !Unused(Entries(d))
    && if reconcile then Pending(d).Some? && target.review == Pending(d).value.target.review
                         && target.message == Pending(d).value.target.message
       else Pending(d).None? && !Has(d.state.requests, target.review) && !Claimed(Entries(d), target.review)
  }

  function AuditPlan(d: Disk, target: Target, live: int): Plan {
    if !Inspects(d, target, false) then REFUSED else Plan([StoreAudit(EvidenceOf(d, target, live))], true)
  }

  function FindGrant(entries: seq<Entry>, id: Id): (r: Option<nat>)
    ensures r.Some? ==> r.value < |entries| && entries[r.value].Grant? && entries[r.value].inputs.id == id
    ensures r.None? ==> forall k :: 0 <= k < |entries| && entries[k].Grant? ==> entries[k].inputs.id != id
  {
    if entries == [] then None
    else
      var n := |entries| - 1;
      var earlier := FindGrant(entries[..n], id);
      if earlier.Some? then earlier
      else if entries[n].Grant? && entries[n].inputs.id == id then Some(n)
      else None
  }

  function NewGrant(entries: seq<Entry>, inputs: Inputs, now: int): Entry {
    Grant(|entries| + 1, Last(entries), inputs, inputs.audit.target, inputs.audit.attempts, inputs.audit, now)
  }

  function WithItem(state: State, entry: Entry): State {
    state.(items := state.items + [Item(entry.Grant?, entry)])
  }

  /** The refusals of a grant request after its idempotent answer and before its entry is built. */
  predicate Grantable(d: Disk, inputs: Inputs, live: int) {
    && Validated(d, true)
    && (Pending(d).Some? ==> Pending(d).value.Grant? && Pending(d).value.inputs == inputs)
    && inputs.audit in d.audits
    && !Has(d.state.requests, inputs.id)
    && inputs.id != inputs.audit.target.review
    && !Claimed(Entries(d), inputs.id)
    && Inspects(d, inputs.audit.target, Pending(d).Some?)
    && EvidenceOf(d, inputs.audit.target, live) == inputs.audit
  }

  function ExtendPlan(d: Disk, inputs: Inputs, live: int, now: int): Plan {
    if !Validated(d, true) then REFUSED
    else
      var known := FindGrant(Entries(d), inputs.id);
      if known.Some? then (if Entries(d)[known.value].inputs == inputs then Plan([], true) else REFUSED)
      else if !Grantable(d, inputs, live) then REFUSED
      else if Pending(d).None? then
        var entry := NewGrant(Entries(d), inputs, now);
        Plan([StoreEntry(entry), SaveState(WithItem(d.state, entry))], true)
      else
        var entry := NewGrant(Entries(d), inputs, Pending(d).value.recordedAt);
        if entry != Pending(d).value then REFUSED else Plan([SaveState(WithItem(d.state, entry))], true)
  }

  /** The grant a send of one more review may consume. */
  predicate Admitted(d: Disk, id: Id, message: string, live: int) {
    && Validated(d, false)
    && Unused(Entries(d))
    && var grant := d.files[|d.files| - 1];
    && id == grant.target.review
    && message == grant.target.message
    && grant.inputs.audit in d.audits
    && !Has(d.state.requests, id)
    && AllSettled(d.state.requests)
    && live == grant.inputs.audit.live
    && |Reviewers(d.state.requests)| == grant.inputs.audit.attempts
  }

  function NewConsumption(grant: Entry, request: Request, now: int): Entry
    requires grant.Grant?
  {
    Consumption(grant.sequence + 1, Some(grant), grant, grant.inputs.id, grant.target.review, grant.target.message,
                request, now)
  }

  function LinkedRequest(grant: Entry, consumption: Entry): Request
    requires grant.Grant? && consumption.Consumption?
  {
    consumption.request.(link := Some(Link(grant.inputs.id, grant, consumption)))
  }

  function NewRequest(id: Id, reviewer: bool, sent: int): Request {
    Request(id, reviewer, sent, false, 0, 0, None)
  }

  function WithRequest(state: State, request: Request): State { state.(requests := state.requests + [request]) }

  /** A send. Beyond the ordinary attempts a review needs the unused grant, and its consumption is stored
      before the state is saved and the state before anything is posted. */
  function SendPlan(d: Disk, id: Id, reviewer: bool, sent: int, message: string, live: int, now: int): Plan {
    var request := NewRequest(id, reviewer, sent);
    if Has(d.state.requests, id) || !Validated(d, false) then REFUSED
    else if FindGrant(Entries(d), id).Some? || (Unused(Entries(d)) && !reviewer) then REFUSED
    else if !reviewer || |Reviewers(d.state.requests)| < LIMIT then
      Plan([SaveState(WithRequest(d.state, request)), Post(id, message)], true)
    else if !Admitted(d, id, message, live) then REFUSED
    else
      var grant := d.files[|d.files| - 1];
      var consumption := NewConsumption(grant, request, now);
      Plan([StoreEntry(consumption),
            SaveState(WithRequest(WithItem(d.state, consumption), LinkedRequest(grant, consumption))),
            Post(id, message)], true)
  }

  /** Later observation of a request: its outcome settles once, its observations may always change. */
  predicate Observed(before: Request, now: Request) {
    && now == before.(settled := now.settled, outcome := now.outcome, observed := now.observed)
    && (before.settled ==> now.settled && now.outcome == before.outcome)
  }

  predicate AllObserved(before: seq<Request>, now: seq<Request>) {
    && |now| == |before|
    && forall k :: 0 <= k < |before| ==> Observed(before[k], now[k])
  }

  /** Everything else the room does between sends. What an unused grant freezes changes only behind the
      guard that refuses while one is unused. */
  predicate ProgressOk(d: Disk, now: State) {
    && now.pinned == d.state.pinned
    && now.items == d.state.items
    && AllObserved(d.state.requests, now.requests)
    && d.state.history <= now.history
    && (now.frozen != d.state.frozen || now.history != d.state.history ==>
          Validated(d, false) && !Unused(Entries(d)))
  }

  datatype Call =
    | Audit(target: Target, live: int)
    | Extend(inputs: Inputs, live: int, now: int)
    | Send(id: Id, reviewer: bool, sent: int, message: string, live: int, now: int)
    | Progress(state: State)

  function PlanOf(d: Disk, call: Call): Plan {
    match call
    case Audit(target, live) => AuditPlan(d, target, live)
    case Extend(inputs, live, now) => ExtendPlan(d, inputs, live, now)
    case Send(id, reviewer, sent, message, live, now) => SendPlan(d, id, reviewer, sent, message, live, now)
    case Progress(state) => if ProgressOk(d, state) then Plan([SaveState(state)], true) else REFUSED
  }

  /** One call, and how many of its durable writes happen before the machine stops. */
  datatype Event = Event(call: Call, cut: nat)

  function Durable(d: Disk, event: Event): seq<Write> {
    var writes := PlanOf(d, event.call).writes;
    writes[..Min(event.cut, |writes|)]
  }

  function Run(d: Disk, events: seq<Event>): Disk
    decreases events
  {
    if events == [] then d else Run(PutAll(d, Durable(d, events[0])), events[1..])
  }
}
