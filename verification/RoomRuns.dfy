/** Every call that may move a room's engineering journal, and runs of such calls in which each one
    may be cut after any of its durable writes. */
module RoomRuns {
  import opened Values
  import opened EngineeringModel
  import opened EngineeringTransition

  /** What a later observation may change about a retained request: never its identity, and never the
      settled state and receipt of a settled one. */
  predicate RequestProgress(before: Request, after: Request) {
    && after == before.(state := after.state, receipt := after.receipt, outcome := after.outcome)
    && (IsSettled(before) ==> IsSettled(after) && after.receipt == before.receipt)
  }

  predicate ProgressOk(d: Disk, requests: seq<Request>, outcomes: set<SemanticOutcome>) {
    && |requests| == |d.room.requests|
    && (forall k :: 0 <= k < |requests| ==> RequestProgress(d.room.requests[k], requests[k]))
    && d.outcomes <= outcomes
  }

  /** The request has settled, and its saved outcome names a single model, which belongs to the family. */
  predicate ProvesModel(d: Disk, family: string, request: Request) {
    && IsSettled(request)
    && request.outcome.Some?
    && var outcome := request.outcome.value;
    && outcome in d.outcomes
    && outcome.request == request.id && outcome.receipt == request.receipt
    && outcome.session == request.session
    && !outcome.unknown
    && |outcome.observed| == 1
    && FamilyMember(family, outcome.observed[0])
  }

  function NewResolution(epoch: Epoch, request: Request, order: nat, now: int): Resolution
    requires request.outcome.Some? && |request.outcome.value.observed| == 1
  {
    Resolution(request.id, epoch.request, epoch.selector, epoch.selector.Configured(),
               request.outcome.value.observed[0], request.outcome.value, request.receipt, order, now)
  }

  /** Only an unresolved family epoch without an operator-selected qualification adopts. */
  predicate Adopting(epoch: Epoch) {
    epoch.qualification.None? && epoch.selector.Family? && epoch.resolved.None?
  }

  function LatestIn(room: Room, epoch: Epoch): (o: Option<nat>)
    ensures o.Some? ==> 1 <= o.value <= |room.requests|
  {
    LatestEngineer(room.requests, Session(room), epoch.from)
  }

  /** The resolution an engineer dispatch claims: the unclaimed one on disk, or a new one that the newest engineer
      request proves. */
  function Adoptable(d: Disk, now: int): Result<Option<Resolution>> {
    if d.room.engineer.None? then Success(None)
    else if !JournalOk(d, false) then Refused
    else
      var epoch := LastEpoch(EpochsOf(d.room));
      var latest := LatestIn(d.room, epoch);
      if !Adopting(epoch) then Success(None)
      else if PendingResolution(d).Some? then Success(Some(d.resolutions[PendingResolution(d).value]))
      else if latest.None? then Success(None)
      else
        var request := d.room.requests[latest.value - 1];
        if !ProvesModel(d, epoch.selector.family, request) then Success(None)
        else if !RequestOk(EpochsOf(d.room), request, latest.value) || request.id in d.resolutions then Refused
        else Success(Some(NewResolution(epoch, request, latest.value, now)))
  }

  function AdoptPlan(d: Disk, now: int): Plan {
    var choice := Adoptable(d, now);
    if choice.Refused? then REFUSED
    else if choice.value.None? then Plan([], StillPending(false))
    else ResolutionPlan(d, choice.value.value, false)
  }

  /** The identity a new engineer request freezes; a family epoch without an operator-selected
      qualification refuses new dispatch. */
  function FreezeRequest(room: Room): Result<Frozen> {
    var epoch := LastEpoch(EpochsOf(room));
    if epoch.selector.Family? && !epoch.qualified then Refused else FrozenAt(epoch, |room.requests| + 1)
  }

  function EngineerRequest(room: Room, id: Id, session: string, frozen: Frozen): Request {
    Request(id, "engineer", session, LastEpoch(EpochsOf(room)).selector.Configured(), EFFORT, Unsettled, "", None,
            Some(frozen))
  }

  /** A new request of any role: an engineer request crosses the adoption boundary and freezes its
      identity first; every request is appended as the newest in creation order. */
  function SendPlan(d: Disk, id: Id, role: string, session: string, now: int): Plan {
    if !JournalOk(d, false) || id in RequestIds(d.room.requests) then REFUSED
    else if role != "engineer" then
      Plan([SaveRequest(Request(id, role, session, "", EFFORT, Unsettled, "", None, None))], StillPending(false))
    else if Session(d.room) != Some(session) then REFUSED
    else
      var adopt := AdoptPlan(d, now);
      var adopted := PutAll(d, adopt.writes);
      if adopt.reply.Refusal? || FreezeRequest(adopted.room).Refused? then Plan(adopt.writes, Refusal)
      else Plan(adopt.writes + [SaveRequest(EngineerRequest(adopted.room, id, session,
                                                            FreezeRequest(adopted.room).value))],
                StillPending(false))
  }

  predicate UsesSession(room: Room, session: string) {
    exists k :: 0 <= k < |room.requests| && room.requests[k].session == session
  }

  /** The engineer binding is immutable once saved, and its session is one the room never used. allowed stands for
      everything outside the journal that binding asks for. */
  function BindPlan(d: Disk, binding: Binding, allowed: bool): Plan {
    if !allowed then REFUSED
    else if d.room.engineer.Some? then
      if d.room.engineer == Some(binding) then Plan([], StillPending(false)) else REFUSED
    else if UsesSession(d.room, binding.session) then REFUSED
    else Plan([SaveEngineer(binding)], StillPending(false))
  }

  datatype Call =
    | Bind(binding: Binding, allowed: bool)
    | Transition(inputs: Inputs, precondition: Option<bool>, env: Env)
    | Abandon(call: AbandonCall, env: Env)
    | Send(id: Id, role: string, session: string, now: int)
    | Progress(requests: seq<Request>, policy: Option<PolicyPointer>, other: int, outcomes: set<SemanticOutcome>)

  function PlanOf(d: Disk, call: Call): Plan {
    match call
    case Bind(binding, allowed) => BindPlan(d, binding, allowed)
    case Transition(inputs, precondition, env) => TransitionPlan(d, inputs, precondition, env)
    case Abandon(c, env) => AbandonPlan(d, c, env)
    case Send(id, role, session, now) => SendPlan(d, id, role, session, now)
    case Progress(requests, policy, other, outcomes) =>
      if ProgressOk(d, requests, outcomes)
      then Plan([SaveProgress(requests, policy, other, outcomes)], StillPending(false)) else REFUSED
  }

  /** One call and the number of its durable writes that happen before the machine stops. */
  datatype Event = Event(call: Call, cut: nat)

  function Durable(d: Disk, event: Event): seq<Write> {
    var writes := PlanOf(d, event.call).writes;
    writes[..Min(event.cut, |writes|)]
  }

  function Run(d: Disk, events: seq<Event>): Disk
    decreases events
  {
    if events == [] then d else Run(PutAll(d, Durable(d, events[0])), events[1..])
  }
}
