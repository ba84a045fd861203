/** When an engineer dispatch adopts the observed model of a family, and that an adoption once stored can be claimed. */
module ResolutionFacts {
  import opened Values
  import opened EngineeringModel
  import opened EngineeringTransition
  import opened JournalProofs
  import opened RoomRuns
  import opened TransitionSafety
  import opened TransitionProtocol
  import opened RoomTheorems
  import opened AttemptProgress

  // ----- a stored adoption can be claimed -----

  /** A later order never belongs to an earlier epoch. */
  lemma {:induction false} IndexMonotone(h: seq<Epoch>, a: nat, b: nat)
    requires h != [] && a <= b
    ensures EpochIndex(h, a) <= EpochIndex(h, b)
    decreases |h|
  {
    if |h| > 1 && LastEpoch(h).from > b { IndexMonotone(h[..|h| - 1], a, b); }
  }

  /** Strictly rising positions below a bound are no more than the bound. */
  lemma {:induction false} RisingCount(h: seq<Epoch>, pointers: seq<ResolutionPointer>, bound: nat)
    requires h != []
    requires forall i, j :: 0 <= i < j < |pointers| ==>
               EpochIndex(h, pointers[i].record.order) < EpochIndex(h, pointers[j].record.order)
    requires forall i :: 0 <= i < |pointers| ==> EpochIndex(h, pointers[i].record.order) < bound
    ensures |pointers| <= bound
    decreases |pointers|
  {
    if pointers != [] {
      var n := |pointers| - 1;
      RisingCount(h, pointers[..n], EpochIndex(h, pointers[n].record.order));
    }
  }

  lemma ClaimedRise(h: seq<Epoch>, l: Ledger, i: nat, j: nat)
    requires h != [] && ClaimedOk(h, l) && i < j < |l.pointers|
    ensures EpochIndex(h, l.pointers[i].record.order) < EpochIndex(h, l.pointers[j].record.order)
  {
    IndexMonotone(h, l.pointers[i].record.order, l.pointers[j].record.order);
  }

  /** The ledger once the named file is claimed. */
  function Claiming(l: Ledger, name: Id): Ledger
    requires name in l.files
  {
    l.(pointers := l.pointers + [ResolutionPointer(name, l.files[name])])
  }

  lemma BeforeInterrupted(h: seq<Epoch>, l: Ledger, name: Id, i: nat)
    requires h != [] && ResolutionsOk(h, l) && InterruptedOk(h, l, name) && name !in ClaimedNames(l)
    requires i < |l.pointers|
    ensures EpochIndex(h, l.pointers[i].record.order) < |h| - 1
    ensures l.pointers[i].record.order < l.files[name].order && l.pointers[i].id != name
  {
    if l.pointers[i].record.order >= l.files[name].order {
      IndexMonotone(h, l.files[name].order, l.pointers[i].record.order);
    }
    assert l.pointers[i] in l.pointers;
  }

  lemma ClaimingOk(h: seq<Epoch>, l: Ledger, name: Id)
    requires h != [] && ResolutionsOk(h, l) && InterruptedOk(h, l, name) && name !in ClaimedNames(l)
    ensures ResolutionsOk(h, Claiming(l, name))
  {
    var more := Claiming(l, name);
    forall i | 0 <= i < |l.pointers|
      ensures EpochIndex(h, l.pointers[i].record.order) < |h| - 1
      ensures l.pointers[i].record.order < l.files[name].order && l.pointers[i].id != name
    {
      BeforeInterrupted(h, l, name, i);
    }
    forall i, j | 0 <= i < j < |l.pointers|
      ensures EpochIndex(h, l.pointers[i].record.order) < EpochIndex(h, l.pointers[j].record.order)
    {
      ClaimedRise(h, l, i, j);
    }
    RisingCount(h, l.pointers, |h| - 1);
    assert ClaimedNames(more) == ClaimedNames(l) + {name} by {
      assert forall p :: p in more.pointers <==> p in l.pointers || p == ResolutionPointer(name, l.files[name]);
    }
    ClaimingShape(h, l, name);
  }

  lemma ClaimingShape(h: seq<Epoch>, l: Ledger, name: Id)
    requires h != [] && ClaimedOk(h, l) && InterruptedOk(h, l, name) && |l.pointers| < |h|
    requires forall i :: 0 <= i < |l.pointers| ==>
               && EpochIndex(h, l.pointers[i].record.order) < |h| - 1
               && l.pointers[i].record.order < l.files[name].order && l.pointers[i].id != name
    ensures ClaimedOk(h, Claiming(l, name))
  {
    hide ResolutionOk, EpochIndex;
  }

  /** The resolution on disk that no pointer claims becomes claimable the moment it is stored: the only thing that can
      separate the two writes is a crash. */
  lemma ClaimSucceeds(d: Disk, v: Resolution)
    requires Good(d) && LegalResolution(d, v)
    requires v.id in d.resolutions ==> PendingResolution(d) == Some(v.id)
    ensures ResolutionPlan(d, v, false)
            == Plan([StoreResolution(v), SaveResolutions(MoreResolutions(d, v))], Reaudit)
  {
    var stored := WithResolution(d, v);
    ClaimsPending(d, v);
    StepResolution(d, v);
    StoredSettled(d, v);
    hide LegalResolution, PendingResolution, ResolutionsOk, InterruptedOk, Claiming;
    PendingIff(stored);
    UnclaimedPending(stored, v.id);
    ClaimingOk(BaseHistory(stored.room), LedgerOf(stored), v.id);
    ClaimingIs(d, v);
  }

  lemma StoredSettled(d: Disk, v: Resolution)
    requires JournalOk(d, false) && Good(WithResolution(d, v))
    ensures JournalOk(WithResolution(d, v), false) && ResolutionsOk(BaseHistory(d.room), LedgerOf(WithResolution(d, v)))
  {
  }

  lemma UnclaimedPending(d: Disk, name: Id)
    requires PendingResolution(d) == Some(name)
    ensures name in d.resolutions && name !in ClaimedNames(LedgerOf(d))
  {
  }

  lemma ClaimingIs(d: Disk, v: Resolution)
    ensures LedgerOf(WithResolutions(WithResolution(d, v), MoreResolutions(d, v)))
            == Claiming(LedgerOf(WithResolution(d, v)), v.id)
    ensures BaseHistory(WithResolutions(WithResolution(d, v), MoreResolutions(d, v)).room) == BaseHistory(d.room)
  {
  }

  // ----- which adoption a dispatch makes -----

  /** The request of this order is the engineer's newest one, and it was created in the newest epoch. */
  predicate NewestTurn(room: Room, order: nat) {
    && room.engineer.Some? && LastEpoch(EpochsOf(room)).from <= order && 1 <= order <= |room.requests|
    && room.requests[order - 1].role == "engineer"
    && room.requests[order - 1].session == room.engineer.value.session
    && forall k :: order <= k < |room.requests| ==>
         room.requests[k].role != "engineer" || room.requests[k].session != room.engineer.value.session
  }

  /** The settled request's saved outcome is its own, certain, and observed this one model of the family. */
  predicate Observes(d: Disk, request: Request, family: string, model: string) {
    && request.state in {Completed, SettledFailure} && request.outcome.Some?
    && var o := request.outcome.value;
    && o in d.outcomes && o.request == request.id && o.receipt == request.receipt && o.session == request.session
    && !o.unknown && o.observed == [model] && FamilyMember(family, model)
  }

  /** The newest epoch is an unresolved family without an operator's qualification, and the engineer's newest turn in it
      observed this model. */
  predicate Adopts(d: Disk, order: nat, model: string) {
    var e := LastEpoch(EpochsOf(d.room));
    && e.selector.Family? && e.qualification.None? && e.resolved.None?
    && NewestTurn(d.room, order) && Observes(d, d.room.requests[order - 1], e.selector.family, model)
    && d.room.requests[order - 1].id !in d.resolutions
  }

  lemma {:induction false} LatestIff(requests: seq<Request>, session: Option<string>, from: nat, order: nat)
    ensures LatestEngineer(requests, session, from) == Some(order)
            <==> && 1 <= order <= |requests| && from <= order && IsEngineerRequest(session, requests[order - 1])
                 && forall k :: order <= k < |requests| ==> !IsEngineerRequest(session, requests[k])
    decreases |requests|
  {
    if |requests| > 0 && |requests| >= from && !IsEngineerRequest(session, requests[|requests| - 1]) {
      LatestIff(requests[..|requests| - 1], session, from, order);
    }
  }

  lemma NewestTurnIff(room: Room, order: nat)
    requires room.engineer.Some?
    ensures LatestIn(room, LastEpoch(EpochsOf(room))) == Some(order) <==> NewestTurn(room, order)
  {
    LatestIff(room.requests, Session(room), LastEpoch(EpochsOf(room)).from, order);
    hide EpochsOf, LatestEngineer;
  }

  lemma ObservesIff(d: Disk, request: Request, family: string)
    ensures ProvesModel(d, family, request) <==> exists model :: Observes(d, request, family, model)
    ensures ProvesModel(d, family, request) ==> Observes(d, request, family, request.outcome.value.observed[0])
  {
    if ProvesModel(d, family, request) {
      assert request.outcome.value.observed == [request.outcome.value.observed[0]];
      assert Observes(d, request, family, request.outcome.value.observed[0]);
    }
    forall model | Observes(d, request, family, model) ensures ProvesModel(d, family, request) {
      assert request.outcome.value.observed[0] == model;
    }
  }

  /** The record of the adoption. */
  function AdoptionOf(d: Disk, order: nat, model: string, now: int): Resolution
    requires Adopts(d, order, model)
  {
    var e, r := LastEpoch(EpochsOf(d.room)), d.room.requests[order - 1];
    Resolution(r.id, e.request, e.selector, e.selector.family, model, r.outcome.value, r.receipt, order, now)
  }

  /** What a dispatch finds when it looks at the newest turn. */
  lemma TurnChecked(d: Disk, order: nat)
    requires Good(d) && NewestTurn(d.room, order)
    ensures 1 <= order <= |d.room.requests| && d.room.engineer.Some?
    ensures LatestIn(d.room, LastEpoch(EpochsOf(d.room))) == Some(order)
    ensures RequestOk(EpochsOf(d.room), d.room.requests[order - 1], order)
  {
    NewestTurnIff(d.room, order);
    assert FrozenOk(d.room) && IsEngineerRequest(Session(d.room), d.room.requests[order - 1]);
  }

  /** The newest turn proves its model, so it is adopted. */
  lemma AdoptsNow(d: Disk, now: int, order: nat, model: string)
    requires Good(d) && JournalOk(d, false) && PendingResolution(d).None? && Adopts(d, order, model)
    ensures Adoptable(d, now) == Success(Some(AdoptionOf(d, order, model, now)))
  {
    hide Good, JournalOk, PendingResolution, EpochsOf, RequestOk, NewestTurn, LatestIn, ProvesModel;
    TurnChecked(d, order);
    ObservesIff(d, d.room.requests[order - 1], LastEpoch(EpochsOf(d.room)).selector.family);
    assert d.room.requests[order - 1].outcome.value.observed[0] == model;
  }

  lemma TurnFound(d: Disk)
    requires Good(d) && d.room.engineer.Some? && LatestIn(d.room, LastEpoch(EpochsOf(d.room))).Some?
    ensures NewestTurn(d.room, LatestIn(d.room, LastEpoch(EpochsOf(d.room))).value)
  {
    NewestTurnIff(d.room, LatestIn(d.room, LastEpoch(EpochsOf(d.room))).value);
  }

  /** Nothing else is adopted. */
  lemma AdoptsOnly(d: Disk, now: int)
    requires Good(d) && JournalOk(d, false) && d.room.engineer.Some? && PendingResolution(d).None?
    requires Adoptable(d, now).Success? && Adoptable(d, now).value.Some?
    ensures var v := Adoptable(d, now).value.value;
            Adopts(d, v.order, v.observed) && v == AdoptionOf(d, v.order, v.observed, now)
  {
    hide Good, JournalOk, PendingResolution, EpochsOf, RequestOk, NewestTurn, LatestIn, ProvesModel, Observes;
    TurnFound(d);
    var order := LatestIn(d.room, LastEpoch(EpochsOf(d.room))).value;
    ObservesIff(d, d.room.requests[order - 1], LastEpoch(EpochsOf(d.room)).selector.family);
  }

  // ----- over runs -----

  lemma SendStartsBy(d: Disk, id: Id, now: int)
    requires JournalOk(d, false) && d.room.engineer.Some? && id !in RequestIds(d.room.requests)
    requires AdoptPlan(d, now).reply.Reaudit?
    ensures AdoptPlan(d, now).writes
            <= SendPlan(d, id, "engineer", d.room.engineer.value.session, now).writes
  {
    hide JournalOk, AdoptPlan, FreezeRequest, EngineerRequest, PutAll;
  }

  lemma AdoptsBy(d: Disk, now: int, v: Resolution)
    requires Inv(d) && Good(d) && Adoptable(d, now) == Success(Some(v))
    ensures AdoptPlan(d, now) == Plan([StoreResolution(v), SaveResolutions(MoreResolutions(d, v))], Reaudit)
  {
    hide Good, Inv, Adoptable, ResolutionPlan, PendingResolution, LegalResolution;
    AdoptableLegal(d, now);
    ClaimSucceeds(d, v);
  }

  /** The epochs once an adoption of the newest one is claimed: it expects exactly the observed model. */
  lemma ClaimedEpoch(d: Disk, v: Resolution)
    requires EpochIndex(BaseHistory(d.room), v.order) == |BaseHistory(d.room)| - 1
    ensures var after := WithResolutions(WithResolution(d, v), MoreResolutions(d, v));
            && LastEpoch(EpochsOf(after.room)).expected == Some(v.observed)
            && LastEpoch(EpochsOf(after.room)).resolved == Some(Resolved(v, v.order))
  {
    var h, ps := BaseHistory(d.room), d.room.resolutions;
    ResolvedIndex(h, ps, v.order);
    var more := MoreResolutions(d, v);
    assert more[..|more| - 1] == ps && more[|more| - 1].record == v;
    assert ResolveAll(h, more) == Resolve(ResolveAll(h, ps), v);
  }

  lemma TurnIndex(d: Disk, order: nat)
    requires NewestTurn(d.room, order)
    ensures EpochIndex(BaseHistory(d.room), order) == |BaseHistory(d.room)| - 1
  {
    NewestSelector(d.room);
    IndexLast(BaseHistory(d.room), order);
    ResolvedIndex(BaseHistory(d.room), d.room.resolutions, order);
  }

  /** A dispatch to the engineer of an unresolved family epoch stores and claims the model its newest turn observed: from
      then on the epoch expects exactly that model. */
  lemma DispatchAdopts(d: Disk, id: Id, now: int, order: nat, model: string)
    requires Good(d) && JournalOk(d, false) && PendingResolution(d).None? && Adopts(d, order, model)
    requires d.room.engineer.Some? && id !in RequestIds(d.room.requests)
    ensures var after := Run(d, [Event(Send(id, "engineer", d.room.engineer.value.session, now), 2)]);
            && Find(after.resolutions, d.room.requests[order - 1].id) == Some(AdoptionOf(d, order, model, now))
            && after.room.resolutions == MoreResolutions(d, AdoptionOf(d, order, model, now))
            && LastEpoch(EpochsOf(after.room)).expected == Some(model)
  {
    hide *;
    var v := AdoptionOf(d, order, model, now);
    var ws := [StoreResolution(v), SaveResolutions(MoreResolutions(d, v))];
    AdoptionIs(d, order, model, now);
    AdoptsNow(d, now, order, model);
    AdoptsBy(d, now, v);
    SendStartsBy(d, id, now);
    TurnIndex(d, order);
    ClaimedEpoch(d, v);
    SendIsPlan(d, id, "engineer", d.room.engineer.value.session, now);
    CutRun(d, Send(id, "engineer", d.room.engineer.value.session, now), ws);
    AdoptionPuts(d, v);
  }

  lemma AdoptionIs(d: Disk, order: nat, model: string, now: int)
    requires Good(d) && Adopts(d, order, model)
    ensures Inv(d) && NewestTurn(d.room, order) && 1 <= order <= |d.room.requests|
    ensures var v := AdoptionOf(d, order, model, now);
            v.order == order && v.observed == model && v.id == d.room.requests[order - 1].id
  {
    hide Good;
  }

  lemma SendIsPlan(d: Disk, id: Id, role: string, session: string, now: int)
    ensures PlanOf(d, Send(id, role, session, now)) == SendPlan(d, id, role, session, now)
  {
    hide SendPlan;
  }

  lemma AdoptionPuts(d: Disk, v: Resolution)
    ensures var after := PutAll(d, [StoreResolution(v), SaveResolutions(MoreResolutions(d, v))]);
            && after == WithResolutions(WithResolution(d, v), MoreResolutions(d, v))
            && Find(after.resolutions, v.id) == Some(v) && after.room.resolutions == MoreResolutions(d, v)
            && (Find(d.resolutions, v.id) == Some(v) ==> after == WithResolutions(d, MoreResolutions(d, v)))
  {
    hide MoreResolutions;
    PutTwo(d, StoreResolution(v), SaveResolutions(MoreResolutions(d, v)));
  }

  /** An adoption whose claim was cut off is claimed by the next transition call, whichever it is. */
  lemma TransitionClaims(d: Disk, name: Id, inputs: Inputs, env: Env)
    requires Good(d) && JournalOk(d, false) && PendingResolution(d) == Some(name)
    ensures name in d.resolutions
    ensures var after := Run(d, [Event(Transition(inputs, None, env), 2)]);
            && after.resolutions == d.resolutions
            && after.room == d.room.(resolutions := d.room.resolutions
                                                    + [ResolutionPointer(name, d.resolutions[name])])
  {
    UnclaimedPending(d, name);
    PendingNamed(d, name);
    hide Good, JournalOk, PendingResolution, TransitionPlan, Run, PlanOf, Sound;
    var v := d.resolutions[name];
    PendingClaims(d, name, inputs, env);
    TransitionIsPlan(d, inputs, None, env);
    CutRun(d, Transition(inputs, None, env), [StoreResolution(v), SaveResolutions(MoreResolutions(d, v))]);
    AdoptionPuts(d, v);
  }

  lemma TransitionIsPlan(d: Disk, inputs: Inputs, precondition: Option<bool>, env: Env)
    ensures PlanOf(d, Transition(inputs, precondition, env)) == TransitionPlan(d, inputs, precondition, env)
  {
    hide TransitionPlan;
  }

  lemma PendingNamed(d: Disk, name: Id)
    requires Sound(d) && PendingResolution(d) == Some(name)
    ensures name in d.resolutions && d.resolutions[name].id == name
  {
    PendingIff(d);
  }

  lemma PendingClaims(d: Disk, name: Id, inputs: Inputs, env: Env)
    requires Good(d) && JournalOk(d, false) && PendingResolution(d) == Some(name) && name in d.resolutions
    ensures var v := d.resolutions[name];
            TransitionPlan(d, inputs, None, env).writes == [StoreResolution(v), SaveResolutions(MoreResolutions(d, v))]
  {
    hide *;
    ClaimsNothing(d, inputs);
    PendingSucceeds(d, name);
    DispatchResolves(d, name, inputs, env);
    KnownDispatches(d, inputs, None, env);
  }

  lemma DispatchResolves(d: Disk, name: Id, inputs: Inputs, env: Env)
    requires JournalOk(d, false) && PendingResolution(d) == Some(name) && name in d.resolutions
    ensures JournalOk(d, true) && DispatchPlan(d, inputs, env) == ResolutionPlan(d, d.resolutions[name], true)
  {
    hide Sound, PendingResolution, ResolutionPlan, AttemptPlan;
  }

  lemma PendingSucceeds(d: Disk, name: Id)
    requires Good(d) && JournalOk(d, false) && PendingResolution(d) == Some(name) && name in d.resolutions
    ensures var v := d.resolutions[name];
            ResolutionPlan(d, v, true).writes == [StoreResolution(v), SaveResolutions(MoreResolutions(d, v))]
  {
    PendingNamed(d, name);
    assert LegalResolution(d, d.resolutions[name]);
    ClaimSucceeds(d, d.resolutions[name]);
  }

  // ----- what a dispatched engineer request freezes -----

  lemma {:induction false} ExactExpects(initial: Pin, pointer: Option<Pointer>, k: nat)
    requires k < |History(initial, pointer)| && History(initial, pointer)[k].selector.Exact?
    ensures History(initial, pointer)[k].expected == Some(History(initial, pointer)[k].selector.model)
    decreases pointer
  {
    if pointer.Some? && k < |History(initial, pointer.value.intent.previous)| {
      ExactExpects(initial, pointer.value.intent.previous, k);
    }
  }

  /** An exact epoch is never resolved, so it expects its own model. */
  lemma ExactEpoch(d: Disk)
    requires Sound(d) && LastEpoch(EpochsOf(d.room)).selector.Exact?
    ensures LastEpoch(EpochsOf(d.room)).expected == Some(LastEpoch(EpochsOf(d.room)).selector.model)
    ensures LastEpoch(EpochsOf(d.room)).resolved.None?
  {
    var h, ps := BaseHistory(d.room), d.room.resolutions;
    NewestSelector(d.room);
    forall i | 0 <= i < |ps| ensures EpochIndex(h, ps[i].record.order) != |h| - 1 {
      assert ResolutionOk(h, Session(d.room), d.room.requests, d.outcomes, ps[i].id, ps[i].record);
    }
    ResolveAllSkips(h, ps, |h| - 1);
    ExactExpects(d.room.initial, d.room.pointer, |h| - 1);
    HistoryUnresolved(d.room.initial, d.room.pointer);
  }

  /** The request a dispatch saves: it runs the epoch's configured model at the greatest effort and freezes the
      selector, the expected model and the qualification in force. */
  function FrozenRequest(room: Room, id: Id, session: string): Request {
    var e := LastEpoch(EpochsOf(room));
    Request(id, "engineer", session, e.selector.Configured(), "max", Unsettled, "", None,
            Some(Frozen(e.selector, e.selector.Configured(),
                        if e.selector.Exact? then Some(e.selector.model) else e.expected, None, e.qualification)))
  }

  lemma NoAdoption(d: Disk, now: int)
    requires Good(d) && JournalOk(d, false)
    requires LastEpoch(EpochsOf(d.room)).selector.Exact? || LastEpoch(EpochsOf(d.room)).qualified
    ensures AdoptPlan(d, now).writes == [] && !AdoptPlan(d, now).reply.Refusal?
  {
    NewestSelector(d.room);
    LastEpochPinned(d.room.initial, RequestIds(d.room.requests), d.room.pointer);
    hide Good, JournalOk, EpochsOf, PendingResolution;
  }

  lemma FreezesIff(d: Disk)
    requires Sound(d)
    ensures var e := LastEpoch(EpochsOf(d.room));
            && (FreezeRequest(d.room).Success? <==> e.selector.Exact? || e.qualified)
            && (FreezeRequest(d.room).Success? ==>
                  FreezeRequest(d.room).value == FrozenRequest(d.room, "", "").frozen.value)
  {
    NewestSelector(d.room);
    LastEpochPinned(d.room.initial, RequestIds(d.room.requests), d.room.pointer);
    if LastEpoch(EpochsOf(d.room)).selector.Exact? { ExactEpoch(d); }
    hide EpochsOf, Sound;
  }

  /** Over a settled journal a dispatch to the bound engineer under a new id saves exactly this request where the newest
      epoch is exact or qualified. */
  lemma DispatchFreezes(d: Disk, id: Id, now: int)
    requires Good(d) && JournalOk(d, false) && d.room.engineer.Some? && id !in RequestIds(d.room.requests)
    requires LastEpoch(EpochsOf(d.room)).selector.Exact? || LastEpoch(EpochsOf(d.room)).qualified
    ensures var session := d.room.engineer.value.session;
            SendPlan(d, id, "engineer", session, now).writes == [SaveRequest(FrozenRequest(d.room, id, session))]
  {
    NoAdoption(d, now);
    GoodSound(d);
    hide Good, JournalOk, AdoptPlan, EpochsOf, FreezeRequest, RequestIds;
    FreezesIff(d);
    assert PutAll(d, []) == d;
  }

  lemma GoodSound(d: Disk)
    requires Good(d)
    ensures Sound(d)
  {
  }

  /** An unqualified family epoch saves no request: a dispatch may adopt, but goes no further. */
  lemma UnqualifiedRefuses(d: Disk, id: Id, now: int, w: Write)
    requires Inv(d) && LastEpoch(EpochsOf(d.room)).selector.Family? && !LastEpoch(EpochsOf(d.room)).qualified
    requires d.room.engineer.Some? && w in SendPlan(d, id, "engineer", d.room.engineer.value.session, now).writes
    ensures !w.SaveRequest?
  {
    var adopted := PutAll(d, AdoptPlan(d, now).writes);
    AdoptedSelector(d, now);
    hide Inv, JournalOk, AdoptPlan, EpochsOf, RequestIds, PutAll;
  }

  lemma AdoptedSelector(d: Disk, now: int)
    ensures var e, f := LastEpoch(EpochsOf(d.room)), LastEpoch(EpochsOf(PutAll(d, AdoptPlan(d, now).writes).room));
            f.selector == e.selector && f.qualified == e.qualified
    ensures forall w :: w in AdoptPlan(d, now).writes ==> !w.SaveRequest?
  {
    hide AdoptPlan, EpochsOf;
    AdoptWrites(d, now);
    SamePointer(d, AdoptPlan(d, now).writes);
    NewestSelector(d.room);
    NewestSelector(PutAll(d, AdoptPlan(d, now).writes).room);
  }

  lemma SamePointer(d: Disk, ws: seq<Write>)
    requires |ws| <= 2 && (|ws| > 0 ==> ws[0].StoreResolution?) && (|ws| > 1 ==> ws[1].SaveResolutions?)
    ensures BaseHistory(PutAll(d, ws).room) == BaseHistory(d.room)
  {
    if |ws| == 0 {
      PutNone(d);
      assert ws == [];
    } else if |ws| == 1 {
      assert ws == [ws[0]];
      PutOne(d, ws[0]);
    } else {
      assert ws == [ws[0], ws[1]];
      PutTwo(d, ws[0], ws[1]);
    }
  }

  lemma AdoptWrites(d: Disk, now: int)
    ensures var ws := AdoptPlan(d, now).writes;
            |ws| <= 2 && (|ws| > 0 ==> ws[0].StoreResolution?) && (|ws| > 1 ==> ws[1].SaveResolutions?)
  {
    hide Adoptable, JournalOk;
  }
}
