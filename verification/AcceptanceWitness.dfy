/** A grant is reached, spent and lost: three settled reviews make a lane eligible, from every eligible lane one grant
    dispatches one more review, and stopped between its writes it strands the lane or stays pending for good. */
module AcceptanceWitness {
  import opened Values
  import opened AcceptanceExtension
  import opened AcceptanceProofs
  import opened AcceptanceTheorems

  /** The lane may be audited for the target, and the grant id is new. */
  ghost predicate Eligible(d: Disk, target: Target, id: Id) {
    && Sound(d) && Inspects(d, target, false)
    && !Has(d.state.requests, id) && id != target.review && !Claimed(Entries(d), id)
  }

  function InputsFor(d: Disk, target: Target, live: int, id: Id): Inputs
    requires |d.state.items| <= |d.files|
  {
    Inputs(id, EvidenceOf(d, target, live), "a")
  }

  function Audited(d: Disk, target: Target, live: int): Disk
    requires |d.state.items| <= |d.files|
  {
    Put(d, StoreAudit(EvidenceOf(d, target, live)))
  }

  function GrantFor(d: Disk, target: Target, live: int, id: Id): Entry
    requires |d.state.items| <= |d.files|
  {
    NewGrant(Entries(d), InputsFor(d, target, live, id), 0)
  }

  /** The lane once the grant's entry is stored. */
  function Stored(d: Disk, target: Target, live: int, id: Id): Disk
    requires |d.state.items| <= |d.files|
  {
    Put(Audited(d, target, live), StoreEntry(GrantFor(d, target, live, id)))
  }

  /** And once it is projected. */
  function Granted(d: Disk, target: Target, live: int, id: Id): Disk
    requires |d.state.items| <= |d.files|
  {
    Put(Stored(d, target, live, id), SaveState(WithItem(d.state, GrantFor(d, target, live, id))))
  }

  lemma EligibleShape(d: Disk, target: Target, id: Id)
    requires Eligible(d, target, id)
    ensures |d.state.items| == |d.files| && Entries(d) == d.files && Pending(d).None? && AllSettled(d.state.requests)
    ensures |Reviewers(d.state.requests)| >= LIMIT && !Has(d.state.requests, target.review)
  {
    InspectedVerified(d, target, false);
  }

  lemma NotClaimed(entries: seq<Entry>, id: Id)
    requires !Claimed(entries, id)
    ensures FindGrant(entries, id).None?
  {
  }

  lemma AuditedInspects(d: Disk, target: Target, live: int, id: Id)
    requires Eligible(d, target, id)
    ensures |d.state.items| <= |d.files| && Sound(Audited(d, target, live))
    ensures Inspects(Audited(d, target, live), target, false)
  {
    EligibleShape(d, target, id);
    AuditStored(d, target, live);
  }

  lemma AuditedGrantable(d: Disk, target: Target, live: int, id: Id)
    requires Eligible(d, target, id)
    ensures |d.state.items| <= |d.files| && Sound(Audited(d, target, live))
    ensures Grantable(Audited(d, target, live), InputsFor(d, target, live, id), live)
    ensures FindGrant(Entries(Audited(d, target, live)), id).None? && Pending(Audited(d, target, live)).None?
  {
    EligibleShape(d, target, id);
    AuditedInspects(d, target, live, id);
    NotClaimed(Entries(d), id);
    hide Inspects, Validated;
    assert Entries(Audited(d, target, live)) == Entries(d);
    SoundParts(Audited(d, target, live));
  }

  lemma ExtendsAudited(d: Disk, target: Target, live: int, id: Id)
    requires Eligible(d, target, id)
    ensures |d.state.items| <= |d.files|
    ensures ExtendPlan(Audited(d, target, live), InputsFor(d, target, live, id), live, 0).writes
            == [StoreEntry(GrantFor(d, target, live, id)),
                SaveState(WithItem(d.state, GrantFor(d, target, live, id)))]
    ensures Sound(Stored(d, target, live, id)) && Sound(Granted(d, target, live, id))
  {
    EligibleShape(d, target, id);
    AuditedGrantable(d, target, live, id);
    hide Sound, Grantable, Validated;
    assert Entries(Audited(d, target, live)) == Entries(d);
    GrantableValidated(Audited(d, target, live), InputsFor(d, target, live, id), live);
    FreshGrantKeeps(Audited(d, target, live), InputsFor(d, target, live, id), live, 0);
  }

  lemma GrantableValidated(d: Disk, inputs: Inputs, live: int)
    requires Grantable(d, inputs, live)
    ensures Validated(d, true)
  {
  }

  /** The send of exactly the review the grant names. */
  function ReviewCall(target: Target, live: int): Call { Send(target.review, true, 0, target.message, live, 0) }

  lemma GrantedFacts(d: Disk, target: Target, live: int, id: Id)
    requires Eligible(d, target, id)
    ensures |d.state.items| == |d.files|
    ensures var after, g := Granted(d, target, live, id), GrantFor(d, target, live, id);
            && after.files == d.files + [g] && |after.state.items| == |after.files| && Entries(after) == after.files
            && Unused(after.files) && after.files[|after.files| - 1] == g && after.state.requests == d.state.requests
            && g.target == target && g.inputs.audit in after.audits && g.inputs.audit.live == live
            && g.inputs.audit.attempts == |Reviewers(after.state.requests)|
  {
    EligibleShape(d, target, id);
  }

  lemma GrantedValidated(d: Disk)
    requires Sound(d) && |d.state.items| == |d.files| && d.files != []
    ensures Validated(d, false) && IdentitiesOk(d.files)
  {
  }

  lemma NotAGrantId(all: seq<Entry>, id: Id)
    requires IdentitiesOk(all) && Unused(all) && all[|all| - 1].target.review == id
    ensures FindGrant(all, id).None?
  {
  }

  lemma GrantedAdmits(d: Disk, target: Target, live: int, id: Id)
    requires Eligible(d, target, id)
    ensures |d.state.items| <= |d.files|
    ensures Sound(Granted(d, target, live, id)) && Consumes(Granted(d, target, live, id), ReviewCall(target, live))
  {
    var after := Granted(d, target, live, id);
    EligibleShape(d, target, id);
    ExtendsAudited(d, target, live, id);
    GrantedFacts(d, target, live, id);
    GrantedValidated(after);
    NotAGrantId(after.files, target.review);
    hide Sound, Validated, Eligible, Reviewers, Granted, GrantFor, FindGrant, IdentitiesOk;
    assert Admitted(after, target.review, target.message, live);
  }

  // ----- runs -----

  lemma RunHead(d: Disk, e: Event, rest: seq<Event>)
    ensures Run(d, [e] + rest) == Run(PutAll(d, Durable(d, e)), rest)
  {
    assert ([e] + rest)[0] == e && ([e] + rest)[1..] == rest;
  }

  /** The audit and the grant, stopped after so many of the grant's writes. */
  function Extending(d: Disk, target: Target, live: int, id: Id, cut: nat): seq<Event>
    requires |d.state.items| <= |d.files|
  {
    [Event(Audit(target, live), 1), Event(Extend(InputsFor(d, target, live, id), live, 0), cut)]
  }

  lemma ExtendingRuns(d: Disk, target: Target, live: int, id: Id, cut: nat, rest: seq<Event>)
    requires Eligible(d, target, id) && 1 <= cut <= 2
    ensures |d.state.items| <= |d.files|
    ensures Run(d, Extending(d, target, live, id, cut) + rest)
            == Run(if cut == 1 then Stored(d, target, live, id) else Granted(d, target, live, id), rest)
  {
    EligibleShape(d, target, id);
    var audit, extend := Extending(d, target, live, id, cut)[0], Extending(d, target, live, id, cut)[1];
    var audited := Audited(d, target, live);
    AuditDurable(d, target, live);
    hide Sound, Run, Inspects, Durable, Audited, Stored, Granted;
    ExtendDurable(d, target, live, id, cut);
    RunHead(d, audit, [extend] + rest);
    RunHead(audited, extend, rest);
    assert Extending(d, target, live, id, cut) + rest == [audit] + ([extend] + rest);
  }

  lemma ExtendDurable(d: Disk, target: Target, live: int, id: Id, cut: nat)
    requires Eligible(d, target, id) && 1 <= cut <= 2
    ensures |d.state.items| <= |d.files|
    ensures PutAll(Audited(d, target, live),
                   Durable(Audited(d, target, live), Extending(d, target, live, id, cut)[1]))
            == if cut == 1 then Stored(d, target, live, id) else Granted(d, target, live, id)
  {
    EligibleShape(d, target, id);
    hide Sound, Inspects, GrantFor, ExtendPlan, InputsFor;
    ExtendsAudited(d, target, live, id);
    Prefixes(Audited(d, target, live),
             ExtendPlan(Audited(d, target, live), InputsFor(d, target, live, id), live, 0).writes, cut);
  }

  lemma AuditDurable(d: Disk, target: Target, live: int)
    requires Inspects(d, target, false)
    ensures PutAll(d, Durable(d, Event(Audit(target, live), 1))) == Audited(d, target, live)
  {
    hide Inspects, EvidenceOf;
    Prefixes(d, AuditPlan(d, target, live).writes, 1);
  }

  /** Audit, grant and send carried through from any eligible lane dispatch exactly the one named review. Stopped
      after its first write the same send strands the lane instead. */
  lemma ExtensionDispatches(d: Disk, target: Target, live: int, id: Id, cut: nat)
    requires Eligible(d, target, id)
    ensures |d.state.items| <= |d.files|
    ensures var after := Run(d, Extending(d, target, live, id, 2) + [Event(ReviewCall(target, live), cut)]);
            && (Stranded(after) <==> cut == 1)
            && after.posted == (if cut < 3 then d.posted else d.posted + multiset{target.review})
            && |Reviewers(after.state.requests)| == |Reviewers(d.state.requests)| + if cut < 2 then 0 else 1
  {
    var granted, event := Granted(d, target, live, id), Event(ReviewCall(target, live), cut);
    EligibleShape(d, target, id);
    GrantedFacts(d, target, live, id);
    GrantedAdmits(d, target, live, id);
    hide Sound, Stranded, Eligible, Consumes, Granted, Unused, Reviewers, Run;
    ExtendingRuns(d, target, live, id, 2, [event]);
    RunHead(granted, event, []);
    assert [event] + [] == [event];
    RunNothing(PutAll(granted, Durable(granted, event)));
    StrandsIff(granted, event);
    ConsumingEnds(granted, event);
    GrantedPosted(d, target, live, id);
  }

  lemma RunNothing(d: Disk)
    ensures Run(d, []) == d
  {
  }

  lemma GrantedPosted(d: Disk, target: Target, live: int, id: Id)
    requires |d.state.items| <= |d.files|
    ensures Granted(d, target, live, id).posted == d.posted
  {
  }

  /** What a send through the grant posts and adds, by the number of its writes. */
  lemma ConsumingEnds(d: Disk, event: Event)
    requires Sound(d) && Consumes(d, event.call)
    ensures var after := PutAll(d, Durable(d, event));
            && after.posted == (if event.cut < 3 then d.posted else d.posted + multiset{event.call.id})
            && |Reviewers(after.state.requests)| == |Reviewers(d.state.requests)| + if event.cut < 2 then 0 else 1
  {
    hide Sound, ConsumingDisk, Reviewers, Stranded;
    ConsumingPlan(d, event.call);
    ConsumingPlanKeeps(d, event.call, Min(event.cut, 3));
    ConsumingDiskEnds(d, event.call, Min(event.cut, 3));
  }

  lemma ConsumingDiskEnds(d: Disk, call: Call, n: nat)
    requires Unused(d.files) && call.Send? && n <= 3
    ensures var after := ConsumingDisk(d, call, n);
            && after.posted == (if n < 3 then d.posted else d.posted + multiset{call.id})
            && |Reviewers(after.state.requests)| == |Reviewers(d.state.requests)| + if n < 2 then 0 else 1
  {
    ReviewersAppend(d.state.requests, LinkedRequest(d.files[|d.files| - 1], ConsumptionOf(d, call)));
  }

  lemma StoredFacts(d: Disk, target: Target, live: int, id: Id)
    requires Eligible(d, target, id)
    ensures |d.state.items| == |d.files|
    ensures var stored, g := Stored(d, target, live, id), GrantFor(d, target, live, id);
            && stored.files == d.files + [g] && stored.state == d.state && g.Grant? && g.inputs.audit.state == d.state
  {
    EligibleShape(d, target, id);
  }

  lemma ObservedRuns(d: Disk, now: State)
    requires ObservedOnly(d.state, now)
    ensures ProgressOk(d, now) && Run(d, [Event(Progress(now), 1)]) == Put(d, SaveState(now))
  {
    var event := Event(Progress(now), 1);
    assert PlanOf(d, event.call).writes == [SaveState(now)];
    Prefixes(d, [SaveState(now)], 1);
    RunHead(d, event, []);
    assert [event] + [] == [event];
    RunNothing(Put(d, SaveState(now)));
  }

  /** The lane after a grant stopped before its projection and one observation. */
  function Observing(d: Disk, target: Target, live: int, id: Id, now: State): seq<Event>
    requires |d.state.items| <= |d.files|
  {
    Extending(d, target, live, id, 1) + [Event(Progress(now), 1)]
  }

  /** From any eligible lane a grant stopped after its first write and one observation that changes a retained
      request leave the grant pending, and no request completes it. */
  lemma ExtensionStaysPending(d: Disk, target: Target, live: int, id: Id, now: State)
    requires Eligible(d, target, id) && ObservedOnly(d.state, now) && now != d.state
    ensures |d.state.items| <= |d.files|
    ensures var after := Run(d, Observing(d, target, live, id, now));
            && Sound(after) && |after.files| == |after.state.items| + 1
            && forall inputs, l, t :: ExtendPlan(after, inputs, l, t).writes == []
  {
    hide Sound, Run, ExtendPlan, ProgressOk, Eligible, Stored, GrantFor, Put, ObservedOnly, Extending;
    StoredFacts(d, target, live, id);
    ObservedRuns(Stored(d, target, live, id), now);
    ExtendingRuns(d, target, live, id, 1, [Event(Progress(now), 1)]);
    ObservedStored(d, target, live, id, now);
    StaleStaysPending(Put(Stored(d, target, live, id), SaveState(now)), GrantFor(d, target, live, id));
  }

  lemma ObservedStored(d: Disk, target: Target, live: int, id: Id, now: State)
    requires Eligible(d, target, id) && ObservedOnly(d.state, now)
    ensures |d.state.items| == |d.files|
    ensures var after, g := Put(Stored(d, target, live, id), SaveState(now)), GrantFor(d, target, live, id);
            && Sound(after) && |after.files| == |after.state.items| + 1 && after.files[|after.state.items|] == g
            && after.state == now
  {
    hide Sound, Eligible, GrantFor, Stored;
    StoredFacts(d, target, live, id);
    ExtendsAudited(d, target, live, id);
    ProgressSaved(Stored(d, target, live, id), now);
  }

  /** A pending grant over a state its audit no longer shows is never completed. */
  lemma StaleStaysPending(d: Disk, g: Entry)
    requires Sound(d) && |d.files| == |d.state.items| + 1 && d.files[|d.state.items|] == g && g.Grant?
    requires g.inputs.audit.state != d.state
    ensures forall inputs, live, now :: ExtendPlan(d, inputs, live, now).writes == []
  {
    hide Sound, ExtendPlan;
    forall inputs, live, now ensures ExtendPlan(d, inputs, live, now).writes == [] {
      PendingCompletedIff(d, g, inputs, live, now);
    }
  }

  // ----- from a lane that never held anything -----

  const EMPTY_LANE := Disk([], {}, State(0, 0, [], [], []), multiset{})

  function ReviewEvent(id: Id): Event { Event(Send(id, true, 0, "", 0, 0), 2) }

  /** Only ordinary reviews so far, under these ids. */
  ghost predicate Ordinary(d: Disk, ids: seq<Id>) {
    && Sound(d) && Blank(d) && |Reviewers(d.state.requests)| == |ids|
    && |d.state.requests| == |ids| && forall k :: 0 <= k < |ids| ==> d.state.requests[k].id == ids[k]
  }

  lemma EmptyIsOrdinary()
    ensures Ordinary(EMPTY_LANE, [])
  {
    NewLaneInv(EMPTY_LANE);
    assert LinkedIds(EMPTY_LANE.state.requests) == {};
  }

  lemma OrdinaryWrites(d: Disk, ids: seq<Id>, id: Id)
    requires Ordinary(d, ids) && |ids| < LIMIT && id !in ids
    ensures var saved := Put(d, SaveState(WithRequest(d.state, NewRequest(id, true, 0))));
            PutAll(d, Durable(d, ReviewEvent(id))) == Put(saved, Post(id, ""))
  {
    assert Entries(d) == [];
    Prefixes(d, PlanOf(d, ReviewEvent(id).call).writes, 2);
  }

  lemma OrdinaryNext(d: Disk, ids: seq<Id>, id: Id)
    requires Ordinary(d, ids) && |ids| < LIMIT && id !in ids
    ensures Ordinary(PutAll(d, Durable(d, ReviewEvent(id))), ids + [id])
  {
    var r := NewRequest(id, true, 0);
    OrdinaryWrites(d, ids, id);
    OrdinarySound(d, ids, id);
    ReviewersAppend(d.state.requests, r);
    LinkedAppend(d.state.requests, r);
  }

  lemma OrdinarySound(d: Disk, ids: seq<Id>, id: Id)
    requires Ordinary(d, ids) && |ids| < LIMIT && id !in ids
    ensures Sound(Put(Put(d, SaveState(WithRequest(d.state, NewRequest(id, true, 0)))), Post(id, "")))
  {
    assert Entries(d) == [];
    OrdinarySendKeeps(d, id, true, 0, "");
  }

  function Settled(requests: seq<Request>): (r: seq<Request>)
    ensures |r| == |requests| && forall k :: 0 <= k < |r| ==> r[k] == requests[k].(settled := true)
  {
    seq(|requests|, k requires 0 <= k < |requests| => requests[k].(settled := true))
  }

  function SettledState(state: State): State { state.(requests := Settled(state.requests)) }

  lemma SettledEligible(d: Disk, ids: seq<Id>, target: Target, id: Id)
    requires Ordinary(d, ids) && |ids| == LIMIT
    requires target.review !in ids && id !in ids && id != target.review
    ensures Run(d, [Event(Progress(SettledState(d.state)), 1)]) == Put(d, SaveState(SettledState(d.state)))
    ensures Eligible(Put(d, SaveState(SettledState(d.state))), target, id)
  {
    var after := Put(d, SaveState(SettledState(d.state)));
    assert ObservedOnly(d.state, SettledState(d.state));
    ObservedRuns(d, SettledState(d.state));
    ProgressSaved(d, SettledState(d.state));
    ReviewersObserved(d.state.requests, after.state.requests);
    LinkedObserved(d.state.requests, after.state.requests);
    SettledInspects(after, ids, target, id);
  }

  lemma SettledInspects(d: Disk, ids: seq<Id>, target: Target, id: Id)
    requires Ordinary(d, ids) && |ids| == LIMIT && AllSettled(d.state.requests)
    requires target.review !in ids && id !in ids && id != target.review
    ensures Eligible(d, target, id)
  {
    assert Entries(d) == [];
  }

  /** Three ordinary reviews of an empty lane and their results. */
  function ThreeReviews(a: Id, b: Id, c: Id): seq<Event> {
    var d := Run(EMPTY_LANE, [ReviewEvent(a), ReviewEvent(b), ReviewEvent(c)]);
    [ReviewEvent(a), ReviewEvent(b), ReviewEvent(c)] + [Event(Progress(SettledState(d.state)), 1)]
  }

  lemma ThreeOrdinary(a: Id, b: Id, c: Id)
    requires a != b && b != c && a != c
    ensures Ordinary(Run(EMPTY_LANE, [ReviewEvent(a), ReviewEvent(b), ReviewEvent(c)]), [a, b, c])
  {
    hide Ordinary, Run, Durable, ReviewEvent;
    var one := PutAll(EMPTY_LANE, Durable(EMPTY_LANE, ReviewEvent(a)));
    var two := PutAll(one, Durable(one, ReviewEvent(b)));
    var three := PutAll(two, Durable(two, ReviewEvent(c)));
    EmptyIsOrdinary();
    OrdinaryNext(EMPTY_LANE, [], a);
    assert [] + [a] == [a];
    OrdinaryNext(one, [a], b);
    assert [a] + [b] == [a, b];
    OrdinaryNext(two, [a, b], c);
    assert [a, b] + [c] == [a, b, c];
    RunThree(EMPTY_LANE, ReviewEvent(a), ReviewEvent(b), ReviewEvent(c));
  }

  lemma RunThree(d: Disk, a: Event, b: Event, c: Event)
    ensures var one := PutAll(d, Durable(d, a));
            var two := PutAll(one, Durable(one, b));
            Run(d, [a, b, c]) == PutAll(two, Durable(two, c))
  {
    hide Durable;
    var one := PutAll(d, Durable(d, a));
    var two := PutAll(one, Durable(one, b));
    RunHead(d, a, [b, c]);
    RunHead(one, b, [c]);
    RunHead(two, c, []);
    assert [a] + [b, c] == [a, b, c] && [b] + [c] == [b, c] && [c] + [] == [c];
    RunNothing(PutAll(two, Durable(two, c)));
  }

  lemma {:induction false} RunConcat(d: Disk, a: seq<Event>, b: seq<Event>)
    ensures Run(d, a + b) == Run(Run(d, a), b)
    decreases a
  {
    if a == [] {
      assert a + b == b;
    } else {
      assert (a + b)[1..] == a[1..] + b;
      RunConcat(PutAll(d, Durable(d, a[0])), a[1..], b);
    }
  }

  /** Three settled reviews make an empty lane eligible for one more under any new review and grant id. */
  lemma ThreeReviewsEligible(a: Id, b: Id, c: Id, target: Target, id: Id)
    requires a != b && b != c && a != c && target.review !in [a, b, c] && id !in [a, b, c] && id != target.review
    ensures Eligible(Run(EMPTY_LANE, ThreeReviews(a, b, c)), target, id)
  {
    hide Ordinary, Run, Eligible, ReviewEvent;
    var sends := [ReviewEvent(a), ReviewEvent(b), ReviewEvent(c)];
    var d := Run(EMPTY_LANE, sends);
    ThreeOrdinary(a, b, c);
    SettledEligible(d, [a, b, c], target, id);
    RunConcat(EMPTY_LANE, sends, [Event(Progress(SettledState(d.state)), 1)]);
  }
}
