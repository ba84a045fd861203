/** Accounting, single dispatch and recovery of the grant journal over every run of audits, grants,
    sends and observations, with the machine stopping between any two durable writes. */
module AcceptanceTheorems {
  import opened Values
  import opened AcceptanceExtension
  import opened AcceptanceProofs

  lemma Prefixes(d: Disk, ws: seq<Write>, n: nat)
    requires n <= |ws| <= 3
    ensures PutAll(d, ws[..n]) == if n == 0 then d
                                  else if n == 1 then Put(d, ws[0])
                                  else if n == 2 then Put(Put(d, ws[0]), ws[1])
                                  else Put(Put(Put(d, ws[0]), ws[1]), ws[2])
  {
    PrefixWrites(d, ws);
  }

  lemma Whole(d: Disk, ws: seq<Write>)
    requires 1 <= |ws| <= 2
    ensures PutAll(d, ws) == if |ws| == 1 then Put(d, ws[0]) else Put(Put(d, ws[0]), ws[1])
  {
    assert ws[..|ws|] == ws;
    PrefixWrites(d, ws);
  }

  lemma AuditKeeps(d: Disk, target: Target, live: int, n: nat)
    requires Sound(d) && n <= |AuditPlan(d, target, live).writes|
    ensures Sound(PutAll(d, AuditPlan(d, target, live).writes[..n]))
  {
    Prefixes(d, AuditPlan(d, target, live).writes, n);
    if Inspects(d, target, false) { AuditStored(d, target, live); }
  }

  lemma GrantPending(d: Disk, g: Entry)
    requires Projected(d.files, d.state.items) && Pending(d).None?
    ensures var after := Put(d, StoreEntry(g));
            |after.files| == |after.state.items| + 1 && after.files[|after.state.items|] == g
            && after.state == d.state
  {
  }

  lemma FreshGrantKeeps(d: Disk, inputs: Inputs, live: int, now: int)
    requires Sound(d) && Grantable(d, inputs, live) && Pending(d).None?
    ensures var g := NewGrant(Entries(d), inputs, now);
            && Sound(Put(d, StoreEntry(g)))
            && Sound(Put(Put(d, StoreEntry(g)), SaveState(WithItem(d.state, g))))
  {
    GrantStored(d, inputs, live, now);
    GrantPending(d, NewGrant(Entries(d), inputs, now));
    GrantSaved(Put(d, StoreEntry(NewGrant(Entries(d), inputs, now))), NewGrant(Entries(d), inputs, now));
  }

  lemma ExtendKeeps(d: Disk, inputs: Inputs, live: int, now: int, n: nat)
    requires Sound(d) && n <= |ExtendPlan(d, inputs, live, now).writes|
    ensures Sound(PutAll(d, ExtendPlan(d, inputs, live, now).writes[..n]))
  {
    var plan := ExtendPlan(d, inputs, live, now);
    Prefixes(d, plan.writes, n);
    if plan.writes != [] {
      if Pending(d).None? {
        FreshGrantKeeps(d, inputs, live, now);
      } else {
        GrantSaved(d, Pending(d).value);
      }
    }
  }

  lemma OrdinarySendKeeps(d: Disk, id: Id, reviewer: bool, sent: int, message: string)
    requires Sound(d) && Validated(d, false) && !Has(d.state.requests, id)
    requires FindGrant(d.files, id).None? && !Unused(d.files)
    requires reviewer ==> |Reviewers(d.state.requests)| < LIMIT
    ensures var saved := Put(d, SaveState(WithRequest(d.state, NewRequest(id, reviewer, sent))));
            Sound(saved) && Sound(Put(saved, Post(id, message)))
  {
    var saved := Put(d, SaveState(WithRequest(d.state, NewRequest(id, reviewer, sent))));
    RequestSaved(d, id, reviewer, sent);
    HasAppend(d.state.requests, NewRequest(id, reviewer, sent), id);
    Dispatched(saved, id, message);
  }

  /** The three disks of a dispatched continuation: stranded, projected, dispatched. */
  lemma ConsumingSendKeeps(d: Disk, id: Id, sent: int, message: string, live: int, now: int)
    requires Sound(d) && Admitted(d, id, message, live)
    ensures var c := NewConsumption(d.files[|d.files| - 1], NewRequest(id, true, sent), now);
            && Stranded(Put(d, StoreEntry(c)))
            && Sound(Consumed(d, c))
            && Sound(Put(Consumed(d, c), Post(id, message)))
  {
    var c := NewConsumption(d.files[|d.files| - 1], NewRequest(id, true, sent), now);
    ConsumptionStored(d, id, sent, message, live, now);
    assert Entries(d) == d.files;
    ConsumedSound(d, c);
    HasAppend(d.state.requests, LinkedRequest(d.files[|d.files| - 1], c), id);
    Dispatched(Consumed(d, c), id, message);
  }

  lemma UnusedReviewers(d: Disk)
    requires Sound(d) && Validated(d, false) && Unused(d.files)
    ensures |Reviewers(d.state.requests)| >= LIMIT
  {
  }

  /** The send goes through the unused grant. */
  predicate Consumes(d: Disk, call: Call) {
    call.Send? && |SendPlan(d, call.id, call.reviewer, call.sent, call.message, call.live, call.now).writes| == 3
  }

  lemma OrdinaryPlanKeeps(d: Disk, call: Call, n: nat)
    requires Sound(d) && call.Send? && !Consumes(d, call) && n <= |PlanOf(d, call).writes|
    ensures Sound(PutAll(d, PlanOf(d, call).writes[..n]))
  {
    hide Sound, Validated, Inspects, Admitted;
    Prefixes(d, PlanOf(d, call).writes, n);
    if PlanOf(d, call).writes != [] {
      ValidatedEntries(d);
      if Unused(d.files) { UnusedReviewers(d); }
      OrdinarySendKeeps(d, call.id, call.reviewer, call.sent, call.message);
    }
  }

  lemma ConsumingPlan(d: Disk, call: Call)
    requires Sound(d) && Consumes(d, call)
    ensures Admitted(d, call.id, call.message, call.live)
    ensures call.reviewer && |d.files| == |d.state.items|
    ensures var grant := d.files[|d.files| - 1];
            var c := NewConsumption(grant, NewRequest(call.id, true, call.sent), call.now);
            PlanOf(d, call).writes
            == [StoreEntry(c), SaveState(WithRequest(WithItem(d.state, c), LinkedRequest(grant, c))),
                Post(call.id, call.message)]
  {
  }

  function ConsumptionOf(d: Disk, call: Call): Entry
    requires Unused(d.files) && call.Send?
  {
    NewConsumption(d.files[|d.files| - 1], NewRequest(call.id, true, call.sent), call.now)
  }

  /** The disks a dispatch through a grant can stop at. */
  function ConsumingDisk(d: Disk, call: Call, n: nat): Disk
    requires Unused(d.files) && call.Send?
  {
    if n == 0 then d
    else if n == 1 then Put(d, StoreEntry(ConsumptionOf(d, call)))
    else if n == 2 then Consumed(d, ConsumptionOf(d, call))
    else Put(Consumed(d, ConsumptionOf(d, call)), Post(call.id, call.message))
  }

  lemma ConsumingDisks(d: Disk, call: Call, n: nat)
    requires Unused(d.files) && call.Send? && n <= 3
    requires var c := ConsumptionOf(d, call);
             PlanOf(d, call).writes
             == [StoreEntry(c), SaveState(WithRequest(WithItem(d.state, c), LinkedRequest(d.files[|d.files| - 1], c))),
                 Post(call.id, call.message)]
    ensures PutAll(d, PlanOf(d, call).writes[..n]) == ConsumingDisk(d, call, n)
  {
    hide PlanOf;
    Prefixes(d, PlanOf(d, call).writes, n);
  }

  lemma ConsumingDiskOk(d: Disk, call: Call, n: nat)
    requires Sound(d) && call.Send? && Admitted(d, call.id, call.message, call.live) && n <= 3
    requires Unused(d.files)
    ensures n == 1 ==> Stranded(ConsumingDisk(d, call, n))
    ensures n != 1 ==> Sound(ConsumingDisk(d, call, n))
  {
    if n == 0 {
      assert ConsumingDisk(d, call, n) == d;
    } else {
      ConsumingSendKeeps(d, call.id, call.sent, call.message, call.live, call.now);
      if n == 1 {
      } else {
        assert Sound(ConsumingDisk(d, call, n));
      }
    }
  }

  lemma ConsumingPlanKeeps(d: Disk, call: Call, n: nat)
    requires Sound(d) && Consumes(d, call) && n <= 3
    ensures n <= |PlanOf(d, call).writes| && Unused(d.files)
    ensures PutAll(d, PlanOf(d, call).writes[..n]) == ConsumingDisk(d, call, n)
    ensures n == 1 ==> Stranded(ConsumingDisk(d, call, n))
    ensures n != 1 ==> Sound(ConsumingDisk(d, call, n))
  {
    ConsumingPlan(d, call);
    assert Entries(d) == d.files;
    ConsumingDisks(d, call, n);
    ConsumingDiskOk(d, call, n);
  }

  /** Only observations get past a stranded consumption: every other call is refused and writes nothing. */
  lemma StrandedBlocks(d: Disk, call: Call)
    requires Stranded(d)
    ensures !call.Progress? ==> PlanOf(d, call) == REFUSED
    ensures call.Progress? && PlanOf(d, call).writes != [] ==>
              && PlanOf(d, call).writes == [SaveState(call.state)]
              && call.state == d.state.(requests := call.state.requests)
              && AllObserved(d.state.requests, call.state.requests)
  {
    StrandedInvalid(d);
  }

  lemma ProgressKeeps(d: Disk, call: Call, n: nat)
    requires Inv(d) && call.Progress? && n <= |PlanOf(d, call).writes|
    ensures Sound(d) ==> Sound(PutAll(d, PlanOf(d, call).writes[..n]))
    ensures Stranded(d) ==> Stranded(PutAll(d, PlanOf(d, call).writes[..n]))
  {
    Prefixes(d, PlanOf(d, call).writes, n);
    if n == 1 {
      if Sound(d) { ProgressSaved(d, call.state); }
      if Stranded(d) { StrandedObserved(d, call.state); }
    }
  }

  /** Exactly one place strands the lane: a dispatch through a grant stopped between its stored consumption
      and its saved state. */
  lemma StrandsIff(d: Disk, event: Event)
    requires Sound(d)
    ensures Stranded(PutAll(d, Durable(d, event))) <==> Consumes(d, event.call) && event.cut == 1
    ensures !Stranded(PutAll(d, Durable(d, event))) ==> Sound(PutAll(d, Durable(d, event)))
  {
    var call, n := event.call, Min(event.cut, |PlanOf(d, event.call).writes|);
    if Consumes(d, call) {
      ConsumingPlan(d, call);
      ConsumingPlanKeeps(d, call, n);
    } else {
      PlainStep(d, call, n);
    }
    NotBoth(PutAll(d, Durable(d, event)));
  }

  lemma PlainStep(d: Disk, call: Call, n: nat)
    requires Sound(d) && !Consumes(d, call) && n <= |PlanOf(d, call).writes|
    ensures Sound(PutAll(d, PlanOf(d, call).writes[..n]))
  {
    match call
    case Audit(target, live) => AuditKeeps(d, target, live, n);
    case Extend(inputs, live, now) => ExtendKeeps(d, inputs, live, now, n);
    case Send(_, _, _, _, _, _) => OrdinaryPlanKeeps(d, call, n);
    case Progress(_) => ProgressKeeps(d, call, n);
  }

  lemma NotBoth(d: Disk)
    ensures !(Sound(d) && Stranded(d))
  {
    if Stranded(d) { StrandedInvalid(d); }
  }

  lemma StepKeepsInv(d: Disk, event: Event)
    requires Inv(d)
    ensures Inv(PutAll(d, Durable(d, event)))
  {
    if Sound(d) {
      StrandsIff(d, event);
    } else {
      StrandedStep(d, event);
    }
  }

  lemma StrandedStep(d: Disk, event: Event)
    requires Stranded(d)
    ensures Stranded(PutAll(d, Durable(d, event)))
  {
    StrandedBlocks(d, event.call);
    if event.call.Progress? {
      ProgressKeeps(d, event.call, Min(event.cut, |PlanOf(d, event.call).writes|));
    }
  }

  // ----- whole runs -----

  /** A room that never used the lane starts inside the invariant. */
  lemma NewLaneInv(d: Disk)
    requires d.files == [] && d.state.items == [] && d.audits == {} && d.state.requests == []
    requires d.posted == multiset{}
    ensures Inv(d)
  {
    assert LinkedIds(d.state.requests) == {};
  }

  lemma {:induction false} RunKeepsInv(d: Disk, events: seq<Event>)
    requires Inv(d)
    ensures Inv(Run(d, events))
    decreases events
  {
    if events != [] {
      StepKeepsInv(d, events[0]);
      RunKeepsInv(PutAll(d, Durable(d, events[0])), events[1..]);
    }
  }

  // ----- accounting -----

  /** The projected entries of a stranded or sound disk. */
  function ProjectedOf(d: Disk): seq<Entry>
    requires |d.state.items| <= |d.files|
  {
    d.files[..|d.state.items|]
  }

  /** What holds of the journal and the requests whether or not a consumption is stranded. */
  ghost predicate Shaped(d: Disk) {
    && |d.state.items| <= |d.files| <= |d.state.items| + 1
    && Alternating(d.files) && Alternating(ProjectedOf(d))
    && IdentitiesOk(d.files) && UniqueIds(d.state.requests) && PostedOk(d.posted, d.state.requests)
    && Linked(ProjectedOf(d), d.state.requests)
  }

  lemma SoundShape(d: Disk)
    requires Sound(d)
    ensures Shaped(d)
  {
  }

  lemma StrandedShape(d: Disk)
    requires 2 <= |d.files| == |d.state.items| + 1 && Shaped(Trim(d))
    requires Answers(d.files[|d.files| - 1], d.files[|d.files| - 2])
    ensures Shaped(d)
  {
    var all := Trim(d).files;
    assert d.files == all + [d.files[|d.files| - 1]];
    AlternatingAppend(all, d.files[|d.files| - 1]);
    IdentitiesConsume(all, d.files[|d.files| - 1]);
  }

  lemma InvShape(d: Disk)
    requires Inv(d)
    ensures Shaped(d)
  {
    hide Sound;
    if Sound(d) {
      SoundShape(d);
    } else {
      SoundShape(Trim(d));
      StrandedShape(d);
    }
  }

  lemma InvCounters(d: Disk)
    requires Inv(d) && d.state.items != []
    ensures |d.state.items| <= |d.files|
    ensures CountersOk(ProjectedOf(d), d.state.requests) && ConsumptionsOk(ProjectedOf(d), d.state.requests)
  {
    if Stranded(d) {
      assert ProjectedOf(d) == ProjectedOf(Trim(d));
    }
  }

  /** The k-th entry consumes the grant before it, and a reviewer request answers it. */
  predicate Answered(entries: seq<Entry>, k: nat, attempt: Request)
    requires 0 < k < |entries|
  {
    && entries[k - 1].Grant? && entries[k].Consumption?
    && entries[k].grant == entries[k - 1]
    && attempt.id == entries[k].review == entries[k - 1].target.review
    && attempt.link == Some(Link(entries[k - 1].inputs.id, entries[k - 1], entries[k]))
  }

  /** Reviewer attempts are three plus the consumptions, at most one projected grant is unused, the k-th
      consumption is the k-th review beyond the ordinary ones and answers the grant before it, and exactly
      the consumed reviews carry a link. */
  predicate Accounted(entries: seq<Entry>, requests: seq<Request>) {
    && |Reviewers(requests)| == LIMIT + Consumptions(entries)
    && Grants(entries) == Consumptions(entries) + (if Unused(entries) then 1 else 0)
    && LinkedIds(requests) == ConsumedIds(entries)
    && forall k :: 0 <= k < |entries| && k % 2 == 1 ==>
         && LIMIT + k / 2 < |Reviewers(requests)|
         && Answered(entries, k, Reviewers(requests)[LIMIT + k / 2])
  }

  lemma AccountedFrom(entries: seq<Entry>, requests: seq<Request>)
    requires Alternating(entries) && Linked(entries, requests)
    requires CountersOk(entries, requests) && ConsumptionsOk(entries, requests)
    ensures Accounted(entries, requests)
  {
    CountsByIndex(entries);
    CountersByIndex(entries, requests);
    ConsumptionsByIndex(entries, requests);
    if entries != [] { assert entries[|entries| - 1].Grant? <==> (|entries| - 1) % 2 == 0; }
    forall k | 0 <= k < |entries| && k % 2 == 1
      ensures LIMIT + k / 2 < |Reviewers(requests)|
      ensures Answered(entries, k, Reviewers(requests)[LIMIT + k / 2])
    {
      assert ConsumptionOk(entries, k, Reviewers(requests)[LIMIT + k / 2]);
    }
  }

  /** The accounting of every reachable disk that used the lane, and no grant or review id repeats. */
  lemma Accounting(d: Disk)
    requires Inv(d) && d.state.items != []
    ensures |d.state.items| <= |d.files| && IdentitiesOk(d.files) && Alternating(d.files)
    ensures Accounted(ProjectedOf(d), d.state.requests)
  {
    InvShape(d);
    InvCounters(d);
    AccountedFrom(ProjectedOf(d), d.state.requests);
  }

  lemma IntendedAt(all: seq<Entry>, requests: seq<Request>)
    requires all != [] && Alternating(all) && |all| % 2 == 1 && IntendedFree(all, requests)
    ensures all[|all| - 1].Grant? && !Has(requests, all[|all| - 1].target.review)
  {
  }

  lemma SoundJournal(d: Disk)
    requires Sound(d) && d.files != []
    ensures Alternating(d.files) && IntendedFree(d.files, d.state.requests)
    ensures |d.files| == |d.state.items| || (|d.files| == |d.state.items| + 1 && d.files[|d.state.items|].Grant?)
  {
  }

  lemma StrandedBefore(d: Disk)
    requires Stranded(d)
    ensures Sound(Trim(d)) && |Trim(d).files| == |d.state.items| == |d.files| - 1
    ensures Trim(d).files[|d.files| - 2].Grant?
  {
  }

  lemma LengthAt(all: seq<Entry>, items: nat, k: nat)
    requires Alternating(all) && (|all| == items || (|all| == items + 1 && all[items].Grant?))
    requires k < |all| && k % 2 == 0 && k + 1 >= items
    ensures |all| == k + 1
  {
    assert |all| == items + 1 ==> items % 2 == 0;
  }

  lemma IntendedFrom(all: seq<Entry>, items: nat, requests: seq<Request>, k: nat)
    requires Alternating(all) && IntendedFree(all, requests)
    requires |all| == items || (|all| == items + 1 && all[items].Grant?)
    requires k < |all| && k % 2 == 0 && k + 1 >= items
    ensures all[k].Grant? && !Has(requests, all[k].target.review)
  {
    LengthAt(all, items, k);
    IntendedAt(all, requests);
  }

  lemma OddLength(all: seq<Entry>)
    requires Alternating(all) && all != [] && all[|all| - 1].Grant?
    ensures |all| % 2 == 1
  {
  }

  lemma StrandedJournal(d: Disk)
    requires Stranded(d)
    ensures |Trim(d).files| == |d.state.items| == |d.files| - 1 && 1 <= |Trim(d).files|
    ensures Alternating(Trim(d).files) && Trim(d).files[|d.files| - 2].Grant?
    ensures IntendedFree(Trim(d).files, d.state.requests)
  {
    StrandedBefore(d);
    SoundJournal(Trim(d));
  }

  lemma IntendedStranded(all: seq<Entry>, c: Entry, requests: seq<Request>, k: nat)
    requires Alternating(all) && all != [] && all[|all| - 1].Grant? && IntendedFree(all, requests)
    requires k <= |all| && k % 2 == 0 && k + 1 >= |all|
    ensures k < |all| && (all + [c])[k] == all[k]
    ensures all[k].Grant? && !Has(requests, all[k].target.review)
  {
    OddLength(all);
    IntendedFrom(all, |all|, requests, k);
  }

  lemma LastWhenSound(d: Disk, k: nat)
    requires Sound(d) && k < |d.files| && k % 2 == 0 && k + 1 >= |d.state.items|
    ensures d.files[k].Grant? && !Has(d.state.requests, d.files[k].target.review)
  {
    SoundJournal(d);
    IntendedFrom(d.files, |d.state.items|, d.state.requests, k);
  }

  lemma TrimmedFiles(d: Disk)
    requires d.files != []
    ensures d.files == Trim(d).files + [d.files[|d.files| - 1]]
  {
  }

  lemma LastWhenStranded(d: Disk, k: nat)
    requires Stranded(d) && k < |d.files| && k % 2 == 0 && k + 1 >= |d.state.items|
    ensures d.files[k].Grant? && !Has(d.state.requests, d.files[k].target.review)
  {
    StrandedJournal(d);
    IntendedStranded(Trim(d).files, d.files[|d.files| - 1], d.state.requests, k);
    TrimmedFiles(d);
  }

  lemma IntendedLast(d: Disk, k: nat)
    requires Inv(d) && k < |d.files| && k % 2 == 0 && k + 1 >= |d.state.items|
    ensures d.files[k].Grant? && !Has(d.state.requests, d.files[k].target.review)
  {
    if Sound(d) { LastWhenSound(d, k); } else { LastWhenStranded(d, k); }
  }

  lemma AnsweredAt(entries: seq<Entry>, requests: seq<Request>, k: nat)
    requires Accounted(entries, requests) && k % 2 == 0 && k + 1 < |entries|
    ensures entries[k].Grant? && entries[k + 1].Consumption? && entries[k + 1].grant == entries[k]
  {
    assert Answered(entries, k + 1, Reviewers(requests)[LIMIT + (k + 1) / 2]);
  }

  lemma ConsumedAt(d: Disk, k: nat)
    requires |d.state.items| <= |d.files| && Accounted(ProjectedOf(d), d.state.requests)
    requires k % 2 == 0 && k + 1 < |d.state.items|
    ensures d.files[k].Grant? && d.files[k + 1].Consumption? && d.files[k + 1].grant == d.files[k]
  {
    AnsweredAt(ProjectedOf(d), d.state.requests, k);
  }

  lemma PostedHas(d: Disk, id: Id)
    requires Inv(d)
    ensures d.posted[id] <= 1 && (d.posted[id] == 1 ==> Has(d.state.requests, id))
  {
    InvShape(d);
  }

  /** Each grant leads to at most one dispatched review, and only after its consumption was projected. */
  lemma OneReviewPerGrant(d: Disk, k: nat)
    requires Inv(d) && k < |d.files| && k % 2 == 0
    ensures d.files[k].Grant?
    ensures d.posted[d.files[k].target.review] <= 1
    ensures d.posted[d.files[k].target.review] == 1 ==>
              && k + 1 < |d.state.items| <= |d.files|
              && d.files[k + 1].Consumption? && d.files[k + 1].grant == d.files[k]
  {
    if k + 1 >= |d.state.items| {
      IntendedLast(d, k);
    } else {
      Accounting(d);
      ConsumedAt(d, k);
    }
    PostedHas(d, d.files[k].target.review);
  }

  /** Whatever is called and wherever it stops: after every run each grant of the journal has led to at most
      one dispatched review. */
  lemma RunDispatchesOnce(d: Disk, events: seq<Event>, k: nat)
    requires Inv(d)
    requires k < |Run(d, events).files| && k % 2 == 0
    ensures Run(d, events).files[k].Grant?
    ensures Run(d, events).posted[Run(d, events).files[k].target.review] <= 1
  {
    RunKeepsInv(d, events);
    OneReviewPerGrant(Run(d, events), k);
  }

  // ----- recovery -----

  /** A state that differs only by what later observation may change. */
  predicate ObservedOnly(before: State, now: State) {
    now == before.(requests := now.requests) && AllObserved(before.requests, now.requests)
  }

  /** While a grant is stored but not projected, nothing is written but observations and the projection of
      that very grant, and the projection only for the identical request. */
  lemma PendingOnlyReconciles(d: Disk, call: Call)
    requires Sound(d) && |d.files| == |d.state.items| + 1
    ensures var g, writes := d.files[|d.state.items|], PlanOf(d, call).writes;
      || writes == []
      || (call.Progress? && writes == [SaveState(call.state)] && ObservedOnly(d.state, call.state))
      || (call.Extend? && g.Grant? && call.inputs == g.inputs && writes == [SaveState(WithItem(d.state, g))])
  {
    assert Pending(d) == Some(d.files[|d.state.items|]);
    assert !JournalOk(d, false);
  }

  lemma StoredGrant(d: Disk, g: Entry)
    requires |d.files| == |d.state.items|
    ensures var stored := Put(d, StoreEntry(g));
      Entries(stored) == Entries(d) && Pending(stored) == Some(g) && stored.state == d.state && stored.audits == d.audits
  {
  }

  lemma RetryGrantable(d: Disk, inputs: Inputs, live: int, now: int)
    requires Sound(d) && Grantable(d, inputs, live) && Pending(d).None?
    ensures Grantable(Put(d, StoreEntry(NewGrant(Entries(d), inputs, now))), inputs, live)
  {
    var g := NewGrant(Entries(d), inputs, now);
    GrantStored(d, inputs, live, now);
    StoredGrant(d, g);
    InspectedVerified(d, inputs.audit.target, false);
  }

  /** A grant stopped before its projection is completed by the identical request, with the same bytes and
      the same state as if nothing had stopped. */
  lemma RetryCompletesGrant(d: Disk, inputs: Inputs, live: int, now: int, later: int)
    requires Sound(d) && |ExtendPlan(d, inputs, live, now).writes| == 2
    ensures var cut := PutAll(d, ExtendPlan(d, inputs, live, now).writes[..1]);
      && ExtendPlan(cut, inputs, live, later).accepted
      && PutAll(cut, ExtendPlan(cut, inputs, live, later).writes) == PutAll(d, ExtendPlan(d, inputs, live, now).writes)
  {
    var plan := ExtendPlan(d, inputs, live, now);
    var g := NewGrant(Entries(d), inputs, now);
    Prefixes(d, plan.writes, 1);
    RetryGrantable(d, inputs, live, now);
    StoredGrant(d, g);
    Whole(Put(d, StoreEntry(g)), [SaveState(WithItem(d.state, g))]);
    Whole(d, plan.writes);
  }

  lemma PendingFacts(d: Disk, g: Entry)
    requires Sound(d) && |d.files| == |d.state.items| + 1 && d.files[|d.state.items|] == g && g.Grant?
    ensures Validated(d, true) && Pending(d) == Some(g)
    ensures g.inputs.audit in d.audits && !Has(d.state.requests, g.inputs.id)
    ensures g.target == g.inputs.audit.target && !Has(d.state.requests, g.target.review)
    ensures Retained(Entries(d), d.state, g.inputs.audit, true)
    ensures CountersOk(Entries(d), d.state.requests) && IdentitiesOk(d.files) && Alternating(d.files)
  {
    LatestByIndex(d.files);
  }

  /** A pending grant is the entry its own inputs build again. */
  lemma PendingRebuilt(d: Disk, g: Entry)
    requires Sound(d) && |d.files| == |d.state.items| + 1 && d.files[|d.state.items|] == g && g.Grant?
    ensures g == NewGrant(Entries(d), g.inputs, g.recordedAt)
  {
    LatestByIndex(d.files);
    assert Chained(d.files) && AttemptsOk(d.files);
  }

  lemma PendingUnclaimed(d: Disk, g: Entry)
    requires |d.files| == |d.state.items| + 1 && d.files[|d.state.items|] == g && g.Grant?
    requires IdentitiesOk(d.files)
    ensures !Claimed(Entries(d), g.inputs.id) && FindGrant(Entries(d), g.inputs.id).None?
    ensures g.inputs.id != g.target.review
  {
    var n := |d.state.items|;
    forall k | 0 <= k < n && d.files[k].Grant?
      ensures d.files[k].inputs.id != g.inputs.id && d.files[k].target.review != g.inputs.id
    {
    }
    assert d.files[n].inputs.id != d.files[n].target.review;
  }

  lemma RetainedSettled(entries: seq<Entry>, state: State, evidence: Evidence)
    requires Retained(entries, state, evidence, true) && AllSettled(evidence.state.requests)
    ensures AllSettled(state.requests)
  {
    forall k | 0 <= k < |state.requests| ensures state.requests[k].settled {
      assert RetainedRequest(evidence.state.requests[k], state.requests[k]);
    }
  }

  lemma PendingCounts(d: Disk)
    requires |d.files| == |d.state.items| + 1 && Alternating(d.files) && d.files[|d.state.items|].Grant?
    requires CountersOk(Entries(d), d.state.requests)
    ensures |Reviewers(d.state.requests)| == LIMIT + Consumptions(Entries(d))
    ensures !Unused(Entries(d))
  {
    var n := |d.state.items|;
    assert n > 0 ==> !d.files[n - 1].Grant?;
  }

  lemma PendingInspects(d: Disk, g: Entry)
    requires Sound(d) && |d.files| == |d.state.items| + 1 && d.files[|d.state.items|] == g && g.Grant?
    ensures Inspects(d, g.target, true)
  {
    PendingFacts(d, g);
    RetainedSettled(Entries(d), d.state, g.inputs.audit);
    PendingCounts(d);
  }

  lemma PendingGrantable(d: Disk, g: Entry, live: int)
    requires Sound(d) && |d.files| == |d.state.items| + 1 && d.files[|d.state.items|] == g && g.Grant?
    ensures FindGrant(Entries(d), g.inputs.id).None? && Validated(d, true) && Pending(d) == Some(g)
    ensures Grantable(d, g.inputs, live) <==> EvidenceOf(d, g.inputs.audit.target, live) == g.inputs.audit
  {
    PendingFacts(d, g);
    PendingInspects(d, g);
    PendingUnclaimed(d, g);
  }

  /** A pending grant is completed exactly by its identical request over unchanged evidence. Any observation
      that changed a retained request since the audit therefore leaves it pending. */
  lemma PendingCompletedIff(d: Disk, g: Entry, inputs: Inputs, live: int, now: int)
    requires Sound(d) && |d.files| == |d.state.items| + 1 && d.files[|d.state.items|] == g && g.Grant?
    ensures ExtendPlan(d, inputs, live, now).writes != []
      <==> inputs == g.inputs && EvidenceOf(d, g.inputs.audit.target, live) == g.inputs.audit
  {
    PendingGrantable(d, g, live);
    PendingRebuilt(d, g);
  }

  // ----- what an unused grant freezes -----

  /** What an unused grant pins stays as it was, and so does the set of requests. */
  predicate Frozen(before: State, now: State) {
    && now.pinned == before.pinned && now.frozen == before.frozen && now.history == before.history
    && AllObserved(before.requests, now.requests)
  }

  lemma FrozenItem(state: State, e: Entry)
    ensures Frozen(state, state) && Frozen(state, WithItem(state, e))
  {
  }

  lemma UnusedExtend(d: Disk, call: Call)
    requires Sound(d) && Unused(d.files) && call.Extend?
    ensures PlanOf(d, call).writes == []
      || (exists g :: PlanOf(d, call).writes == [SaveState(WithItem(d.state, g))])
  {
    if |d.files| == |d.state.items| + 1 {
      PendingOnlyReconciles(d, call);
    } else {
      assert Entries(d) == d.files;
    }
  }

  lemma UnusedSend(d: Disk, call: Call)
    requires Sound(d) && Unused(d.files) && call.Send? && !Consumes(d, call)
    ensures PlanOf(d, call).writes == []
  {
    if |d.files| == |d.state.items| + 1 {
      PendingOnlyReconciles(d, call);
    } else {
      assert Entries(d) == d.files;
      if Validated(d, false) { UnusedReviewers(d); }
    }
  }

  lemma UnusedProgress(d: Disk, call: Call)
    requires Sound(d) && Unused(d.files) && call.Progress? && ProgressOk(d, call.state)
    ensures Frozen(d.state, call.state)
  {
    if Validated(d, false) { assert Entries(d) == d.files; }
  }

  lemma UnusedWrites(d: Disk, call: Call)
    requires Sound(d) && Unused(d.files) && !Consumes(d, call)
    ensures var ws := PlanOf(d, call).writes;
      || ws == []
      || (|ws| == 1 && ws[0].StoreAudit?)
      || (|ws| == 1 && ws[0].SaveState? && Frozen(d.state, ws[0].state))
  {
    match call
    case Audit(_, _) =>
    case Extend(_, _, _) =>
      UnusedExtend(d, call);
      forall g ensures Frozen(d.state, WithItem(d.state, g)) { FrozenItem(d.state, g); }
    case Send(_, _, _, _, _, _) => UnusedSend(d, call);
    case Progress(state) => if ProgressOk(d, state) { UnusedProgress(d, call); }
  }

  lemma UnusedOther(d: Disk, call: Call, n: nat)
    requires Sound(d) && Unused(d.files) && !Consumes(d, call) && n <= |PlanOf(d, call).writes|
    ensures Frozen(d.state, PutAll(d, PlanOf(d, call).writes[..n]).state)
  {
    UnusedWrites(d, call);
    Prefixes(d, PlanOf(d, call).writes, n);
    FrozenItem(d.state, d.files[|d.files| - 1]);
  }

  lemma ConsumingState(d: Disk, call: Call, n: nat)
    requires Unused(d.files) && call.Send? && n <= 3
    ensures var c := ConsumptionOf(d, call);
      if n < 2 then Frozen(d.state, ConsumingDisk(d, call, n).state)
      else ConsumingDisk(d, call, n).state
           == WithRequest(WithItem(d.state, c), LinkedRequest(d.files[|d.files| - 1], c))
  {
    FrozenItem(d.state, d.files[|d.files| - 1]);
  }

  /** While a grant is unused nothing it pins changes and no request appears, except by dispatching the one
      review it names, whose request is linked to its consumption. */
  lemma UnusedFreezes(d: Disk, call: Call, n: nat)
    requires Sound(d) && Unused(d.files) && n <= |PlanOf(d, call).writes|
    ensures var after := PutAll(d, PlanOf(d, call).writes[..n]).state;
      if !Consumes(d, call) || n < 2 then Frozen(d.state, after)
      else var c := ConsumptionOf(d, call);
           && call.id == d.files[|d.files| - 1].target.review
           && after == WithRequest(WithItem(d.state, c), LinkedRequest(d.files[|d.files| - 1], c))
  {
    if Consumes(d, call) {
      ConsumingPlan(d, call);
      ConsumingDisks(d, call, n);
      ConsumingState(d, call, n);
    } else {
      UnusedOther(d, call, n);
    }
  }

  /** No event of the run goes through the unused grant. */
  predicate Unspent(d: Disk, events: seq<Event>)
    decreases events
  {
    events == [] || (!(Consumes(d, events[0].call) && events[0].cut > 0)
                     && Unspent(PutAll(d, Durable(d, events[0])), events[1..]))
  }

  lemma FrozenTwice(a: State, b: State, c: State)
    requires Frozen(a, b) && Frozen(b, c)
    ensures Frozen(a, c)
  {
    forall k | 0 <= k < |a.requests| ensures Observed(a.requests[k], c.requests[k]) {
      assert Observed(a.requests[k], b.requests[k]) && Observed(b.requests[k], c.requests[k]);
    }
  }

  // ----- the journal only grows -----

  lemma PutGrows(d: Disk, ws: seq<Write>)
    ensures d.files <= PutAll(d, ws).files
    decreases ws
  {
    if ws != [] { PutGrows(Put(d, ws[0]), ws[1..]); }
  }

  /** A frame fact: journal files are only ever added. */
  lemma {:induction false} JournalAppendOnly(d: Disk, events: seq<Event>)
    ensures d.files <= Run(d, events).files
    decreases events
  {
    if events != [] {
      PutGrows(d, Durable(d, events[0]));
      JournalAppendOnly(PutAll(d, Durable(d, events[0])), events[1..]);
    }
  }

  lemma UnusedFiles(d: Disk, call: Call, n: nat)
    requires Sound(d) && Unused(d.files) && !Consumes(d, call) && n <= |PlanOf(d, call).writes|
    ensures PutAll(d, PlanOf(d, call).writes[..n]).files == d.files
  {
    UnusedWrites(d, call);
    Prefixes(d, PlanOf(d, call).writes, n);
  }

  lemma UnusedStep(d: Disk, event: Event)
    requires Sound(d) && Unused(d.files) && !(Consumes(d, event.call) && event.cut > 0)
    ensures var after := PutAll(d, Durable(d, event));
      Sound(after) && after.files == d.files && Frozen(d.state, after.state)
  {
    if Consumes(d, event.call) {
      assert Durable(d, event) == [];
      FrozenItem(d.state, d.files[|d.files| - 1]);
    } else {
      var n := Min(event.cut, |PlanOf(d, event.call).writes|);
      UnusedOther(d, event.call, n);
      UnusedFiles(d, event.call, n);
      PlainStep(d, event.call, n);
    }
  }

  lemma SpentGrows(d: Disk, event: Event)
    requires Sound(d) && Unused(d.files) && Consumes(d, event.call) && event.cut > 0
    ensures |PutAll(d, Durable(d, event)).files| > |d.files|
  {
    hide Sound, Validated, SendPlan;
    ConsumingPlan(d, event.call);
    ConsumingDisks(d, event.call, Min(event.cut, 3));
    ConsumingFiles(d, event.call, Min(event.cut, 3));
  }

  lemma ConsumingFiles(d: Disk, call: Call, n: nat)
    requires Unused(d.files) && call.Send? && 0 < n <= 3
    ensures |ConsumingDisk(d, call, n).files| == |d.files| + 1
  {
  }

  /** Over every run that starts with an unused grant: the journal stays as it is exactly while no event goes
      through the grant, and until then nothing the grant pins changes and no request appears. */
  lemma {:induction false} UnusedFreezesRun(d: Disk, events: seq<Event>)
    requires Sound(d) && Unused(d.files)
    ensures Unspent(d, events) <==> Run(d, events).files == d.files
    ensures Unspent(d, events) ==> Sound(Run(d, events)) && Frozen(d.state, Run(d, events).state)
    decreases events
  {
    if events == [] {
      FrozenItem(d.state, d.files[|d.files| - 1]);
    } else {
      var next := PutAll(d, Durable(d, events[0]));
      if Consumes(d, events[0].call) && events[0].cut > 0 {
        SpentGrows(d, events[0]);
        JournalAppendOnly(next, events[1..]);
      } else {
        UnusedStep(d, events[0]);
        UnusedFreezesRun(next, events[1..]);
        if Unspent(next, events[1..]) { FrozenTwice(d.state, next.state, Run(d, events).state); }
      }
    }
  }

  // ----- after a stranded consumption -----

  /** A stranded consumption stays stranded: no later run dispatches anything or adds a request, a grant or
      a consumption. */
  lemma {:induction false} StrandedForever(d: Disk, events: seq<Event>)
    requires Stranded(d)
    ensures Stranded(Run(d, events))
    ensures Run(d, events).files == d.files && Run(d, events).posted == d.posted
    ensures ObservedOnly(d.state, Run(d, events).state)
    decreases events
  {
    if events != [] {
      var after := PutAll(d, Durable(d, events[0]));
      StrandedStep(d, events[0]);
      StrandedWrites(d, events[0]);
      StrandedForever(after, events[1..]);
      ObservedTwice(d.state, after.state, Run(d, events).state);
    } else {
      ObservedTwice(d.state, d.state, d.state);
    }
  }

  lemma StrandedWrites(d: Disk, event: Event)
    requires Stranded(d)
    ensures var after := PutAll(d, Durable(d, event));
      after.files == d.files && after.posted == d.posted && ObservedOnly(d.state, after.state)
  {
    hide Stranded, PlanOf;
    StrandedBlocks(d, event.call);
    Prefixes(d, PlanOf(d, event.call).writes, Min(event.cut, |PlanOf(d, event.call).writes|));
  }

  lemma ObservedTwice(a: State, b: State, c: State)
    requires a == b || ObservedOnly(a, b)
    requires b == c || ObservedOnly(b, c)
    ensures ObservedOnly(a, c)
  {
    forall k | 0 <= k < |a.requests| ensures Observed(a.requests[k], c.requests[k]) {
      assert a == b || Observed(a.requests[k], b.requests[k]);
      assert b == c || Observed(b.requests[k], c.requests[k]);
    }
  }
}
