/** The main results about one room's engineering journal: over every run of calls, with a crash
    between any two durable writes. */
module RoomTheorems {
  import opened Values
  import opened EngineeringModel
  import opened EngineeringTransition
  import opened JournalProofs
  import opened RoomRuns
  import opened TransitionSafety
  import opened TransitionProtocol

  // ----- dispatching a request only performs legal writes -----

  /** The newest epoch is unresolved exactly when no claimed resolution belongs to it. */
  lemma UnresolvedNewest(room: Room, i: nat)
    requires LastEpoch(EpochsOf(room)).resolved.None? && i < |room.resolutions|
    ensures EpochIndex(BaseHistory(room), room.resolutions[i].record.order) != |BaseHistory(room)| - 1
  {
    ResolveAllMarks(BaseHistory(room), room.resolutions, i);
  }

  /** The newest engineer request of an epoch still adopting, when it proves its model. */
  predicate AdoptsFrom(d: Disk, request: Request, order: nat) {
    var epoch := LastEpoch(EpochsOf(d.room));
    && Adopting(epoch)
    && LatestIn(d.room, epoch) == Some(order)
    && request == d.room.requests[order - 1]
    && ProvesModel(d, epoch.selector.family, request)
    && RequestOk(EpochsOf(d.room), request, order)
  }

  lemma NewestIndex(d: Disk, request: Request, order: nat)
    requires AdoptsFrom(d, request, order)
    ensures EpochFor(BaseHistory(d.room), order) == LastEpoch(BaseHistory(d.room))
    ensures EpochIndex(BaseHistory(d.room), order) == |BaseHistory(d.room)| - 1
    ensures request.model == LastEpoch(BaseHistory(d.room)).selector.Configured()
  {
    NewestSelector(d.room);
    IndexLast(BaseHistory(d.room), order);
    ResolvedIndex(BaseHistory(d.room), d.room.resolutions, order);
  }

  lemma NewResolutionOk(d: Disk, request: Request, order: nat, now: int)
    requires AdoptsFrom(d, request, order)
    ensures ResolutionOk(BaseHistory(d.room), Session(d.room), d.room.requests, d.outcomes, request.id,
                         NewResolution(LastEpoch(EpochsOf(d.room)), request, order, now))
  {
    NewestSelector(d.room);
    NewestIndex(d, request, order);
  }

  lemma NewResolutionLegal(d: Disk, request: Request, order: nat, now: int)
    requires AdoptsFrom(d, request, order)
    requires JournalOk(d, false) && PendingResolution(d).None? && request.id !in d.resolutions
    ensures LegalResolution(d, NewResolution(LastEpoch(EpochsOf(d.room)), request, order, now))
  {
    var v := NewResolution(LastEpoch(EpochsOf(d.room)), request, order, now);
    NewResolutionOk(d, request, order, now);
    NewestIndex(d, request, order);
    NewestSelector(d.room);
    forall i | 0 <= i < |d.room.resolutions|
      ensures EpochIndex(BaseHistory(d.room), d.room.resolutions[i].record.order) != |BaseHistory(d.room)| - 1
    {
      UnresolvedNewest(d.room, i);
    }
    assert InterruptedOk(BaseHistory(d.room), LedgerOf(WithResolution(d, v)), v.id);
  }

  lemma AdoptableLegal(d: Disk, now: int)
    requires Inv(d) && Adoptable(d, now).Success? && Adoptable(d, now).value.Some?
    ensures var v := Adoptable(d, now).value.value;
            && Good(d) && LegalResolution(d, v)
            && (v.id in d.resolutions ==> PendingResolution(d) == Some(v.id))
  {
    SoundIsGood(d);
    if PendingResolution(d).Some? {
      PendingIff(d);
    } else {
      var order := LatestIn(d.room, LastEpoch(EpochsOf(d.room))).value;
      NewResolutionLegal(d, d.room.requests[order - 1], order, now);
    }
  }

  lemma AdoptLegal(d: Disk, now: int)
    requires Inv(d)
    ensures AllLegal(d, AdoptPlan(d, now).writes)
  {
    assert AllLegal(d, []);
    hide AllLegal, Inv, Good, Adoptable, ResolutionPlan, LegalResolution;
    var choice := Adoptable(d, now);
    if choice.Success? && choice.value.Some? {
      AdoptableLegal(d, now);
      ResolutionLegal(d, choice.value.value, false);
    }
  }

  /** Where a new engineer request may be frozen, no adoption can be interrupted. */
  lemma FreezeIsSettled(d: Disk)
    requires JournalOk(d, false) && FreezeRequest(d.room).Success?
    ensures PendingResolution(d).None?
  {
    PendingIff(d);
    NewestSelector(d.room);
    LastEpochPinned(d.room.initial, RequestIds(d.room.requests), d.room.pointer);
  }

  lemma NewRequestOk(d: Disk, id: Id, session: string)
    requires JournalOk(d, false) && FreezeRequest(d.room).Success?
    ensures LegalRequest(d, EngineerRequest(d.room, id, session, FreezeRequest(d.room).value))
  {
    FreezeIsSettled(d);
    var n := |d.room.requests|;
    LastEpochFrom(d.room.initial, RequestIds(d.room.requests), d.room.pointer);
    NewestSelector(d.room);
    IndexLast(EpochsOf(d.room), n + 1);
  }

  lemma PutTwo(d: Disk, v: Write, w: Write)
    ensures PutAll(d, [v, w]) == Put(Put(d, v), w)
  {
    PutAllConcat(d, [v], [w]);
    assert [v] + [w] == [v, w];
    assert PutAll(Put(d, v), []) == Put(d, v);
    assert PutAll(Put(Put(d, v), w), []) == Put(Put(d, v), w);
  }

  lemma ResolutionSettles(d: Disk, v: Resolution)
    requires ResolutionPlan(d, v, false).reply.Reaudit?
    ensures JournalOk(PutAll(d, ResolutionPlan(d, v, false).writes), false)
  {
    PutTwo(d, StoreResolution(v), SaveResolutions(MoreResolutions(d, v)));
  }

  /** Adoption never leaves the journal with a pending transition. */
  lemma AdoptSettles(d: Disk, now: int)
    requires Inv(d) && JournalOk(d, false) && !AdoptPlan(d, now).reply.Refusal?
    ensures JournalOk(PutAll(d, AdoptPlan(d, now).writes), false)
  {
    var choice := Adoptable(d, now);
    if choice.Success? && choice.value.Some? { ResolutionSettles(d, choice.value.value); }
  }

  lemma SendLegalEngineer(d: Disk, id: Id, session: string, now: int)
    requires Inv(d) && JournalOk(d, false)
    ensures var adopt := AdoptPlan(d, now);
            var adopted := PutAll(d, adopt.writes);
            !adopt.reply.Refusal? && FreezeRequest(adopted.room).Success? ==>
              AllLegal(d, adopt.writes
                          + [SaveRequest(EngineerRequest(adopted.room, id, session,
                                                         FreezeRequest(adopted.room).value))])
  {
    var adopt := AdoptPlan(d, now);
    var adopted := PutAll(d, adopt.writes);
    if !adopt.reply.Refusal? && FreezeRequest(adopted.room).Success? {
      var r := EngineerRequest(adopted.room, id, session, FreezeRequest(adopted.room).value);
      AdoptLegal(d, now);
      AdoptSettles(d, now);
      NewRequestOk(adopted, id, session);
      LegalOne(adopted, SaveRequest(r));
      AllLegalConcat(d, adopt.writes, [SaveRequest(r)]);
    }
  }

  lemma SendsLegal(d: Disk, id: Id, role: string, session: string, now: int)
    requires Inv(d)
    ensures AllLegal(d, SendPlan(d, id, role, session, now).writes)
  {
    if SendPlan(d, id, role, session, now).writes != [] {
      if role != "engineer" {
        LegalOne(d, SaveRequest(Request(id, role, session, "", EFFORT, Unsettled, "", None, None)));
      } else {
        AdoptLegal(d, now);
        SendLegalEngineer(d, id, session, now);
      }
    }
  }

  /** Every write of every call is legal where it happens. */
  lemma PlanLegal(d: Disk, call: Call)
    requires Inv(d)
    ensures AllLegal(d, PlanOf(d, call).writes)
  {
    hide Inv, TransitionPlan, AbandonPlan, SendPlan;
    match call
    case Bind(binding, allowed) =>
      if BindPlan(d, binding, allowed).writes != [] { LegalOne(d, SaveEngineer(binding)); }
    case Transition(inputs, precondition, env) => TransitionLegal(d, inputs, precondition, env);
    case Abandon(c, env) => AbandonLegal(d, c, env);
    case Send(id, role, session, now) => SendsLegal(d, id, role, session, now);
    case Progress(requests, policy, other, outcomes) =>
      if ProgressOk(d, requests, outcomes) { LegalOne(d, SaveProgress(requests, policy, other, outcomes)); }
  }

  // ----- runs -----

  lemma {:induction false} LegalPrefix(d: Disk, ws: seq<Write>, k: nat)
    requires AllLegal(d, ws) && k <= |ws|
    ensures AllLegal(d, ws[..k])
  {
    assert ws[..k] + ws[k..] == ws;
    AllLegalConcat(d, ws[..k], ws[k..]);
  }

  lemma EventKeepsInv(d: Disk, event: Event)
    requires Inv(d)
    ensures AllLegal(d, Durable(d, event)) && Inv(PutAll(d, Durable(d, event)))
  {
    PlanLegal(d, event.call);
    var writes := PlanOf(d, event.call).writes;
    LegalPrefix(d, writes, Min(event.cut, |writes|));
    WritesKeepInv(d, Durable(d, event));
  }

  /** A new room starts inside the invariant, its engineer bound or not. */
  lemma NewRoomInv(d: Disk)
    requires d.files == Files(map[], map[], map[]) && d.resolutions == map[] && d.patched == multiset{}
    requires d.room.pointer.None? && d.room.resolutions == [] && d.room.requests == []
    requires PinOk(d.room.initial) && SelectorOk(d.room.initial.selector)
    ensures Inv(d) && JournalOk(d, false)
  {
    assert Lineage(d.room.pointer) == [];
    assert ClaimedNames(LedgerOf(d)) == {};
    assert Sound(d);
  }

  /** The invariant holds after every run, wherever each call of it was cut. */
  lemma {:induction false} RunKeepsInv(d: Disk, events: seq<Event>)
    requires Inv(d)
    ensures Inv(Run(d, events))
    decreases events
  {
    if events != [] {
      EventKeepsInv(d, events[0]);
      RunKeepsInv(PutAll(d, Durable(d, events[0])), events[1..]);
    }
  }

  /** Over every run, no request is ever PATCHed twice, and a PATCHed request keeps its marker. */
  lemma AtMostOnePatch(d: Disk, events: seq<Event>, id: Id)
    requires Inv(d)
    ensures Run(d, events).patched[id] <= 1
    ensures Run(d, events).patched[id] == 1 ==> id in Run(d, events).files.attempts
  {
    RunKeepsInv(d, events);
    var last := Run(d, events);
    if id in last.patched { assert last.patched[id] == 1; }
  }

  lemma LegalHead(d: Disk, ws: seq<Write>)
    requires AllLegal(d, ws) && ws != []
    ensures Legal(d, ws[0])
  {
  }

  lemma LegalAt(d: Disk, ws: seq<Write>, k: nat)
    requires AllLegal(d, ws) && k < |ws|
    ensures Legal(PutAll(d, ws[..k]), ws[k])
  {
    assert ws == ws[..k] + ws[k..];
    AllLegalConcat(d, ws[..k], ws[k..]);
    LegalHead(PutAll(d, ws[..k]), ws[k..]);
  }

  /** What a PATCH asks of the native session: the bound engineer's session gets the model the request named, at the
      greatest effort and with its approval setting unchanged. */
  predicate AsksFor(room: Room, x: Intent, patch: Option<Patch>) {
    && room.engineer.Some? && x.inputs.target != x.inputs.source
    && patch == Some(Patch(room.engineer.value.session, x.inputs.target, "max",
                           if x.evidence.native.settings.approval == "" then None
                           else Some(x.evidence.native.settings.approval)))
  }

  lemma PatchAsks(d: Disk, id: Id, patch: Option<Patch>)
    requires LegalPatch(d, id, patch)
    ensures id in d.files.requests && AsksFor(d.room, d.files.requests[id], patch)
  {
    NewestLink(d.files, d.room.engineer, d.room.pointer);
  }

  /** Whenever a call sends a PATCH, that request's intent, pending pointer and marker are already durable, no terminal
      record exists and no PATCH was sent before; and the PATCH asks for exactly what the request named. */
  lemma PatchIsLast(d: Disk, call: Call, k: nat, id: Id, patch: Option<Patch>)
    requires Inv(d) && k < |PlanOf(d, call).writes| && PlanOf(d, call).writes[k] == SendPatch(id, patch)
    ensures var sending := PutAll(d, PlanOf(d, call).writes[..k]);
            && LegalPatch(sending, id, patch)
            && id in sending.files.requests && AsksFor(sending.room, sending.files.requests[id], patch)
  {
    PlanLegal(d, call);
    LegalAt(d, PlanOf(d, call).writes, k);
    PatchAsks(PutAll(d, PlanOf(d, call).writes[..k]), id, patch);
  }

  /** Wherever a run stops, either the journal reader accepts the journal, or a crash left exactly one
      intent unclaimed and the rest of the journal is accepted. Only the newest attempt may be pending. */
  lemma CrashClosure(d: Disk, events: seq<Event>)
    requires Inv(d)
    ensures var last := Run(d, events);
            && (|| (Sound(last) && Unclaimed(last) == {})
                || exists id :: Unclaimed(last) == {id} && Sound(Without(last, id)))
            && (forall link :: link in Lineage(last.room.pointer) && link.state.Pending?
                               ==> Some(link) == last.room.pointer)
  {
    RunKeepsInv(d, events);
    var last := Run(d, events);
    if Good(last) {
      GoodUnclaimed(last);
      NewestPending(last);
    } else {
      var id :| InterruptedBy(last, id);
      InterruptedUnclaimed(last, id);
      NewestPending(Without(last, id));
    }
  }

  lemma NewestPending(d: Disk)
    requires Sound(d)
    ensures forall link :: link in Lineage(d.room.pointer) && link.state.Pending? ==> Some(link) == d.room.pointer
  {
    forall link | link in Lineage(d.room.pointer) && link.state.Pending? ensures Some(link) == d.room.pointer {
      LastLink(d.room.pointer, link);
    }
  }

  // ----- nothing durable is rewritten -----

  predicate Extends<T(==)>(a: map<Id, T>, b: map<Id, T>) {
    forall id :: id in a ==> id in b && b[id] == a[id]
  }

  /** Intents, markers and terminal records are never replaced, and a terminal attempt stays published
      with its outcome. */
  predicate KeepsJournal(a: Disk, b: Disk) {
    && Extends(a.files.requests, b.files.requests)
    && Extends(a.files.attempts, b.files.attempts)
    && Extends(a.files.records, b.files.records)
    && forall link :: link in Lineage(a.room.pointer) && !link.state.Pending? ==> link in Lineage(b.room.pointer)
  }

  lemma PointerKeepsLineage(d: Disk, p: Pointer)
    requires LegalPointer(d, p)
    ensures forall link :: link in Lineage(d.room.pointer) && !link.state.Pending? ==> link in Lineage(Some(p))
  {
  }

  lemma IntentExtends(d: Disk, x: Intent)
    requires LegalIntent(d, x)
    ensures Extends(d.files.requests, WithIntent(d, x).files.requests)
  {
  }

  lemma MarkerExtends(d: Disk, m: Marker)
    requires LegalMarker(d, m)
    ensures Extends(d.files.attempts, WithMarker(d, m).files.attempts)
  {
  }

  lemma RecordExtends(d: Disk, r: Record)
    requires LegalRecord(d, r)
    ensures Extends(d.files.records, WithRecord(d, r).files.records)
  {
  }

  lemma StepKeepsFiles(d: Disk, w: Write)
    requires Legal(d, w)
    ensures Extends(d.files.requests, Put(d, w).files.requests)
    ensures Extends(d.files.attempts, Put(d, w).files.attempts)
    ensures Extends(d.files.records, Put(d, w).files.records)
  {
    hide LegalIntent, LegalMarker, LegalRecord, LegalPatch, LegalPointer, LegalResolution, LegalResolutions;
    hide LegalRequest, LegalEngineer, ProgressOk;
    match w
    case StoreIntent(x) => IntentExtends(d, x);
    case StoreMarker(m) => MarkerExtends(d, m);
    case StoreRecord(r) => RecordExtends(d, r);
    case SendPatch(_, _) =>
    case StoreResolution(_) =>
    case SavePointer(_) =>
    case SaveResolutions(_) =>
    case SaveEngineer(_) =>
    case SaveRequest(_) =>
    case SaveProgress(_, _, _, _) =>
  }

  lemma StepKeepsJournal(d: Disk, w: Write)
    requires Legal(d, w)
    ensures KeepsJournal(d, Put(d, w))
  {
    StepKeepsFiles(d, w);
    if w.SavePointer? { PointerKeepsLineage(d, w.pointer); }
  }

  lemma {:induction false} WritesKeepJournal(d: Disk, ws: seq<Write>)
    requires AllLegal(d, ws)
    ensures KeepsJournal(d, PutAll(d, ws))
    decreases ws
  {
    if ws != [] {
      StepKeepsJournal(d, ws[0]);
      WritesKeepJournal(Put(d, ws[0]), ws[1..]);
    }
  }

  lemma {:induction false} RunKeepsJournal(d: Disk, events: seq<Event>)
    requires Inv(d)
    ensures KeepsJournal(d, Run(d, events))
    decreases events
  {
    if events != [] {
      EventKeepsInv(d, events[0]);
      WritesKeepJournal(d, Durable(d, events[0]));
      RunKeepsJournal(PutAll(d, Durable(d, events[0])), events[1..]);
    }
  }

  /** A published attempt's state is its terminal record's own outcome. */
  lemma PublishedState(files: Files, engineer: Option<Binding>, link: Pointer)
    requires LinkOk(files, engineer, link) && link.id in files.records
    ensures link.state == Pending || link.state == TerminalLink(link.intent, files.records[link.id]).state
  {
  }

  lemma PublishedOk(d: Disk, link: Pointer)
    requires Sound(d) && link in Lineage(d.room.pointer)
    ensures LinkOk(d.files, d.room.engineer, link)
  {
  }

  /** Once a request has a durable terminal record, no later run publishes the other outcome or other
      bytes, even when the crash fell between the record and its pointer. */
  lemma TerminalExclusive(d: Disk, events: seq<Event>, id: Id, link: Pointer)
    requires Inv(d) && id in d.files.records
    requires link in Lineage(Run(d, events).room.pointer) && link.id == id
    ensures Find(Run(d, events).files.records, id) == Some(d.files.records[id])
    ensures link.state == Pending || link.state == TerminalLink(link.intent, d.files.records[id]).state
  {
    RunKeepsJournal(d, events);
    RunKeepsInv(d, events);
    var last := Run(d, events);
    if Good(last) {
      PublishedOk(last, link);
      PublishedState(last.files, last.room.engineer, link);
    } else {
      var other :| InterruptedBy(last, other);
      PublishedOk(Without(last, other), link);
      PublishedState(Without(last, other).files, last.room.engineer, link);
    }
  }

  // ----- recovery of an interrupted intent -----

  /** The journal accepts the pointer of an unclaimed intent exactly below the chain bound. */
  lemma ClaimableIff(d: Disk, id: Id)
    requires InterruptedBy(d, id)
    ensures JournalOk(WithPointer(d, PendingLink(d.files.requests[id])), true)
            <==> |Lineage(d.room.pointer)| < MAX_CHAIN
  {
    var x, base := d.files.requests[id], Without(d, id);
    var next := WithPointer(d, PendingLink(x));
    assert Lineage(next.room.pointer) == Lineage(d.room.pointer) + [PendingLink(x)];
    if |Lineage(d.room.pointer)| < MAX_CHAIN { ClaimedSound(d, id); }
  }

  lemma ClaimedSound(d: Disk, id: Id)
    requires InterruptedBy(d, id) && |Lineage(d.room.pointer)| < MAX_CHAIN
    ensures Sound(WithPointer(d, PendingLink(d.files.requests[id])))
  {
    ClaimedChain(d, id);
  }

  lemma ClaimedLink(files: Files, engineer: Option<Binding>, x: Intent)
    requires Find(files.requests, x.id) == Some(x) && IntentOk(engineer, x.id, x)
    requires x.id !in files.attempts && x.id !in files.records
    ensures LinkOk(files, engineer, PendingLink(x))
  {
  }

  lemma OnlyIntent(d: Disk, id: Id)
    requires id in d.files.requests
    ensures OnlyFilesOf(id, Without(d, id).files, d.files)
  {
  }

  lemma ClaimedChain(d: Disk, id: Id)
    requires InterruptedBy(d, id) && |Lineage(d.room.pointer)| < MAX_CHAIN
    ensures ChainOk(d.files, d.room.engineer, Some(PendingLink(d.files.requests[id])))
  {
    var x, base := d.files.requests[id], Without(d, id).files;
    OnlyIntent(d, id);
    InterruptedUnclaimed(d, id);
    ClaimedLink(d.files, d.room.engineer, x);
    ChainPush(base, d.files, d.room.engineer, d.room.pointer, PendingLink(x));
  }

  lemma RestoredIntent(d: Disk, id: Id)
    requires id in d.files.requests && d.files.requests[id].id == id
    ensures WithIntent(d, d.files.requests[id]) == d
  {
    MapPutSame(d.files.requests, id, d.files.requests[id]);
  }

  lemma InterruptedIntent(d: Disk, id: Id)
    requires InterruptedBy(d, id)
    ensures id in d.files.requests && d.files.requests[id].id == id
    ensures IntentOk(d.room.engineer, id, d.files.requests[id]) && d.files.requests[id].previous == d.room.pointer
  {
  }

  /** Exactly the identical request, against the unchanged room and below the chain bound, turns an
      interrupted intent into a pending attempt; every other claim is refused. */
  lemma RecoveryIff(d: Disk, id: Id, inputs: Inputs)
    requires InterruptedBy(d, id)
    ensures var x := d.files.requests[id];
            ClaimPlan(d, inputs.id, inputs)
            == if inputs == x.inputs && x.before == d.room && |Lineage(d.room.pointer)| < MAX_CHAIN
               then Success([StoreIntent(x), SavePointer(PendingLink(x))]) else Refused
  {
    InterruptedUnclaimed(d, id);
    InterruptedPointers(d, id);
    InterruptedIntent(d, id);
    hide PointersOk, IntentOk, InterruptedBy, JournalOk, Unclaimed;
    if inputs.id == id {
      ClaimableIff(d, id);
      RestoredIntent(d, id);
    } else {
      assert id in Unclaimed(d) && id !in {inputs.id};
    }
  }

  lemma InterruptedPointers(d: Disk, id: Id)
    requires InterruptedBy(d, id)
    ensures PointersOk(d)
  {
    var base := Without(d, id);
    forall link | link in Lineage(d.room.pointer) ensures Find(d.files.requests, link.id) == Some(link.intent) {
      assert LinkOk(base.files, d.room.engineer, link);
    }
  }

  /** While an intent is unclaimed, no other call of the journal writes anything. */
  lemma OnlyRecoveryMoves(d: Disk, id: Id, call: Call)
    requires InterruptedBy(d, id) && PlanOf(d, call).writes != []
    ensures call.Progress? || (call.Transition? && call.precondition.None? && call.inputs == d.files.requests[id].inputs)
  {
    InterruptedIsDamaged(d, id);
    if call.Transition? { RecoveryIff(d, id, call.inputs); }
  }

  /** A new request stores its intent before the chain bound is checked again: at the bound it leaves an
      intent that no call can ever claim, and below it the pending pointer always follows. */
  lemma BoundStrands(d: Disk, inputs: Inputs, env: Env)
    requires Good(d) && inputs.id !in LineageIds(d.room.pointer) && ApplyPlan(d, inputs, env).writes != []
    ensures var ws := ApplyPlan(d, inputs, env).writes;
            && ws[0].StoreIntent?
            && InterruptedBy(Put(d, ws[0]), ws[0].intent.id)
            && (|ws| == 1 <==> |Lineage(d.room.pointer)| == MAX_CHAIN)
  {
    var e := Inspect(d, env.audit, env.resolved.value, Auditing, inputs.transcript, None).value;
    var x := NewIntent(d.room, inputs, e, env.now);
    NewIntentContinues(d, inputs, env);
    BeginsInterrupted(d, x);
    ClaimableIff(WithIntent(d, x), x.id);
  }

  lemma BeginsInterrupted(d: Disk, x: Intent)
    requires Good(d) && LegalIntent(d, x) && x.id !in LineageIds(d.room.pointer)
    ensures InterruptedBy(WithIntent(d, x), x.id) && WithIntent(d, x).files.requests[x.id] == x
  {
    MapPutRemove(d.files.requests, x.id, x);
    assert Without(WithIntent(d, x), x.id) == d;
  }

  /** An intent is unclaimed and the journal is full. */
  predicate StrandedAt(d: Disk, id: Id) {
    InterruptedBy(d, id) && |Lineage(d.room.pointer)| == MAX_CHAIN
  }

  lemma StrandedRefuses(d: Disk, id: Id, call: Call)
    requires StrandedAt(d, id) && !call.Progress?
    ensures PlanOf(d, call).writes == []
  {
    if PlanOf(d, call).writes != [] {
      OnlyRecoveryMoves(d, id, call);
      RecoveryIff(d, id, call.inputs);
    }
  }

  lemma InterruptedProgress(d: Disk, id: Id, rs: seq<Request>, policy: Option<PolicyPointer>, other: int,
                            outcomes: set<SemanticOutcome>)
    requires InterruptedBy(d, id) && ProgressOk(d, rs, outcomes)
    ensures InterruptedBy(WithProgress(d, rs, policy, other, outcomes), id)
  {
    SoundProgress(Without(d, id), rs, policy, other, outcomes);
    assert Without(WithProgress(d, rs, policy, other, outcomes), id)
           == WithProgress(Without(d, id), rs, policy, other, outcomes);
  }

  /** Nothing of the journal moves: no file, no PATCH, no pointer, no resolution, no new request. */
  predicate SameJournal(a: Disk, b: Disk) {
    && b.files == a.files && b.patched == a.patched && b.resolutions == a.resolutions
    && b.room.pointer == a.room.pointer && b.room.resolutions == a.room.resolutions
    && RequestIds(b.room.requests) == RequestIds(a.room.requests)
  }

  lemma StrandedStep(d: Disk, id: Id, event: Event)
    requires StrandedAt(d, id)
    ensures StrandedAt(PutAll(d, Durable(d, event)), id) && SameJournal(d, PutAll(d, Durable(d, event)))
  {
    hide InterruptedBy, TransitionPlan, AbandonPlan, SendPlan, BindPlan;
    if Durable(d, event) != [] {
      if !event.call.Progress? { StrandedRefuses(d, id, event.call); }
      var w := PlanOf(d, event.call).writes[0];
      assert Durable(d, event) == [w];
      assert PutAll(Put(d, w), []) == Put(d, w);
      InterruptedProgress(d, id, w.requests, w.policy, w.other, w.outcomes);
      assert RequestIds(w.requests) == RequestIds(d.room.requests);
    }
  }

  /** An intent stranded at the bound stays stranded: over every later run, whatever is called and wherever it stops,
      no file is stored, no PATCH sent, no pointer moved and no request created. */
  lemma {:induction false} StrandedForever(d: Disk, id: Id, events: seq<Event>)
    requires StrandedAt(d, id)
    ensures StrandedAt(Run(d, events), id) && SameJournal(d, Run(d, events))
    decreases events
  {
    if events != [] {
      StrandedStep(d, id, events[0]);
      StrandedForever(PutAll(d, Durable(d, events[0])), id, events[1..]);
    }
  }

  // ----- frozen identities over runs -----

  lemma IdentitiesTransitive(a: Room, b: Room, c: Room)
    requires KeepsIdentities(a, b) && KeepsIdentities(b, c)
    ensures KeepsIdentities(a, c)
  {
    forall k | 0 <= k < |a.requests| && IsEngineerRequest(Session(a), a.requests[k])
      ensures SameIdentity(EpochsOf(a), EpochsOf(c), k + 1)
    {
      assert IsEngineerRequest(Session(b), b.requests[k]);
      assert SameIdentity(EpochsOf(a), EpochsOf(b), k + 1) && SameIdentity(EpochsOf(b), EpochsOf(c), k + 1);
    }
  }

  lemma IdentitiesReflexive(a: Room)
    ensures KeepsIdentities(a, a)
  {
  }

  lemma {:induction false} WritesKeepIdentities(d: Disk, ws: seq<Write>)
    requires Inv(d) && AllLegal(d, ws)
    ensures KeepsIdentities(d.room, PutAll(d, ws).room)
    decreases ws
  {
    if ws == [] {
      IdentitiesReflexive(d.room);
    } else {
      StepKeepsInv(d, ws[0]);
      StepKeepsIdentities(d, ws[0]);
      WritesKeepIdentities(Put(d, ws[0]), ws[1..]);
      IdentitiesTransitive(d.room, Put(d, ws[0]).room, PutAll(d, ws).room);
    }
  }

  /** Over every run, adopting resolutions and committing transitions leave the frozen identity of every
      retained engineer request unchanged, and each one still matches the epoch that owns it. */
  lemma {:induction false} FrozenIdentitiesStable(d: Disk, events: seq<Event>)
    requires Inv(d)
    ensures KeepsIdentities(d.room, Run(d, events).room) && FrozenOk(Run(d, events).room)
    decreases events
  {
    RunKeepsInv(d, events);
    if events == [] {
      IdentitiesReflexive(d.room);
    } else {
      var next := PutAll(d, Durable(d, events[0]));
      EventKeepsInv(d, events[0]);
      WritesKeepIdentities(d, Durable(d, events[0]));
      FrozenIdentitiesStable(next, events[1..]);
      IdentitiesTransitive(d.room, next.room, Run(d, events).room);
    }
  }

  // ----- epochs only grow -----

  lemma StepExtendsHistory(d: Disk, w: Write)
    requires Legal(d, w)
    ensures BaseHistory(d.room) <= BaseHistory(Put(d, w).room)
  {
  }

  lemma {:induction false} WritesExtendHistory(d: Disk, ws: seq<Write>)
    requires AllLegal(d, ws)
    ensures BaseHistory(d.room) <= BaseHistory(PutAll(d, ws).room)
    decreases ws
  {
    if ws != [] {
      StepExtendsHistory(d, ws[0]);
      WritesExtendHistory(Put(d, ws[0]), ws[1..]);
    }
  }

  /** Over every run the committed epochs are only appended to. */
  lemma {:induction false} EpochsAppendOnly(d: Disk, events: seq<Event>)
    requires Inv(d)
    ensures BaseHistory(d.room) <= BaseHistory(Run(d, events).room)
    decreases events
  {
    if events != [] {
      EventKeepsInv(d, events[0]);
      WritesExtendHistory(d, Durable(d, events[0]));
      EpochsAppendOnly(PutAll(d, Durable(d, events[0])), events[1..]);
    }
  }

  /** Boundaries never decrease along the committed epochs. */
  lemma {:induction false} BoundariesMonotone(initial: Pin, ids: seq<Id>, pointer: Option<Pointer>, i: nat, j: nat)
    requires HistoryOk(initial, ids, pointer) && i <= j < |History(initial, pointer)|
    ensures History(initial, pointer)[i].from <= History(initial, pointer)[j].from
    decreases pointer
  {
    if pointer.Some? {
      var older := History(initial, pointer.value.intent.previous);
      if j < |older| {
        BoundariesMonotone(initial, ids, pointer.value.intent.previous, i, j);
      } else if i < |older| {
        BoundariesMonotone(initial, ids, pointer.value.intent.previous, i, |older| - 1);
      }
    }
  }

  /** A commit keeps the epoch of every retained order and gives every later order to the new epoch. */
  lemma CommitSplitsOrders(d: Disk, p: Pointer, order: nat)
    requires Inv(d) && LegalPointer(d, p) && p.state.CommittedAt?
    ensures var n := |d.room.requests|;
            EpochIndex(EpochsOf(WithPointer(d, p).room), order)
            == if order <= n then EpochIndex(EpochsOf(d.room), order) else |EpochsOf(d.room)|
  {
    SoundIsGood(d);
    CommitEpochs(d, p);
    IndexPush(EpochsOf(d.room), LastEpoch(BaseHistory(WithPointer(d, p).room)), order);
  }
}
