/** Which interrupted intents can still be claimed: what may happen to the room before the identical request comes back,
    and what makes it too late. */
module RoomRecovery {
  import opened Values
  import opened EngineeringModel
  import opened EngineeringTransition
  import opened RoomRuns
  import opened TransitionSafety
  import opened TransitionProtocol
  import opened RoomTheorems

  /** Observations may still lead from the one room state to the other. */
  predicate Leads(a: Room, b: Room) {
    && b == a.(requests := b.requests, policy := b.policy, other := b.other)
    && |b.requests| == |a.requests|
    && forall k :: 0 <= k < |a.requests| ==> RequestProgress(a.requests[k], b.requests[k])
  }

  lemma LeadsItself(a: Room)
    ensures Leads(a, a)
  {
  }

  lemma LeadsOn(a: Room, b: Room, c: Room)
    requires Leads(a, b) && Leads(b, c)
    ensures Leads(a, c)
  {
    forall k | 0 <= k < |a.requests| ensures RequestProgress(a.requests[k], c.requests[k]) {
      assert RequestProgress(a.requests[k], b.requests[k]) && RequestProgress(b.requests[k], c.requests[k]);
    }
  }

  /** The journal has room for the intent, and the room state it was made from can come back. */
  predicate CanReturn(d: Disk, id: Id)
    requires id in d.files.requests
  {
    |Lineage(d.room.pointer)| < MAX_CHAIN && Leads(d.room, d.files.requests[id].before)
  }

  lemma SettledStays(a: Room, b: Room, k: nat)
    requires Leads(a, b) && k < |a.requests| && IsSettled(a.requests[k])
    ensures k < |b.requests| && IsSettled(b.requests[k]) && b.requests[k].receipt == a.requests[k].receipt
  {
    assert RequestProgress(a.requests[k], b.requests[k]);
  }

  /** A request that has settled since the intent was stored makes it too late. */
  lemma SettledIsTooLate(d: Disk, id: Id, k: nat)
    requires id in d.files.requests && k < |d.room.requests| && IsSettled(d.room.requests[k])
    requires var before := d.files.requests[id].before.requests;
      k < |before| ==> !IsSettled(before[k]) || before[k].receipt != d.room.requests[k].receipt
    ensures !CanReturn(d, id)
  {
    if CanReturn(d, id) { SettledStays(d.room, d.files.requests[id].before, k); }
  }

  /** The observation that settles one request. */
  function Settling(d: Disk, k: nat): Event
    requires k < |d.room.requests|
  {
    var rs := d.room.requests[k := d.room.requests[k].(state := Completed)];
    Event(Progress(rs, d.room.policy, d.room.other, d.outcomes), 1)
  }

  /** Over the room an intent was made from, settling any of its unsettled requests is such an observation. */
  lemma SettlingIsTooLate(d: Disk, id: Id, k: nat)
    requires InterruptedBy(d, id) && d.files.requests[id].before == d.room
    requires k < |d.room.requests| && !IsSettled(d.room.requests[k])
    ensures var next := Run(d, [Settling(d, k)]);
            InterruptedBy(next, id) && next.files == d.files && !CanReturn(next, id)
  {
    var rs := d.room.requests[k := d.room.requests[k].(state := Completed)];
    assert ProgressOk(d, rs, d.outcomes);
    hide InterruptedBy, ProgressOk, Run;
    InterruptedProgress(d, id, rs, d.room.policy, d.room.other, d.outcomes);
    ObservationRuns(d, rs, d.room.policy, d.room.other, d.outcomes);
    SettledIsTooLate(WithProgress(d, rs, d.room.policy, d.room.other, d.outcomes), id, k);
  }

  lemma ObservationRuns(d: Disk, rs: seq<Request>, policy: Option<PolicyPointer>, other: int,
                        outcomes: set<SemanticOutcome>)
    requires ProgressOk(d, rs, outcomes)
    ensures Run(d, [Event(Progress(rs, policy, other, outcomes), 1)]) == WithProgress(d, rs, policy, other, outcomes)
  {
    hide ProgressOk;
    var event, w := Event(Progress(rs, policy, other, outcomes), 1), SaveProgress(rs, policy, other, outcomes);
    assert Durable(d, event) == [w] && [w][1..] == [] && [event][1..] == [];
    assert PutAll(d, [w]) == PutAll(Put(d, w), []);
    assert Run(d, [event]) == Run(PutAll(d, Durable(d, event)), []);
  }

  lemma LateRefuses(d: Disk, id: Id, call: Call)
    requires InterruptedBy(d, id) && !CanReturn(d, id) && !call.Progress?
    ensures PlanOf(d, call).writes == []
  {
    if PlanOf(d, call).writes != [] {
      OnlyRecoveryMoves(d, id, call);
      RecoveryIff(d, id, call.inputs);
      LeadsItself(d.room);
    }
  }

  lemma ObservedLeads(d: Disk, rs: seq<Request>, policy: Option<PolicyPointer>, other: int,
                      outcomes: set<SemanticOutcome>)
    requires ProgressOk(d, rs, outcomes)
    ensures Leads(d.room, WithProgress(d, rs, policy, other, outcomes).room)
  {
  }

  lemma LateObserved(d: Disk, id: Id, rs: seq<Request>, policy: Option<PolicyPointer>, other: int,
                     outcomes: set<SemanticOutcome>)
    requires InterruptedBy(d, id) && !CanReturn(d, id) && ProgressOk(d, rs, outcomes)
    ensures var next := WithProgress(d, rs, policy, other, outcomes);
            InterruptedBy(next, id) && !CanReturn(next, id) && SameJournal(d, next)
  {
    var next := WithProgress(d, rs, policy, other, outcomes);
    InterruptedProgress(d, id, rs, policy, other, outcomes);
    ObservedLeads(d, rs, policy, other, outcomes);
    assert RequestIds(rs) == RequestIds(d.room.requests);
    if CanReturn(next, id) { LeadsOn(d.room, next.room, d.files.requests[id].before); }
  }

  lemma LateStep(d: Disk, id: Id, event: Event)
    requires InterruptedBy(d, id) && !CanReturn(d, id)
    ensures var next := PutAll(d, Durable(d, event));
            InterruptedBy(next, id) && !CanReturn(next, id) && SameJournal(d, next)
  {
    hide InterruptedBy, TransitionPlan, AbandonPlan, SendPlan, BindPlan;
    if Durable(d, event) != [] {
      if !event.call.Progress? { LateRefuses(d, id, event.call); }
      var w := PlanOf(d, event.call).writes[0];
      assert Durable(d, event) == [w];
      assert PutAll(Put(d, w), []) == Put(d, w);
      LateObserved(d, id, w.requests, w.policy, w.other, w.outcomes);
    }
  }

  lemma JournalsAlike(a: Disk, b: Disk, c: Disk)
    requires SameJournal(a, b) && SameJournal(b, c)
    ensures SameJournal(a, c)
  {
  }

  /** Once it is too late it stays so: over every run the intent stays unclaimed and nothing of the journal moves. */
  lemma {:induction false} LateForever(d: Disk, id: Id, events: seq<Event>)
    requires InterruptedBy(d, id) && !CanReturn(d, id)
    ensures InterruptedBy(Run(d, events), id) && !CanReturn(Run(d, events), id) && SameJournal(d, Run(d, events))
    decreases events
  {
    if events != [] {
      var next := PutAll(d, Durable(d, events[0]));
      LateStep(d, id, events[0]);
      LateForever(next, id, events[1..]);
      JournalsAlike(d, next, Run(d, events));
    }
  }

  /** After the run the intent is still unclaimed and the identical request claims it. */
  predicate ClaimsAfter(d: Disk, id: Id, events: seq<Event>)
    requires id in d.files.requests
  {
    var now, x := Run(d, events), d.files.requests[id];
    now.files == d.files && ClaimPlan(now, id, x.inputs) == Success([StoreIntent(x), SavePointer(PendingLink(x))])
  }

  /** One observation that brings the audited room back. */
  function Back(d: Disk, id: Id): Event
    requires id in d.files.requests
  {
    var before := d.files.requests[id].before;
    Event(Progress(before.requests, before.policy, before.other, d.outcomes), 1)
  }

  lemma ReturnClaims(d: Disk, id: Id)
    requires InterruptedBy(d, id) && CanReturn(d, id)
    ensures ClaimsAfter(d, id, [Back(d, id)])
  {
    var x := d.files.requests[id];
    var back := WithProgress(d, x.before.requests, x.before.policy, x.before.other, d.outcomes);
    assert ProgressOk(d, x.before.requests, d.outcomes);
    InterruptedProgress(d, id, x.before.requests, x.before.policy, x.before.other, d.outcomes);
    ObservationRuns(d, x.before.requests, x.before.policy, x.before.other, d.outcomes);
    InterruptedIntent(d, id);
    RecoveryIff(back, id, x.inputs);
  }

  /** An interrupted intent can still be claimed after some run exactly while the journal is below its bound and
      observations may still lead back to the room it was made from. */
  lemma RecoverableIff(d: Disk, id: Id)
    requires InterruptedBy(d, id)
    ensures (exists events :: ClaimsAfter(d, id, events)) <==> CanReturn(d, id)
  {
    if CanReturn(d, id) {
      ReturnClaims(d, id);
    } else {
      forall events ensures !ClaimsAfter(d, id, events) {
        LateForever(d, id, events);
        RecoveryIff(Run(d, events), id, d.files.requests[id].inputs);
        LeadsItself(Run(d, events).room);
      }
    }
  }
}
