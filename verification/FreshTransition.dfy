/** What a fresh transition does when nothing is in its way: it sends its one PATCH, commits once the target shows, and
    still commits when it is stopped anywhere and the identical request comes again. */
module FreshTransition {
  import opened Values
  import opened EngineeringModel
  import opened EngineeringTransition
  import opened JournalProofs
  import opened RoomRuns
  import opened TransitionSafety
  import opened TransitionProtocol
  import opened RoomTheorems
  import opened AttemptProgress

  /** The intent the call would store. */
  function IntentOf(d: Disk, inputs: Inputs, env: Env): Intent { NewIntent(d.room, inputs, inputs.audit, env.now) }

  /** The audit passes and is the one the request names. */
  predicate Audited(d: Disk, inputs: Inputs, env: Env) {
    && env.settled && env.resolved.Some? && env.resolved.value.selector.Configured() == inputs.target
    && Inspect(d, env.audit, env.resolved.value, Auditing, inputs.transcript, None) == Success(inputs.audit)
    && inputs.source == inputs.audit.source.Configured()
    && inputs.spec == inputs.audit.spec && inputs.candidate == inputs.audit.candidate
    && inputs.history == inputs.audit.native.history
  }

  /** A request no attempt carries, over a settled journal. */
  predicate Ready(d: Disk, inputs: Inputs, env: Env) {
    && Good(d) && JournalOk(d, false)
    && inputs.id !in d.files.requests
    && Audited(d, inputs, env)
    && IntentOk(d.room.engineer, inputs.id, IntentOf(d, inputs, env))
  }

  /** And the journal is below its bound. */
  predicate Fresh(d: Disk, inputs: Inputs, env: Env) {
    Ready(d, inputs, env) && |Lineage(d.room.pointer)| < MAX_CHAIN
  }

  function Claimed(d: Disk, inputs: Inputs, env: Env): Disk {
    WithPointer(WithIntent(d, IntentOf(d, inputs, env)), PendingLink(IntentOf(d, inputs, env)))
  }

  lemma FreshBegins(d: Disk, inputs: Inputs, env: Env)
    requires Ready(d, inputs, env)
    ensures Beginning(d, IntentOf(d, inputs, env)) && inputs.id !in LineageIds(d.room.pointer)
    ensures PendingResolution(d).None?
  {
    NewIntentContinues(d, inputs, env);
    GoodUnclaimed(d);
    assert d.files.requests.Keys == LineageIds(d.room.pointer);
  }

  lemma FreshClaims(d: Disk, inputs: Inputs, env: Env)
    requires Fresh(d, inputs, env)
    ensures JournalOk(Claimed(d, inputs, env), true)
  {
    FreshBegins(d, inputs, env);
    BeginsInterrupted(d, IntentOf(d, inputs, env));
    ClaimableIff(WithIntent(d, IntentOf(d, inputs, env)), inputs.id);
  }

  lemma NothingAdopted(d: Disk, inputs: Inputs, env: Env)
    ensures PendingResolution(Claimed(d, inputs, env)) == PendingResolution(d)
  {
  }

  lemma FreshFiles(d: Disk, inputs: Inputs, env: Env)
    requires Ready(d, inputs, env)
    ensures inputs.id !in Claimed(d, inputs, env).files.attempts && inputs.id !in d.files.records
    ensures inputs.id !in d.files.attempts
  {
    FreshBegins(d, inputs, env);
  }

  lemma ReadyAudit(d: Disk, inputs: Inputs, env: Env)
    requires Ready(d, inputs, env)
    ensures env.settled && env.audit.Some? && env.resolved.Some? && !IsPending(d.room.pointer) && d.room.engineer.Some?
    ensures inputs.audit == InspectedEvidence(d.room, d.room.engineer.value, env.resolved.value, env.audit.value)
    ensures IntentOf(d, inputs, env).target == env.resolved.value
  {
    hide Good, IntentOk;
  }

  /** Its intent claimed, the request has a pending attempt over the room as audited. */
  lemma FreshOngoing(d: Disk, inputs: Inputs, env: Env)
    requires Fresh(d, inputs, env)
    ensures env.audit.Some? && env.resolved.Some? && IntentOf(d, inputs, env).target == env.resolved.value
    ensures Ongoing(Claimed(d, inputs, env), IntentOf(d, inputs, env), env.audit.value)
  {
    FreshBegins(d, inputs, env);
    hide Good, JournalOk, IntentOk, Working, PendingResolution, Inspect, InspectedEvidence, Beginning;
    ReadyAudit(d, inputs, env);
    FreshClaims(d, inputs, env);
    NothingAdopted(d, inputs, env);
    BeginClaims(d, IntentOf(d, inputs, env));
  }

  /** A new request stores its intent, publishes its pointer and goes on with the pending attempt. */
  lemma FreshApplies(d: Disk, inputs: Inputs, env: Env)
    requires Fresh(d, inputs, env)
    ensures var x := IntentOf(d, inputs, env);
            ApplyPlan(d, inputs, env).writes
            == [StoreIntent(x), SavePointer(PendingLink(x))]
               + AdvancePlan(Claimed(d, inputs, env), x, None, env).writes
  {
    hide JournalOk, Good, IntentOk, Inspect, AdvancePlan;
    FreshClaims(d, inputs, env);
  }

  lemma FreshDispatches(d: Disk, inputs: Inputs, precondition: Option<bool>, env: Env)
    requires Ready(d, inputs, env) && (precondition.None? || precondition.value)
    ensures TransitionPlan(d, inputs, precondition, env).writes == ApplyPlan(d, inputs, env).writes
  {
    FreshBegins(d, inputs, env);
    ClaimsNothing(d, inputs);
    assert AttemptOf(Lineage(d.room.pointer), inputs.id).None?;
    assert PutAll(d, []) == d;
    assert [] + ApplyPlan(d, inputs, env).writes == ApplyPlan(d, inputs, env).writes;
  }

  // ----- the PATCH -----

  /** The four writes a fresh attempt begins with. */
  function FirstWrites(d: Disk, inputs: Inputs, env: Env): seq<Write> {
    var x := IntentOf(d, inputs, env);
    [StoreIntent(x), SavePointer(PendingLink(x)), StoreMarker(NewMarker(x, env.now)), SendPatch(inputs.id, x.patch)]
  }

  lemma FreshBeginsSo(d: Disk, inputs: Inputs, env: Env)
    requires Fresh(d, inputs, env) && env.advance == env.audit && !Reset(IntentOf(d, inputs, env))
    ensures FirstWrites(d, inputs, env) <= ApplyPlan(d, inputs, env).writes
  {
    hide Ready, Ongoing, AdvancePlan, ApplyPlan;
    FreshOngoing(d, inputs, env);
    FreshFiles(d, inputs, env);
    FreshApplies(d, inputs, env);
    OngoingSends(Claimed(d, inputs, env), IntentOf(d, inputs, env), env.audit.value, env);
  }

  lemma FirstPut(d: Disk, inputs: Inputs, env: Env)
    ensures PutAll(d, FirstWrites(d, inputs, env)).patched == d.patched + multiset{inputs.id}
  {
    var ws := FirstWrites(d, inputs, env);
    var mid := Claimed(d, inputs, env);
    PutTwo(d, ws[0], ws[1]);
    PutTwo(mid, ws[2], ws[3]);
    PutAllConcat(d, [ws[0], ws[1]], [ws[2], ws[3]]);
    assert ws == [ws[0], ws[1]] + [ws[2], ws[3]];
  }

  lemma FreshUnsent(d: Disk, inputs: Inputs, env: Env)
    requires Ready(d, inputs, env)
    ensures d.patched[inputs.id] == 0
  {
    FreshFiles(d, inputs, env);
    assert PatchesOk(d) && inputs.id !in d.files.attempts;
  }

  /** A fresh transition over an unchanged audited room, carried at least through its fourth write, has sent exactly
      one PATCH. */
  lemma FreshSendsOnce(d: Disk, inputs: Inputs, env: Env)
    requires Fresh(d, inputs, env) && env.advance == env.audit && !Reset(IntentOf(d, inputs, env))
    ensures Run(d, [Event(Transition(inputs, None, env), 4)]).patched[inputs.id] == 1
  {
    hide Ready, Run, TransitionPlan, ApplyPlan;
    FreshUnsent(d, inputs, env);
    FreshBeginsSo(d, inputs, env);
    FreshDispatches(d, inputs, None, env);
    FirstPut(d, inputs, env);
    RunOne(d, Event(Transition(inputs, None, env), 4));
    assert ApplyPlan(d, inputs, env).writes[..4] == FirstWrites(d, inputs, env);
  }

  // ----- the commit -----

  /** The room stays as audited until the PATCH, and shows the target from then on. */
  predicate Shows(env: Env) {
    && env.audit.Some? && env.resolved.Some? && env.advance == env.audit
    && ShowsTarget(env, env.audit.value, env.resolved.value)
  }

  /** The same room in a later call. */
  predicate Again(env: Env, again: Env) {
    again.audit == env.audit && again.resolved == env.resolved && Shows(again)
  }

  /** All writes of a transition that commits. */
  function AllWrites(d: Disk, inputs: Inputs, env: Env): seq<Write>
    requires env.audit.Some?
  {
    var x := IntentOf(d, inputs, env);
    [StoreIntent(x), SavePointer(PendingLink(x))] + CommitWrites(Claimed(d, inputs, env), x, env.audit.value, env)
  }

  lemma FreshCommittable(d: Disk, inputs: Inputs, env: Env)
    requires Fresh(d, inputs, env) && Shows(env)
    ensures Committable(Claimed(d, inputs, env), IntentOf(d, inputs, env), env.audit.value, env)
    ensures Unsent(Claimed(d, inputs, env), IntentOf(d, inputs, env)) <==> !Reset(IntentOf(d, inputs, env))
    ensures inputs.id !in Claimed(d, inputs, env).files.records
  {
    hide Ready, Ongoing;
    FreshOngoing(d, inputs, env);
    FreshFiles(d, inputs, env);
  }

  lemma FreshWrites(d: Disk, inputs: Inputs, precondition: Option<bool>, env: Env)
    requires Fresh(d, inputs, env) && Shows(env) && (precondition.None? || precondition.value)
    ensures TransitionPlan(d, inputs, precondition, env).writes == AllWrites(d, inputs, env)
  {
    hide Ready, Committable, AdvancePlan, ApplyPlan, TransitionPlan, CommitWrites;
    FreshCommittable(d, inputs, env);
    FreshFiles(d, inputs, env);
    FreshApplies(d, inputs, env);
    FreshDispatches(d, inputs, precondition, env);
    OngoingAdvances(Claimed(d, inputs, env), IntentOf(d, inputs, env), env.audit.value, env);
  }

  /** What a committed fresh transition leaves behind. */
  predicate Moved(d: Disk, inputs: Inputs, target: Pin, after: Disk) {
    && inputs.id in after.files.requests && after.files.requests[inputs.id].inputs == inputs
    && inputs.id in after.files.records
    && after.room.pointer
       == Some(Pointer(inputs.id, after.files.requests[inputs.id], CommittedAt(after.files.records[inputs.id])))
    && |BaseHistory(after.room)| == |BaseHistory(d.room)| + 1
    && LastEpoch(BaseHistory(after.room)).selector == target.selector
  }

  /** The transition as one event that is not stopped. */
  function CommitEvent(inputs: Inputs, precondition: Option<bool>, env: Env): Event {
    Event(Transition(inputs, precondition, env), 6)
  }

  lemma ClaimPuts(d: Disk, inputs: Inputs, env: Env)
    ensures var x := IntentOf(d, inputs, env);
            PutAll(d, [StoreIntent(x), SavePointer(PendingLink(x))]) == Claimed(d, inputs, env)
  {
    var x := IntentOf(d, inputs, env);
    PutTwo(d, StoreIntent(x), SavePointer(PendingLink(x)));
  }

  lemma AllPuts(d: Disk, inputs: Inputs, env: Env)
    requires env.audit.Some?
    ensures PutAll(d, AllWrites(d, inputs, env))
            == PutAll(Claimed(d, inputs, env),
                      CommitWrites(Claimed(d, inputs, env), IntentOf(d, inputs, env), env.audit.value, env))
  {
    var x := IntentOf(d, inputs, env);
    hide CommitWrites, PutAll;
    ClaimPuts(d, inputs, env);
    PutAllConcat(d, [StoreIntent(x), SavePointer(PendingLink(x))],
                 CommitWrites(Claimed(d, inputs, env), x, env.audit.value, env));
  }

  lemma FreshRuns(d: Disk, inputs: Inputs, precondition: Option<bool>, env: Env, cut: nat)
    requires Fresh(d, inputs, env) && Shows(env) && (precondition.None? || precondition.value)
    ensures Durable(d, Event(Transition(inputs, precondition, env), cut))
            == AllWrites(d, inputs, env)[..Min(cut, |AllWrites(d, inputs, env)|)]
  {
    hide Fresh, TransitionPlan, AllWrites;
    FreshWrites(d, inputs, precondition, env);
  }

  lemma AllWritesCount(d: Disk, inputs: Inputs, env: Env)
    requires env.audit.Some?
    ensures |AllWrites(d, inputs, env)| <= 6
  {
  }

  lemma ClaimedCommits(d: Disk, inputs: Inputs, env: Env, audit: Probe, again: Env)
    requires Committable(Claimed(d, inputs, env), IntentOf(d, inputs, env), audit, again)
    ensures var x, mid := IntentOf(d, inputs, env), Claimed(d, inputs, env);
            var after := PutAll(mid, CommitWrites(mid, x, audit, again));
            && Moved(d, inputs, x.target, after)
            && after.patched == d.patched + if Unsent(mid, x) then multiset{inputs.id} else multiset{}
  {
    hide Committable, CommitWrites, CommittedTo, Unsent;
    var x, mid := IntentOf(d, inputs, env), Claimed(d, inputs, env);
    CommitPuts(mid, x, audit, again);
    CommittedIsMoved(d, inputs, x, mid, PutAll(mid, CommitWrites(mid, x, audit, again)));
  }

  lemma CommittedIsMoved(d: Disk, inputs: Inputs, x: Intent, mid: Disk, after: Disk)
    requires mid.room.initial == d.room.initial && CommittedTo(mid, x, after)
    requires x.id == inputs.id && x.inputs == inputs && x.previous == d.room.pointer
    ensures Moved(d, inputs, x.target, after)
  {
  }

  /** A fresh transition whose room shows the target after the PATCH, carried through, is committed: its pointer is
      published over its own record, one PATCH was sent unless it is a reset, and one epoch of the target is opened. */
  lemma FreshCommits(d: Disk, inputs: Inputs, precondition: Option<bool>, env: Env)
    requires Fresh(d, inputs, env) && Shows(env) && (precondition.None? || precondition.value)
    ensures var after := Run(d, [CommitEvent(inputs, precondition, env)]);
            && Moved(d, inputs, env.resolved.value, after)
            && after.patched[inputs.id] == if Reset(IntentOf(d, inputs, env)) then 0 else 1
  {
    hide Fresh, Committable, Run, Moved, AllWrites, CommitWrites, Durable, Unsent;
    FreshReady(d, inputs, env);
    FreshUnsent(d, inputs, env);
    FreshCommittable(d, inputs, env);
    FreshRuns(d, inputs, precondition, env, 6);
    AllWritesCount(d, inputs, env);
    AllPuts(d, inputs, env);
    RunOne(d, CommitEvent(inputs, precondition, env));
    var ws := AllWrites(d, inputs, env);
    assert ws[..|ws|] == ws;
    ClaimedCommits(d, inputs, env, env.audit.value, env);
    FreshTarget(d, inputs, env);
  }

  lemma FreshReady(d: Disk, inputs: Inputs, env: Env)
    requires Fresh(d, inputs, env)
    ensures Ready(d, inputs, env)
  {
  }

  lemma FreshTarget(d: Disk, inputs: Inputs, env: Env)
    requires Fresh(d, inputs, env)
    ensures env.resolved.Some? && IntentOf(d, inputs, env).target == env.resolved.value
  {
    hide Ready;
    FreshReady(d, inputs, env);
    ReadyAudit(d, inputs, env);
  }

  // ----- stopped anywhere and repeated -----

  lemma FreshAgain(d: Disk, inputs: Inputs, env: Env, again: Env)
    requires Fresh(d, inputs, env) && Shows(env) && Again(env, again)
    ensures Fresh(d, inputs, again) && (Reset(IntentOf(d, inputs, again)) <==> Reset(IntentOf(d, inputs, env)))
  {
    hide Good, JournalOk, Inspect;
    assert again.settled && again.audit == env.audit && again.resolved == env.resolved;
  }

  lemma FreshShowsAgain(d: Disk, inputs: Inputs, env: Env, again: Env)
    requires Fresh(d, inputs, env) && Shows(env) && Again(env, again)
    ensures ShowsAgain(env, again, env.audit.value, IntentOf(d, inputs, env).target)
    ensures Committable(Claimed(d, inputs, env), IntentOf(d, inputs, env), env.audit.value, env)
    ensures Committable(Claimed(d, inputs, env), IntentOf(d, inputs, env), env.audit.value, again)
    ensures Unsent(Claimed(d, inputs, env), IntentOf(d, inputs, env)) <==> !Reset(IntentOf(d, inputs, env))
  {
    hide Fresh, Ongoing;
    FreshCommittable(d, inputs, env);
    FreshTarget(d, inputs, env);
  }

  /** Stopped between the intent and its pointer: the repeat claims the intent first. */
  lemma ClaimsThenCommits(d: Disk, inputs: Inputs, env: Env, again: Env)
    requires Fresh(d, inputs, env) && Shows(env) && Again(env, again)
    ensures var x, stored := IntentOf(d, inputs, env), WithIntent(d, IntentOf(d, inputs, env));
            TransitionPlan(stored, inputs, None, again).writes
            == [StoreIntent(x), SavePointer(PendingLink(x))]
               + CommitWrites(Claimed(d, inputs, env), x, env.audit.value, again)
            && PutAll(stored, [StoreIntent(x), SavePointer(PendingLink(x))]) == Claimed(d, inputs, env)
  {
    var x, stored := IntentOf(d, inputs, env), WithIntent(d, IntentOf(d, inputs, env));
    StoredClaims(d, inputs, env);
    hide Fresh, Committable, Ongoing, ClaimPlan, DispatchPlan, ReconcilePlan, CommitWrites, PutAll;
    FreshOngoing(d, inputs, env);
    FreshShowsAgain(d, inputs, env, again);
    DispatchesOngoing(Claimed(d, inputs, env), x, env.audit.value, again);
    OngoingReconciles(Claimed(d, inputs, env), x, env.audit.value, again);
  }

  lemma StoredClaims(d: Disk, inputs: Inputs, env: Env)
    requires Fresh(d, inputs, env)
    ensures var x, stored := IntentOf(d, inputs, env), WithIntent(d, IntentOf(d, inputs, env));
            && ClaimPlan(stored, inputs.id, inputs) == Success([StoreIntent(x), SavePointer(PendingLink(x))])
            && PutAll(stored, [StoreIntent(x), SavePointer(PendingLink(x))]) == Claimed(d, inputs, env)
  {
    FreshBegins(d, inputs, env);
    StoredAgain(d, IntentOf(d, inputs, env));
    hide Ready, ClaimPlan, PutAll, Beginning, PendingResolution, LineageIds;
    StoredIsClaimed(d, IntentOf(d, inputs, env));
  }

  /** An intent stored over a settled journal below its bound is claimed by the request that stored it. */
  lemma StoredIsClaimed(d: Disk, x: Intent)
    requires Beginning(d, x) && x.id !in LineageIds(d.room.pointer) && |Lineage(d.room.pointer)| < MAX_CHAIN
    requires x.before == d.room && x.inputs.id == x.id
    ensures ClaimPlan(WithIntent(d, x), x.id, x.inputs) == Success([StoreIntent(x), SavePointer(PendingLink(x))])
  {
    BeginsInterrupted(d, x);
    hide InterruptedBy, Good, LegalIntent, ClaimPlan, LineageIds;
    RecoveryIff(WithIntent(d, x), x.id, x.inputs);
  }

  lemma StoredAgain(d: Disk, x: Intent)
    ensures PutAll(WithIntent(d, x), [StoreIntent(x), SavePointer(PendingLink(x))])
            == WithPointer(WithIntent(d, x), PendingLink(x))
  {
    PutTwo(WithIntent(d, x), StoreIntent(x), SavePointer(PendingLink(x)));
    MapPutSame(WithIntent(d, x).files.requests, x.id, x);
  }

  /** What the repeat may bring as its precondition: it is asked for only while no pointer names the request, and an
      unclaimed intent fails any. */
  predicate Admits(precondition: Option<bool>, cut: nat) {
    precondition.None? || cut > 1 || (cut == 0 && precondition.value)
  }

  /** The run that stops the call after so many writes and repeats it. */
  function StoppedAndRepeated(inputs: Inputs, first: Option<bool>, env: Env, cut: nat, second: Option<bool>, again: Env)
    : seq<Event>
  {
    [Event(Transition(inputs, first, env), cut), CommitEvent(inputs, second, again)]
  }

  /** The stopped disk. */
  function StoppedDisk(d: Disk, inputs: Inputs, env: Env, cut: nat): Disk
    requires env.audit.Some?
  {
    PutAll(d, AllWrites(d, inputs, env)[..Min(cut, |AllWrites(d, inputs, env)|)])
  }

  lemma RunsFromStopped(d: Disk, inputs: Inputs, first: Option<bool>, env: Env, cut: nat, event: Event)
    requires Fresh(d, inputs, env) && Shows(env) && (first.None? || first.value)
    ensures Run(d, [Event(Transition(inputs, first, env), cut), event])
            == Run(StoppedDisk(d, inputs, env, cut), [event])
  {
    hide Fresh, AllWrites, Durable, PutAll;
    FreshRuns(d, inputs, first, env, cut);
    var stop := Event(Transition(inputs, first, env), cut);
    assert [stop, event][1..] == [event];
  }

  lemma NothingDone(d: Disk, inputs: Inputs, env: Env)
    requires env.audit.Some?
    ensures StoppedDisk(d, inputs, env, 0) == d
    ensures StoppedDisk(d, inputs, env, 1) == WithIntent(d, IntentOf(d, inputs, env))
  {
    var ws := AllWrites(d, inputs, env);
    hide CommitWrites;
    PutNone(d);
    assert ws[..0] == [] && ws[..1] == [StoreIntent(IntentOf(d, inputs, env))];
    PutOne(d, StoreIntent(IntentOf(d, inputs, env)));
  }

  /** From the second write on the stop lies within the pending attempt's own writes. */
  lemma StoppedLater(d: Disk, inputs: Inputs, env: Env, cut: nat)
    requires env.audit.Some? && cut >= 2
    ensures var mid, x := Claimed(d, inputs, env), IntentOf(d, inputs, env);
            var ws := CommitWrites(mid, x, env.audit.value, env);
            StoppedDisk(d, inputs, env, cut) == PutAll(mid, ws[..Min(cut - 2, |ws|)])
  {
    var mid, x := Claimed(d, inputs, env), IntentOf(d, inputs, env);
    var ws := CommitWrites(mid, x, env.audit.value, env);
    var head := [StoreIntent(x), SavePointer(PendingLink(x))];
    hide CommitWrites, PutAll;
    ClaimPuts(d, inputs, env);
    assert (head + ws)[..Min(cut, |head + ws|)] == head + ws[..Min(cut - 2, |ws|)];
    PutAllConcat(d, head, ws[..Min(cut - 2, |ws|)]);
  }

  /** The repeat after a stop at the first write. */
  lemma RepeatClaims(d: Disk, inputs: Inputs, env: Env, again: Env)
    requires Fresh(d, inputs, env) && Shows(env) && Again(env, again)
    ensures var after := Run(WithIntent(d, IntentOf(d, inputs, env)), [CommitEvent(inputs, None, again)]);
            && Moved(d, inputs, IntentOf(d, inputs, env).target, after)
            && after.patched == d.patched + if Reset(IntentOf(d, inputs, env)) then multiset{} else multiset{inputs.id}
  {
    var x, stored, mid := IntentOf(d, inputs, env), WithIntent(d, IntentOf(d, inputs, env)), Claimed(d, inputs, env);
    hide Fresh, Committable, Run, Moved, TransitionPlan, Unsent, PutAll;
    ClaimsThenCommits(d, inputs, env, again);
    FreshShowsAgain(d, inputs, env, again);
    ClaimedCommits(d, inputs, env, env.audit.value, again);
    WholeRun(stored, CommitEvent(inputs, None, again));
    PutAllConcat(stored, [StoreIntent(x), SavePointer(PendingLink(x))],
                 CommitWrites(mid, x, env.audit.value, again));
  }

  /** What a stop within the pending attempt leaves. */
  lemma StopFacts(d: Disk, inputs: Inputs, env: Env, cut: nat, again: Env)
    requires env.audit.Some? && Fresh(d, inputs, env) && Shows(env) && Again(env, again)
    requires 2 <= cut < |AllWrites(d, inputs, env)|
    ensures var x, stop := IntentOf(d, inputs, env), StoppedDisk(d, inputs, env, cut);
            && Committable(stop, x, env.audit.value, again) && stop.room.initial == d.room.initial
            && (Unsent(stop, x) <==> !Reset(x) && cut == 2)
            && stop.patched == d.patched + if !Reset(x) && cut >= 4 then multiset{inputs.id} else multiset{}
  {
    var x, mid := IntentOf(d, inputs, env), Claimed(d, inputs, env);
    hide *;
    var ws := CommitWrites(mid, x, env.audit.value, env);
    AllWritesAre(d, inputs, env);
    FreshShowsAgain(d, inputs, env, again);
    StoppedWithin(d, inputs, env, cut);
    StoppedCommittable(mid, x, env.audit.value, env, again, cut - 2);
    ClaimedFields(d, inputs, env, PutAll(mid, ws[..cut - 2]));
  }

  lemma ClaimedFields(d: Disk, inputs: Inputs, env: Env, stop: Disk)
    ensures Claimed(d, inputs, env).patched == d.patched && IntentOf(d, inputs, env).id == inputs.id
    ensures SameUnder(Claimed(d, inputs, env), stop) ==> stop.room.initial == d.room.initial
  {
  }

  lemma StoppedWithin(d: Disk, inputs: Inputs, env: Env, cut: nat)
    requires env.audit.Some? && 2 <= cut < |AllWrites(d, inputs, env)|
    ensures var ws := CommitWrites(Claimed(d, inputs, env), IntentOf(d, inputs, env), env.audit.value, env);
            cut - 2 < |ws| && StoppedDisk(d, inputs, env, cut) == PutAll(Claimed(d, inputs, env), ws[..cut - 2])
  {
    hide CommitWrites, PutAll;
    AllWritesAre(d, inputs, env);
    StoppedLater(d, inputs, env, cut);
  }

  lemma AllWritesAre(d: Disk, inputs: Inputs, env: Env)
    requires env.audit.Some?
    ensures |AllWrites(d, inputs, env)|
            == 2 + |CommitWrites(Claimed(d, inputs, env), IntentOf(d, inputs, env), env.audit.value, env)|
  {
  }

  /** The repeat after a stop within the pending attempt. */
  lemma RepeatContinues(d: Disk, inputs: Inputs, env: Env, cut: nat, second: Option<bool>, again: Env)
    requires env.audit.Some? && Fresh(d, inputs, env) && Shows(env) && Again(env, again)
    requires 2 <= cut < |AllWrites(d, inputs, env)|
    ensures var after := Run(StoppedDisk(d, inputs, env, cut), [CommitEvent(inputs, second, again)]);
            && Moved(d, inputs, IntentOf(d, inputs, env).target, after)
            && after.patched
               == d.patched + if Reset(IntentOf(d, inputs, env)) || cut == 3 then multiset{} else multiset{inputs.id}
  {
    hide *;
    var x, stop := IntentOf(d, inputs, env), StoppedDisk(d, inputs, env, cut);
    StopFacts(d, inputs, env, cut, again);
    RepeatCommits(stop, x, env.audit.value, second, again);
    RepeatIs(d, inputs, env, second, again);
    CommittedIsMoved(d, inputs, x, stop, Run(stop, [CommitEvent(inputs, second, again)]));
  }

  lemma RepeatIs(d: Disk, inputs: Inputs, env: Env, second: Option<bool>, again: Env)
    ensures Repeat(IntentOf(d, inputs, env), second, again) == CommitEvent(inputs, second, again)
    ensures IntentOf(d, inputs, env).id == inputs.id && IntentOf(d, inputs, env).inputs == inputs
    ensures IntentOf(d, inputs, env).previous == d.room.pointer
  {
  }

  /** The repeat after all writes: the request answers its own record. */
  lemma RepeatRests(d: Disk, inputs: Inputs, env: Env, second: Option<bool>, again: Env)
    requires Fresh(d, inputs, env) && Shows(env)
    ensures var done := PutAll(d, AllWrites(d, inputs, env));
            Run(done, [CommitEvent(inputs, second, again)]) == done
  {
    var x, done := IntentOf(d, inputs, env), PutAll(d, AllWrites(d, inputs, env));
    assert env.audit.Some?;
    hide *;
    FreshCommittable(d, inputs, env);
    AllPuts(d, inputs, env);
    CommitJournal(Claimed(d, inputs, env), x, env.audit.value, env);
    CommitPuts(Claimed(d, inputs, env), x, env.audit.value, env);
    DoneIsInv(d, inputs, env);
    SettledIsGood(done);
    CommittedPointer(Claimed(d, inputs, env), x, done);
    RepeatIs(d, inputs, env, second, again);
    TerminalAnswers(done, done.room.pointer.value, second, again);
    NothingRuns(done, inputs, second, again);
  }

  lemma CommittedPointer(d: Disk, x: Intent, after: Disk)
    requires CommittedTo(d, x, after)
    ensures after.room.pointer.Some? && after.room.pointer.value.intent == x && !after.room.pointer.value.state.Pending?
  {
  }

  lemma DoneIsInv(d: Disk, inputs: Inputs, env: Env)
    requires Fresh(d, inputs, env) && Shows(env)
    ensures Inv(PutAll(d, AllWrites(d, inputs, env)))
  {
    var event := CommitEvent(inputs, None, env);
    assert env.audit.Some?;
    FreshIsInv(d, inputs, env);
    hide *;
    AllWritesCount(d, inputs, env);
    FreshRuns(d, inputs, None, env, 6);
    EventIs(inputs, None, env);
    var ws := AllWrites(d, inputs, env);
    assert ws[..|ws|] == ws;
    MinIs(|ws|);
    EventKeepsInv(d, event);
  }

  lemma FreshIsInv(d: Disk, inputs: Inputs, env: Env)
    requires Fresh(d, inputs, env)
    ensures Inv(d)
  {
    hide Good;
  }

  lemma EventIs(inputs: Inputs, precondition: Option<bool>, env: Env)
    ensures CommitEvent(inputs, precondition, env) == Event(Transition(inputs, precondition, env), 6)
  {
  }

  lemma MinIs(n: nat)
    ensures n <= 6 ==> Min(6, n) == n
  {
  }

  lemma NothingRuns(d: Disk, inputs: Inputs, precondition: Option<bool>, env: Env)
    requires TransitionPlan(d, inputs, precondition, env).writes == []
    ensures Run(d, [CommitEvent(inputs, precondition, env)]) == d
  {
    hide TransitionPlan, Run;
    WholeRun(d, CommitEvent(inputs, precondition, env));
    PutNone(d);
  }

  /** A fresh transition stopped after any number of its writes is committed by the identical request, if the room shows
      the target to both: its pointer is published over its own record and one epoch of the target is opened. One PATCH
      was sent, but for a reset, which sends none, and for a stop between the marker and the PATCH, which is not made up
      for. */
  lemma StoppedCommits(d: Disk, inputs: Inputs, first: Option<bool>, env: Env, cut: nat, second: Option<bool>, again: Env)
    requires Fresh(d, inputs, env) && Shows(env) && Again(env, again)
    requires (first.None? || first.value) && Admits(second, cut)
    ensures var after := Run(d, StoppedAndRepeated(inputs, first, env, cut, second, again));
            && Moved(d, inputs, env.resolved.value, after)
            && after.patched[inputs.id] == if Reset(IntentOf(d, inputs, env)) || cut == 3 then 0 else 1
  {
    assert env.audit.Some? && again.resolved == env.resolved;
    var all := AllWrites(d, inputs, env);
    FreshReady(d, inputs, env);
    hide Fresh, Ready, Shows, Again, Run, Moved, AllWrites, StoppedDisk, Reset, PutAll;
    FreshUnsent(d, inputs, env);
    FreshTarget(d, inputs, env);
    NothingDone(d, inputs, env);
    RunsFromStopped(d, inputs, first, env, cut, CommitEvent(inputs, second, again));
    if cut == 0 {
      FreshAgain(d, inputs, env, again);
      FreshCommits(d, inputs, second, again);
    } else if cut == 1 {
      RepeatClaims(d, inputs, env, again);
    } else if cut < |all| {
      RepeatContinues(d, inputs, env, cut, second, again);
    } else {
      StoppedAfter(d, inputs, first, env, cut, second, again);
    }
  }

  /** The stop came after the last write. */
  lemma StoppedAfter(d: Disk, inputs: Inputs, first: Option<bool>, env: Env, cut: nat, second: Option<bool>, again: Env)
    requires Fresh(d, inputs, env) && Shows(env) && env.audit.Some? && cut >= |AllWrites(d, inputs, env)|
    requires first.None? || first.value
    ensures var after := Run(StoppedDisk(d, inputs, env, cut), [CommitEvent(inputs, second, again)]);
            && Moved(d, inputs, IntentOf(d, inputs, env).target, after)
            && after.patched == d.patched + if Reset(IntentOf(d, inputs, env)) then multiset{} else multiset{inputs.id}
  {
    var ws := AllWrites(d, inputs, env);
    assert ws[..|ws|] == ws;
    assert StoppedDisk(d, inputs, env, cut) == PutAll(d, ws);
    hide *;
    RepeatRests(d, inputs, env, second, again);
    FreshCommittable(d, inputs, env);
    AllPuts(d, inputs, env);
    ClaimedCommits(d, inputs, env, env.audit.value, env);
  }
}
