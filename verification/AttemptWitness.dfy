/** A new room reaches every number of attempts up to the bound, and at the bound the next request strands its intent.
    Each attempt is a transition stopped before its marker and then abandoned. */
module AttemptWitness {
  import opened Values
  import opened EngineeringModel
  import opened EngineeringTransition
  import opened JournalProofs
  import opened RoomRuns
  import opened TransitionSafety
  import opened TransitionProtocol
  import opened RoomTheorems
  import opened AttemptProgress
  import opened FreshTransition
  import opened PatchWitness

  // ----- one attempt that is given up -----

  /** The abandonment finds the room as audited, with a nonempty generation. */
  predicate Leaves(inputs: Inputs, env: Env) {
    env.audit.Some? && env.abandon == env.audit && env.audit.value.observed.owner.generation != ""
  }

  function CloseCall(inputs: Inputs): AbandonCall { AbandonCall(inputs.id, inputs.database, inputs.transcript, "a", "d") }

  lemma FreshGivesUp(d: Disk, inputs: Inputs, env: Env)
    requires Fresh(d, inputs, env) && Leaves(inputs, env)
    ensures GivesUp(Claimed(d, inputs, env), IntentOf(d, inputs, env), env.audit.value, CloseCall(inputs), env)
  {
    FreshProbe(d, inputs, env);
    FreshReady(d, inputs, env);
    FreshOngoing(d, inputs, env);
    FreshFiles(d, inputs, env);
    hide Fresh, Ready, Ongoing, Claimed, IntentOf, LivesLike;
    LivesAsAudited(env.audit.value);
  }

  lemma LivesAsAudited(audit: Probe)
    requires audit.observed.controller == "ready" && audit.observed.owner.activity == "idle"
    requires audit.observed.owner.generation != ""
    ensures LivesLike(audit, audit)
  {
  }

  lemma FreshProbe(d: Disk, inputs: Inputs, env: Env)
    requires Fresh(d, inputs, env)
    ensures env.settled && env.audit.Some?
    ensures env.audit.value.observed.controller == "ready" && env.audit.value.observed.owner.activity == "idle"
  {
    hide Good, IntentOk, JournalOk;
  }

  /** The attempt and its abandonment. */
  function TryOnce(inputs: Inputs, env: Env): seq<Event> {
    [Event(Transition(inputs, None, env), 2), Event(Abandon(CloseCall(inputs), env), 2)]
  }

  /** A fresh attempt that is given up leaves a settled journal with one more link, the same epochs and nothing sent. */
  lemma TriedOk(d: Disk, inputs: Inputs, env: Env)
    requires Fresh(d, inputs, env) && Leaves(inputs, env)
    ensures var after := Run(d, TryOnce(inputs, env));
            && Good(after) && JournalOk(after, false) && !IsPending(after.room.pointer)
            && |Lineage(after.room.pointer)| == |Lineage(d.room.pointer)| + 1
            && BaseHistory(after.room) == BaseHistory(d.room)
            && after.room == d.room.(pointer := after.room.pointer) && after.patched == d.patched
            && after.files.requests.Keys == d.files.requests.Keys + {inputs.id}
  {
    assert env.audit.Some?;
    hide *;
    var mid, x := Claimed(d, inputs, env), IntentOf(d, inputs, env);
    FreshGivesUp(d, inputs, env);
    TryRuns(d, inputs, env);
    CloseJournal(mid, x, env.audit.value, CloseCall(inputs), env);
    AbandonCloses(mid, x, env.audit.value, CloseCall(inputs), env);
    FreshIsInv(d, inputs, env);
    RunKeepsInv(d, TryOnce(inputs, env));
    SettledIsGood(Run(d, TryOnce(inputs, env)));
    TriedFields(d, inputs, env, Run(d, TryOnce(inputs, env)));
  }

  lemma TryRuns(d: Disk, inputs: Inputs, env: Env)
    requires Fresh(d, inputs, env)
    ensures Run(d, TryOnce(inputs, env)) == Run(Claimed(d, inputs, env), [Event(Abandon(CloseCall(inputs), env), 2)])
  {
    FreshReady(d, inputs, env);
    BeginsTwo(d, inputs, env);
    hide Fresh, Ready, Run, TransitionPlan, PutAll, Durable, IntentOf, Claimed;
    ClaimPuts(d, inputs, env);
    RunHead(d, TryOnce(inputs, env)[0], [Event(Abandon(CloseCall(inputs), env), 2)]);
  }

  lemma BeginsTwo(d: Disk, inputs: Inputs, env: Env)
    requires Fresh(d, inputs, env)
    ensures env.resolved.Some? && env.audit.Some? && d.room.engineer.Some?
    ensures var x := IntentOf(d, inputs, env);
            Durable(d, TryOnce(inputs, env)[0]) == [StoreIntent(x), SavePointer(PendingLink(x))]
  {
    FreshReady(d, inputs, env);
    hide Fresh, Ready, Run, TransitionPlan, ApplyPlan, AdvancePlan, PutAll, IntentOf;
    FreshApplies(d, inputs, env);
    FreshDispatches(d, inputs, None, env);
  }

  lemma RunHead(d: Disk, event: Event, rest: seq<Event>)
    ensures Run(d, [event] + rest) == Run(PutAll(d, Durable(d, event)), rest)
  {
    assert ([event] + rest)[0] == event && ([event] + rest)[1..] == rest;
  }

  lemma CloseJournal(d: Disk, x: Intent, audit: Probe, call: AbandonCall, env: Env)
    requires GivesUp(d, x, audit, call, env)
    ensures d.room.engineer.Some? && env.abandon.Some? && JournalOk(Closed(d, x, call, env), false)
  {
    var r := GivenUp(d, x, call, env);
    hide Ongoing, Working, RecordOk, PendingResolution, JournalOk, GivenUp, GivesUp, AbandonmentFor, LivesLike;
    GivenUpPublishable(d, x, audit, call, env);
    PublishFirst(d, x, r);
    RecordFacts(d, x, r);
    RecordedPointer(WithRecord(d, r), x, r);
  }

  lemma TriedFields(d: Disk, inputs: Inputs, env: Env, after: Disk)
    requires var mid, x := Claimed(d, inputs, env), IntentOf(d, inputs, env);
      && env.abandon.Some? && mid.room.engineer.Some? && after == Closed(mid, x, CloseCall(inputs), env)
      && x.id in after.files.records
      && after.room.pointer == Some(Pointer(x.id, x, AbandonedAt(after.files.records[x.id])))
      && after.patched == mid.patched && BaseHistory(after.room) == BaseHistory(mid.room)
    ensures |Lineage(after.room.pointer)| == |Lineage(d.room.pointer)| + 1 && !IsPending(after.room.pointer)
    ensures BaseHistory(after.room) == BaseHistory(d.room)
    ensures after.room == d.room.(pointer := after.room.pointer) && after.patched == d.patched
    ensures after.files.requests.Keys == d.files.requests.Keys + {inputs.id}
  {
    assert Lineage(after.room.pointer) == Lineage(d.room.pointer) + [after.room.pointer.value];
  }

  // ----- the bound -----

  /** At the bound a request that would otherwise be applied strands its intent, wherever its call stops after the
      first write and even when nothing stops it. */
  lemma FullStrands(d: Disk, inputs: Inputs, env: Env, cut: nat)
    requires Ready(d, inputs, env) && |Lineage(d.room.pointer)| == MAX_CHAIN && cut > 0
    ensures StrandedAt(Run(d, [Event(Transition(inputs, None, env), cut)]), inputs.id)
  {
    var event := Event(Transition(inputs, None, env), cut);
    hide Good, JournalOk, IntentOk, Audited, Reset, ApplyPlan, TransitionPlan, InterruptedBy, Beginning;
    FreshBegins(d, inputs, env);
    FreshDispatches(d, inputs, None, env);
    FullStores(d, inputs, env);
    BoundStrands(d, inputs, env);
    var w := ApplyPlan(d, inputs, env).writes[0];
    assert Durable(d, event) == [w] && [w][1..] == [] && [event][1..] == [];
    assert PutAll(d, [w]) == PutAll(Put(d, w), []);
    assert Run(d, [event]) == Run(PutAll(d, Durable(d, event)), []);
  }

  lemma FullStores(d: Disk, inputs: Inputs, env: Env)
    requires Ready(d, inputs, env)
    ensures ApplyPlan(d, inputs, env).writes != []
    ensures ApplyPlan(d, inputs, env).writes[0] == StoreIntent(IntentOf(d, inputs, env))
  {
    hide JournalOk, Good, IntentOk, Inspect, AdvancePlan, Reset;
  }

  // ----- from a new room -----

  /** A new name for each attempt. */
  function Name(k: nat): Id { seq(k, i => 'a') }

  /** The room after k attempts that were given up. */
  predicate After(d: Disk, source: Pin, k: nat) {
    && Waiting(d, source)
    && |Lineage(d.room.pointer)| == k
    && d.patched == multiset{}
    && forall id :: id in d.files.requests ==> |id| <= k
  }

  function NextInputs(d: Disk, source: Pin, target: Pin, k: nat): Inputs {
    RequestFor(d.room, Name(k + 1), source, target, "")
  }

  lemma AfterReady(d: Disk, source: Pin, target: Pin, k: nat)
    requires Possible(source, target) && After(d, source, k)
    ensures Ready(d, NextInputs(d, source, target, k), Calm(source, target, ""))
    ensures Leaves(NextInputs(d, source, target, k), Calm(source, target, ""))
  {
    hide Waiting, Ready;
    WaitingReady(d, Name(k + 1), source, target, "");
  }

  /** The run that makes k attempts. */
  function Tries(source: Pin, target: Pin, k: nat): seq<Event> {
    if k == 0 then []
    else
      var d := Run(NewRoom(source, None), Tries(source, target, k - 1));
      Tries(source, target, k - 1) + TryOnce(NextInputs(d, source, target, k - 1), Calm(source, target, ""))
  }

  lemma {:induction false} RunConcat(d: Disk, a: seq<Event>, b: seq<Event>)
    ensures Run(d, a + b) == Run(Run(d, a), b)
    decreases a
  {
    if a == [] {
      assert a + b == b;
    } else {
      assert (a + b)[1..] == a[1..] + b;
      RunConcat(PutAll(d, Durable(d, a[0])), a[1..], b);
    }
  }

  /** Every number of attempts up to the bound is reached from a new room. */
  lemma {:induction false} AttemptsReached(source: Pin, target: Pin, k: nat)
    requires Possible(source, target) && k <= MAX_CHAIN
    ensures After(Run(NewRoom(source, None), Tries(source, target, k)), source, k)
  {
    hide After, Run, TryOnce, NextInputs, Possible, NewRoom, Calm;
    if k == 0 {
      AfterNothing(source, target);
    } else {
      AttemptsReached(source, target, k - 1);
      AfterNext(Run(NewRoom(source, None), Tries(source, target, k - 1)), source, target, k - 1);
      OneMoreTry(source, target, k);
    }
  }

  lemma AfterNothing(source: Pin, target: Pin)
    requires Possible(source, target)
    ensures After(Run(NewRoom(source, None), []), source, 0)
  {
    hide Good, JournalOk, ExactId;
    NewRoomWaits(source, None);
  }

  lemma OneMoreTry(source: Pin, target: Pin, k: nat)
    requires k > 0
    ensures var d := Run(NewRoom(source, None), Tries(source, target, k - 1));
            Run(NewRoom(source, None), Tries(source, target, k))
            == Run(d, TryOnce(NextInputs(d, source, target, k - 1), Calm(source, target, "")))
  {
    hide Run, TryOnce, NextInputs, NewRoom, Calm;
    var d := Run(NewRoom(source, None), Tries(source, target, k - 1));
    RunConcat(NewRoom(source, None), Tries(source, target, k - 1),
              TryOnce(NextInputs(d, source, target, k - 1), Calm(source, target, "")));
  }

  lemma AfterNext(d: Disk, source: Pin, target: Pin, k: nat)
    requires Possible(source, target) && After(d, source, k) && k < MAX_CHAIN
    ensures After(Run(d, TryOnce(NextInputs(d, source, target, k), Calm(source, target, ""))), source, k + 1)
  {
    hide Ready, Good, JournalOk, BaseHistory, Leaves, TryOnce, Run;
    AfterReady(d, source, target, k);
    TriedOk(d, NextInputs(d, source, target, k), Calm(source, target, ""));
  }

  /** So the bound is reached, and the next request over it, uninterrupted, strands its intent for good. */
  lemma BoundIsReached(source: Pin, target: Pin)
    requires Possible(source, target)
    ensures var d := Run(NewRoom(source, None), Tries(source, target, MAX_CHAIN));
            var inputs := NextInputs(d, source, target, MAX_CHAIN);
            StrandedAt(Run(d, [Event(Transition(inputs, None, Calm(source, target, "")), 6)]), inputs.id)
  {
    var d := Run(NewRoom(source, None), Tries(source, target, MAX_CHAIN));
    AttemptsReached(source, target, MAX_CHAIN);
    AfterReady(d, source, target, MAX_CHAIN);
    FullStrands(d, NextInputs(d, source, target, MAX_CHAIN), Calm(source, target, ""), 6);
  }
}
