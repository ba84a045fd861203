/** What sets and revokes are for: exactly the last one carried through says whether the room's policy is in force, and a
    policy that is not in force chooses nothing and creates nothing. */
module PolicyStanding {
  import opened Values
  import opened EngineeringModel
  import opened EngineeringTransition
  import opened RoomRuns
  import opened TransitionSafety
  import opened EngineeringPolicy
  import opened PolicyRuns

  // ----- when a set or a revoke is accepted, and what it records -----

  /** A set is accepted exactly over an orderly log and a settled journal whose newest epoch is an exact member of one of
      the families, the named one if one was named; it records that family as active. */
  lemma SetIff(d: Disk, log: seq<PolicyRecord>, named: Option<string>, families: set<string>, authorization: string,
               now: int)
    ensures var next := NextRecord(d, log, true, named, families, authorization, now);
            var selector := LastEpoch(EpochsOf(d.room)).selector;
            && (next.Success? <==>
                  && LogOk(log, d.room.policy) && JournalOk(d, false) && selector.Exact?
                  && exists family :: family in families && FamilyMember(family, selector.model)
                                      && (named.None? || named == Some(family)))
            && (next.Success? ==>
                  && next.value.active && next.value.family in families && FamilyMember(next.value.family, selector.model)
                  && next.value.authorization == authorization && next.value.previous == Head(log))
  {
    var selector := LastEpoch(EpochsOf(d.room)).selector;
    if selector.Exact? {
      forall family ensures FamilyOf(families, selector.model) == Some(family)
                            <==> family in families && FamilyMember(family, selector.model)
      {
        FamilyOfIff(families, selector.model, family);
      }
    }
    hide LogOk, JournalOk, EpochsOf, FamilyMember, FamilyOf;
  }

  /** A revoke is accepted exactly over an orderly log whose policy is active; it records the same family as no longer
      active. */
  lemma RevokeIff(d: Disk, log: seq<PolicyRecord>, named: Option<string>, families: set<string>, authorization: string,
                  now: int)
    ensures var next := NextRecord(d, log, false, named, families, authorization, now);
            && (next.Success? <==> LogOk(log, d.room.policy) && d.room.policy.Some? && d.room.policy.value.active)
            && (next.Success? ==> !next.value.active && next.value.family == d.room.policy.value.family
                                  && next.value.authorization == authorization && next.value.previous == Head(log))
  {
  }

  // ----- over runs -----

  predicate InForce(s: Lane) { s.d.room.policy.Some? && s.d.room.policy.value.active }

  /** The family the room's policy names, whether in force or not. */
  function Family(s: Lane): Option<string> {
    if s.d.room.policy.Some? then Some(s.d.room.policy.value.family) else None
  }

  /** An accepted set or revoke of which both writes happen. */
  predicate Completed(s: Lane, e: PolicyEvent) { e.Recording? && e.cut >= 2 && Next(s, e).Success? }

  lemma StepStanding(s: Lane, e: PolicyEvent)
    ensures InForce(Step(s, e)) <==> if Completed(s, e) then e.active else InForce(s)
    ensures !Completed(s, e) || !e.active ==> Family(Step(s, e)) == Family(s)
    ensures Completed(s, e) && e.active ==>
              exists family :: Family(Step(s, e)) == Some(family) && family in e.families
                               && FamilyMember(family, LastEpoch(EpochsOf(s.d.room)).selector.Configured())
  {
    if e.Recording? {
      SetIff(s.d, s.log, e.family, e.families, e.authorization, e.now);
      RevokeIff(s.d, s.log, e.family, e.families, e.authorization, e.now);
      hide LogOk, JournalOk, EpochsOf, FamilyMember, NextRecord;
    }
  }

  /** Whether the last completed recording of the run is a set; if there is none, what was so before. */
  predicate LastIsSet(s: Lane, events: seq<PolicyEvent>, before: bool)
    decreases events
  {
    if events == [] then before
    else LastIsSet(Step(s, events[0]), events[1..], if Completed(s, events[0]) then events[0].active else before)
  }

  /** After every run the policy is in force exactly when the last set or revoke carried through was a set. */
  lemma {:induction false} InForceIff(s: Lane, events: seq<PolicyEvent>)
    ensures InForce(Steps(s, events)) <==> LastIsSet(s, events, InForce(s))
    decreases events
  {
    if events != [] {
      StepStanding(s, events[0]);
      InForceIff(Step(s, events[0]), events[1..]);
    }
  }

  /** No set of the run is carried through. */
  predicate SetsNothing(s: Lane, events: seq<PolicyEvent>)
    decreases events
  {
    events == [] || (!(Completed(s, events[0]) && events[0].active) && SetsNothing(Step(s, events[0]), events[1..]))
  }

  lemma {:induction false} StaysOut(s: Lane, events: seq<PolicyEvent>)
    requires !InForce(s) && SetsNothing(s, events)
    ensures !InForce(Steps(s, events)) && Family(Steps(s, events)) == Family(s)
    decreases events
  {
    if events != [] {
      StepStanding(s, events[0]);
      StaysOut(Step(s, events[0]), events[1..]);
    }
  }

  /** A policy that is not in force chooses nothing over an orderly log, and every earlier choice is void. */
  lemma OutOfForce(s: Lane, request: Id, look: Lookup, choice: Choice)
    requires !InForce(s) && InOrder(s) && choice.Follow?
    ensures Choose(s.d, s.log, request, look) == Success(Inactive)
    ensures !PolicyUnchanged(s.d.room, choice)
  {
  }

  /** After a revoke carried through, and over every later run without a completed set: the policy is out of force and
      keeps its family; over an orderly log every choice is inactive; and no follow, however it was chosen, creates an
      intent. */
  lemma RevokedStays(s: Lane, revoke: PolicyEvent, events: seq<PolicyEvent>, request: Id, look: Lookup, choice: Choice,
                     inputs: Inputs, env: Env, w: Write)
    requires Completed(s, revoke) && !revoke.active && SetsNothing(Step(s, revoke), events) && choice.Follow?
    ensures var last := Steps(Step(s, revoke), events);
            && !InForce(last) && Family(last) == Family(s)
            && (InOrder(last) ==> Choose(last.d, last.log, request, look) == Success(Inactive))
            && (Inv(last.d) && w in FollowPlan(last.d, choice, inputs, env).writes ==> !w.StoreIntent?)
  {
    var last := Steps(Step(s, revoke), events);
    StepStanding(s, revoke);
    StaysOut(Step(s, revoke), events);
    if InOrder(last) { OutOfForce(last, request, look, choice); }
    if Inv(last.d) && w in FollowPlan(last.d, choice, inputs, env).writes && w.StoreIntent? {
      CreatesOnlyUnderPolicy(last.d, choice, inputs, env, w);
    }
  }

  // ----- when the choice follows -----

  /** The choice follows exactly where the request is new, the policy is in force over an orderly log, nothing of the
      engineer is under way or on hold, and the configuration expects a strictly newer exact member of the family than
      the one the settled journal runs, with a source to audit it from. */
  lemma FollowsIff(d: Disk, log: seq<PolicyRecord>, request: Id, look: Lookup)
    ensures var choice, selector := Choose(d, log, request, look), LastEpoch(EpochsOf(d.room)).selector;
            (choice.Success? && choice.value.Follow?)
            <==> && request !in RequestIds(d.room.requests)
                 && d.room.policy.Some? && d.room.policy.value.active && LogOk(log, d.room.policy)
                 && (forall k :: 0 <= k < |d.room.requests| && d.room.requests[k].role == "engineer" ==>
                       IsSettled(d.room.requests[k]))
                 && !look.hold && look.source.Some? && JournalOk(d, false)
                 && look.expected.Some? && selector.Exact?
                 && FamilyMember(d.room.policy.value.family, selector.model)
                 && FamilyMember(d.room.policy.value.family, look.expected.value)
                 && Older(VersionTuple(d.room.policy.value.family, selector.model),
                          VersionTuple(d.room.policy.value.family, look.expected.value))
  {
    var selector := LastEpoch(EpochsOf(d.room)).selector;
    if selector.Exact? && look.expected == Some(selector.model) && d.room.policy.Some?
       && FamilyMember(d.room.policy.value.family, selector.model)
    {
      OlderIrreflexive(VersionTuple(d.room.policy.value.family, selector.model));
    }
    hide LogOk, FamilyMember, VersionTuple, EpochsOf, Sound;
  }

  /** No engineer request is under way, by the room or by its outcome. */
  predicate AtRest(room: Room, look: Lookup) {
    && !look.hold
    && forall k :: 0 <= k < |room.requests| && room.requests[k].role == "engineer" ==> IsSettled(room.requests[k])
  }

  /** The other answers: inactive for a known request, without a policy or over one that was revoked; no change where the
      expected model already runs; a refusal over a damaged log or journal. What is left is deferred. */
  lemma AnswersIff(d: Disk, log: seq<PolicyRecord>, request: Id, look: Lookup)
    ensures var choice, policy := Choose(d, log, request, look), d.room.policy;
            var asks := request !in RequestIds(d.room.requests) && policy.Some?;
            && (choice == Success(Inactive) <==> !asks || (LogOk(log, policy) && !policy.value.active))
            && (choice == Success(NoChange)
                <==> && asks && LogOk(log, policy) && policy.value.active && AtRest(d.room, look) && JournalOk(d, false)
                     && look.expected == Some(LastEpoch(EpochsOf(d.room)).selector.Configured()))
            && (choice.Refused?
                <==> && asks
                     && (!LogOk(log, policy)
                         || (policy.value.active && AtRest(d.room, look) && !JournalOk(d, true))))
  {
    hide LogOk, FamilyMember, VersionTuple, EpochsOf, Sound;
  }

  /** Whatever intent a follow creates moves the room from the model it chose to follow from to the one it chose, under the
      very record it chose by, which is active. */
  lemma CreatesAsChosen(d: Disk, choice: Choice, inputs: Inputs, env: Env, w: Write)
    requires Inv(d) && choice.Follow?
    requires w in FollowPlan(d, choice, inputs, env).writes && w.StoreIntent?
    ensures d.room.policy.Some? && d.room.policy.value.record == choice.policy && d.room.policy.value.active
    ensures LastEpoch(EpochsOf(d.room)).selector.Configured() == choice.current
    ensures w.intent.inputs.source == choice.current && w.intent.inputs.target == choice.target
  {
    CreatesOnlyUnderPolicy(d, choice, inputs, env, w);
    ApplyStores(d, inputs, env, w);
    hide Inv, Good, LastEpoch, EpochsOf, ApplyPlan, TransitionPlan;
  }
}
