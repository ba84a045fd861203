/** What a call answers for an attempt that has ended, and how a stopped abandonment is finished. */
module AttemptAnswers {
  import opened Values
  import opened EngineeringModel
  import opened EngineeringTransition
  import opened JournalProofs
  import opened RoomRuns
  import opened TransitionSafety
  import opened TransitionProtocol
  import opened RoomTheorems
  import opened AttemptProgress

  /** A published attempt that has ended. */
  predicate EndedAttempt(d: Disk, link: Pointer) { link in Lineage(d.room.pointer) && !link.state.Pending? }

  lemma PublishedIsFound(d: Disk, link: Pointer)
    requires Good(d) && link in Lineage(d.room.pointer)
    ensures AttemptOf(Lineage(d.room.pointer), link.id) == Some(link) && link.id in LineageIds(d.room.pointer)
    ensures link.intent.inputs.id == link.id
  {
    PublishedOk(d, link);
    hide LinkOk;
    var links := Lineage(d.room.pointer);
    var found := AttemptOf(links, link.id);
    var i :| 0 <= i < |links| && links[i] == link;
    var j :| 0 <= j < |links| && links[j] == found.value;
    assert links[i].id == links[j].id;
  }

  lemma EndedState(d: Disk, link: Pointer)
    requires EndedAttempt(d, link)
    ensures !link.state.Pending?
  {
  }

  lemma GoodJournal(d: Disk)
    requires Good(d)
    ensures JournalOk(d, true)
  {
  }

  lemma DispatchEnded(d: Disk, link: Pointer, inputs: Inputs, env: Env)
    requires JournalOk(d, true) && PendingResolution(d).None? && env.settled && !link.state.Pending?
    requires AttemptOf(Lineage(d.room.pointer), inputs.id) == Some(link)
    ensures DispatchPlan(d, inputs, env)
            == if inputs == link.intent.inputs then Plan([], Terminal(link.state.record)) else REFUSED
  {
    hide JournalOk, PendingResolution, AttemptOf, Lineage, ApplyPlan, ReconcilePlan, ResolutionPlan;
  }

  /** A repeated request whose attempt has ended answers its record and writes nothing; the same id with other inputs is
      refused. */
  lemma EndedAnswers(d: Disk, link: Pointer, inputs: Inputs, precondition: Option<bool>, env: Env)
    requires Good(d) && EndedAttempt(d, link) && PendingResolution(d).None?
    requires inputs.id == link.id && env.settled
    ensures TransitionPlan(d, inputs, precondition, env)
            == if inputs == link.intent.inputs then Plan([], Terminal(link.state.record)) else REFUSED
  {
    PublishedIsFound(d, link);
    GoodJournal(d);
    ClaimsNothing(d, inputs);
    EndedState(d, link);
    hide *;
    DispatchEnded(d, link, inputs, env);
    KnownDispatches(d, inputs, precondition, env);
  }

  /** The abandonment of an attempt that has ended answers its record only if that record is this very abandonment, and
      refuses otherwise; it writes nothing either way. */
  lemma EndedAbandonAnswers(d: Disk, link: Pointer, call: AbandonCall, env: Env)
    requires Good(d) && EndedAttempt(d, link) && call.id == link.id && env.settled
    ensures AbandonPlan(d, call, env)
            == if call.authorization != "" && call.diagnosis != ""
                  && call.database == link.intent.inputs.database && call.transcript == link.intent.inputs.transcript
                  && link.state.record.outcome
                     == Abandoned(AbandonmentOf(link, Find(d.files.attempts, link.id), link.intent.inputs,
                                                call.authorization, call.diagnosis))
               then Plan([], Terminal(link.state.record)) else REFUSED
  {
    PublishedIsFound(d, link);
    GoodJournal(d);
    EndedRecord(d, link);
    EndedState(d, link);
    hide *;
    AbandonsEnded(d, link, call, env);
  }

  lemma AbandonsEnded(d: Disk, link: Pointer, call: AbandonCall, env: Env)
    requires JournalOk(d, true) && AttemptOf(Lineage(d.room.pointer), call.id) == Some(link) && env.settled
    requires !link.state.Pending? && Find(d.files.records, call.id) == Some(link.state.record)
    ensures AbandonPlan(d, call, env)
            == if call.authorization != "" && call.diagnosis != ""
                  && call.database == link.intent.inputs.database && call.transcript == link.intent.inputs.transcript
                  && link.state.record.outcome
                     == Abandoned(AbandonmentOf(link, Find(d.files.attempts, call.id), link.intent.inputs,
                                                call.authorization, call.diagnosis))
               then Plan([], Terminal(link.state.record)) else REFUSED
  {
    hide JournalOk, AttemptOf, Lineage, AbandonmentOf, Inspect, Unchanged, PublishPlan;
  }

  lemma EndedRecord(d: Disk, link: Pointer)
    requires Good(d) && EndedAttempt(d, link)
    ensures Find(d.files.records, link.id) == Some(link.state.record)
  {
    PublishedOk(d, link);
  }

  // ----- a stopped abandonment -----

  /** An abandonment that is stopped after its record leaves the attempt to be given up by the same call. */
  lemma StoppedAbandonment(d: Disk, x: Intent, audit: Probe, call: AbandonCall, env: Env, again: Env)
    requires GivesUp(d, x, audit, call, env) && x.id !in d.files.records
    requires again.settled && again.abandon.Some? && LivesLike(audit, again.abandon.value)
    ensures var mid := Run(d, [Event(Abandon(call, env), 1)]);
            GivesUp(mid, x, audit, call, again) && x.id in mid.files.records && mid.patched == d.patched
  {
    OngoingJournal(d, x, audit);
    hide *;
    StoppedAt(d, x, audit, call, env);
    StoppedGivesUp(d, x, audit, call, env, again);
  }

  lemma StoppedAt(d: Disk, x: Intent, audit: Probe, call: AbandonCall, env: Env)
    requires GivesUp(d, x, audit, call, env) && d.room.engineer.Some? && env.abandon.Some?
    ensures Run(d, [Event(Abandon(call, env), 1)]) == WithRecord(d, GivenUp(d, x, call, env))
  {
    hide GivesUp, GivenUp, AbandonPlan, Run, PutAll, PlanOf, WithRecord;
    var r := GivenUp(d, x, call, env);
    ClosesOngoing(d, x, audit, call, env);
    AbandonIsPlan(d, call, env);
    CutRun(d, Abandon(call, env), [StoreRecord(r)]);
    PutOne(d, StoreRecord(r));
  }

  lemma StoppedGivesUp(d: Disk, x: Intent, audit: Probe, call: AbandonCall, env: Env, again: Env)
    requires GivesUp(d, x, audit, call, env) && x.id !in d.files.records
    requires d.room.engineer.Some? && env.abandon.Some?
    requires again.settled && again.abandon.Some? && LivesLike(audit, again.abandon.value)
    ensures var mid := WithRecord(d, GivenUp(d, x, call, env));
            GivesUp(mid, x, audit, call, again) && x.id in mid.files.records && mid.patched == d.patched
  {
    GivenUpPublishable(d, x, audit, call, env);
    hide Ongoing, Publishable, LivesLike, InspectedEvidence, AbandonmentOf;
    RecordOngoing(d, x, audit, GivenUp(d, x, call, env));
  }

  lemma ReconcilesAbandonment(d: Disk, x: Intent, audit: Probe, call: AbandonCall, env: Env)
    requires GivesUp(d, x, audit, call, env) && x.id in d.files.records
    ensures ReconcilePlan(d, x, env) == AbandonPlan(d, call, env)
  {
    hide Ongoing, AbandonPlan, SettlePlan, AdvancePlan, LivesLike;
  }

  /** The identical transition request finishes a stopped abandonment just as the abandonment itself does. */
  lemma RepeatAbandons(d: Disk, x: Intent, audit: Probe, call: AbandonCall, precondition: Option<bool>, env: Env)
    requires GivesUp(d, x, audit, call, env) && x.id in d.files.records
    ensures Run(d, [Repeat(x, precondition, env)]) == Run(d, [Event(Abandon(call, env), 2)])
  {
    hide Ongoing, AbandonPlan, ReconcilePlan, TransitionPlan, Run, LivesLike, GivenUp, JournalOk, AbandonmentFor;
    OngoingJournal(d, x, audit);
    RepeatDispatches(d, x, audit, precondition, env);
    ReconcilesAbandonment(d, x, audit, call, env);
    ClosesOngoing(d, x, audit, call, env);
    AbandonIsPlan(d, call, env);
    WholeRun(d, Repeat(x, precondition, env));
    WholeRun(d, Event(Abandon(call, env), 2));
  }
}
