/** What the journal says about its attempts after every run: what each published intent was made from, and what each
    commit and each abandonment saw. */
module AttemptFacts {
  import opened Values
  import opened EngineeringModel
  import opened EngineeringTransition
  import opened JournalProofs
  import opened RoomRuns
  import opened TransitionSafety
  import opened TransitionProtocol
  import opened RoomTheorems

  /** The intent was made for the request that names it, from a ready and idle engineer that ran the source model at the
      greatest effort, over the room whose digest the audit holds. */
  predicate Bound(engineer: Option<Binding>, id: Id, x: Intent) {
    var e, i := x.evidence, x.inputs;
    && x.id == i.id == id && i.audit == x.audit == e && e.state == x.before
    && i.source == x.source.Configured() && i.target == x.target.selector.Configured()
    && e.source == x.source && e.target == x.target
    && engineer == Some(e.engineer) && e.native.binding == e.owner.binding == e.engineer
    && e.spec == i.spec && e.candidate == i.candidate && e.native.history == i.history
    && i.transcript == e.owner.nativeSession + ".jsonl"
    && e.native.controller == "ready" && e.owner.activity == "idle"
    && e.native.settings.model == i.source && e.native.settings.effort == "max"
    && Distinct(e.requests)
    && (i.target == i.source ==> x.target.selector == x.source && x.source.Family? && x.patch.None?)
    && (i.target != i.source ==> x.patch.Some?)
  }

  /** The commit saw the target in an otherwise unchanged engineer, behind its marker unless it is a reset. */
  predicate SawTarget(files: Files, x: Intent, r: Record) {
    var e := x.evidence;
    && r.id == x.id && r.intent == x && r.source == x.source && r.target == x.target
    && r.before == Observed(e.native.settings, e.native.controller, e.native.history, e.native.transcript, e.owner)
    && r.after == r.before.(settings := r.before.settings.(model := x.inputs.target, effort := "max"))
    && r.boundary == |e.requests|
    && if x.inputs.target == x.inputs.source
       then x.id !in files.attempts && r.marker.None? && r.result == PatchResult(false, None, None)
       else x.id in files.attempts && r.marker == Some(files.attempts[x.id])
  }

  /** The abandonment saw the old settings in the same owner, who is not at work, and says who decided it and why. */
  predicate SawSource(files: Files, x: Intent, r: Record) {
    var e := x.evidence;
    && r.id == x.id && r.intent == x && r.outcome.Abandoned?
    && r.before == Observed(e.native.settings, e.native.controller, e.native.history, e.native.transcript, e.owner)
    && r.after == r.before.(controller := r.after.controller, owner := r.after.owner)
    && r.after.controller in {"ready", "stopped"} && r.after.owner.activity in {"idle", "exited"}
    && r.after.owner.binding == e.owner.binding && r.after.owner.nativeSession == e.owner.nativeSession
    && r.after.owner.generation != ""
    && r.outcome.abandonment.authorization != "" && r.outcome.abandonment.diagnosis != ""
    && r.marker == Find(files.attempts, x.id)
  }

  /** Everything the files say of one published attempt. */
  predicate Attested(files: Files, engineer: Option<Binding>, link: Pointer) {
    && Find(files.requests, link.id) == Some(link.intent) && Bound(engineer, link.id, link.intent)
    && (link.id in files.attempts ==>
          && files.attempts[link.id].intent == link.intent && files.attempts[link.id].patch == link.intent.patch
          && link.intent.inputs.target != link.intent.inputs.source)
    && (link.id in files.records && files.records[link.id].outcome.Committed? ==>
          SawTarget(files, link.intent, files.records[link.id]))
    && (link.id in files.records && files.records[link.id].outcome.Abandoned? ==>
          SawSource(files, link.intent, files.records[link.id]))
    && match link.state
       case Pending => true
       case CommittedAt(r) => Find(files.records, link.id) == Some(r) && r.outcome.Committed?
       case AbandonedAt(r) => Find(files.records, link.id) == Some(r) && r.outcome.Abandoned?
  }

  lemma BoundFrom(engineer: Option<Binding>, id: Id, x: Intent)
    requires IntentOk(engineer, id, x)
    ensures Bound(engineer, id, x)
  {
  }

  lemma CommitSaw(files: Files, engineer: Option<Binding>, link: Pointer)
    requires LinkOk(files, engineer, link) && link.id in files.records && files.records[link.id].outcome.Committed?
    ensures SawTarget(files, link.intent, files.records[link.id])
  {
    BoundFrom(engineer, link.id, link.intent);
  }

  lemma AbandonSaw(files: Files, engineer: Option<Binding>, link: Pointer)
    requires LinkOk(files, engineer, link) && link.id in files.records && files.records[link.id].outcome.Abandoned?
    ensures SawSource(files, link.intent, files.records[link.id])
  {
    BoundFrom(engineer, link.id, link.intent);
  }

  lemma LinkAttests(files: Files, engineer: Option<Binding>, link: Pointer)
    requires LinkOk(files, engineer, link)
    ensures Attested(files, engineer, link)
  {
    BoundFrom(engineer, link.id, link.intent);
    if link.id in files.records {
      if files.records[link.id].outcome.Committed? {
        CommitSaw(files, engineer, link);
      } else {
        AbandonSaw(files, engineer, link);
      }
    }
  }

  /** After every run each published attempt is attested by the files on disk. */
  lemma RunAttests(d: Disk, events: seq<Event>, link: Pointer)
    requires Inv(d) && link in Lineage(Run(d, events).room.pointer)
    ensures Attested(Run(d, events).files, Run(d, events).room.engineer, link)
  {
    var last := Run(d, events);
    RunKeepsInv(d, events);
    if Good(last) {
      PublishedOk(last, link);
      LinkAttests(last.files, last.room.engineer, link);
    } else {
      var id :| InterruptedBy(last, id);
      PublishedOk(Without(last, id), link);
      LinkAttests(Without(last, id).files, last.room.engineer, link);
    }
  }

  // ----- exactly which requests begin an attempt -----

  /** What the request names is what the room and its engineer show: the pinned target under the request's spelling, the
      ready and idle engineer of the bound conversation running the source model at the greatest effort, and an audit
      that holds exactly this. */
  predicate Acceptable(d: Disk, inputs: Inputs, engineer: Binding, target: Pin, probe: Probe) {
    var o, source := probe.observed, LastEpoch(EpochsOf(d.room)).selector;
    && PinOk(target) && SelectorOk(target.selector) && (target.selector.Family? ==> target.execution.Some?)
    && inputs.target == target.selector.Configured() && inputs.source == source.Configured()
    && (inputs.target == inputs.source ==> target.selector == source && source.Family?)
    && o.owner.binding == engineer && inputs.transcript == o.owner.nativeSession + ".jsonl"
    && o.controller == "ready" && o.owner.activity == "idle"
    && o.settings.model == inputs.source && o.settings.effort == "max"
    && Distinct(RequestIds(d.room.requests))
    && inputs.spec == probe.spec && inputs.candidate == probe.candidate && inputs.history == o.history
    && inputs.audit == Evidence(d.room, source, target, engineer, RequestIds(d.room.requests), probe.spec,
                                probe.candidate, Native(engineer, o.controller, o.settings, o.history, o.transcript),
                                o.owner, probe.qualification, probe.other)
  }

  lemma InspectIff(d: Disk, probe: Option<Probe>, target: Pin, transcript: string)
    requires JournalOk(d, false) && PendingResolution(d).None?
    ensures var frozen := Inspect(d, probe, target, Auditing, transcript, None);
            var source := LastEpoch(EpochsOf(d.room)).selector;
            && (frozen.Success?
                <==> && probe.Some? && d.room.engineer.Some? && PinOk(target) && SelectorOk(target.selector)
                     && (target.selector.Family? ==> target.execution.Some?)
                     && (target.selector.Configured() == source.Configured() ==>
                           target.selector == source && source.Family?)
                     && probe.value.observed.owner.binding == d.room.engineer.value
                     && transcript == probe.value.observed.owner.nativeSession + ".jsonl"
                     && probe.value.observed.controller == "ready" && probe.value.observed.owner.activity == "idle"
                     && Distinct(RequestIds(d.room.requests)))
            && (frozen.Success? ==>
                  frozen.value == InspectedEvidence(d.room, d.room.engineer.value, target, probe.value)
                  && AuditedRoom(d.room) == d.room)
  {
    hide PendingResolution, EpochsOf, RequestIds, Sound, PinOk, SelectorOk;
  }

  /** A request under a new id, over a settled journal with nothing to adopt, stores its intent exactly where it is
      acceptable. */
  lemma AppliesIff(d: Disk, inputs: Inputs, env: Env)
    requires JournalOk(d, false) && PendingResolution(d).None? && inputs.id !in d.files.requests
    ensures ApplyPlan(d, inputs, env).writes != []
            <==> && env.resolved.Some? && env.audit.Some? && d.room.engineer.Some?
                 && Acceptable(d, inputs, d.room.engineer.value, env.resolved.value, env.audit.value)
  {
    if env.resolved.Some? { InspectIff(d, env.audit, env.resolved.value, inputs.transcript); }
    ApplyBegins(d, inputs, env);
    hide PendingResolution, EpochsOf, RequestIds, Sound, PinOk, SelectorOk, Inspect, JournalOk, ApplyPlan;
  }

  lemma ApplyBegins(d: Disk, inputs: Inputs, env: Env)
    requires inputs.id !in d.files.requests
    ensures ApplyPlan(d, inputs, env).writes != []
            <==> && env.resolved.Some? && env.resolved.value.selector.Configured() == inputs.target
                 && var evidence := Inspect(d, env.audit, env.resolved.value, Auditing, inputs.transcript, None);
                 && evidence.Success? && inputs.source == evidence.value.source.Configured()
                 && evidence.value == inputs.audit && inputs.spec == evidence.value.spec
                 && inputs.candidate == evidence.value.candidate && inputs.history == evidence.value.native.history
                 && IntentOk(d.room.engineer, inputs.id, NewIntent(d.room, inputs, evidence.value, env.now))
  {
    hide Inspect, JournalOk, AdvancePlan, IntentOk, NewIntent;
  }

  /** Other qualification evidence counts as unchanged exactly if it is of the same authority and only became retained. */
  lemma RetentionIff(e: Evidence, q: Option<Qualification>)
    requires q != e.qualification
    ensures Unchanged(e, e.(qualification := q), Exactly)
            <==> e.qualification.Some? && q.Some? && e.qualification.value.authority == q.value.authority
                 && !e.qualification.value.retained && q.value.retained
  {
  }
}
