/** Exactly which sends, grants and audits the lane lets through, and what a review beyond the ordinary ones carries. */
module AcceptanceSends {
  import opened Values
  import opened AcceptanceExtension
  import opened AcceptanceProofs
  import opened AcceptanceTheorems

  /** No grant of the journal has this id. */
  predicate NoGrantHas(all: seq<Entry>, id: Id) {
    forall k :: 0 <= k < |all| && all[k].Grant? ==> all[k].inputs.id != id
  }

  /** The call sends exactly the review and message the audit of this grant is about, over live evidence that has not
      changed. */
  predicate SendsAudited(call: Call, grant: Entry)
    requires call.Send? && grant.Grant?
  {
    && call.id == grant.inputs.audit.target.review && call.message == grant.inputs.audit.target.message
    && call.live == grant.inputs.audit.live
  }

  /** What an unused grant of a valid lane is known to say. */
  lemma UnusedGrant(d: Disk)
    requires Sound(d) && Validated(d, false) && Unused(d.files)
    ensures |d.files| == |d.state.items| && Entries(d) == d.files
    ensures var g := d.files[|d.files| - 1];
            && g.Grant? && g.target == g.inputs.audit.target && g.inputs.audit in d.audits
            && g.inputs.audit.attempts == |Reviewers(d.state.requests)| >= LIMIT
            && !Has(d.state.requests, g.target.review) && NoGrantHas(d.files, g.target.review)
  {
    ValidatedEntries(d);
    UnusedReviewers(d);
    UnusedCounts(d);
    LatestByIndex(d.files);
    assert Entries(d) == d.files && IdentitiesOk(d.files) && IntendedFree(d.files, d.state.requests);
    assert LatestOk(d.audits, d.state, d.files, d.files);
  }

  lemma UnusedCounts(d: Disk)
    requires Sound(d) && Validated(d, false) && Unused(d.files)
    ensures d.files[|d.files| - 1].inputs.audit.attempts == |Reviewers(d.state.requests)|
  {
    SoundCounts(d);
    hide *;
    UnusedAttempts(d.files, d.state.requests);
  }

  lemma SoundCounts(d: Disk)
    requires Sound(d) && Validated(d, false) && Unused(d.files)
    ensures Alternating(d.files) && AttemptsOk(d.files) && CountersOk(d.files, d.state.requests)
  {
    ValidatedEntries(d);
  }

  lemma UnusedAttempts(all: seq<Entry>, requests: seq<Request>)
    requires Alternating(all) && AttemptsOk(all) && CountersOk(all, requests) && Unused(all)
    ensures all != [] && all[|all| - 1].Grant? && all[|all| - 1].inputs.audit.attempts == |Reviewers(requests)|
  {
    var n := |all| - 1;
    CountsByIndex(all);
    CountsByIndex(all[..n]);
  }

  lemma FindsGrant(all: seq<Entry>, id: Id)
    ensures FindGrant(all, id).Some? <==> !NoGrantHas(all, id)
  {
  }

  /** Over a valid lane a send writes exactly where its id is new and no grant's own, and either an unused grant names
      this very review and message, its live evidence is unchanged and every request has settled, or no grant is unused
      and the send is no review or one of the three ordinary ones. */
  lemma SendIff(d: Disk, call: Call)
    requires Sound(d) && Validated(d, false) && call.Send?
    ensures PlanOf(d, call).writes != []
            <==> && !Has(d.state.requests, call.id) && NoGrantHas(d.files, call.id)
                 && if Unused(d.files)
                    then && call.reviewer && SendsAudited(call, d.files[|d.files| - 1])
                         && (forall k :: 0 <= k < |d.state.requests| ==> d.state.requests[k].settled)
                    else !call.reviewer || |Reviewers(d.state.requests)| < 3
  {
    ValidatedEntries(d);
    FindsGrant(d.files, call.id);
    if Unused(d.files) { UnusedGrant(d); }
    hide Sound, Validated, Reviewers, FindGrant, Has;
  }

  /** The request a send saves: not settled, not observed and not linked. */
  function Unsettled(call: Call): Request
    requires call.Send?
  {
    Request(call.id, call.reviewer, call.sent, false, 0, 0, None)
  }

  /** The consumption of the grant, the saved state and the dispatch of the audited message. */
  lemma ExtraSendWrites(d: Disk, call: Call)
    requires Sound(d) && call.Send? && call.reviewer && |Reviewers(d.state.requests)| >= LIMIT
    requires PlanOf(d, call).writes != []
    ensures Validated(d, false) && Unused(d.files) && SendsAudited(call, d.files[|d.files| - 1])
    ensures var g := d.files[|d.files| - 1];
            var c := NewConsumption(g, Unsettled(call), call.now);
            PlanOf(d, call).writes
            == [StoreEntry(c), SaveState(WithRequest(WithItem(d.state, c), LinkedRequest(g, c))),
                Post(g.inputs.audit.target.review, g.inputs.audit.target.message)]
  {
    SendValidates(d, call);
    SendIff(d, call);
    UnusedGrant(d);
    assert Consumes(d, call) by { hide Sound, Reviewers, FindGrant, Has, Validated; }
    ConsumingPlan(d, call);
  }

  /** An ordinary send saves exactly this request and posts exactly this message. */
  lemma OrdinaryWrites(d: Disk, call: Call)
    requires Sound(d) && Validated(d, false) && call.Send? && PlanOf(d, call).writes != [] && !Unused(d.files)
    ensures PlanOf(d, call).writes
            == [SaveState(d.state.(requests := d.state.requests + [Unsettled(call)])), Post(call.id, call.message)]
  {
    ValidatedEntries(d);
    hide Sound, Validated, Reviewers, FindGrant, Has;
  }

  lemma SendValidates(d: Disk, call: Call)
    requires call.Send? && PlanOf(d, call).writes != []
    ensures Validated(d, false)
  {
    hide Validated;
  }

  /** After every run, whatever a review beyond the three ordinary ones posts is the review and the message that the audit
      of an unused grant names. */
  lemma RunPostsAudited(d: Disk, events: seq<Event>, call: Call, k: nat, id: Id, message: string)
    requires Inv(d)
    requires k < |PlanOf(Run(d, events), call).writes| && PlanOf(Run(d, events), call).writes[k] == Post(id, message)
    ensures var last := Run(d, events);
            && call.Send? && call.id == id && call.message == message
            && (call.reviewer && |Reviewers(last.state.requests)| >= LIMIT ==>
                  && Unused(last.files)
                  && Target(id, message) == last.files[|last.files| - 1].inputs.audit.target)
  {
    var last := Run(d, events);
    RunKeepsInv(d, events);
    PostIsSend(last, call, k);
    if Stranded(last) {
      StrandedBlocks(last, call);
    } else if call.reviewer && |Reviewers(last.state.requests)| >= LIMIT {
      ExtraSendWrites(last, call);
    }
  }

  lemma PostIsSend(d: Disk, call: Call, k: nat)
    requires k < |PlanOf(d, call).writes| && PlanOf(d, call).writes[k].Post?
    ensures call.Send? && PlanOf(d, call).writes[k] == Post(call.id, call.message)
  {
    hide Validated, Inspects, Reviewers, FindGrant, Has, Grantable, EvidenceOf, ProgressOk, Admitted;
  }

  // ----- audits and grants -----

  /** No grant of the journal uses this id, as its own or as its review's. */
  predicate Unclaimed(all: seq<Entry>, id: Id) {
    forall k :: 0 <= k < |all| && all[k].Grant? ==> all[k].inputs.id != id && all[k].target.review != id
  }

  /** Every ordinary review was used, everything has settled, every grant is spent and none is half stored, and the review
      is new. */
  predicate Exhausted(d: Disk, review: Id) {
    && |d.files| == |d.state.items| && !Unused(d.files)
    && |Reviewers(d.state.requests)| >= 3
    && (forall k :: 0 <= k < |d.state.requests| ==> d.state.requests[k].settled)
    && !Has(d.state.requests, review) && Unclaimed(d.files, review)
  }

  lemma SoundValidates(d: Disk)
    requires Sound(d)
    ensures |d.state.items| <= |d.files| <= |d.state.items| + 1
    ensures Validated(d, false) <==> |d.files| == |d.state.items|
  {
  }

  lemma ExactReviewers(d: Disk)
    requires Sound(d) && |d.files| == |d.state.items| && |Reviewers(d.state.requests)| >= LIMIT
    ensures |Reviewers(d.state.requests)| == LIMIT + Consumptions(d.files)
  {
    assert Entries(d) == d.files;
  }

  lemma InspectsIff(d: Disk, target: Target)
    requires Sound(d)
    ensures Inspects(d, target, false) <==> Exhausted(d, target.review)
  {
    SoundValidates(d);
    if |d.files| == |d.state.items| {
      assert Entries(d) == d.files;
      if |Reviewers(d.state.requests)| >= LIMIT { ExactReviewers(d); }
    }
    hide Sound, Validated, Reviewers, Has, Consumptions;
  }

  /** An audit is stored exactly over an exhausted lane and a new review, and holds the state, the journal, the attempts
      and the live evidence it saw. */
  lemma AuditIff(d: Disk, target: Target, live: int)
    requires Sound(d)
    ensures AuditPlan(d, target, live).writes
            == if Exhausted(d, target.review)
               then [StoreAudit(Evidence(target, d.state, d.files, |Reviewers(d.state.requests)|, live))] else []
  {
    InspectsIff(d, target);
    hide Sound, Inspects, Reviewers;
    if Exhausted(d, target.review) { assert Entries(d) == d.files; }
  }

  /** A new grant is stored exactly where its audit is on disk and is still what an audit would say now, and its own id
      is new; it repeats the audit's target and attempts. */
  lemma GrantIff(d: Disk, inputs: Inputs, live: int, now: int)
    requires Sound(d) && |d.files| == |d.state.items| && NoGrantHas(d.files, inputs.id)
    ensures var target := inputs.audit.target;
            var g := Grant(|d.files| + 1, Last(d.files), inputs, target, inputs.audit.attempts, inputs.audit, now);
            ExtendPlan(d, inputs, live, now).writes
            == if && inputs.audit in d.audits && Exhausted(d, target.review)
                  && inputs.audit == Evidence(target, d.state, d.files, |Reviewers(d.state.requests)|, live)
                  && !Has(d.state.requests, inputs.id) && inputs.id != target.review && Unclaimed(d.files, inputs.id)
               then [StoreEntry(g), SaveState(WithItem(d.state, g))] else []
  {
    SoundValidates(d);
    SoundParts(d);
    InspectsIff(d, inputs.audit.target);
    FindsGrant(d.files, inputs.id);
    assert Entries(d) == d.files;
    hide Sound, Inspects, Validated, Reviewers, Has, FindGrant, Exhausted;
  }

  /** A grant that is known already answers its own inputs and refuses others, and writes nothing. */
  lemma KnownGrant(d: Disk, inputs: Inputs, live: int, now: int, k: nat)
    requires Sound(d) && k < |d.state.items| && d.files[k].Grant? && d.files[k].inputs.id == inputs.id
    ensures ExtendPlan(d, inputs, live, now) == Plan([], d.files[k].inputs == inputs)
  {
    SoundParts(d);
    KnownIs(d, inputs.id, k);
    hide Sound, Validated, Grantable, FindGrant;
  }

  lemma KnownIs(d: Disk, id: Id, k: nat)
    requires Sound(d) && k < |d.state.items| && d.files[k].Grant? && d.files[k].inputs.id == id
    ensures FindGrant(Entries(d), id) == Some(k)
  {
    SoundIds(d);
    hide Sound, IdentitiesOk;
    OneGrant(d.files, Entries(d), id, k);
  }

  lemma SoundIds(d: Disk)
    requires Sound(d) && d.state.items != []
    ensures IdentitiesOk(d.files)
  {
  }

  lemma OneGrant(all: seq<Entry>, entries: seq<Entry>, id: Id, k: nat)
    requires IdentitiesOk(all) && entries <= all && k < |entries| && all[k].Grant? && all[k].inputs.id == id
    ensures FindGrant(entries, id) == Some(k)
  {
    var found := FindGrant(entries, id);
    assert entries[k] == all[k];
    assert entries[found.value] == all[found.value];
  }
}
