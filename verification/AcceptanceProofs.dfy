/** The grant journal keeps its accounting over every run, wherever the machine stops. */
module AcceptanceProofs {
  import opened Values
  import opened AcceptanceExtension

  // ----- what every reachable disk keeps -----

  predicate Alternating(all: seq<Entry>) {
    forall k :: 0 <= k < |all| ==> (all[k].Grant? <==> k % 2 == 0)
  }

  predicate UniqueIds(requests: seq<Request>) {
    forall i, j :: 0 <= i < j < |requests| ==> requests[i].id != requests[j].id
  }

  predicate AuditsOk(audits: set<Evidence>) { forall e :: e in audits ==> AllSettled(e.state.requests) }

  /** Every request was dispatched at most once, and only after it was saved. */
  ghost predicate PostedOk(posted: multiset<Id>, requests: seq<Request>) {
    forall id: Id :: posted[id] <= 1 && (posted[id] > 0 ==> Has(requests, id))
  }

  /** Every grant repeats the attempt counter of its audit. */
  predicate AttemptsOk(all: seq<Entry>) {
    forall k :: 0 <= k < |all| && all[k].Grant? ==> all[k].attempts == all[k].inputs.audit.attempts
  }

  ghost predicate Sound(d: Disk) {
    && Validated(d, true)
    && Alternating(d.files)
    && AttemptsOk(d.files)
    && UniqueIds(d.state.requests)
    && AuditsOk(d.audits)
    && PostedOk(d.posted, d.state.requests)
  }

  lemma SoundParts(d: Disk)
    requires Sound(d)
    ensures Validated(d, true) && Alternating(d.files) && AttemptsOk(d.files) && UniqueIds(d.state.requests)
    ensures AuditsOk(d.audits) && PostedOk(d.posted, d.state.requests)
  {
  }

  lemma SoundWhole(d: Disk)
    requires Validated(d, true) && Alternating(d.files) && AttemptsOk(d.files) && UniqueIds(d.state.requests)
    requires AuditsOk(d.audits) && PostedOk(d.posted, d.state.requests)
    ensures Sound(d)
  {
  }

  function Trim(d: Disk): Disk
    requires d.files != []
  {
    d.(files := d.files[..|d.files| - 1])
  }

  predicate Answers(consumption: Entry, grant: Entry) {
    && consumption.Consumption?
    && grant.Grant?
    && consumption == NewConsumption(grant, NewRequest(grant.target.review, true, consumption.request.sent),
                                     consumption.recordedAt)
  }

  /** A consumption is durable and its projection is not. */
  ghost predicate Stranded(d: Disk) {
    && 2 <= |d.files| == |d.state.items| + 1
    && Sound(Trim(d))
    && Answers(d.files[|d.files| - 1], d.files[|d.files| - 2])
  }

  ghost predicate Inv(d: Disk) { Sound(d) || Stranded(d) }

  // ----- counting by position -----

  lemma {:induction false} CountsByIndex(all: seq<Entry>)
    requires Alternating(all)
    ensures Grants(all) == (|all| + 1) / 2
    ensures Consumptions(all) == |all| / 2
  {
    if all != [] { CountsByIndex(all[..|all| - 1]); }
  }

  lemma LatestByIndex(all: seq<Entry>)
    requires Alternating(all) && all != []
    ensures LatestGrant(all) == Some(all[if |all| % 2 == 1 then |all| - 1 else |all| - 2])
  {
    var n := |all| - 1;
    if n % 2 == 1 {
      assert all[..n][n - 1].Grant?;
    }
  }

  predicate CountersAt(entries: seq<Entry>, reviewers: nat) {
    && reviewers == LIMIT + |entries| / 2
    && forall k :: 0 <= k < |entries| && k % 2 == 0 ==> entries[k].Grant? && entries[k].attempts == LIMIT + k / 2
  }

  predicate ConsumptionsAt(entries: seq<Entry>, reviewers: seq<Request>)
    requires |reviewers| == LIMIT + |entries| / 2
  {
    forall k :: 0 <= k < |entries| && k % 2 == 1 ==>
      entries[k].Consumption? && ConsumptionOk(entries, k, reviewers[LIMIT + k / 2])
  }

  lemma CountersByIndex(entries: seq<Entry>, requests: seq<Request>)
    requires Alternating(entries)
    ensures CountersOk(entries, requests) <==> CountersAt(entries, |Reviewers(requests)|)
  {
    CountsByIndex(entries);
    forall k | 0 <= k < |entries| ensures Grants(entries[..k]) == (k + 1) / 2 { CountsByIndex(entries[..k]); }
  }

  lemma CountBefore(entries: seq<Entry>, k: nat)
    requires Alternating(entries) && k < |entries|
    ensures Consumptions(entries[..k]) == k / 2 && (entries[k].Consumption? <==> k % 2 == 1)
  {
    CountsByIndex(entries[..k]);
  }

  lemma ConsumptionsByIndex(entries: seq<Entry>, requests: seq<Request>)
    requires Alternating(entries)
    requires |Reviewers(requests)| == LIMIT + |entries| / 2
    ensures Consumptions(entries) == |entries| / 2
    ensures ConsumptionsOk(entries, requests) <==> ConsumptionsAt(entries, Reviewers(requests))
  {
    hide Reviewers, ConsumptionOk, Consumptions;
    CountsByIndex(entries);
    var reviewers := Reviewers(requests);
    if ConsumptionsOk(entries, requests) {
      forall k | 0 <= k < |entries| && k % 2 == 1
        ensures entries[k].Consumption? && ConsumptionOk(entries, k, reviewers[LIMIT + k / 2])
      {
        CountBefore(entries, k);
      }
    }
    if ConsumptionsAt(entries, reviewers) {
      forall k | 0 <= k < |entries| && entries[k].Consumption?
        ensures LIMIT + Consumptions(entries[..k]) < |reviewers|
        ensures ConsumptionOk(entries, k, reviewers[LIMIT + Consumptions(entries[..k])])
      {
        CountBefore(entries, k);
      }
    }
  }

  // ----- growing requests -----

  lemma ReviewersAppend(requests: seq<Request>, r: Request)
    ensures Reviewers(requests + [r]) == Reviewers(requests) + if r.reviewer then [r] else []
  {
    assert (requests + [r])[..|requests|] == requests;
  }

  lemma {:induction false} ReviewersObserved(before: seq<Request>, now: seq<Request>)
    requires AllObserved(before, now)
    ensures AllObserved(Reviewers(before), Reviewers(now))
    decreases before
  {
    if before != [] {
      var n := |before| - 1;
      ReviewersObserved(before[..n], now[..n]);
      assert Observed(before[n], now[n]);
    }
  }

  lemma HasAppend(requests: seq<Request>, r: Request, id: Id)
    ensures Has(requests + [r], id) <==> Has(requests, id) || r.id == id
  {
    var all := requests + [r];
    if Has(requests, id) {
      var k :| 0 <= k < |requests| && requests[k].id == id;
      assert all[k].id == id;
    }
    if r.id == id { assert all[|requests|].id == id; }
  }

  lemma HasObserved(before: seq<Request>, now: seq<Request>, id: Id)
    requires AllObserved(before, now)
    ensures Has(before, id) <==> Has(now, id)
  {
    if Has(before, id) {
      var k :| 0 <= k < |before| && before[k].id == id;
      assert Observed(before[k], now[k]) && now[k].id == id;
    }
    if Has(now, id) {
      var k :| 0 <= k < |now| && now[k].id == id;
      assert Observed(before[k], now[k]) && before[k].id == id;
    }
  }

  lemma LinkedAppend(requests: seq<Request>, r: Request)
    ensures LinkedIds(requests + [r]) == LinkedIds(requests) + if r.link.Some? then {r.id} else {}
  {
    var all := requests + [r];
    assert forall x :: x in all <==> x in requests || x == r;
  }

  lemma LinkedObserved(before: seq<Request>, now: seq<Request>)
    requires AllObserved(before, now)
    ensures LinkedIds(before) == LinkedIds(now)
  {
    forall id | id in LinkedIds(before) ensures id in LinkedIds(now) {
      var k :| 0 <= k < |before| && before[k].link.Some? && before[k].id == id;
      assert Observed(before[k], now[k]) && now[k] in now;
    }
    forall id | id in LinkedIds(now) ensures id in LinkedIds(before) {
      var k :| 0 <= k < |now| && now[k].link.Some? && now[k].id == id;
      assert Observed(before[k], now[k]) && before[k] in before;
    }
  }

  lemma ConsumedAppend(entries: seq<Entry>, e: Entry)
    ensures ConsumedIds(entries + [e]) == ConsumedIds(entries) + if e.Consumption? then {e.review} else {}
  {
    var all := entries + [e];
    assert forall x :: x in all <==> x in entries || x == e;
  }

  lemma UniqueAppend(requests: seq<Request>, r: Request)
    requires UniqueIds(requests) && !Has(requests, r.id)
    ensures UniqueIds(requests + [r])
  {
  }

  lemma UniqueObserved(before: seq<Request>, now: seq<Request>)
    requires UniqueIds(before) && AllObserved(before, now)
    ensures UniqueIds(now)
  {
    forall i, j | 0 <= i < j < |now| ensures now[i].id != now[j].id {
      assert Observed(before[i], now[i]) && Observed(before[j], now[j]);
    }
  }

  lemma PostedGrows(posted: multiset<Id>, before: seq<Request>, now: seq<Request>)
    requires PostedOk(posted, before)
    requires forall id: Id :: Has(before, id) ==> Has(now, id)
    ensures PostedOk(posted, now)
  {
  }

  // ----- the parts of Verified, kept one at a time -----

  lemma ChainedAppend(all: seq<Entry>, e: Entry)
    requires Chained(all) && e.sequence == |all| + 1 && e.previous == Last(all)
    ensures Chained(all + [e])
  {
    forall k | 0 <= k < |all| + 1
      ensures (all + [e])[k].sequence == k + 1 && (all + [e])[k].previous == Last((all + [e])[..k])
    {
      assert (all + [e])[..k] == all[..k];
      if k == |all| { assert all[..k] == all; }
    }
  }

  lemma ConsumptionsAppendGrant(entries: seq<Entry>, e: Entry, reviewers: seq<Request>)
    requires |entries| % 2 == 0 && |reviewers| == LIMIT + |entries| / 2
    requires ConsumptionsAt(entries, reviewers)
    ensures ConsumptionsAt(entries + [e], reviewers)
  {
    forall k | 0 <= k < |entries| && k % 2 == 1
      ensures (entries + [e])[k].Consumption? && ConsumptionOk(entries + [e], k, reviewers[LIMIT + k / 2])
    {
      assert ConsumptionOk(entries, k, reviewers[LIMIT + k / 2]);
    }
  }

  lemma ConsumptionsAppend(entries: seq<Entry>, e: Entry, reviewers: seq<Request>, r: Request)
    requires |entries| % 2 == 1 && |reviewers| == LIMIT + |entries| / 2
    requires ConsumptionsAt(entries, reviewers)
    requires e.Consumption? && ConsumptionOk(entries + [e], |entries|, r)
    ensures ConsumptionsAt(entries + [e], reviewers + [r])
  {
    forall k | 0 <= k < |entries| && k % 2 == 1
      ensures (entries + [e])[k].Consumption? && ConsumptionOk(entries + [e], k, (reviewers + [r])[LIMIT + k / 2])
    {
      assert ConsumptionOk(entries, k, reviewers[LIMIT + k / 2]);
    }
  }

  lemma ConsumptionsObserved(entries: seq<Entry>, before: seq<Request>, now: seq<Request>)
    requires |before| == LIMIT + |entries| / 2
    requires AllObserved(before, now)
    requires ConsumptionsAt(entries, before)
    ensures ConsumptionsAt(entries, now)
  {
    forall k | 0 <= k < |entries| && k % 2 == 1
      ensures entries[k].Consumption? && ConsumptionOk(entries, k, now[LIMIT + k / 2])
    {
      assert ConsumptionOk(entries, k, before[LIMIT + k / 2]);
      assert Observed(before[LIMIT + k / 2], now[LIMIT + k / 2]);
    }
  }

  lemma RetainedAppend(entries: seq<Entry>, state: State, evidence: Evidence, entry: Entry, r: Request)
    requires Retained(entries, state, evidence, false)
    ensures Retained(entries, WithRequest(state, r), evidence, false)
    ensures Retained(entries + [entry], WithRequest(WithItem(state, entry), r), evidence, false)
  {
  }

  lemma RetainedObserved(entries: seq<Entry>, state: State, now: State, evidence: Evidence, unused: bool)
    requires Retained(entries, state, evidence, unused)
    requires AllSettled(evidence.state.requests)
    requires now.pinned == state.pinned && state.history <= now.history
    requires unused ==> now.frozen == state.frozen && now.history == state.history
    requires AllObserved(state.requests, now.requests)
    ensures Retained(entries, now, evidence, unused)
  {
    var base := evidence.state.requests;
    forall k | 0 <= k < |base| ensures RetainedRequest(base[k], now.requests[k]) {
      assert RetainedRequest(base[k], state.requests[k]);
      assert Observed(state.requests[k], now.requests[k]);
    }
  }

  lemma RetainedNow(d: Disk, target: Target, live: int)
    requires |d.state.items| <= |d.files|
    ensures Retained(Entries(d), d.state, EvidenceOf(d, target, live), true)
    ensures Retained(Entries(d), d.state, EvidenceOf(d, target, live), false)
  {
  }

  // ----- one durable write at a time -----

  lemma BlankVerified(d: Disk)
    requires Blank(d) && |Reviewers(d.state.requests)| == LIMIT
    ensures Verified(d, false)
  {
  }

  /** Whether the journal is blank or not, an eligible disk is fully verified. */
  lemma InspectedVerified(d: Disk, target: Target, reconcile: bool)
    requires Inspects(d, target, reconcile)
    ensures Verified(d, reconcile)
  {
    if Blank(d) {
      assert Entries(d) == [];
      BlankVerified(d);
    }
  }

  lemma AuditStored(d: Disk, target: Target, live: int)
    requires Sound(d) && Inspects(d, target, false)
    ensures Sound(Put(d, StoreAudit(EvidenceOf(d, target, live))))
  {
  }

  lemma FreshIdentity(all: seq<Entry>, e: Entry)
    requires IdentitiesOk(all) && e.Grant?
    requires e.inputs.id != e.target.review
    requires !Claimed(all, e.inputs.id) && !Claimed(all, e.target.review)
    ensures IdentitiesOk(all + [e])
  {
    forall k | 0 <= k < |all| && all[k].Grant?
      ensures all[k].inputs.id != e.inputs.id && all[k].inputs.id != e.target.review
      ensures all[k].target.review != e.inputs.id && all[k].target.review != e.target.review
    {
    }
  }

  lemma LatestAppendGrant(all: seq<Entry>, e: Entry)
    requires e.Grant?
    ensures LatestGrant(all + [e]) == Some(e)
    ensures Unused(all + [e])
  {
  }

  lemma {:induction false} AlternatingAppend(all: seq<Entry>, e: Entry)
    requires Alternating(all) && (e.Grant? <==> !Unused(all))
    ensures Alternating(all + [e])
  {
    if all != [] { assert all[|all| - 1].Grant? <==> (|all| - 1) % 2 == 0; }
  }

  lemma IntendedAppend(all: seq<Entry>, e: Entry, requests: seq<Request>)
    requires IntendedFree(all, requests) && e.Grant?
    requires !Has(requests, e.inputs.id) && !Has(requests, e.target.review)
    ensures IntendedFree(all + [e], requests)
  {
  }

  lemma LatestStored(audits: set<Evidence>, state: State, entries: seq<Entry>, e: Entry)
    requires e.Grant? && e.inputs.audit in audits && e.evidence == e.inputs.audit && e.target == e.evidence.target
    requires Retained(entries, state, e.evidence, true)
    ensures LatestOk(audits, state, entries, entries + [e])
  {
    LatestAppendGrant(entries, e);
  }

  lemma JournalStored(d: Disk, e: Entry)
    requires JournalOk(d, false) && e.Grant? && e.sequence == |d.files| + 1 && e.previous == Last(d.files)
    ensures JournalOk(Put(d, StoreEntry(e)), true)
    ensures Entries(Put(d, StoreEntry(e))) == d.files == Entries(d)
  {
    ChainedAppend(d.files, e);
  }

  lemma GrantVerified(d: Disk, inputs: Inputs, live: int, now: int)
    requires Verified(d, false) && Grantable(d, inputs, live) && Pending(d).None?
    ensures Verified(Put(d, StoreEntry(NewGrant(Entries(d), inputs, now))), true)
  {
    var g := NewGrant(Entries(d), inputs, now);
    assert Entries(d) == d.files;
    JournalStored(d, g);
    FreshIdentity(d.files, g);
    IntendedAppend(d.files, g, d.state.requests);
    RetainedNow(d, inputs.audit.target, live);
    LatestStored(d.audits, d.state, d.files, g);
  }

  lemma GrantStored(d: Disk, inputs: Inputs, live: int, now: int)
    requires Sound(d) && Grantable(d, inputs, live) && Pending(d).None?
    ensures Sound(Put(d, StoreEntry(NewGrant(Entries(d), inputs, now))))
  {
    InspectedVerified(d, inputs.audit.target, false);
    assert Entries(d) == d.files;
    AlternatingAppend(d.files, NewGrant(Entries(d), inputs, now));
    AttemptsAppend(d.files, NewGrant(Entries(d), inputs, now));
    GrantVerified(d, inputs, live, now);
  }

  lemma AttemptsAppend(all: seq<Entry>, e: Entry)
    requires AttemptsOk(all) && (e.Grant? ==> e.attempts == e.inputs.audit.attempts)
    ensures AttemptsOk(all + [e])
  {
  }

  lemma CountersAppendGrant(entries: seq<Entry>, g: Entry, requests: seq<Request>)
    requires Alternating(entries + [g]) && g.Grant?
    requires CountersOk(entries, requests) && ConsumptionsOk(entries, requests)
    requires g.attempts == |Reviewers(requests)|
    ensures CountersOk(entries + [g], requests) && ConsumptionsOk(entries + [g], requests)
  {
    var all := entries + [g];
    assert Alternating(entries) by { assert all[..|entries|] == entries; }
    assert all[|entries|].Grant?;
    CountersByIndex(entries, requests);
    ConsumptionsByIndex(entries, requests);
    ConsumptionsAppendGrant(entries, g, Reviewers(requests));
    CountersByIndex(all, requests);
    ConsumptionsByIndex(all, requests);
  }

  lemma ProjectedMore(files: seq<Entry>, items: seq<Item>, item: Item)
    requires Projected(files, items) && |files| == |items| + 1
    requires item == Item(|items| % 2 == 0, files[|items|])
    ensures Projected(files, items + [item])
  {
  }

  lemma JournalSaved(d: Disk, state: State)
    requires JournalOk(d, true) && Alternating(d.files) && Pending(d).Some?
    requires state.items == d.state.items + [Item(Pending(d).value.Grant?, Pending(d).value)]
    ensures JournalOk(Put(d, SaveState(state)), false)
    ensures Entries(Put(d, SaveState(state))) == d.files == Entries(d) + [Pending(d).value]
  {
    ProjectedMore(d.files, d.state.items, Item(Pending(d).value.Grant?, Pending(d).value));
    hide Projected, Chained, Alternating;
  }

  lemma LatestProjected(audits: set<Evidence>, state: State, entries: seq<Entry>, all: seq<Entry>)
    requires LatestOk(audits, state, entries, all) && entries <= all
    ensures LatestOk(audits, state, all, all)
  {
  }

  lemma LatestItem(audits: set<Evidence>, state: State, entries: seq<Entry>, all: seq<Entry>, g: Entry)
    requires LatestOk(audits, state, entries, all)
    ensures LatestOk(audits, WithItem(state, g), entries, all)
  {
  }

  lemma LinkedGrant(entries: seq<Entry>, g: Entry, requests: seq<Request>)
    requires Linked(entries, requests) && g.Grant?
    ensures Linked(entries + [g], requests)
  {
    ConsumedAppend(entries, g);
  }

  lemma IntendedVerified(d: Disk, state: State)
    requires IntendedFree(d.files, d.state.requests) && state.requests == d.state.requests
    ensures IntendedFree(Put(d, SaveState(state)).files, Put(d, SaveState(state)).state.requests)
  {
  }

  lemma GrantSavedVerified(d: Disk)
    requires Verified(d, true) && Alternating(d.files) && Pending(d).Some?
    requires Pending(d).value.attempts == |Reviewers(d.state.requests)|
    ensures Verified(Put(d, SaveState(WithItem(d.state, Pending(d).value))), false)
  {
    hide CountersOk, ConsumptionsOk, LatestOk, IdentitiesOk, IntendedFree, Linked, Chained;
    var g := Pending(d).value;
    JournalSaved(d, WithItem(d.state, g));
    CountersAppendGrant(Entries(d), g, d.state.requests);
    LinkedGrant(Entries(d), g, d.state.requests);
    IntendedVerified(d, WithItem(d.state, g));
    LatestProjected(d.audits, d.state, Entries(d), d.files);
    LatestItem(d.audits, d.state, d.files, d.files, g);
  }

  lemma GrantSaved(d: Disk, g: Entry)
    requires Sound(d) && |d.files| == |d.state.items| + 1 && d.files[|d.state.items|] == g
    requires g.Grant? && g.attempts == |Reviewers(d.state.requests)|
    ensures Sound(Put(d, SaveState(WithItem(d.state, g))))
  {
    hide Sound, Verified, Alternating, AttemptsOk, UniqueIds, AuditsOk, PostedOk;
    SoundParts(d);
    GrantSavedVerified(d);
    SoundFrom(Put(d, SaveState(WithItem(d.state, g))));
  }

  lemma ConsumptionStored(d: Disk, id: Id, sent: int, message: string, live: int, now: int)
    requires Sound(d) && Admitted(d, id, message, live)
    ensures Stranded(Put(d, StoreEntry(NewConsumption(d.files[|d.files| - 1], NewRequest(id, true, sent), now))))
  {
    var c := NewConsumption(d.files[|d.files| - 1], NewRequest(id, true, sent), now);
    var after := Put(d, StoreEntry(c));
    assert Trim(after) == d by { assert (d.files + [c])[..|d.files|] == d.files; }
    assert Entries(d) == d.files;
  }

  lemma CountersAppendConsumption(entries: seq<Entry>, c: Entry, reviewers: nat)
    requires CountersAt(entries, reviewers) && |entries| % 2 == 1
    ensures CountersAt(entries + [c], reviewers + 1)
  {
  }

  lemma CountersConsume(entries: seq<Entry>, c: Entry, requests: seq<Request>, r: Request)
    requires Alternating(entries + [c]) && c.Consumption? && r.reviewer
    requires CountersOk(entries, requests) && ConsumptionsOk(entries, requests)
    requires ConsumptionOk(entries + [c], |entries|, r)
    ensures CountersOk(entries + [c], requests + [r]) && ConsumptionsOk(entries + [c], requests + [r])
  {
    var all := entries + [c];
    assert Alternating(entries) by { assert all[..|entries|] == entries; }
    assert !all[|entries|].Grant?;
    ReviewersAppend(requests, r);
    CountersByIndex(entries, requests);
    ConsumptionsByIndex(entries, requests);
    ConsumptionsAppend(entries, c, Reviewers(requests), r);
    CountersAppendConsumption(entries, c, |Reviewers(requests)|);
    CountersByIndex(all, requests + [r]);
    ConsumptionsByIndex(all, requests + [r]);
  }

  lemma LinkedConsume(entries: seq<Entry>, c: Entry, requests: seq<Request>, r: Request)
    requires Linked(entries, requests) && c.Consumption? && r.link.Some? && r.id == c.review
    ensures Linked(entries + [c], requests + [r])
  {
    ConsumedAppend(entries, c);
    LinkedAppend(requests, r);
  }

  lemma IdentitiesConsume(all: seq<Entry>, c: Entry)
    requires IdentitiesOk(all) && c.Consumption?
    ensures IdentitiesOk(all + [c])
  {
  }

  /** The review of an unused grant is no grant's own id, so its request frees nothing and takes nothing. */
  lemma IntendedConsume(all: seq<Entry>, c: Entry, requests: seq<Request>, r: Request)
    requires IdentitiesOk(all) && IntendedFree(all, requests) && Unused(all)
    requires c.Consumption? && r.id == all[|all| - 1].target.review
    ensures IntendedFree(all + [c], requests + [r])
  {
    forall k | 0 <= k < |all| + 1 && (all + [c])[k].Grant?
      ensures !Has(requests + [r], (all + [c])[k].inputs.id)
    {
      HasAppend(requests, r, all[k].inputs.id);
    }
  }

  lemma LatestConsume(audits: set<Evidence>, state: State, entries: seq<Entry>, c: Entry, r: Request)
    requires LatestOk(audits, state, entries, entries) && Unused(entries) && c.Consumption?
    ensures LatestOk(audits, WithRequest(WithItem(state, c), r), entries + [c], entries + [c])
  {
    assert (entries + [c])[..|entries|] == entries;
  }

  lemma AnswersOk(all: seq<Entry>, c: Entry)
    requires Unused(all) && Answers(c, all[|all| - 1])
    ensures ConsumptionOk(all + [c], |all|, LinkedRequest(all[|all| - 1], c))
  {
  }

  lemma JournalConsumed(d: Disk, c: Entry, state: State)
    requires JournalOk(d, false) && Unused(d.files)
    requires c.Consumption? && c.sequence == |d.files| + 1 && c.previous == Last(d.files)
    requires Alternating(d.files) && state.items == d.state.items + [Item(false, c)]
    ensures JournalOk(d.(files := d.files + [c], state := state), false)
    ensures Alternating(d.files + [c])
    ensures Entries(d.(files := d.files + [c], state := state)) == d.files + [c] && Entries(d) == d.files
  {
    ChainedAppend(d.files, c);
    AlternatingAppend(d.files, c);
    assert d.files[|d.files| - 1].Grant?;
  }

  lemma ConsumedVerified(d: Disk, c: Entry)
    requires Verified(d, false) && Alternating(d.files) && Unused(d.files) && Answers(c, d.files[|d.files| - 1])
    requires Chained(d.files)
    ensures var r := LinkedRequest(d.files[|d.files| - 1], c);
            Verified(d.(files := d.files + [c], state := WithRequest(WithItem(d.state, c), r)), false)
  {
    var all := d.files;
    var r := LinkedRequest(all[|all| - 1], c);
    JournalConsumed(d, c, WithRequest(WithItem(d.state, c), r));
    IdentitiesConsume(all, c);
    IntendedConsume(all, c, d.state.requests, r);
    AnswersOk(all, c);
    CountersConsume(all, c, d.state.requests, r);
    LinkedConsume(all, c, d.state.requests, r);
    LatestConsume(d.audits, d.state, all, c, r);
  }

  lemma SoundFrom(d: Disk)
    requires Verified(d, false) && d.files != [] && Alternating(d.files) && UniqueIds(d.state.requests)
    requires AttemptsOk(d.files)
    requires AuditsOk(d.audits) && PostedOk(d.posted, d.state.requests)
    ensures Sound(d)
  {
  }

  function Consumed(d: Disk, c: Entry): Disk
    requires Unused(d.files) && c.Consumption?
  {
    d.(files := d.files + [c],
       state := WithRequest(WithItem(d.state, c), LinkedRequest(d.files[|d.files| - 1], c)))
  }

  lemma ConsumedSound(d: Disk, c: Entry)
    requires Sound(d) && Verified(d, false) && Unused(d.files) && Answers(c, d.files[|d.files| - 1])
    ensures Sound(Consumed(d, c))
  {
    var r := LinkedRequest(d.files[|d.files| - 1], c);
    ConsumedVerified(d, c);
    UniqueAppend(d.state.requests, r);
    PostedSaved(d.posted, d.state.requests, r);
    AlternatingAppend(d.files, c);
    AttemptsAppend(d.files, c);
    SoundFrom(Consumed(d, c));
  }

  lemma PostedSaved(posted: multiset<Id>, requests: seq<Request>, r: Request)
    requires PostedOk(posted, requests)
    ensures PostedOk(posted, requests + [r])
  {
    forall id: Id ensures Has(requests, id) ==> Has(requests + [r], id) { HasAppend(requests, r, id); }
  }

  lemma IntendedRequest(all: seq<Entry>, requests: seq<Request>, r: Request)
    requires IntendedFree(all, requests) && FindGrant(all, r.id).None? && !Unused(all)
    ensures IntendedFree(all, requests + [r])
  {
    forall k | 0 <= k < |all| && all[k].Grant? ensures !Has(requests + [r], all[k].inputs.id) {
      HasAppend(requests, r, all[k].inputs.id);
    }
  }

  lemma LatestRequest(audits: set<Evidence>, state: State, entries: seq<Entry>, r: Request)
    requires LatestOk(audits, state, entries, entries) && !Unused(entries)
    ensures LatestOk(audits, WithRequest(state, r), entries, entries)
  {
  }

  lemma CountersRequest(entries: seq<Entry>, requests: seq<Request>, r: Request)
    requires CountersOk(entries, requests) && ConsumptionsOk(entries, requests) && !r.reviewer
    ensures CountersOk(entries, requests + [r]) && ConsumptionsOk(entries, requests + [r])
  {
    ReviewersAppend(requests, r);
    assert Reviewers(requests) + [] == Reviewers(requests);
  }

  /** An ordinary request: not a review beyond the ordinary attempts, and not while a grant is unused. */
  lemma RequestVerified(d: Disk, r: Request)
    requires Verified(d, false) && FindGrant(d.files, r.id).None? && !Unused(d.files)
    requires !r.reviewer && r.link.None?
    ensures Verified(Put(d, SaveState(WithRequest(d.state, r))), false)
  {
    assert Entries(d) == d.files;
    hide CountersOk, ConsumptionsOk, LatestOk, IdentitiesOk, IntendedFree, Chained, Projected;
    IntendedRequest(d.files, d.state.requests, r);
    CountersRequest(d.files, d.state.requests, r);
    LinkedAppend(d.state.requests, r);
    LatestRequest(d.audits, d.state, d.files, r);
  }

  lemma RequestSaved(d: Disk, id: Id, reviewer: bool, sent: int)
    requires Sound(d) && Validated(d, false) && !Has(d.state.requests, id)
    requires FindGrant(d.files, id).None? && !Unused(d.files)
    requires reviewer ==> |Reviewers(d.state.requests)| < LIMIT
    ensures Sound(Put(d, SaveState(WithRequest(d.state, NewRequest(id, reviewer, sent)))))
  {
    var r := NewRequest(id, reviewer, sent);
    UniqueAppend(d.state.requests, r);
    PostedSaved(d.posted, d.state.requests, r);
    if Blank(d) {
      LinkedAppend(d.state.requests, r);
      ReviewersAppend(d.state.requests, r);
    } else {
      RequestVerified(d, r);
    }
  }

  lemma VerifiedDispatch(d: Disk, id: Id, message: string)
    ensures Validated(d, true) <==> Validated(Put(d, Post(id, message)), true)
  {
    assert JournalOk(d, true) <==> JournalOk(Put(d, Post(id, message)), true);
  }

  lemma PostedDispatch(posted: multiset<Id>, requests: seq<Request>, id: Id)
    requires PostedOk(posted, requests) && Has(requests, id) && posted[id] == 0
    ensures PostedOk(posted + multiset{id}, requests)
  {
  }

  /** A dispatch after its request was saved. */
  lemma Dispatched(d: Disk, id: Id, message: string)
    requires Sound(d) && Has(d.state.requests, id) && d.posted[id] == 0
    ensures Sound(Put(d, Post(id, message)))
  {
    hide Sound, Validated, PostedOk;
    SoundParts(d);
    VerifiedDispatch(d, id, message);
    PostedDispatch(d.posted, d.state.requests, id);
    SoundWhole(Put(d, Post(id, message)));
  }

  lemma IntendedObserved(all: seq<Entry>, before: seq<Request>, now: seq<Request>)
    requires IntendedFree(all, before) && AllObserved(before, now)
    ensures IntendedFree(all, now)
  {
    forall id: Id ensures Has(now, id) <==> Has(before, id) { HasObserved(before, now, id); }
  }

  lemma CountersObserved(entries: seq<Entry>, before: seq<Request>, now: seq<Request>)
    requires Alternating(entries) && AllObserved(before, now)
    requires CountersOk(entries, before) && ConsumptionsOk(entries, before)
    ensures CountersOk(entries, now) && ConsumptionsOk(entries, now)
  {
    ReviewersObserved(before, now);
    CountersByIndex(entries, before);
    ConsumptionsByIndex(entries, before);
    CountersByIndex(entries, now);
    ConsumptionsObserved(entries, Reviewers(before), Reviewers(now));
    ConsumptionsByIndex(entries, now);
  }

  lemma LatestObserved(audits: set<Evidence>, state: State, now: State, entries: seq<Entry>, all: seq<Entry>)
    requires LatestOk(audits, state, entries, all) && AuditsOk(audits)
    requires now.pinned == state.pinned && state.history <= now.history
    requires Unused(all) ==> now.frozen == state.frozen && now.history == state.history
    requires AllObserved(state.requests, now.requests)
    ensures LatestOk(audits, now, entries, all)
  {
    if LatestGrant(all).Some? {
      RetainedObserved(entries, state, now, LatestGrant(all).value.evidence, Unused(all));
    }
  }

  lemma UnusedEntries(d: Disk)
    requires JournalOk(d, false)
    ensures Entries(d) == d.files
  {
  }

  lemma ValidatedEntries(d: Disk)
    requires Validated(d, false)
    ensures |d.state.items| == |d.files| && Entries(d) == d.files
  {
  }

  lemma ProgressVerified(d: Disk, now: State)
    requires Verified(d, true) && Alternating(d.files) && AuditsOk(d.audits) && ProgressOk(d, now) && !Blank(d)
    ensures Verified(Put(d, SaveState(now)), true)
  {
    var after := Put(d, SaveState(now));
    assert Alternating(Entries(d)) && Entries(after) == Entries(d);
    IntendedObserved(d.files, d.state.requests, now.requests);
    CountersObserved(Entries(d), d.state.requests, now.requests);
    LinkedObserved(d.state.requests, now.requests);
    if now.frozen != d.state.frozen || now.history != d.state.history { UnusedEntries(d); }
    LatestObserved(d.audits, d.state, now, Entries(d), d.files);
  }

  lemma PostedObserved(posted: multiset<Id>, before: seq<Request>, now: seq<Request>)
    requires PostedOk(posted, before) && AllObserved(before, now)
    ensures PostedOk(posted, now)
  {
    forall id: Id ensures Has(now, id) <==> Has(before, id) { HasObserved(before, now, id); }
  }

  lemma ProgressSaved(d: Disk, now: State)
    requires Sound(d) && ProgressOk(d, now)
    ensures Sound(Put(d, SaveState(now)))
  {
    UniqueObserved(d.state.requests, now.requests);
    PostedObserved(d.posted, d.state.requests, now.requests);
    if Blank(d) {
      LinkedObserved(d.state.requests, now.requests);
      ReviewersObserved(d.state.requests, now.requests);
    } else {
      ProgressVerified(d, now);
    }
  }

  lemma StrandedInvalid(d: Disk)
    requires Stranded(d)
    ensures !Validated(d, true) && !Validated(d, false)
  {
    assert d.files[|d.state.items|] == d.files[|d.files| - 1];
  }

  lemma StrandedObserved(d: Disk, now: State)
    requires Stranded(d) && ProgressOk(d, now)
    ensures Stranded(Put(d, SaveState(now)))
  {
    StrandedInvalid(d);
    hide Sound, Validated;
    ProgressSaved(Trim(d), now);
    assert Trim(Put(d, SaveState(now))) == Put(Trim(d), SaveState(now));
  }
}
