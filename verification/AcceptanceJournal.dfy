/** The grant journal as the calls work on it: entry files created once, a saved state replaced whole,
    and a machine that may stop before any durable write. Each call performs exactly the prefix of its
    plan that the remaining writes allow. */
module AcceptanceJournal {
  import opened Values
  import opened AcceptanceExtension

  datatype Outcome = Stopped | Answered(accepted: bool)

  predicate Through(before: Disk, power: nat, plan: Plan, after: Disk, left: nat, o: Outcome) {
    var n := Min(power, |plan.writes|);
    && after == PutAll(before, plan.writes[..n])
    && left == power - n
    && o == if n == |plan.writes| then Answered(plan.accepted) else Stopped
  }

  /** The reviewer attempts each grant records, and their total. */
  method CountAttempts(entries: seq<Entry>, attempts: nat, requests: seq<Request>) returns (ok: bool)
    requires attempts == |Reviewers(requests)|
    ensures ok <==> CountersOk(entries, requests)
  {
    var grants, consumptions := 0, 0;
    for k := 0 to |entries|
      invariant grants == Grants(entries[..k]) && consumptions == Consumptions(entries[..k])
      invariant forall j :: 0 <= j < k && entries[j].Grant? ==> entries[j].attempts == LIMIT + Grants(entries[..j])
    {
      assert entries[..k + 1][..k] == entries[..k];
      if entries[k].Grant? {
        if entries[k].attempts != LIMIT + grants { return false; }
        grants := grants + 1;
      } else {
        consumptions := consumptions + 1;
      }
    }
    assert entries[..|entries|] == entries;
    return attempts == LIMIT + consumptions;
  }

  /** Each consumption against the grant before it and the reviewer attempt it accounts for. */
  method MatchConsumptions(entries: seq<Entry>, attempts: seq<Request>, requests: seq<Request>) returns (ok: bool)
    requires attempts == Reviewers(requests) && |attempts| == LIMIT + Consumptions(entries)
    ensures ok <==> ConsumptionsOk(entries, requests)
  {
    var number := 0;
    for k := 0 to |entries|
      invariant number == Consumptions(entries[..k]) <= Consumptions(entries)
      invariant forall j :: 0 <= j < k && entries[j].Consumption? ==>
                  && LIMIT + Consumptions(entries[..j]) < |attempts|
                  && ConsumptionOk(entries, j, attempts[LIMIT + Consumptions(entries[..j])])
    {
      assert entries[..k + 1][..k] == entries[..k];
      ConsumptionsMonotone(entries, k + 1);
      if entries[k].Consumption? {
        if !ConsumptionOk(entries, k, attempts[LIMIT + number]) { return false; }
        number := number + 1;
      }
    }
    return true;
  }

  /** The accounting of the projected entries against the reviewer attempts. */
  method Account(entries: seq<Entry>, requests: seq<Request>) returns (ok: bool)
    ensures ok <==> CountersOk(entries, requests) && ConsumptionsOk(entries, requests)
  {
    var attempts := Reviewers(requests);
    ok := CountAttempts(entries, |attempts|, requests);
    if ok { ok := MatchConsumptions(entries, attempts, requests); }
  }

  lemma {:induction false} ConsumptionsMonotone(entries: seq<Entry>, k: nat)
    requires k <= |entries|
    ensures Consumptions(entries[..k]) <= Consumptions(entries)
    decreases |entries| - k
  {
    if k == |entries| {
      assert entries[..k] == entries;
    } else {
      assert entries[..k + 1][..k] == entries[..k];
      ConsumptionsMonotone(entries, k + 1);
    }
  }

  /** One projected entry: the file its item names, its parity, its number and its link. */
  predicate EntryOk(files: seq<Entry>, items: seq<Item>, k: nat)
    requires k < |items| <= |files|
  {
    && items[k].entry == files[k] && items[k].grant == (k % 2 == 0)
    && files[k].sequence == k + 1 && files[k].previous == Last(files[..k])
  }

  lemma JournalByEntry(d: Disk, allowPending: bool)
    requires |d.files| == |d.state.items| || |d.files| == |d.state.items| + 1
    ensures JournalOk(d, allowPending) <==>
      && (forall k :: 0 <= k < |d.state.items| ==> EntryOk(d.files, d.state.items, k))
      && (|d.files| == |d.state.items| + 1 ==>
            var n := |d.state.items|;
            && allowPending && d.files[n].Grant?
            && d.files[n].sequence == n + 1 && d.files[n].previous == Last(d.files[..n]))
  {
    if JournalOk(d, allowPending) {
      forall k | 0 <= k < |d.state.items| ensures EntryOk(d.files, d.state.items, k) {
      }
    } else if forall k :: 0 <= k < |d.state.items| ==> EntryOk(d.files, d.state.items, k) {
      forall k | 0 <= k < |d.state.items|
        ensures d.files[k].sequence == k + 1 && d.files[k].previous == Last(d.files[..k])
        ensures d.state.items[k].entry == d.files[k] && d.state.items[k].grant == (k % 2 == 0)
      {
        assert EntryOk(d.files, d.state.items, k);
      }
    }
  }

  class Journal {
    var files: seq<Entry>
    var audits: set<Evidence>
    var state: State
    var posted: multiset<Id>
    /** How many more durable writes happen before the machine stops. */
    var power: nat

    constructor (disk: Disk, power: nat)
      ensures Contents() == disk && this.power == power
    {
      files, audits, state, posted := disk.files, disk.audits, disk.state, disk.posted;
      this.power := power;
    }

    function Contents(): Disk
      reads this
    {
      Disk(files, audits, state, posted)
    }

    twostate predicate Performed(plan: Plan, o: Outcome)
      reads this
    {
      Through(old(Contents()), old(power), plan, Contents(), power, o)
    }

    /** One durable write, or the stop before it. */
    method Write(w: Write) returns (done: bool)
      modifies this
      ensures done <==> old(power) > 0
      ensures power == if done then old(power) - 1 else 0
      ensures Contents() == if done then Put(old(Contents()), w) else old(Contents())
    {
      if power == 0 { return false; }
      power := power - 1;
      match w {
        case StoreAudit(e) => audits := audits + {e};
        case StoreEntry(e) => files := files + [e];
        case SaveState(s) => state := s;
        case Post(id, _) => posted := posted + multiset{id};
      }
      done := true;
    }

    /** Parses the projected chain, tolerating one trailing entry that was never projected: a grant, and only
        where the caller may reconcile it. */
    method Read(allowPending: bool) returns (ok: bool)
      ensures ok <==> JournalOk(Contents(), allowPending)
    {
      var items := state.items;
      if |files| != |items| && |files| != |items| + 1 { return false; }
      JournalByEntry(Contents(), allowPending);
      var previous: Option<Sha<Entry>> := None;
      for k := 0 to |items|
        invariant previous == Last(files[..k])
        invariant forall j :: 0 <= j < k ==> EntryOk(files, items, j)
      {
        if items[k].entry != files[k] || items[k].grant != (k % 2 == 0)
           || files[k].sequence != k + 1 || files[k].previous != previous
        {
          assert !EntryOk(files, items, k);
          return false;
        }
        previous := Some(files[k]);
        assert files[..k + 1][..k] == files[..k];
      }
      if |files| == |items| { return true; }
      var trailing := files[|items|];
      return trailing.Grant? && allowPending && trailing.sequence == |items| + 1 && trailing.previous == previous;
    }

    /** Offline integrity and accounting: no call and no write. */
    method Validate(allowPending: bool) returns (ok: bool)
      ensures ok <==> Validated(Contents(), allowPending)
    {
      if state.items == [] && files == [] && LinkedIds(state.requests) == {} {
        return |Reviewers(state.requests)| <= LIMIT;
      }
      ok := Read(allowPending);
      if !ok { return; }
      var entries := files[..|state.items|];
      if !IdentitiesOk(files) || !IntendedFree(files, state.requests) { return false; }
      ok := Account(entries, state.requests);
      return ok && Linked(entries, state.requests) && LatestOk(audits, state, entries, files);
    }

    method Audit(target: Target, live: int) returns (o: Outcome)
      modifies this
      ensures Performed(AuditPlan(old(Contents()), target, live), o)
    {
      if !Inspects(Contents(), target, false) { return Answered(false); }
      ghost var d, evidence := Contents(), EvidenceOf(Contents(), target, live);
      var done := Write(StoreAudit(EvidenceOf(Contents(), target, live)));
      PrefixWrites(d, [StoreAudit(evidence)]);
      return if done then Answered(true) else Stopped;
    }

    /** Grants one named review, answers a repeated request, or reconciles the identical pending grant. */
    method Extend(inputs: Inputs, live: int, now: int) returns (o: Outcome)
      modifies this
      ensures Performed(ExtendPlan(old(Contents()), inputs, live, now), o)
    {
      ghost var d := Contents();
      var valid := Validate(true);
      if !valid { return Answered(false); }
      var entries := files[..|state.items|];
      var known := FindGrant(entries, inputs.id);
      if known.Some? { return Answered(entries[known.value].inputs == inputs); }
      if !Grantable(Contents(), inputs, live) { return Answered(false); }
      var pending := Pending(Contents());
      var entry := NewGrant(entries, inputs, if pending.Some? then pending.value.recordedAt else now);
      if pending.Some? && pending.value != entry { return Answered(false); }
      var projected := WithItem(state, entry);
      if pending.None? {
        PrefixWrites(d, [StoreEntry(entry), SaveState(projected)]);
        var stored := Write(StoreEntry(entry));
        if !stored { return Stopped; }
      } else {
        PrefixWrites(d, [SaveState(projected)]);
      }
      var saved := Write(SaveState(projected));
      return if saved then Answered(true) else Stopped;
    }

    /** Stores the immutable send intent, then saves its projection with the request, then dispatches. */
    method Consume(id: Id, sent: int, message: string, now: int) returns (o: Outcome)
      requires Unused(files)
      modifies this
      ensures var grant := old(files[|files| - 1]);
              var consumption := NewConsumption(grant, NewRequest(id, true, sent), now);
              Performed(Plan([StoreEntry(consumption),
                              SaveState(WithRequest(WithItem(old(state), consumption), LinkedRequest(grant, consumption))),
                              Post(id, message)], true), o)
    {
      var grant := files[|files| - 1];
      var consumption := NewConsumption(grant, NewRequest(id, true, sent), now);
      var saved := WithRequest(WithItem(state, consumption), LinkedRequest(grant, consumption));
      PrefixWrites(Contents(), [StoreEntry(consumption), SaveState(saved), Post(id, message)]);
      var done := Write(StoreEntry(consumption));
      if !done { return Stopped; }
      done := Write(SaveState(saved));
      if !done { return Stopped; }
      done := Write(Post(id, message));
      return if done then Answered(true) else Stopped;
    }

    method Send(id: Id, reviewer: bool, sent: int, message: string, live: int, now: int) returns (o: Outcome)
      modifies this
      ensures Performed(SendPlan(old(Contents()), id, reviewer, sent, message, live, now), o)
    {
      if Has(state.requests, id) { return Answered(false); }
      var valid := Validate(false);
      if !valid { return Answered(false); }
      var entries := files[..|state.items|];
      if FindGrant(entries, id).Some? || (Unused(entries) && !reviewer) { return Answered(false); }
      if reviewer && |Reviewers(state.requests)| >= LIMIT {
        if !Admitted(Contents(), id, message, live) { return Answered(false); }
        assert entries == files;
        o := Consume(id, sent, message, now);
        return;
      }
      var saved := WithRequest(state, NewRequest(id, reviewer, sent));
      PrefixWrites(Contents(), [SaveState(saved), Post(id, message)]);
      var done := Write(SaveState(saved));
      if !done { return Stopped; }
      done := Write(Post(id, message));
      return if done then Answered(true) else Stopped;
    }
  }
}
