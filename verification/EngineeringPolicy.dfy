/** The standing policy of a room that keeps to one model family. Its choice is made in one locked window, the
    transition acts in a second one, and anything may happen to the room in between. */
module EngineeringPolicy {
  import opened Values
  import opened EngineeringModel
  import opened EngineeringTransition
  import opened JournalProofs
  import opened RoomRuns
  import opened TransitionSafety
  import opened TransitionProtocol
  import opened RoomTheorems

  // ----- versions of exact identifiers -----

  function Digit(c: char): nat
    requires IsDigit(c)
  {
    (c - '0') as nat
  }

  /** The digit components of a version tail, most significant first. */
  function Components(s: string, current: nat): seq<nat>
    requires VersionRest(s)
    decreases |s|
  {
    if s == "" then [current]
    else if IsDigit(s[0]) && VersionRest(s[1..]) then Components(s[1..], 10 * current + Digit(s[0]))
    else [current] + Components(s[2..], Digit(s[1]))
  }

  function VersionTuple(family: string, model: string): seq<nat>
    requires FamilyMember(family, model)
  {
    var tail := model[|MODEL_PREFIX| + |family|..];
    Components(tail[2..], Digit(tail[1]))
  }

  /** Tuple order: componentwise, and a proper prefix comes first. */
  predicate Older(a: seq<nat>, b: seq<nat>) {
    if b == [] then false
    else if a == [] then true
    else a[0] < b[0] || (a[0] == b[0] && Older(a[1..], b[1..]))
  }

  lemma {:induction false} OlderIrreflexive(a: seq<nat>)
    ensures !Older(a, a)
  {
    if a != [] { OlderIrreflexive(a[1..]); }
  }

  lemma {:induction false} OlderTransitive(a: seq<nat>, b: seq<nat>, c: seq<nat>)
    requires Older(a, b) && Older(b, c)
    ensures Older(a, c)
  {
    if a != [] && a[0] == b[0] == c[0] { OlderTransitive(a[1..], b[1..], c[1..]); }
  }

  lemma {:induction false} OlderTotal(a: seq<nat>, b: seq<nat>)
    ensures a == b || Older(a, b) || Older(b, a)
  {
    if a != [] && b != [] && a[0] == b[0] {
      OlderTotal(a[1..], b[1..]);
      assert a == [a[0]] + a[1..] && b == [b[0]] + b[1..];
    }
  }

  /** An exact identifier belongs to at most one family, so a policy never crosses families. */
  lemma FamilyIsUnique(f: string, g: string, model: string)
    requires FamilyMember(f, model) && FamilyMember(g, model)
    ensures f == g
  {
    var p := |MODEL_PREFIX|;
    assert model[p + |f|] == '-' && model[p + |g|] == '-';
    assert forall i :: 0 <= i < |f| ==> model[p + i] == f[i];
    assert forall i :: 0 <= i < |g| ==> model[p + i] == g[i];
    assert forall i :: p <= i < p + |f| ==> IsLower(model[i]);
    assert forall i :: p <= i < p + |g| ==> IsLower(model[i]);
    assert |f| == |g|;
  }

  // ----- the record log -----

  /** Each record names the one before it. */
  predicate Chained(log: seq<PolicyRecord>) {
    forall k :: 0 <= k < |log| ==> log[k].previous == Head(log[..k])
  }

  /** The newest record of a log, if any. */
  function Head(log: seq<PolicyRecord>): Option<Sha<PolicyRecord>> {
    if log == [] then None else Some(log[|log| - 1])
  }

  lemma ChainedPush(log: seq<PolicyRecord>, r: PolicyRecord)
    requires Chained(log)
    ensures Chained(log + [r]) <==> r.previous == Head(log)
  {
    var next := log + [r];
    assert forall k :: 0 <= k <= |log| ==> next[..k] == log[..k];
    assert next[|log|] == r && log[..|log|] == log;
    assert forall k :: 0 <= k < |log| ==> next[k] == log[k];
  }

  lemma ChainedPrefix(log: seq<PolicyRecord>, n: nat)
    requires Chained(log) && n <= |log|
    ensures Chained(log[..n])
  {
    assert forall k :: 0 <= k < n ==> log[..n][..k] == log[..k];
  }

  /** The retained records are chained and the room's pointer names exactly their head. */
  predicate LogOk(log: seq<PolicyRecord>, pointer: Option<PolicyPointer>) {
    && Chained(log)
    && match pointer
       case None => log == []
       case Some(p) => log != [] && p.record == log[|log| - 1] && p.active == p.record.active
                       && p.family == p.record.family
  }

  /** The chain reader in its own form: one pass comparing each record with its predecessor. */
  method ReadLog(log: seq<PolicyRecord>, pointer: Option<PolicyPointer>) returns (ok: bool)
    ensures ok == LogOk(log, pointer)
  {
    var previous: Option<Sha<PolicyRecord>> := None;
    for k := 0 to |log|
      invariant Chained(log[..k]) && previous == Head(log[..k])
    {
      assert log[..k + 1] == log[..k] + [log[k]];
      ChainedPush(log[..k], log[k]);
      assert Chained(log) ==> Chained(log[..k + 1]) by {
        if Chained(log) { ChainedPrefix(log, k + 1); }
      }
      if log[k].previous != previous { return false; }
      previous := Some(log[k]);
    }
    assert log[..|log|] == log;
    if pointer.None? { return log == []; }
    var p := pointer.value;
    ok := previous == Some(p.record) && p.active == p.record.active && p.family == p.record.family;
  }

  /** The one family of the list an exact identifier is a member of: the letters before its version. */
  function FamilyOf(families: set<string>, model: string): Option<string> {
    if !(MODEL_PREFIX <= model) then None
    else
      var rest := model[|MODEL_PREFIX|..];
      var family := rest[..LowerRun(rest)];
      if family in families && FamilyMember(family, model) then Some(family) else None
  }

  lemma {:induction false} LowerRunIs(s: string, n: nat)
    requires n <= |s| && (forall i :: 0 <= i < n ==> IsLower(s[i])) && (n < |s| ==> !IsLower(s[n]))
    ensures LowerRun(s) == n
    decreases n
  {
    if n > 0 { LowerRunIs(s[1..], n - 1); }
  }

  /** Which family that is does not depend on how it is looked up. */
  lemma FamilyOfIff(families: set<string>, model: string, family: string)
    ensures FamilyOf(families, model) == Some(family) <==> family in families && FamilyMember(family, model)
  {
    if FamilyMember(family, model) {
      var rest := model[|MODEL_PREFIX|..];
      var p := |MODEL_PREFIX|;
      assert model[p + |family|..][0] == model[p + |family|] == '-';
      assert forall i :: 0 <= i < |family| ==> model[p + i] == family[i] == rest[i];
      LowerRunIs(rest, |family|);
      assert rest[..|family|] == family;
    }
  }

  /** What set or revoke appends: set needs a journal without a pending transition and an exact epoch of
      the recorded family, revoke needs an active policy. */
  function NextRecord(d: Disk, log: seq<PolicyRecord>, active: bool, family: Option<string>, families: set<string>,
                      authorization: string, now: int): Result<PolicyRecord>
  {
    var previous := Head(log);
    if !LogOk(log, d.room.policy) then Refused
    else if active then
      var selector := LastEpoch(EpochsOf(d.room)).selector;
      if !JournalOk(d, false) || !selector.Exact? then Refused
      else
        var derived := FamilyOf(families, selector.model);
        if derived.None? || (family.Some? && family != derived) then Refused
        else Success(PolicyRecord(true, derived.value, authorization, previous, now))
    else if d.room.policy.None? || !d.room.policy.value.active then Refused
    else Success(PolicyRecord(false, d.room.policy.value.family, authorization, previous, now))
  }

  function PointerFor(record: PolicyRecord): PolicyPointer {
    PolicyPointer(record.active, record.family, record, 0)
  }

  /** No record is its own predecessor. */
  lemma NeverItself(r: PolicyRecord)
    ensures r.previous != Some(r)
  {
  }

  /** A record is stored and the room's pointer still names the one before it, if any. */
  predicate HalfRecorded(log: seq<PolicyRecord>, pointer: Option<PolicyPointer>) {
    log != [] && Chained(log) && LogOk(log[..|log| - 1], pointer)
  }

  lemma HalfRecordedDamaged(log: seq<PolicyRecord>, pointer: Option<PolicyPointer>)
    requires HalfRecorded(log, pointer)
    ensures !LogOk(log, pointer)
  {
    NeverItself(log[|log| - 1]);
    assert log[|log| - 1].previous == Head(log[..|log| - 1]);
  }

  /** The log and the pointer once so many of a policy call's two writes happened. */
  function LogAfter(log: seq<PolicyRecord>, r: PolicyRecord, n: nat): seq<PolicyRecord> {
    if n == 0 then log else log + [r]
  }

  function PointerAfter(pointer: Option<PolicyPointer>, r: PolicyRecord, n: nat): Option<PolicyPointer> {
    if n < 2 then pointer else Some(PointerFor(r))
  }

  /** Recording appends one record and moves the pointer to it: wherever the call stops the log is in order,
      except exactly between the two writes. */
  lemma RecordIff(d: Disk, log: seq<PolicyRecord>, active: bool, family: Option<string>, families: set<string>,
                  authorization: string, now: int, n: nat)
    requires NextRecord(d, log, active, family, families, authorization, now).Success?
    ensures var r := NextRecord(d, log, active, family, families, authorization, now).value;
            && (LogOk(LogAfter(log, r, n), PointerAfter(d.room.policy, r, n)) <==> n != 1)
            && (HalfRecorded(LogAfter(log, r, n), PointerAfter(d.room.policy, r, n)) <==> n == 1)
  {
    var r := NextRecord(d, log, active, family, families, authorization, now).value;
    ChainedPush(log, r);
    assert (log + [r])[..|log|] == log;
    assert HalfRecorded(log + [r], d.room.policy);
    HalfRecordedDamaged(log + [r], d.room.policy);
    if HalfRecorded(LogAfter(log, r, n), PointerAfter(d.room.policy, r, n)) {
      HalfRecordedDamaged(LogAfter(log, r, n), PointerAfter(d.room.policy, r, n));
    }
  }

  // ----- the choice -----

  /** What the choice learns from outside the room: the model the configuration expects for the family, whether a
      hold is active, and where the native source lives, if that is known. */
  datatype Lookup = Lookup(expected: Option<string>, hold: bool, source: Option<(string, string)>)

  datatype Choice =
    | Inactive
    | NoChange
    | Deferred
    | Follow(current: string, target: string, policy: Sha<PolicyRecord>)

  predicate EngineerActive(room: Room) {
    exists k :: 0 <= k < |room.requests| && room.requests[k].role == "engineer" && room.requests[k].state.Unsettled?
  }

  /** The first locked window: whether and where the policy follows. */
  function Choose(d: Disk, log: seq<PolicyRecord>, request: Id, look: Lookup): Result<Choice> {
    if request in RequestIds(d.room.requests) || d.room.policy.None? then Success(Inactive)
    else if !LogOk(log, d.room.policy) then Refused
    else if !d.room.policy.value.active then Success(Inactive)
    else if EngineerActive(d.room) || look.hold then Success(Deferred)
    else if !JournalOk(d, true) then Refused
    else if IsPending(d.room.pointer) then Success(Deferred)
    else
      var policy, selector := d.room.policy.value, LastEpoch(EpochsOf(d.room)).selector;
      var current := selector.Configured();
      if look.expected == Some(current) then Success(NoChange)
      else if look.expected.None? || !FamilyMember(policy.family, look.expected.value) then Success(Deferred)
      else if !selector.Exact? || !FamilyMember(policy.family, current) then Success(Deferred)
      else if !Older(VersionTuple(policy.family, current), VersionTuple(policy.family, look.expected.value))
      then Success(Deferred)
      else if look.source.None? then Success(Deferred)
      else Success(Follow(current, look.expected.value, policy.record))
  }

  /** Over a half-recorded log every set and revoke is refused, and the choice is refused exactly where the room has
      a policy and the request is new: without a saved pointer, or for a retained request, it answers inactive
      before it reads the log. */
  lemma HalfRecordedBlocks(d: Disk, log: seq<PolicyRecord>, active: bool, family: Option<string>,
                           families: set<string>, authorization: string, now: int, request: Id, look: Lookup)
    requires HalfRecorded(log, d.room.policy)
    ensures NextRecord(d, log, active, family, families, authorization, now).Refused?
    ensures Choose(d, log, request, look).Refused? <==> d.room.policy.Some? && request !in RequestIds(d.room.requests)
    ensures !Choose(d, log, request, look).Refused? ==> Choose(d, log, request, look) == Success(Inactive)
  {
    HalfRecordedDamaged(log, d.room.policy);
  }

  /** What the second window checks of the first one's choice. */
  predicate PolicyUnchanged(room: Room, choice: Choice)
    requires choice.Follow?
  {
    && room.policy.Some?
    && room.policy.value.record == choice.policy
    && room.policy.value.active
    && LastEpoch(EpochsOf(room)).selector.Configured() == choice.current
  }

  /** The second locked window: the unchanged audited transition with the policy's revalidation. */
  function FollowPlan(d: Disk, choice: Choice, inputs: Inputs, env: Env): Plan
    requires choice.Follow?
  {
    if inputs.source != choice.current || inputs.target != choice.target then REFUSED
    else TransitionPlan(d, inputs, Some(PolicyUnchanged(d.room, choice)), env)
  }

  /** A later model of the same family, both exact. */
  predicate Newer(family: string, source: Selector, target: Selector) {
    && source.Exact? && target.Exact?
    && FamilyMember(family, source.model) && FamilyMember(family, target.model)
    && Older(VersionTuple(family, source.model), VersionTuple(family, target.model))
  }

  // ----- what the second window may do -----

  predicate Creates(d: Disk, w: Write) { w.StoreIntent? && w.intent.id !in d.files.requests }

  /** Only applying a new request creates an intent, and only when no attempt carries its id yet. */
  lemma CreatesOnlyNew(d: Disk, inputs: Inputs, env: Env, w: Write)
    requires Inv(d) && w in AttemptPlan(d, inputs, env).writes && w.StoreIntent?
    ensures inputs.id !in LineageIds(d.room.pointer) && w.intent.inputs == inputs
    ensures ApplyPlan(d, inputs, env).writes != [] && w == ApplyPlan(d, inputs, env).writes[0]
  {
    var link := AttemptOf(Lineage(d.room.pointer), inputs.id);
    if link.None? {
      ApplyStores(d, inputs, env, w);
    } else if link.value.state.Pending? {
      ReconcileStoresNothing(d, link.value.intent, env, w);
    }
  }

  lemma PublishStores(d: Disk, intent: Intent, record: Record, w: Write)
    requires w in PublishPlan(d, intent, record).writes
    ensures !w.StoreIntent?
  {
  }

  lemma SettleStores(d: Disk, intent: Intent, marker: Option<Marker>, result: PatchResult, stored: Option<Record>,
                     env: Env, sent: bool, w: Write)
    requires w in SettlePlan(d, intent, marker, result, stored, env, sent).writes
    ensures !w.StoreIntent?
  {
    if env.observe.Some? {
      PublishStores(d, intent, SettledRecord(intent, marker, result, stored, env), w);
    }
  }

  lemma AdvanceStores(d: Disk, intent: Intent, marker: Option<Marker>, env: Env, w: Write)
    requires w in AdvancePlan(d, intent, marker, env).writes
    ensures !w.StoreIntent?
  {
    if Reset(intent) {
      SettleStores(d, intent, marker, NO_PATCH, None, env, false, w);
    } else if marker.Some? {
      SettleStores(d, intent, marker, ALREADY_ATTEMPTED, None, env, false, w);
    } else {
      var attempt := NewMarker(intent, env.now);
      var sent := WithPatch(WithMarker(d, attempt), intent.id);
      if w !in [StoreMarker(attempt), SendPatch(intent.id, intent.patch)] {
        SettleStores(sent, intent, Some(attempt), env.patchResult, None, env, true, w);
      }
    }
  }

  lemma AbandonIs(d: Disk, call: AbandonCall, env: Env) returns (intent: Intent, record: Record)
    requires AbandonPlan(d, call, env).writes != []
    ensures AbandonPlan(d, call, env) == PublishPlan(d, intent, record)
  {
    var link := AttemptOf(Lineage(d.room.pointer), call.id);
    intent := link.value.intent;
    var marker, stored := Find(d.files.attempts, call.id), Find(d.files.records, call.id);
    var frozen := Inspect(d, env.abandon, intent.target, Abandoning, call.transcript, Some(call.id));
    record := if stored.Some? then stored.value
              else AbandonRecord(intent, marker, frozen.value,
                                 AbandonmentOf(link.value, marker, intent.inputs, call.authorization, call.diagnosis),
                                 env.now);
  }

  lemma AbandonStores(d: Disk, call: AbandonCall, env: Env, w: Write)
    requires w in AbandonPlan(d, call, env).writes
    ensures !w.StoreIntent?
  {
    var intent, record := AbandonIs(d, call, env);
    PublishStores(d, intent, record, w);
  }

  lemma ReconcileStoresNothing(d: Disk, intent: Intent, env: Env, w: Write)
    requires w in ReconcilePlan(d, intent, env).writes
    ensures !w.StoreIntent?
  {
    var marker, record := Find(d.files.attempts, intent.id), Find(d.files.records, intent.id);
    if record.None? {
      AdvanceStores(d, intent, marker, env, w);
    } else if record.value.outcome.Committed? {
      SettleStores(d, intent, marker, record.value.result, record, env, false, w);
    } else {
      var a := record.value.outcome.abandonment;
      AbandonStores(d, AbandonCall(intent.id, intent.inputs.database, intent.inputs.transcript, a.authorization,
                                   a.diagnosis), env, w);
    }
  }

  lemma ApplyStores(d: Disk, inputs: Inputs, env: Env, w: Write)
    requires w in ApplyPlan(d, inputs, env).writes && w.StoreIntent?
    ensures w == ApplyPlan(d, inputs, env).writes[0] && w.intent.inputs == inputs
  {
    hide Inspect, JournalOk, AdvancePlan, IntentOk;
    var e := Inspect(d, env.audit, env.resolved.value, Auditing, inputs.transcript, None).value;
    var x := NewIntent(d.room, inputs, e, env.now);
    var published := WithPointer(WithIntent(d, x), PendingLink(x));
    if JournalOk(published, true) && w !in [StoreIntent(x), SavePointer(PendingLink(x))] {
      AdvanceStores(published, x, None, env, w);
    }
  }

  lemma DispatchIs(d: Disk, inputs: Inputs, env: Env)
    ensures var plan := DispatchPlan(d, inputs, env);
      || plan.writes == []
      || (JournalOk(d, true) && PendingResolution(d).None? && plan == AttemptPlan(d, inputs, env))
      || (PendingResolution(d).Some?
          && plan == ResolutionPlan(d, d.resolutions[PendingResolution(d).value], true))
  {
  }

  lemma ResolutionStores(d: Disk, v: Resolution, allowPending: bool, w: Write)
    requires w in ResolutionPlan(d, v, allowPending).writes
    ensures !w.StoreIntent?
  {
  }

  lemma DispatchStores(d: Disk, inputs: Inputs, env: Env, w: Write)
    requires w in DispatchPlan(d, inputs, env).writes && w.StoreIntent?
    ensures JournalOk(d, true) && w in AttemptPlan(d, inputs, env).writes
  {
    DispatchIs(d, inputs, env);
    if PendingResolution(d).Some? {
      ResolutionStores(d, d.resolutions[PendingResolution(d).value], true, w);
    }
  }

  /** A journal the reader accepts has nothing to claim. */
  lemma SoundClaims(d: Disk, inputs: Inputs)
    requires Good(d)
    ensures ClaimPlan(d, inputs.id, inputs) == Success([])
  {
    GoodUnclaimed(d);
    forall link | link in Lineage(d.room.pointer) ensures Find(d.files.requests, link.id) == Some(link.intent) {
      PublishedOk(d, link);
    }
  }

  /** What the new intent says of source and target is exactly what the choice said. */
  lemma CreatedSelectors(d: Disk, inputs: Inputs, env: Env)
    requires ApplyPlan(d, inputs, env).writes != []
    ensures var x := ApplyPlan(d, inputs, env).writes[0];
            && x.StoreIntent? && x.intent.inputs == inputs
            && x.intent.source == LastEpoch(EpochsOf(d.room)).selector
            && x.intent.source.Configured() == inputs.source
            && x.intent.target.selector.Configured() == inputs.target
            && SelectorOk(x.intent.target.selector)
  {
  }

  /** In every interleaving, whatever happened to the room between the two windows, the policy creates
      a new intent only in a locked step where its own record is still the room's active policy and the
      epoch has not moved. */
  lemma CreatesOnlyUnderPolicy(d: Disk, choice: Choice, inputs: Inputs, env: Env, w: Write)
    requires Inv(d) && choice.Follow?
    requires w in FollowPlan(d, choice, inputs, env).writes && w.StoreIntent?
    ensures PolicyUnchanged(d.room, choice) && Good(d)
    ensures ApplyPlan(d, inputs, env).writes != [] && w == ApplyPlan(d, inputs, env).writes[0]
  {
    SoundIsGood(d);
    SoundClaims(d, inputs);
    assert PutAll(d, []) == d;
    DispatchStores(d, inputs, env, w);
    CreatesOnlyNew(d, inputs, env, w);
  }

  /** Model identifiers of a family are exact: no family alias is spelled like one. */
  lemma MemberIsExact(family: string, selector: Selector)
    requires SelectorOk(selector) && FamilyMember(family, selector.Configured())
    ensures selector.Exact?
  {
    assert selector.Configured()[|MODEL_PREFIX| + |family|] == '-';
  }

  /** The choice names an exact current model and a strictly newer exact model of the same family. */
  lemma FollowIsNewer(d: Disk, log: seq<PolicyRecord>, request: Id, look: Lookup)
    requires Choose(d, log, request, look).Success? && Choose(d, log, request, look).value.Follow?
    ensures var c := Choose(d, log, request, look).value;
            var family := d.room.policy.value.family;
            && FamilyMember(family, c.current) && FamilyMember(family, c.target)
            && Older(VersionTuple(family, c.current), VersionTuple(family, c.target))
            && c.policy.active && c.policy.family == family && c.policy == d.room.policy.value.record
            && LastEpoch(EpochsOf(d.room)).selector == Exact(c.current)
  {
  }

  /** For every run between the two windows: an intent the policy creates, and therefore the record that
      later commits it, moves one exact model of the recorded family to a strictly newer one. */
  lemma PolicyOnlyUpgrades(d: Disk, log: seq<PolicyRecord>, request: Id, look: Lookup, events: seq<Event>,
                           inputs: Inputs, env: Env, w: Write)
    requires Inv(d)
    requires Choose(d, log, request, look).Success? && Choose(d, log, request, look).value.Follow?
    requires w in FollowPlan(Run(d, events), Choose(d, log, request, look).value, inputs, env).writes
    requires w.StoreIntent?
    ensures var c, later := Choose(d, log, request, look).value, Run(d, events);
            && PolicyUnchanged(later.room, c)
            && LastEpoch(EpochsOf(later.room)).selector == w.intent.source
            && Newer(d.room.policy.value.family, w.intent.source, w.intent.target.selector)
  {
    var c, later := Choose(d, log, request, look).value, Run(d, events);
    RunKeepsInv(d, events);
    CreatesOnlyUnderPolicy(later, c, inputs, env, w);
    FollowIsNewer(d, log, request, look);
    CreatedSelectors(later, inputs, env);
    MemberIsExact(d.room.policy.value.family, w.intent.target.selector);
    NewestSelector(later.room);
    LastSelectorOk(later.room.initial, RequestIds(later.room.requests), later.room.pointer);
    MemberIsExact(d.room.policy.value.family, w.intent.source);
  }

  // ----- a chain of policy commits -----

  /** Between two epochs, every commit followed the policy of one family. */
  predicate OnlyFollows(h: seq<Epoch>, family: string, i: nat, j: nat)
    requires i <= j < |h|
  {
    forall k :: i < k <= j ==> Newer(family, h[k - 1].selector, h[k].selector)
  }

  /** However many policy commits follow each other, the version strictly increases over the whole
      stretch, so no model of the family is ever returned to. */
  lemma {:induction false} FollowsIncrease(h: seq<Epoch>, family: string, i: nat, j: nat)
    requires i < j < |h| && OnlyFollows(h, family, i, j)
    ensures Newer(family, h[i].selector, h[j].selector) && h[i].selector != h[j].selector
    decreases j
  {
    assert Newer(family, h[j - 1].selector, h[j].selector);
    if i < j - 1 {
      FollowsIncrease(h, family, i, j - 1);
      OlderTransitive(VersionTuple(family, h[i].selector.model), VersionTuple(family, h[j - 1].selector.model),
                      VersionTuple(family, h[j].selector.model));
    }
    OlderIrreflexive(VersionTuple(family, h[j].selector.model));
  }
}
