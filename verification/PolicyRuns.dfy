/** The standing policy over whole runs: when its log stays in order, and what a room whose transitions all follow it
    commits. */
module PolicyRuns {
  import opened Values
  import opened EngineeringModel
  import opened EngineeringTransition
  import opened JournalProofs
  import opened RoomRuns
  import opened TransitionSafety
  import opened TransitionProtocol
  import opened RoomTheorems
  import opened EngineeringPolicy

  // ----- the record log over runs -----

  /** The room and its policy records. */
  datatype Lane = Lane(d: Disk, log: seq<PolicyRecord>)

  /** A set or revoke stopped after so many of its writes, an application reported to the record it acted on, or
      anything else the room does without touching the policy. */
  datatype PolicyEvent =
    | Recording(active: bool, family: Option<string>, families: set<string>, authorization: string, now: int, cut: nat)
    | Reporting(record: Sha<PolicyRecord>, application: int)
    | Elsewhere(after: Disk)

  function WithPolicy(d: Disk, policy: Option<PolicyPointer>): Disk { d.(room := d.room.(policy := policy)) }

  function Next(s: Lane, e: PolicyEvent): Result<PolicyRecord>
    requires e.Recording?
  {
    NextRecord(s.d, s.log, e.active, e.family, e.families, e.authorization, e.now)
  }

  function Step(s: Lane, e: PolicyEvent): Lane {
    match e
    case Recording(_, _, _, _, _, cut) =>
      if Next(s, e).Refused? then s
      else Lane(WithPolicy(s.d, PointerAfter(s.d.room.policy, Next(s, e).value, cut)),
                LogAfter(s.log, Next(s, e).value, cut))
    case Reporting(record, application) =>
      if s.d.room.policy.Some? && s.d.room.policy.value.record == record
      then Lane(WithPolicy(s.d, Some(s.d.room.policy.value.(lastApplication := application))), s.log) else s
    case Elsewhere(after) => if after.room.policy == s.d.room.policy then Lane(after, s.log) else s
  }

  function Steps(s: Lane, events: seq<PolicyEvent>): Lane
    decreases events
  {
    if events == [] then s else Steps(Step(s, events[0]), events[1..])
  }

  /** An accepted set or revoke stopped between its two writes. */
  predicate Halves(s: Lane, e: PolicyEvent) { e.Recording? && e.cut == 1 && Next(s, e).Success? }

  predicate Halved(s: Lane, events: seq<PolicyEvent>)
    decreases events
  {
    events != [] && (Halves(s, events[0]) || Halved(Step(s, events[0]), events[1..]))
  }

  predicate InOrder(s: Lane) { LogOk(s.log, s.d.room.policy) }

  predicate Half(s: Lane) { HalfRecorded(s.log, s.d.room.policy) }

  lemma SameState(t: Lane, log: seq<PolicyRecord>, pointer: Option<PolicyPointer>)
    requires t.log == log && t.d.room.policy == pointer
    ensures InOrder(t) <==> LogOk(log, pointer)
    ensures Half(t) <==> HalfRecorded(log, pointer)
  {
  }

  lemma RecordingIff(s: Lane, e: PolicyEvent)
    requires e.Recording? && Next(s, e).Success?
    ensures Half(Step(s, e)) <==> e.cut == 1
    ensures InOrder(Step(s, e)) <==> e.cut != 1
  {
    var r := Next(s, e).value;
    RecordIff(s.d, s.log, e.active, e.family, e.families, e.authorization, e.now, e.cut);
    SameState(Step(s, e), LogAfter(s.log, r, e.cut), PointerAfter(s.d.room.policy, r, e.cut));
  }

  /** No other event changes what the log and the pointer say. */
  lemma OtherSteps(s: Lane, e: PolicyEvent)
    requires e.Recording? ==> Next(s, e).Refused?
    ensures Step(s, e).log == s.log && SamePointer(s.d.room.policy, Step(s, e).d.room.policy)
  {
  }

  lemma PointerInsensitive(log: seq<PolicyRecord>, a: Option<PolicyPointer>, b: Option<PolicyPointer>)
    requires SamePointer(a, b)
    ensures LogOk(log, a) <==> LogOk(log, b)
  {
  }

  lemma OtherStepsKeep(s: Lane, e: PolicyEvent)
    requires e.Recording? ==> Next(s, e).Refused?
    ensures InOrder(Step(s, e)) <==> InOrder(s)
    ensures Half(s) ==> Half(Step(s, e))
  {
    OtherSteps(s, e);
    PointerInsensitive(s.log, s.d.room.policy, Step(s, e).d.room.policy);
    if s.log != [] { PointerInsensitive(s.log[..|s.log| - 1], s.d.room.policy, Step(s, e).d.room.policy); }
  }

  lemma StepIff(s: Lane, e: PolicyEvent)
    requires InOrder(s)
    ensures Half(Step(s, e)) <==> Halves(s, e)
    ensures InOrder(Step(s, e)) <==> !Halves(s, e)
  {
    if e.Recording? && Next(s, e).Success? {
      RecordingIff(s, e);
    } else {
      OtherStepsKeep(s, e);
      NotBoth(Step(s, e));
    }
  }

  lemma NotBoth(s: Lane)
    ensures !(InOrder(s) && Half(s))
  {
    if Half(s) { HalfRecordedDamaged(s.log, s.d.room.policy); }
  }

  /** What a report may change of a pointer. */
  predicate SamePointer(a: Option<PolicyPointer>, b: Option<PolicyPointer>) {
    && a.Some? == b.Some?
    && (a.Some? ==> b.value == a.value.(lastApplication := b.value.lastApplication))
  }

  /** A half-recorded log stays exactly as it is over every run: no record is added and the pointer never moves. */
  lemma {:induction false} HalfRecordedForever(s: Lane, events: seq<PolicyEvent>)
    requires Half(s)
    ensures Half(Steps(s, events)) && Steps(s, events).log == s.log
    ensures SamePointer(s.d.room.policy, Steps(s, events).d.room.policy)
    decreases events
  {
    if events != [] {
      HalfRecordedDamaged(s.log, s.d.room.policy);
      OtherSteps(s, events[0]);
      OtherStepsKeep(s, events[0]);
      HalfRecordedForever(Step(s, events[0]), events[1..]);
    }
  }

  /** Over every run the log ends half recorded exactly when some accepted set or revoke was stopped between its two
      writes, and in order otherwise. */
  lemma {:induction false} LogInOrderIff(s: Lane, events: seq<PolicyEvent>)
    requires InOrder(s)
    ensures Half(Steps(s, events)) <==> Halved(s, events)
    ensures InOrder(Steps(s, events)) <==> !Halved(s, events)
    decreases events
  {
    if events == [] {
      NotBoth(s);
    } else {
      StepIff(s, events[0]);
      if Halves(s, events[0]) {
        HalfRecordedForever(Step(s, events[0]), events[1..]);
        NotBoth(Steps(s, events));
      } else {
        LogInOrderIff(Step(s, events[0]), events[1..]);
      }
    }
  }

  /** So after such a stop, whatever happens, every later set and revoke is refused and the choice refuses every new
      request of a room with a policy. */
  lemma LaterCallsRefused(s: Lane, events: seq<PolicyEvent>, e: PolicyEvent, request: Id, look: Lookup)
    requires InOrder(s) && Halved(s, events) && e.Recording?
    ensures var last := Steps(s, events);
            && Next(last, e).Refused?
            && (Choose(last.d, last.log, request, look).Refused?
                <==> last.d.room.policy.Some? && request !in RequestIds(last.d.room.requests))
  {
    LogInOrderIff(s, events);
    var last := Steps(s, events);
    HalfRecordedBlocks(last.d, last.log, e.active, e.family, e.families, e.authorization, e.now, request, look);
  }

  // ----- a room whose transitions all follow the policy -----

  /** What every follow choice of the family says. */
  predicate Genuine(family: string, c: Choice) {
    && c.Follow? && FamilyMember(family, c.current) && FamilyMember(family, c.target)
    && Older(VersionTuple(family, c.current), VersionTuple(family, c.target))
  }

  lemma ChoiceIsGenuine(d: Disk, log: seq<PolicyRecord>, request: Id, look: Lookup)
    requires Choose(d, log, request, look).Success? && Choose(d, log, request, look).value.Follow?
    ensures Genuine(d.room.policy.value.family, Choose(d, log, request, look).value)
  {
    FollowIsNewer(d, log, request, look);
  }

  /** A transition of the event is the second window of some follow choice of the family. */
  ghost predicate FollowEvent(d: Disk, event: Event, family: string) {
    event.call.Transition? ==>
      exists c :: Genuine(family, c) && event.call.inputs.source == c.current
                  && event.call.inputs.target == c.target
                  && event.call.precondition == Some(PolicyUnchanged(d.room, c))
  }

  ghost predicate FollowRun(d: Disk, events: seq<Event>, family: string)
    decreases events
  {
    events == [] || (FollowEvent(d, events[0], family)
                     && FollowRun(PutAll(d, Durable(d, events[0])), events[1..], family))
  }

  predicate Upgrades(family: string, x: Intent) { Newer(family, x.source, x.target.selector) }

  lemma FollowUpgrades(d: Disk, c: Choice, inputs: Inputs, env: Env, family: string, w: Write)
    requires Inv(d) && Genuine(family, c)
    requires w in FollowPlan(d, c, inputs, env).writes && w.StoreIntent?
    ensures Upgrades(family, w.intent)
  {
    CreatesOnlyUnderPolicy(d, c, inputs, env, w);
    CreatedSelectors(d, inputs, env);
    MemberIsExact(family, w.intent.target.selector);
    NewestSelector(d.room);
    LastSelectorOk(d.room.initial, RequestIds(d.room.requests), d.room.pointer);
    MemberIsExact(family, w.intent.source);
  }

  lemma SendStores(d: Disk, id: Id, role: string, session: string, now: int, w: Write)
    requires w in SendPlan(d, id, role, session, now).writes
    ensures !w.StoreIntent?
  {
    hide JournalOk, Adoptable, FreezeRequest, PutAll, EngineerRequest, RequestIds;
  }

  /** Every intent an event of such a run stores moves to a newer model of the family. */
  lemma EventUpgrades(d: Disk, event: Event, family: string, w: Write)
    requires Inv(d) && FollowEvent(d, event, family) && w in PlanOf(d, event.call).writes && w.StoreIntent?
    ensures Upgrades(family, w.intent)
  {
    match event.call
    case Bind(_, _) =>
    case Transition(inputs, precondition, env) =>
      var c :| Genuine(family, c) && inputs.source == c.current && inputs.target == c.target
               && precondition == Some(PolicyUnchanged(d.room, c));
      FollowUpgrades(d, c, inputs, env, family, w);
    case Abandon(call, env) => AbandonStores(d, call, env, w);
    case Send(id, role, session, now) => SendStores(d, id, role, session, now, w);
    case Progress(_, _, _, _) =>
  }

  /** Whatever may still be committed moves to a newer model of the family. */
  predicate Ahead(d: Disk, family: string) {
    && (IsPending(d.room.pointer) ==> Upgrades(family, d.room.pointer.value.intent))
    && forall id :: id in Unclaimed(d) ==> Upgrades(family, d.files.requests[id])
  }

  /** The history only grew, by epochs that each follow the one before. */
  predicate GrewBy(h: seq<Epoch>, g: seq<Epoch>, family: string)
    requires h != []
  {
    h <= g && OnlyFollows(g, family, |h| - 1, |g| - 1)
  }

  lemma IntentAhead(d: Disk, x: Intent, family: string)
    requires Ahead(d, family) && Upgrades(family, x)
    ensures Ahead(WithIntent(d, x), family)
  {
    var next := WithIntent(d, x);
    forall id | id in Unclaimed(next) ensures Upgrades(family, next.files.requests[id]) {
      if id != x.id { assert id in Unclaimed(d); }
    }
  }

  lemma ClaimAhead(d: Disk, p: Pointer, family: string)
    requires Ahead(d, family) && LegalPointer(d, p) && p.state.Pending?
    ensures Ahead(WithPointer(d, p), family) && BaseHistory(WithPointer(d, p).room) == BaseHistory(d.room)
  {
    InterruptedUnclaimed(d, p.id);
    assert p.id in Unclaimed(d);
    assert p.intent.previous == d.room.pointer;
    PushedIds(d.room.pointer, p);
    assert Unclaimed(WithPointer(d, p)) == Unclaimed(d) - {p.id} == {};
  }

  lemma PushedIds(older: Option<Pointer>, p: Pointer)
    requires p.intent.previous == older
    ensures LineageIds(Some(p)) == LineageIds(older) + {p.id}
  {
    var links := Lineage(older);
    assert Lineage(Some(p)) == links + [p];
    assert forall link :: link in links + [p] <==> link in links || link == p;
  }

  lemma SettledAhead(d: Disk, p: Pointer, family: string)
    requires Ahead(d, family) && LegalPointer(d, p) && !p.state.Pending?
    ensures Ahead(WithPointer(d, p), family)
  {
    PushedIds(p.intent.previous, p);
    PushedIds(p.intent.previous, p.(state := Pending));
    assert Unclaimed(WithPointer(d, p)) == Unclaimed(d);
  }

  lemma CommitTarget(d: Disk, p: Pointer)
    requires LegalPointer(d, p) && p.state.CommittedAt?
    ensures p.state.record.target == p.intent.target
  {
    NewestLink(WithPointer(d, p).files, d.room.engineer, Some(p));
  }

  lemma CommitFollows(d: Disk, p: Pointer, family: string)
    requires Good(d) && Ahead(d, family) && LegalPointer(d, p) && p.state.CommittedAt?
    ensures GrewBy(BaseHistory(d.room), BaseHistory(WithPointer(d, p).room), family)
  {
    CommitTarget(d, p);
    CommitHistory(d.room.initial, d.room.pointer, p);
    assert d.room.pointer == Some(p.(state := Pending));
    assert Continues(d.room.initial, p.intent);
    assert BaseHistory(d.room) == History(d.room.initial, p.intent.previous);
  }

  lemma PointerFollows(d: Disk, p: Pointer, family: string)
    requires Inv(d) && Ahead(d, family) && LegalPointer(d, p)
    ensures Ahead(WithPointer(d, p), family)
    ensures GrewBy(BaseHistory(d.room), BaseHistory(WithPointer(d, p).room), family)
  {
    if p.state.Pending? {
      ClaimAhead(d, p, family);
    } else {
      SoundIsGood(d);
      SettledAhead(d, p, family);
      if p.state.CommittedAt? { CommitFollows(d, p, family); }
    }
  }

  /** No other write claims an intent or moves the pointer. */
  lemma OtherWrites(d: Disk, w: Write)
    requires !w.StoreIntent? && !w.SavePointer?
    ensures Put(d, w).room.pointer == d.room.pointer && Put(d, w).files.requests == d.files.requests
    ensures BaseHistory(Put(d, w).room) == BaseHistory(d.room)
  {
  }

  lemma StepFollows(d: Disk, w: Write, family: string)
    requires Inv(d) && Ahead(d, family) && Legal(d, w) && (w.StoreIntent? ==> Upgrades(family, w.intent))
    ensures Ahead(Put(d, w), family) && GrewBy(BaseHistory(d.room), BaseHistory(Put(d, w).room), family)
  {
    if w.StoreIntent? {
      IntentAhead(d, w.intent, family);
    } else if w.SavePointer? {
      PointerFollows(d, w.pointer, family);
    } else {
      OtherWrites(d, w);
    }
  }

  lemma GrewTwice(a: seq<Epoch>, b: seq<Epoch>, c: seq<Epoch>, family: string)
    requires a != [] && b != [] && GrewBy(a, b, family) && GrewBy(b, c, family)
    ensures GrewBy(a, c, family)
  {
    forall k | |a| - 1 < k <= |c| - 1 ensures Newer(family, c[k - 1].selector, c[k].selector) {
      if k < |b| { assert c[k - 1] == b[k - 1] && c[k] == b[k]; }
    }
  }

  lemma {:induction false} WritesFollow(d: Disk, ws: seq<Write>, family: string)
    requires Inv(d) && Ahead(d, family) && AllLegal(d, ws)
    requires forall w :: w in ws && w.StoreIntent? ==> Upgrades(family, w.intent)
    ensures Ahead(PutAll(d, ws), family) && GrewBy(BaseHistory(d.room), BaseHistory(PutAll(d, ws).room), family)
    decreases ws
  {
    if ws != [] {
      var next := Put(d, ws[0]);
      assert ws[0] in ws && forall w :: w in ws[1..] ==> w in ws;
      StepKeepsInv(d, ws[0]);
      StepFollows(d, ws[0], family);
      WritesFollow(next, ws[1..], family);
      GrewTwice(BaseHistory(d.room), BaseHistory(next.room), BaseHistory(PutAll(d, ws).room), family);
    }
  }

  lemma EventFollows(d: Disk, event: Event, family: string)
    requires Inv(d) && Ahead(d, family) && FollowEvent(d, event, family)
    ensures Inv(PutAll(d, Durable(d, event))) && Ahead(PutAll(d, Durable(d, event)), family)
    ensures GrewBy(BaseHistory(d.room), BaseHistory(PutAll(d, Durable(d, event)).room), family)
  {
    EventKeepsInv(d, event);
    forall w | w in Durable(d, event) && w.StoreIntent? ensures Upgrades(family, w.intent) {
      assert w in PlanOf(d, event.call).writes;
      EventUpgrades(d, event, family, w);
    }
    WritesFollow(d, Durable(d, event), family);
  }

  /** Over every run whose transitions all follow the policy, wherever each stops, every epoch committed moves its
      predecessor to a newer model of the family. */
  lemma {:induction false} RunOnlyFollows(d: Disk, events: seq<Event>, family: string)
    requires Inv(d) && Ahead(d, family) && FollowRun(d, events, family)
    ensures GrewBy(BaseHistory(d.room), BaseHistory(Run(d, events).room), family)
    decreases events
  {
    if events != [] {
      var next := PutAll(d, Durable(d, events[0]));
      EventFollows(d, events[0], family);
      RunOnlyFollows(next, events[1..], family);
      GrewTwice(BaseHistory(d.room), BaseHistory(next.room), BaseHistory(Run(d, events).room), family);
    }
  }

  /** From a settled room, such a run ends in its first model or in a strictly newer one of the family; it never
      returns to a model it left. */
  lemma PolicyRunsIncrease(d: Disk, events: seq<Event>, family: string)
    requires Good(d) && !IsPending(d.room.pointer) && FollowRun(d, events, family)
    ensures var before, after := BaseHistory(d.room), BaseHistory(Run(d, events).room);
            && before <= after
            && forall i, j :: |before| - 1 <= i < j < |after| ==>
                 Newer(family, after[i].selector, after[j].selector) && after[i].selector != after[j].selector
  {
    GoodUnclaimed(d);
    assert Ahead(d, family);
    RunOnlyFollows(d, events, family);
    var before, after := BaseHistory(d.room), BaseHistory(Run(d, events).room);
    forall i, j | |before| - 1 <= i < j < |after|
      ensures Newer(family, after[i].selector, after[j].selector) && after[i].selector != after[j].selector
    {
      FollowsIncrease(after, family, i, j);
    }
  }
}
