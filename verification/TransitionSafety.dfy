/** What every durable write keeps, and therefore every run with a crash between any two writes. */
module TransitionSafety {
  import opened Values
  import opened EngineeringModel
  import opened EngineeringTransition
  import opened JournalProofs
  import opened RoomRuns

  // ----- the invariant -----

  /** The attempt's source is the epoch before it, its target is well spelled, and it never replaces a qualified
      expectation by an unqualified one. */
  predicate Continues(initial: Pin, intent: Intent) {
    var last := LastEpoch(History(initial, intent.previous));
    && intent.source == last.selector
    && SelectorOk(intent.target.selector)
    && !(last.qualified && intent.target.selector == last.selector && intent.target.execution.None?)
  }

  predicate Steady(d: Disk) {
    Sound(d) && (IsPending(d.room.pointer) ==> Continues(d.room.initial, d.room.pointer.value.intent))
  }

  function Without(d: Disk, id: Id): Disk {
    d.(files := d.files.(requests := d.files.requests - {id}))
  }

  /** A crash fell between this request's intent and its pending pointer. */
  predicate InterruptedBy(d: Disk, id: Id) {
    && id in d.files.requests
    && Sound(Without(d, id))
    && !IsPending(d.room.pointer)
    && IntentOk(d.room.engineer, id, d.files.requests[id])
    && d.files.requests[id].previous == d.room.pointer
    && Continues(d.room.initial, d.files.requests[id])
  }

  ghost predicate Interrupted(d: Disk) { exists id :: InterruptedBy(d, id) }

  /** At most one PATCH per request, and only behind that request's durable marker. */
  predicate PatchesOk(d: Disk) {
    forall id :: id in d.patched ==> d.patched[id] == 1 && id in d.files.attempts
  }

  predicate FrozenOk(room: Room) { RequestsOk(EpochsOf(room), Session(room), room.requests) }

  predicate Good(d: Disk) { Steady(d) && PatchesOk(d) && FrozenOk(d.room) }

  ghost predicate Cut(d: Disk) { Interrupted(d) && PatchesOk(d) && FrozenOk(d.room) }

  ghost predicate Inv(d: Disk) { Good(d) || Cut(d) }

  // ----- when each write happens -----

  predicate LegalIntent(d: Disk, x: Intent) {
    || Find(d.files.requests, x.id) == Some(x)
    || (&& JournalOk(d, false) && PendingResolution(d).None?
        && x.id !in d.files.requests
        && IntentOk(d.room.engineer, x.id, x)
        && x.previous == d.room.pointer
        && Continues(d.room.initial, x))
  }

  predicate PendingIs(d: Disk, id: Id) {
    Sound(d) && IsPending(d.room.pointer) && d.room.pointer.value.id == id
  }

  predicate LegalMarker(d: Disk, m: Marker) {
    && PendingIs(d, m.id)
    && MarkerOk(m.id, d.room.pointer.value.intent, m)
    && (Find(d.files.attempts, m.id) == Some(m) || (m.id !in d.files.attempts && m.id !in d.files.records))
  }

  /** A PATCH is sent only behind its own durable intent, pending pointer and marker, before any
      terminal record, and never twice. */
  predicate LegalPatch(d: Disk, id: Id, patch: Option<Patch>) {
    && PendingIs(d, id)
    && id in d.files.requests && d.room.pointer.value.intent == d.files.requests[id]
    && id in d.files.attempts && id !in d.files.records && patch == d.files.requests[id].patch
    && d.patched[id] == 0
  }

  predicate LegalRecord(d: Disk, r: Record) {
    && PendingIs(d, r.id)
    && (r.id in d.files.records ==> d.files.records[r.id] == r)
    && RecordOk(r.id, d.room.pointer.value.intent, r, Find(d.files.attempts, r.id))
  }

  predicate LegalPointer(d: Disk, p: Pointer) {
    && JournalOk(WithPointer(d, p), p.state.Pending?)
    && if p.state.Pending? then InterruptedBy(d, p.id) && d.files.requests[p.id] == p.intent
       else && PendingIs(d, p.id) && d.room.pointer == Some(p.(state := Pending))
            && PendingResolution(d).None?
            && (p.state.CommittedAt? ==> p.intent.evidence.requests == RequestIds(d.room.requests))
  }

  predicate LegalResolution(d: Disk, v: Resolution) {
    && JournalOk(d, false)
    && (|| Find(d.resolutions, v.id) == Some(v)
        || (&& v.id !in d.resolutions && PendingResolution(d).None?
            && InterruptedOk(BaseHistory(d.room), LedgerOf(WithResolution(d, v)), v.id)))
  }

  predicate LegalResolutions(d: Disk, ps: seq<ResolutionPointer>) {
    && JournalOk(d, false)
    && JournalOk(WithResolutions(d, ps), false)
    && PendingResolution(d).Some?
    && var name := PendingResolution(d).value;
    && ps == d.room.resolutions + [ResolutionPointer(name, d.resolutions[name])]
  }

  predicate LegalEngineer(d: Disk, b: Binding) {
    d.room.engineer.None? && !UsesSession(d.room, b.session)
  }

  predicate LegalRequest(d: Disk, r: Request) {
    && JournalOk(d, false)
    && (IsEngineerRequest(Session(d.room), r) ==>
          PendingResolution(d).None? && RequestOk(EpochsOf(d.room), r, |d.room.requests| + 1))
  }

  predicate Legal(d: Disk, w: Write) {
    match w
    case StoreIntent(x) => LegalIntent(d, x)
    case StoreMarker(m) => LegalMarker(d, m)
    case SendPatch(id, patch) => LegalPatch(d, id, patch)
    case StoreRecord(r) => LegalRecord(d, r)
    case StoreResolution(v) => LegalResolution(d, v)
    case SavePointer(p) => LegalPointer(d, p)
    case SaveResolutions(ps) => LegalResolutions(d, ps)
    case SaveEngineer(b) => LegalEngineer(d, b)
    case SaveRequest(r) => LegalRequest(d, r)
    case SaveProgress(rs, _, _, outcomes) => ProgressOk(d, rs, outcomes)
  }

  // ----- frozen identities -----

  /** What the epochs say about a request of this creation order. */
  predicate SameIdentity(a: seq<Epoch>, b: seq<Epoch>, order: nat)
    requires a != [] && b != []
  {
    && EpochFor(a, order).selector == EpochFor(b, order).selector
    && FrozenAt(EpochFor(a, order), order) == FrozenAt(EpochFor(b, order), order)
  }

  /** No retained engineer request is reinterpreted. */
  predicate KeepsIdentities(a: Room, b: Room) {
    && |a.requests| <= |b.requests|
    && (Session(a).Some? ==> Session(b) == Session(a))
    && forall k :: 0 <= k < |a.requests| && IsEngineerRequest(Session(a), a.requests[k]) ==>
         && b.requests[k] == a.requests[k].(state := b.requests[k].state, receipt := b.requests[k].receipt,
                                            outcome := b.requests[k].outcome)
         && SameIdentity(EpochsOf(a), EpochsOf(b), k + 1)
  }

  lemma IdentityKeepsRequestOk(a: seq<Epoch>, b: seq<Epoch>, request: Request, order: nat)
    requires a != [] && b != [] && SameIdentity(a, b, order) && RequestOk(a, request, order)
    ensures RequestOk(b, request, order)
  {
  }

  lemma IdentitiesKeepFrozenOk(a: Room, b: Room)
    requires FrozenOk(a) && KeepsIdentities(a, b) && |b.requests| == |a.requests|
    requires forall k :: 0 <= k < |a.requests| && IsEngineerRequest(Session(b), b.requests[k])
                         ==> IsEngineerRequest(Session(a), a.requests[k])
    ensures FrozenOk(b)
  {
    forall k | 0 <= k < |b.requests| && IsEngineerRequest(Session(b), b.requests[k])
      ensures RequestOk(EpochsOf(b), b.requests[k], k + 1)
    {
      IdentityKeepsRequestOk(EpochsOf(a), EpochsOf(b), a.requests[k], k + 1);
    }
  }

  // ----- each write -----

  lemma StepIntent(d: Disk, x: Intent)
    requires Inv(d) && LegalIntent(d, x)
    ensures Inv(WithIntent(d, x))
  {
    if x.id in d.files.requests {
      MapPutSame(d.files.requests, x.id, x);
      assert WithIntent(d, x) == d;
    } else {
      StepNewIntent(d, x);
    }
  }

  lemma StepNewIntent(d: Disk, x: Intent)
    requires Inv(d) && LegalIntent(d, x) && x.id !in d.files.requests
    ensures Cut(WithIntent(d, x))
  {
    MapPutRemove(d.files.requests, x.id, x);
    assert Without(WithIntent(d, x), x.id) == d;
    assert InterruptedBy(WithIntent(d, x), x.id);
  }

  /** Steadiness reads the files only through the chain. */
  lemma SteadyFiles(d: Disk, next: Disk)
    requires Steady(d) && ChainOk(next.files, d.room.engineer, d.room.pointer)
    requires next.room == d.room && next.resolutions == d.resolutions && next.outcomes == d.outcomes
    ensures Steady(next)
  {
  }

  lemma GoodFiles(d: Disk, next: Disk)
    requires Good(d) && ChainOk(next.files, d.room.engineer, d.room.pointer)
    requires next.room == d.room && next.resolutions == d.resolutions && next.outcomes == d.outcomes
    requires next.patched == d.patched && d.files.attempts.Keys <= next.files.attempts.Keys
    ensures Good(next)
  {
    SteadyFiles(d, next);
  }

  lemma NewestLink(files: Files, engineer: Option<Binding>, pointer: Option<Pointer>)
    requires ChainOk(files, engineer, pointer) && pointer.Some?
    ensures LinkOk(files, engineer, pointer.value)
  {
    LastLink(pointer, pointer.value);
  }

  lemma MarkerLink(files: Files, engineer: Option<Binding>, p: Pointer, m: Marker)
    requires LinkOk(files, engineer, p) && p.state.Pending? && m.id == p.id && MarkerOk(m.id, p.intent, m)
    requires m.id in files.records ==> Find(files.attempts, m.id) == Some(m)
    ensures LinkOk(files.(attempts := files.attempts[m.id := m]), engineer, p)
  {
  }

  lemma OnlyMarker(files: Files, m: Marker)
    ensures OnlyFilesOf(m.id, files, files.(attempts := files.attempts[m.id := m]))
  {
  }

  lemma MarkerChain(files: Files, engineer: Option<Binding>, p: Pointer, m: Marker)
    requires ChainOk(files, engineer, Some(p)) && p.state.Pending? && m.id == p.id && MarkerOk(m.id, p.intent, m)
    requires m.id in files.records ==> Find(files.attempts, m.id) == Some(m)
    ensures ChainOk(files.(attempts := files.attempts[m.id := m]), engineer, Some(p))
  {
    NewestLink(files, engineer, Some(p));
    MarkerLink(files, engineer, p, m);
    OnlyMarker(files, m);
    ChainTouch(files, files.(attempts := files.attempts[m.id := m]), engineer, Some(p));
  }

  lemma StepMarker(d: Disk, m: Marker)
    requires Good(d) && LegalMarker(d, m)
    ensures Good(WithMarker(d, m))
  {
    MarkerChain(d.files, d.room.engineer, d.room.pointer.value, m);
    GoodFiles(d, WithMarker(d, m));
  }

  lemma RecordLink(files: Files, engineer: Option<Binding>, p: Pointer, r: Record)
    requires LinkOk(files, engineer, p) && p.state.Pending? && r.id == p.id
    requires RecordOk(r.id, p.intent, r, Find(files.attempts, r.id))
    ensures LinkOk(files.(records := files.records[r.id := r]), engineer, p)
  {
  }

  lemma OnlyRecord(files: Files, r: Record)
    ensures OnlyFilesOf(r.id, files, files.(records := files.records[r.id := r]))
  {
  }

  lemma RecordChain(files: Files, engineer: Option<Binding>, p: Pointer, r: Record)
    requires ChainOk(files, engineer, Some(p)) && p.state.Pending? && r.id == p.id
    requires RecordOk(r.id, p.intent, r, Find(files.attempts, r.id))
    ensures ChainOk(files.(records := files.records[r.id := r]), engineer, Some(p))
  {
    NewestLink(files, engineer, Some(p));
    RecordLink(files, engineer, p, r);
    OnlyRecord(files, r);
    ChainTouch(files, files.(records := files.records[r.id := r]), engineer, Some(p));
  }

  lemma StepRecord(d: Disk, r: Record)
    requires Good(d) && LegalRecord(d, r)
    ensures Good(WithRecord(d, r))
  {
    RecordChain(d.files, d.room.engineer, d.room.pointer.value, r);
    GoodFiles(d, WithRecord(d, r));
  }

  lemma StepPatch(d: Disk, id: Id, patch: Option<Patch>)
    requires Good(d) && LegalPatch(d, id, patch)
    ensures Good(WithPatch(d, id))
  {
    assert ChainOk(d.files, d.room.engineer, d.room.pointer);
    hide Steady, FrozenOk, Sound, ChainOk, PatchesOk;
    SteadyFiles(d, WithPatch(d, id));
    PatchCounted(d, id);
  }

  lemma PatchCounted(d: Disk, id: Id)
    requires PatchesOk(d) && id in d.files.attempts && d.patched[id] == 0
    ensures PatchesOk(WithPatch(d, id))
  {
  }

  // ----- the pointer -----

  lemma EpochsSame(a: Room, b: Room)
    requires EpochsOf(a) == EpochsOf(b) && a.requests == b.requests && a.engineer == b.engineer
    ensures KeepsIdentities(a, b)
    ensures FrozenOk(a) ==> FrozenOk(b)
  {
  }

  lemma StepClaim(d: Disk, p: Pointer)
    requires Cut(d) && LegalPointer(d, p) && p.state.Pending?
    ensures Good(WithPointer(d, p)) && KeepsIdentities(d.room, WithPointer(d, p).room)
  {
    EpochsSame(d.room, WithPointer(d, p).room);
  }

  lemma StepAbandoned(d: Disk, p: Pointer)
    requires Good(d) && LegalPointer(d, p) && p.state.AbandonedAt?
    ensures Good(WithPointer(d, p)) && KeepsIdentities(d.room, WithPointer(d, p).room)
  {
    EpochsSame(d.room, WithPointer(d, p).room);
  }

  lemma CommitHistory(initial: Pin, before: Option<Pointer>, p: Pointer)
    requires before == Some(p.(state := Pending)) && p.state.CommittedAt?
    ensures History(initial, Some(p)) == History(initial, before) + [LastEpoch(History(initial, Some(p)))]
    ensures LastEpoch(History(initial, Some(p))).from == p.state.record.boundary + 1
  {
  }

  lemma CommitBoundary(d: Disk, p: Pointer)
    requires LegalPointer(d, p) && p.state.CommittedAt?
    ensures p.state.record.boundary == |d.room.requests|
    ensures d.room.pointer == Some(p.(state := Pending))
  {
    NewestLink(WithPointer(d, p).files, d.room.engineer, Some(p));
  }

  lemma ResolvedBefore(d: Disk)
    requires Sound(d)
    ensures forall q :: q in d.room.resolutions ==> q.record.order < |d.room.requests| + 1
  {
    forall q | q in d.room.resolutions ensures q.record.order < |d.room.requests| + 1 {
      var i :| 0 <= i < |d.room.resolutions| && d.room.resolutions[i] == q;
    }
  }

  /** A commit opens one epoch after every retained request. */
  lemma CommitEpochs(d: Disk, p: Pointer)
    requires Sound(d) && LegalPointer(d, p) && p.state.CommittedAt?
    ensures var n := WithPointer(d, p).room;
            && EpochsOf(n) == EpochsOf(d.room) + [LastEpoch(BaseHistory(n))]
            && LastEpoch(BaseHistory(n)).from == |d.room.requests| + 1
  {
    CommitBoundary(d, p);
    CommitHistory(d.room.initial, d.room.pointer, p);
    ResolvedBefore(d);
    ResolveAllPush(BaseHistory(d.room), LastEpoch(BaseHistory(WithPointer(d, p).room)), d.room.resolutions);
  }

  lemma CommitIdentities(a: Room, b: Room, e: Epoch)
    requires EpochsOf(b) == EpochsOf(a) + [e] && e.from == |a.requests| + 1
    requires b.requests == a.requests && b.engineer == a.engineer
    ensures KeepsIdentities(a, b)
  {
    forall k | 0 <= k < |a.requests| && IsEngineerRequest(Session(a), a.requests[k])
      ensures SameIdentity(EpochsOf(a), EpochsOf(b), k + 1)
    {
      IndexPush(EpochsOf(a), e, k + 1);
    }
  }

  lemma StepCommitted(d: Disk, p: Pointer)
    requires Good(d) && LegalPointer(d, p) && p.state.CommittedAt?
    ensures Good(WithPointer(d, p)) && KeepsIdentities(d.room, WithPointer(d, p).room)
  {
    var next := WithPointer(d, p);
    CommitEpochs(d, p);
    CommitIdentities(d.room, next.room, LastEpoch(BaseHistory(next.room)));
    IdentitiesKeepFrozenOk(d.room, next.room);
  }

  // ----- resolutions -----

  lemma InterruptedIsPending(d: Disk, name: Id)
    requires InterruptedOk(BaseHistory(d.room), LedgerOf(d), name) && name !in ClaimedNames(LedgerOf(d))
    ensures PendingResolution(d) == Some(name)
  {
  }

  lemma UnclaimedInterrupted(h: seq<Epoch>, l: Ledger, name: Id)
    requires h != [] && ResolutionsOk(h, l) && name in l.files && name !in ClaimedNames(l)
    ensures InterruptedOk(h, l, name)
  {
  }

  /** The interrupted adoption is exactly the unclaimed file, if there is one. */
  lemma PendingIff(d: Disk)
    requires Sound(d)
    ensures PendingResolution(d).None? ==> d.resolutions.Keys == ClaimedNames(LedgerOf(d))
    ensures PendingResolution(d).Some? ==> InterruptedOk(BaseHistory(d.room), LedgerOf(d), PendingResolution(d).value)
  {
    var l := LedgerOf(d);
    if PendingResolution(d).Some? {
      UnclaimedInterrupted(BaseHistory(d.room), l, PendingResolution(d).value);
    } else {
      forall name | name in l.files ensures name in ClaimedNames(l) {
        if name !in ClaimedNames(l) {
          UnclaimedInterrupted(BaseHistory(d.room), l, name);
          InterruptedIsPending(d, name);
        }
      }
    }
  }

  lemma AdoptedEpochs(room: Room, v: Resolution)
    requires EpochIndex(BaseHistory(room), v.order) == |BaseHistory(room)| - 1
    ensures var g := EpochsOf(room.(resolutions := room.resolutions + [ResolutionPointer(v.id, v)]));
            var last := |EpochsOf(room)| - 1;
            g == EpochsOf(room)[last := EpochsOf(room)[last].(expected := Some(v.observed),
                                                              resolved := Some(Resolved(v, v.order)))]
  {
    var ps := room.resolutions + [ResolutionPointer(v.id, v)];
    assert ps[..|room.resolutions|] == room.resolutions;
    ResolvedIndex(BaseHistory(room), room.resolutions, v.order);
  }

  /** The newest epoch is still unresolved, and none of its engineer requests is newer than the
      request the resolution is taken from. */
  lemma AdoptBounds(room: Room, l: Ledger, v: Resolution, k: nat)
    requires l.pointers == room.resolutions && l.requests == room.requests && l.session == Session(room)
    requires InterruptedOk(BaseHistory(room), l, v.id) && l.files[v.id] == v
    requires k < |room.requests| && IsEngineerRequest(Session(room), room.requests[k])
    requires EpochIndex(BaseHistory(room), k + 1) == |BaseHistory(room)| - 1
    ensures k + 1 <= v.order && LastEpoch(EpochsOf(room)) == LastEpoch(BaseHistory(room))
    ensures LastEpoch(BaseHistory(room)).resolved.None?
  {
    var h := BaseHistory(room);
    HistoryUnresolved(room.initial, room.pointer);
    ResolveAllSkips(h, room.resolutions, |h| - 1);
    IndexLast(h, k + 1);
    LatestIsLatest(room.requests, Session(room), LastEpoch(h).from, k);
  }

  /** Only a family epoch without an operator-selected qualification is adopted for. */
  lemma AdoptsFamily(h: seq<Epoch>, l: Ledger, v: Resolution)
    requires h != [] && InterruptedOk(h, l, v.id) && l.files[v.id] == v
    ensures EpochIndex(h, v.order) == |h| - 1
    ensures LastEpoch(h).selector.Family? && LastEpoch(h).qualification.None?
  {
  }

  /** Adopting a resolution at the latest engineer request leaves what every retained one froze. */
  lemma AdoptIdentity(room: Room, l: Ledger, v: Resolution, k: nat)
    requires l.pointers == room.resolutions && l.requests == room.requests && l.session == Session(room)
    requires InterruptedOk(BaseHistory(room), l, v.id) && l.files[v.id] == v
    requires k < |room.requests| && IsEngineerRequest(Session(room), room.requests[k])
    ensures SameIdentity(EpochsOf(room),
                         EpochsOf(room.(resolutions := room.resolutions + [ResolutionPointer(v.id, v)])), k + 1)
  {
    hide ResolutionOk, InterruptedOk, BaseHistory, ResolveAll, LatestEngineer;
    AdoptsFamily(BaseHistory(room), l, v);
    AdoptedEpochs(room, v);
    var h, g := EpochsOf(room), EpochsOf(room.(resolutions := room.resolutions + [ResolutionPointer(v.id, v)]));
    IndexByOpenings(h, g, k + 1);
    ResolvedIndex(BaseHistory(room), room.resolutions, k + 1);
    if EpochIndex(h, k + 1) == |h| - 1 { AdoptBounds(room, l, v, k); }
  }

  lemma AdoptIdentities(room: Room, l: Ledger, v: Resolution)
    requires l.pointers == room.resolutions && l.requests == room.requests && l.session == Session(room)
    requires InterruptedOk(BaseHistory(room), l, v.id) && l.files[v.id] == v
    ensures KeepsIdentities(room, room.(resolutions := room.resolutions + [ResolutionPointer(v.id, v)]))
  {
    hide InterruptedOk, SameIdentity, BaseHistory, EpochsOf;
    var next := room.(resolutions := room.resolutions + [ResolutionPointer(v.id, v)]);
    forall k | 0 <= k < |room.requests| && IsEngineerRequest(Session(room), room.requests[k])
      ensures SameIdentity(EpochsOf(room), EpochsOf(next), k + 1)
    {
      AdoptIdentity(room, l, v, k);
    }
  }

  lemma StepResolutions(d: Disk, ps: seq<ResolutionPointer>)
    requires Good(d) && LegalResolutions(d, ps)
    ensures Good(WithResolutions(d, ps)) && KeepsIdentities(d.room, WithResolutions(d, ps).room)
  {
    PendingIff(d);
    var v := d.resolutions[PendingResolution(d).value];
    NamedItself(BaseHistory(d.room), LedgerOf(d), PendingResolution(d).value);
    ResolutionsSteady(d, ps);
    hide InterruptedOk, SameIdentity, PendingResolution, Sound, EpochsOf, RequestsOk, KeepsIdentities, Steady;
    hide PatchesOk;
    AdoptIdentities(d.room, LedgerOf(d), v);
    IdentitiesKeepFrozenOk(d.room, WithResolutions(d, ps).room);
  }

  lemma ResolutionsSteady(d: Disk, ps: seq<ResolutionPointer>)
    requires Good(d) && LegalResolutions(d, ps)
    ensures Steady(WithResolutions(d, ps)) && PatchesOk(WithResolutions(d, ps))
  {
    hide Sound, Continues, PendingResolution;
  }

  lemma NamedItself(h: seq<Epoch>, l: Ledger, name: Id)
    requires h != [] && InterruptedOk(h, l, name)
    ensures l.files[name].id == name
  {
  }

  lemma StepResolution(d: Disk, v: Resolution)
    requires Good(d) && LegalResolution(d, v)
    ensures Good(WithResolution(d, v))
  {
    if v.id in d.resolutions {
      MapPutSame(d.resolutions, v.id, v);
      assert WithResolution(d, v) == d;
    } else {
      StepNewResolution(d, v);
    }
  }

  lemma AddClaimed(h: seq<Epoch>, l: Ledger, v: Resolution)
    requires h != [] && ClaimedOk(h, l) && l.files.Keys == ClaimedNames(l) && v.id !in l.files
    ensures ClaimedOk(h, l.(files := l.files[v.id := v]))
    ensures ClaimedNames(l.(files := l.files[v.id := v])) == ClaimedNames(l)
  {
    assert forall i :: 0 <= i < |l.pointers| ==> l.pointers[i].id in ClaimedNames(l);
  }

  lemma AddUnclaimed(h: seq<Epoch>, l: Ledger, v: Resolution)
    requires h != [] && ClaimedOk(h, l) && l.files.Keys == ClaimedNames(l) && v.id !in l.files
    requires InterruptedOk(h, l.(files := l.files[v.id := v]), v.id)
    ensures ResolutionsOk(h, l.(files := l.files[v.id := v]))
  {
    AddClaimed(h, l, v);
    assert l.(files := l.files[v.id := v]).files.Keys == l.files.Keys + {v.id};
  }

  lemma StepNewResolution(d: Disk, v: Resolution)
    requires Good(d) && LegalResolution(d, v) && v.id !in d.resolutions
    ensures Good(WithResolution(d, v))
  {
    PendingIff(d);
    AddUnclaimed(BaseHistory(d.room), LedgerOf(d), v);
    assert Sound(WithResolution(d, v));
  }

  // ----- requests -----

  lemma ClaimedGrows(h: seq<Epoch>, a: Ledger, b: Ledger)
    requires h != [] && ClaimedOk(h, a)
    requires a.session == b.session && a.outcomes <= b.outcomes && a.files == b.files && a.pointers == b.pointers
    requires |a.requests| <= |b.requests|
    requires forall k :: 0 <= k < |a.requests| ==> RequestProgress(a.requests[k], b.requests[k])
    ensures ClaimedOk(h, b)
  {
    forall i | 0 <= i < |b.pointers|
      ensures ResolutionOk(h, b.session, b.requests, b.outcomes, b.pointers[i].id, b.pointers[i].record)
    {
      var v := a.pointers[i].record;
      assert RequestProgress(a.requests[v.order - 1], b.requests[v.order - 1]);
      ResolutionGrows(h, a, b, a.pointers[i].id, v);
    }
  }

  lemma InterruptedGrows(h: seq<Epoch>, a: Ledger, b: Ledger, name: Id)
    requires h != [] && InterruptedOk(h, a, name)
    requires a.session == b.session && a.outcomes <= b.outcomes && a.files == b.files && a.pointers == b.pointers
    requires |a.requests| <= |b.requests|
    requires forall k :: 0 <= k < |a.requests| ==> RequestProgress(a.requests[k], b.requests[k])
    requires LatestEngineer(b.requests, b.session, LastEpoch(h).from)
             == LatestEngineer(a.requests, a.session, LastEpoch(h).from)
    ensures InterruptedOk(h, b, name)
  {
    var v := a.files[name];
    ResolutionOrder(h, a, name, v);
    hide ResolutionOk, LatestEngineer, EpochIndex, RequestProgress;
    assert RequestProgress(a.requests[v.order - 1], b.requests[v.order - 1]);
    ResolutionGrows(h, a, b, name, v);
  }

  lemma ResolutionOrder(h: seq<Epoch>, l: Ledger, name: Id, v: Resolution)
    requires h != [] && ResolutionOk(h, l.session, l.requests, l.outcomes, name, v)
    ensures 1 <= v.order <= |l.requests|
  {
  }

  lemma ResolutionsGrow(h: seq<Epoch>, a: Ledger, b: Ledger)
    requires h != [] && ResolutionsOk(h, a)
    requires a.session == b.session && a.outcomes <= b.outcomes && a.files == b.files && a.pointers == b.pointers
    requires |a.requests| <= |b.requests|
    requires forall k :: 0 <= k < |a.requests| ==> RequestProgress(a.requests[k], b.requests[k])
    requires a.files.Keys == ClaimedNames(a)
             || LatestEngineer(b.requests, b.session, LastEpoch(h).from)
                == LatestEngineer(a.requests, a.session, LastEpoch(h).from)
    ensures ResolutionsOk(h, b)
  {
    ClaimedGrows(h, a, b);
    assert ClaimedNames(a) == ClaimedNames(b);
    forall name | name in b.files && name !in ClaimedNames(b) ensures InterruptedOk(h, b, name) {
      InterruptedGrows(h, a, b, name);
    }
  }

  lemma SoundProgress(d: Disk, rs: seq<Request>, policy: Option<PolicyPointer>, other: int,
                      outcomes: set<SemanticOutcome>)
    requires Sound(d) && ProgressOk(d, rs, outcomes)
    ensures Sound(WithProgress(d, rs, policy, other, outcomes))
  {
    var next := WithProgress(d, rs, policy, other, outcomes);
    assert RequestIds(rs) == RequestIds(d.room.requests);
    LatestBySameRoles(d.room.requests, rs, Session(d.room), LastEpoch(BaseHistory(d.room)).from);
    ResolutionsGrow(BaseHistory(d.room), LedgerOf(d), LedgerOf(next));
  }

  lemma ProgressIdentities(d: Disk, rs: seq<Request>, policy: Option<PolicyPointer>, other: int,
                           outcomes: set<SemanticOutcome>)
    requires ProgressOk(d, rs, outcomes) && FrozenOk(d.room)
    ensures var next := WithProgress(d, rs, policy, other, outcomes);
            KeepsIdentities(d.room, next.room) && FrozenOk(next.room)
  {
    IdentitiesKeepFrozenOk(d.room, WithProgress(d, rs, policy, other, outcomes).room);
  }

  lemma StepProgress(d: Disk, rs: seq<Request>, policy: Option<PolicyPointer>, other: int,
                     outcomes: set<SemanticOutcome>)
    requires Inv(d) && ProgressOk(d, rs, outcomes)
    ensures Inv(WithProgress(d, rs, policy, other, outcomes))
  {
    var next := WithProgress(d, rs, policy, other, outcomes);
    ProgressIdentities(d, rs, policy, other, outcomes);
    if Good(d) {
      SoundProgress(d, rs, policy, other, outcomes);
      assert Good(next);
    } else {
      var id :| InterruptedBy(d, id);
      SoundProgress(Without(d, id), rs, policy, other, outcomes);
      assert InterruptedBy(next, id);
      assert Cut(next);
    }
  }

  lemma SoundRequest(d: Disk, r: Request)
    requires LegalRequest(d, r)
    ensures Sound(WithRequest(d, r))
  {
    var a, b := d.room.requests, d.room.requests + [r];
    HistoryGrows(d.room.initial, RequestIds(a), RequestIds(b), d.room.pointer);
    PendingIff(d);
    var session, from := Session(d.room), LastEpoch(BaseHistory(d.room)).from;
    if !IsEngineerRequest(session, r) {
      assert b[..|a|] == a;
      assert LatestEngineer(b, session, from) == LatestEngineer(a, session, from);
    }
    ResolutionsGrow(BaseHistory(d.room), LedgerOf(d), LedgerOf(WithRequest(d, r)));
  }

  lemma FrozenRequest(d: Disk, r: Request)
    requires FrozenOk(d.room) && LegalRequest(d, r)
    ensures FrozenOk(WithRequest(d, r).room) && KeepsIdentities(d.room, WithRequest(d, r).room)
  {
  }

  lemma StepRequest(d: Disk, r: Request)
    requires Good(d) && LegalRequest(d, r)
    ensures Good(WithRequest(d, r)) && KeepsIdentities(d.room, WithRequest(d, r).room)
  {
    SoundRequest(d, r);
    FrozenRequest(d, r);
  }

  // ----- the engineer binding -----

  /** Before its engineer is bound a room has no journal at all. */
  lemma UnboundJournal(d: Disk)
    requires Good(d) && d.room.engineer.None?
    ensures d.room.pointer.None? && d.files == Files(map[], map[], map[])
    ensures d.room.resolutions == [] && d.resolutions == map[]
  {
    if d.room.pointer.Some? { NewestLink(d.files, None, d.room.pointer); }
    assert Lineage(d.room.pointer) == [];
    forall name, v ensures !ResolutionOk(BaseHistory(d.room), None, d.room.requests, d.outcomes, name, v) {
    }
    assert ClaimedNames(LedgerOf(d)) == {};
  }

  lemma UnboundIsGood(d: Disk)
    requires Inv(d) && d.room.engineer.None?
    ensures Good(d)
  {
  }

  lemma StepEngineer(d: Disk, b: Binding)
    requires Inv(d) && LegalEngineer(d, b)
    ensures Good(WithEngineer(d, b)) && KeepsIdentities(d.room, WithEngineer(d, b).room)
  {
    var next := WithEngineer(d, b);
    UnboundIsGood(d);
    UnboundJournal(d);
    assert Lineage(next.room.pointer) == [] && ClaimedNames(LedgerOf(next)) == {};
    assert Sound(next);
    forall k | 0 <= k < |next.room.requests| ensures !IsEngineerRequest(Session(next.room), next.room.requests[k]) {
      assert next.room.requests[k].session != b.session;
    }
  }

  // ----- any write, any run of writes -----

  /** The reader refuses a journal holding an unclaimed intent. */
  lemma InterruptedIsDamaged(d: Disk, id: Id)
    requires InterruptedBy(d, id)
    ensures !Sound(d)
  {
    assert d.files.requests.Keys != Without(d, id).files.requests.Keys;
  }

  lemma SoundIsGood(d: Disk)
    requires Inv(d) && Sound(d)
    ensures Good(d)
  {
    forall id ensures !InterruptedBy(d, id) {
      if InterruptedBy(d, id) { InterruptedIsDamaged(d, id); }
    }
  }

  lemma JournalIsSound(d: Disk, w: Write)
    requires Inv(d) && Legal(d, w) && !w.StoreIntent? && !w.SaveProgress? && !w.SaveEngineer?
    requires !(w.SavePointer? && w.pointer.state.Pending?)
    ensures Good(d)
  {
    SoundIsGood(d);
  }

  lemma ClaimIsCut(d: Disk, p: Pointer)
    requires Inv(d) && LegalPointer(d, p) && p.state.Pending?
    ensures Cut(d)
  {
    assert Interrupted(d);
  }

  /** Every durable write keeps the invariant. */
  lemma StepKeepsInv(d: Disk, w: Write)
    requires Inv(d) && Legal(d, w)
    ensures Inv(Put(d, w))
  {
    hide Good, Cut, LegalIntent, LegalMarker, LegalPatch, LegalRecord, LegalPointer, LegalResolution;
    hide LegalResolutions, LegalEngineer, LegalRequest;
    match w
    case StoreIntent(x) => StepIntent(d, x);
    case SaveProgress(rs, policy, other, outcomes) => StepProgress(d, rs, policy, other, outcomes);
    case SavePointer(p) =>
      if p.state.Pending? {
        ClaimIsCut(d, p);
        StepClaim(d, p);
      } else {
        JournalIsSound(d, w);
        if p.state.CommittedAt? { StepCommitted(d, p); } else { StepAbandoned(d, p); }
      }
    case StoreMarker(m) => JournalIsSound(d, w); StepMarker(d, m);
    case SendPatch(id, patch) => JournalIsSound(d, w); StepPatch(d, id, patch);
    case StoreRecord(r) => JournalIsSound(d, w); StepRecord(d, r);
    case StoreResolution(v) => JournalIsSound(d, w); StepResolution(d, v);
    case SaveResolutions(ps) => JournalIsSound(d, w); StepResolutions(d, ps);
    case SaveEngineer(b) => StepEngineer(d, b);
    case SaveRequest(r) => JournalIsSound(d, w); StepRequest(d, r);
  }

  /** Every durable write keeps the frozen identity of every retained engineer request. */
  lemma StepKeepsIdentities(d: Disk, w: Write)
    requires Inv(d) && Legal(d, w)
    ensures KeepsIdentities(d.room, Put(d, w).room)
  {
    hide LegalIntent, LegalMarker, LegalPatch, LegalRecord, LegalPointer, LegalResolution;
    hide LegalResolutions, LegalEngineer, LegalRequest, KeepsIdentities, EpochsOf, Steady, PatchesOk;
    match w
    case SaveProgress(rs, policy, other, outcomes) => ProgressIdentities(d, rs, policy, other, outcomes);
    case SavePointer(p) =>
      if p.state.Pending? {
        ClaimIsCut(d, p);
        StepClaim(d, p);
      } else {
        JournalIsSound(d, w);
        if p.state.CommittedAt? { StepCommitted(d, p); } else { StepAbandoned(d, p); }
      }
    case SaveResolutions(ps) => JournalIsSound(d, w); StepResolutions(d, ps);
    case SaveEngineer(b) => StepEngineer(d, b);
    case SaveRequest(r) => JournalIsSound(d, w); StepRequest(d, r);
    case _ => EpochsSame(d.room, Put(d, w).room);
  }

  predicate AllLegal(d: Disk, ws: seq<Write>)
    decreases ws
  {
    ws == [] || (Legal(d, ws[0]) && AllLegal(Put(d, ws[0]), ws[1..]))
  }

  lemma LegalOne(d: Disk, w: Write)
    requires Legal(d, w)
    ensures AllLegal(d, [w]) && PutAll(d, [w]) == Put(d, w)
  {
    assert AllLegal(Put(d, w), []) && PutAll(Put(d, w), []) == Put(d, w);
  }

  lemma LegalTwo(d: Disk, v: Write, w: Write)
    requires Legal(d, v) && Legal(Put(d, v), w)
    ensures AllLegal(d, [v, w]) && PutAll(d, [v, w]) == Put(Put(d, v), w)
  {
    LegalOne(Put(d, v), w);
    assert [v, w][1..] == [w];
  }

  lemma {:induction false} AllLegalConcat(d: Disk, a: seq<Write>, b: seq<Write>)
    ensures AllLegal(d, a + b) <==> AllLegal(d, a) && AllLegal(PutAll(d, a), b)
    decreases a
  {
    if a == [] {
      assert a + b == b;
    } else {
      assert (a + b)[1..] == a[1..] + b;
      AllLegalConcat(Put(d, a[0]), a[1..], b);
    }
  }

  lemma {:induction false} WritesKeepInv(d: Disk, ws: seq<Write>)
    requires Inv(d) && AllLegal(d, ws)
    ensures Inv(PutAll(d, ws))
    decreases ws
  {
    if ws != [] {
      StepKeepsInv(d, ws[0]);
      WritesKeepInv(Put(d, ws[0]), ws[1..]);
    }
  }
}
