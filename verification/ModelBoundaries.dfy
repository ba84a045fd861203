/** The boundary notices a request carries to the engineer, and why every later reader makes the same notice of
    them. */
module ModelBoundaries {
  import opened Values
  import opened EngineeringModel
  import opened EngineeringTransition
  import opened JournalProofs
  import opened RoomRuns
  import opened TransitionSafety
  import opened RoomTheorems

  datatype Kind = RootChange | RootReset

  /** The immutable committed record a root notice names. */
  datatype Authority = Authority(request: Id, record: Sha<Record>)

  /** A notice's fragment is a function of exactly these fields. */
  datatype Boundary = Boundary(kind: Kind, authority: Authority, epoch: Epoch)

  predicate IsReset(h: seq<Epoch>, k: nat)
    requires k < |h|
  {
    k > 0 && h[k - 1].selector.Configured() == h[k].selector.Configured()
  }

  /** The boundary of the newest epoch; the initial epoch has none. */
  function CurrentRootBoundary(h: seq<Epoch>): Option<Boundary>
    requires h != []
  {
    var last := LastEpoch(h);
    if last.record.None? || last.request.None? then None
    else Some(Boundary(if IsReset(h, |h| - 1) then RootReset else RootChange,
                       Authority(last.request.value, last.record.value), last))
  }

  /** An unqualified family epoch renders unresolved before the order of its resolution and resolved
      after it; without an order that rendering is ambiguous and refused. */
  function RootEpochAt(epoch: Epoch, order: Option<nat>): Result<Epoch> {
    if epoch.qualified || epoch.selector.Exact? || epoch.resolved.None? then Success(epoch)
    else if order.None? then Refused
    else if epoch.resolved.value.order < order.value then Success(epoch)
    else Success(epoch.(expected := None, resolved := None))
  }

  predicate Names(epoch: Epoch, authority: Authority) {
    epoch.request == Some(authority.request) && epoch.record == Some(authority.record)
  }

  function Named(h: seq<Epoch>, authority: Authority, from: nat): (k: Option<nat>)
    requires from <= |h|
    ensures k.Some? ==> from <= k.value < |h| && Names(h[k.value], authority)
    ensures k.Some? ==> forall i :: from <= i < k.value ==> !Names(h[i], authority)
    ensures k.None? ==> forall i :: from <= i < |h| ==> !Names(h[i], authority)
    decreases |h| - from
  {
    if from == |h| then None
    else if Names(h[from], authority) then Some(from)
    else Named(h, authority, from + 1)
  }

  /** The boundary a notice speaks about, from the epochs alone and the order of the request that carries it. */
  function CommittedBoundary(h: seq<Epoch>, kind: Kind, authority: Authority, order: Option<nat>): Result<Boundary> {
    var k := Named(h, authority, 0);
    if k.None? || (kind.RootReset? != IsReset(h, k.value)) then Refused
    else
      var epoch := RootEpochAt(h[k.value], order);
      if epoch.Refused? then Refused else Success(Boundary(kind, authority, epoch.value))
  }

  /** Without a carrying order a reader refuses exactly the epochs whose rendering depends on one. */
  lemma AmbiguousIff(epoch: Epoch)
    ensures RootEpochAt(epoch, None).Refused?
            <==> exists a: nat, b: nat :: RootEpochAt(epoch, Some(a)) != RootEpochAt(epoch, Some(b))
  {
    if RootEpochAt(epoch, None).Refused? {
      var o := epoch.resolved.value.order;
      assert RootEpochAt(epoch, Some(o)) != RootEpochAt(epoch, Some(o + 1));
    }
  }

  /** Every epoch of a renders the same in b for a request of this order. */
  predicate SameRendering(a: seq<Epoch>, b: seq<Epoch>, order: nat) {
    && |a| <= |b|
    && forall k :: 0 <= k < |a| ==>
         && RootEpochAt(a[k], Some(order)) == RootEpochAt(b[k], Some(order))
         && a[k].selector == b[k].selector && a[k].request == b[k].request && a[k].record == b[k].record
  }

  predicate KeepsNotices(a: Room, b: Room) {
    forall k :: 0 <= k < |a.requests| && IsEngineerRequest(Session(a), a.requests[k]) ==>
      SameRendering(EpochsOf(a), EpochsOf(b), k + 1)
  }

  lemma SameNamed(a: seq<Epoch>, b: seq<Epoch>, order: nat, authority: Authority)
    requires SameRendering(a, b, order) && Named(a, authority, 0).Some?
    ensures Named(b, authority, 0) == Named(a, authority, 0)
  {
    var i, j := Named(a, authority, 0).value, Named(b, authority, 0);
    assert Names(b[i], authority);
    assert forall n :: 0 <= n < |a| ==> (Names(a[n], authority) <==> Names(b[n], authority));
  }

  /** What a notice named stays readable as the same boundary wherever renderings are kept. */
  lemma SameBoundary(a: seq<Epoch>, b: seq<Epoch>, kind: Kind, authority: Authority, order: nat)
    requires SameRendering(a, b, order) && CommittedBoundary(a, kind, authority, Some(order)).Success?
    ensures CommittedBoundary(b, kind, authority, Some(order)) == CommittedBoundary(a, kind, authority, Some(order))
  {
    SameNamed(a, b, order, authority);
  }

  // ----- every step keeps every carried notice -----

  lemma EpochsKeepNotices(a: Room, b: Room)
    requires EpochsOf(a) <= EpochsOf(b)
    ensures KeepsNotices(a, b)
  {
  }

  lemma AdoptNotice(room: Room, l: Ledger, v: Resolution, k: nat)
    requires l.pointers == room.resolutions && l.requests == room.requests && l.session == Session(room)
    requires InterruptedOk(BaseHistory(room), l, v.id) && l.files[v.id] == v
    requires HistoryOk(room.initial, RequestIds(room.requests), room.pointer)
    requires k < |room.requests| && IsEngineerRequest(Session(room), room.requests[k])
    ensures SameRendering(EpochsOf(room),
                          EpochsOf(room.(resolutions := room.resolutions + [ResolutionPointer(v.id, v)])), k + 1)
  {
    AdoptedEpochs(room, v);
    UnresolvedBase(room, l, v);
    NewestOrder(room, l, v, k);
  }

  lemma UnresolvedBase(room: Room, l: Ledger, v: Resolution)
    requires l.pointers == room.resolutions && InterruptedOk(BaseHistory(room), l, v.id) && l.files[v.id] == v
    requires HistoryOk(room.initial, RequestIds(room.requests), room.pointer)
    ensures var last := LastEpoch(EpochsOf(room));
            last.resolved.None? && last.selector.Family? && !last.qualified && last.expected.None?
  {
    LastEpochPinned(room.initial, RequestIds(room.requests), room.pointer);
    var h := BaseHistory(room);
    HistoryUnresolved(room.initial, room.pointer);
    HistoryExpectations(room.initial, room.pointer);
    ResolveAllSkips(h, room.resolutions, |h| - 1);
  }

  lemma {:induction false} HistoryExpectations(initial: Pin, pointer: Option<Pointer>)
    ensures var last := LastEpoch(History(initial, pointer));
            last.selector.Family? && !last.qualified ==> last.expected.None?
    decreases pointer
  {
    if pointer.Some? { HistoryExpectations(initial, pointer.value.intent.previous); }
  }

  lemma NewestOrder(room: Room, l: Ledger, v: Resolution, k: nat)
    requires l.pointers == room.resolutions && l.requests == room.requests && l.session == Session(room)
    requires InterruptedOk(BaseHistory(room), l, v.id) && l.files[v.id] == v
    requires k < |room.requests| && IsEngineerRequest(Session(room), room.requests[k])
    ensures k + 1 <= v.order
  {
    var from := LastEpoch(BaseHistory(room)).from;
    if from <= k + 1 { LatestIsLatest(room.requests, Session(room), from, k); }
  }

  lemma StepKeepsNotices(d: Disk, w: Write)
    requires Inv(d) && Legal(d, w)
    ensures KeepsNotices(d.room, Put(d, w).room)
  {
    if w.SaveResolutions? {
      PendingIff(d);
      var v := d.resolutions[PendingResolution(d).value];
      forall k | 0 <= k < |d.room.requests| && IsEngineerRequest(Session(d.room), d.room.requests[k])
        ensures SameRendering(EpochsOf(d.room), EpochsOf(Put(d, w).room), k + 1)
      {
        AdoptNotice(d.room, LedgerOf(d), v, k);
      }
    } else {
      if w.SavePointer? && w.pointer.state.CommittedAt? { CommitEpochs(d, w.pointer); }
      EpochsKeepNotices(d.room, Put(d, w).room);
    }
  }

  lemma NoticesTransitive(a: Room, b: Room, c: Room)
    requires KeepsNotices(a, b) && KeepsNotices(b, c) && KeepsIdentities(a, b)
    ensures KeepsNotices(a, c)
  {
    forall k | 0 <= k < |a.requests| && IsEngineerRequest(Session(a), a.requests[k])
      ensures SameRendering(EpochsOf(a), EpochsOf(c), k + 1)
    {
      assert IsEngineerRequest(Session(b), b.requests[k]);
      assert SameRendering(EpochsOf(a), EpochsOf(b), k + 1) && SameRendering(EpochsOf(b), EpochsOf(c), k + 1);
    }
  }

  lemma {:induction false} WritesKeepNotices(d: Disk, ws: seq<Write>)
    requires Inv(d) && AllLegal(d, ws)
    ensures KeepsNotices(d.room, PutAll(d, ws).room)
    decreases ws
  {
    if ws == [] {
      EpochsKeepNotices(d.room, d.room);
    } else {
      StepKeepsInv(d, ws[0]);
      StepKeepsNotices(d, ws[0]);
      StepKeepsIdentities(d, ws[0]);
      WritesKeepNotices(Put(d, ws[0]), ws[1..]);
      NoticesTransitive(d.room, Put(d, ws[0]).room, PutAll(d, ws).room);
    }
  }

  lemma {:induction false} RunKeepsNotices(d: Disk, events: seq<Event>)
    requires Inv(d)
    ensures KeepsNotices(d.room, Run(d, events).room)
    decreases events
  {
    if events == [] {
      EpochsKeepNotices(d.room, d.room);
    } else {
      var next := PutAll(d, Durable(d, events[0]));
      EventKeepsInv(d, events[0]);
      WritesKeepNotices(d, Durable(d, events[0]));
      WritesKeepIdentities(d, Durable(d, events[0]));
      RunKeepsNotices(next, events[1..]);
      NoticesTransitive(d.room, next.room, Run(d, events).room);
    }
  }

  /** Once a saved engineer request has carried a notice, no later commit or resolution changes the boundary it
      speaks about. */
  lemma DeliveredNoticeStable(d: Disk, events: seq<Event>, kind: Kind, authority: Authority, carrier: nat)
    requires Inv(d) && carrier < |d.room.requests|
    requires IsEngineerRequest(Session(d.room), d.room.requests[carrier])
    requires CommittedBoundary(EpochsOf(d.room), kind, authority, Some(carrier + 1)).Success?
    ensures CommittedBoundary(EpochsOf(Run(d, events).room), kind, authority, Some(carrier + 1))
            == CommittedBoundary(EpochsOf(d.room), kind, authority, Some(carrier + 1))
  {
    RunKeepsNotices(d, events);
    SameBoundary(EpochsOf(d.room), EpochsOf(Run(d, events).room), kind, authority, carrier + 1);
  }

  // ----- what a dispatch carries is what a reader finds -----

  /** Every epoch after the first names its own published attempt. */
  predicate OwnRequests(h: seq<Epoch>, ids: set<Id>) {
    && (forall k :: 0 <= k < |h| && h[k].request.Some? ==> h[k].request.value in ids)
    && (forall i, j :: 0 <= i < j < |h| && h[j].request.Some? ==> h[i].request != h[j].request)
  }

  lemma OwnRequestsPush(h: seq<Epoch>, ids: set<Id>, e: Epoch)
    requires OwnRequests(h, ids) && e.request.Some? && e.request.value !in ids
    ensures OwnRequests(h + [e], ids + {e.request.value})
  {
  }

  lemma {:induction false} EpochRequests(initial: Pin, pointer: Option<Pointer>)
    requires ChainShape(Lineage(pointer))
    ensures OwnRequests(History(initial, pointer), LineageIds(pointer))
    decreases pointer
  {
    if pointer.Some? {
      var p := pointer.value;
      assert pointer == Some(p);
      ShapeSplit(p);
      EpochRequests(initial, p.intent.previous);
      IdsPush(Lineage(p.intent.previous), p);
      var h := History(initial, pointer);
      if p.state.CommittedAt? {
        OwnRequestsPush(History(initial, p.intent.previous), LineageIds(p.intent.previous), LastEpoch(h));
      }
    }
  }

  lemma {:induction false} ResolvedFrom(h: seq<Epoch>, pointers: seq<ResolutionPointer>, k: nat)
    requires k < |h| && h[k].resolved.None? && ResolveAll(h, pointers)[k].resolved.Some?
    ensures exists i :: 0 <= i < |pointers|
                        && pointers[i].record.order == ResolveAll(h, pointers)[k].resolved.value.order
  {
    if pointers != [] {
      var n := |pointers| - 1;
      if EpochIndex(ResolveAll(h, pointers[..n]), pointers[n].record.order) != k {
        ResolvedFrom(h, pointers[..n], k);
      }
    }
  }

  lemma ClaimedOrders(h: seq<Epoch>, l: Ledger)
    requires h != [] && ClaimedOk(h, l)
    ensures forall i :: 0 <= i < |l.pointers| ==> l.pointers[i].record.order <= |l.requests|
  {
  }

  lemma ResolvedBeforeNext(room: Room, l: Ledger)
    requires ClaimedOk(BaseHistory(room), l) && l.pointers == room.resolutions && l.requests == room.requests
    requires LastEpoch(EpochsOf(room)).resolved.Some?
    ensures LastEpoch(EpochsOf(room)).resolved.value.order <= |room.requests|
  {
    HistoryUnresolved(room.initial, room.pointer);
    ResolvedFrom(BaseHistory(room), room.resolutions, |BaseHistory(room)| - 1);
    ClaimedOrders(BaseHistory(room), l);
  }

  lemma SameOwnRequests(a: seq<Epoch>, b: seq<Epoch>, ids: set<Id>)
    requires OwnRequests(a, ids) && SameEpochs(a, b)
    ensures OwnRequests(b, ids)
  {
    assert forall k :: 0 <= k < |a| ==> b[k].request == a[k].request;
  }

  lemma NamedLast(h: seq<Epoch>, ids: set<Id>, authority: Authority)
    requires h != [] && OwnRequests(h, ids) && Names(LastEpoch(h), authority)
    ensures Named(h, authority, 0) == Some(|h| - 1)
  {
    var k := Named(h, authority, 0);
    assert Names(h[|h| - 1], authority);
  }

  lemma NewestNamed(room: Room, authority: Authority)
    requires ChainShape(Lineage(room.pointer)) && Names(LastEpoch(EpochsOf(room)), authority)
    ensures Named(EpochsOf(room), authority, 0) == Some(|EpochsOf(room)| - 1)
  {
    ResolveAllKeeps(BaseHistory(room), room.resolutions);
    EpochRequests(room.initial, room.pointer);
    SameOwnRequests(BaseHistory(room), EpochsOf(room), LineageIds(room.pointer));
    NamedLast(EpochsOf(room), LineageIds(room.pointer), authority);
  }

  /** The boundary a new engineer request must still deliver, rendered when it is sent, is exactly the
      boundary a reader reconstructs at that request's creation order. */
  lemma NoticeRoundTrip(d: Disk)
    requires Sound(d) && CurrentRootBoundary(EpochsOf(d.room)).Some?
    ensures var b := CurrentRootBoundary(EpochsOf(d.room)).value;
            CommittedBoundary(EpochsOf(d.room), b.kind, b.authority, Some(|d.room.requests| + 1)) == Success(b)
  {
    NewestNamed(d.room, CurrentRootBoundary(EpochsOf(d.room)).value.authority);
    if LastEpoch(EpochsOf(d.room)).resolved.Some? { ResolvedBeforeNext(d.room, LedgerOf(d)); }
  }
}
