/** How one more file, one more link or one more request changes what the journal readers accept. */
module JournalProofs {
  import opened Values
  import opened EngineeringModel
  import opened EngineeringTransition

  // ----- the chain -----

  predicate SameFilesAt(a: Files, b: Files, id: Id) {
    && Find(a.requests, id) == Find(b.requests, id)
    && Find(a.attempts, id) == Find(b.attempts, id)
    && Find(a.records, id) == Find(b.records, id)
  }

  lemma LinkFrame(a: Files, b: Files, engineer: Option<Binding>, link: Pointer)
    requires SameFilesAt(a, b, link.id) && LinkOk(a, engineer, link)
    ensures LinkOk(b, engineer, link)
  {
  }

  predicate KeysGrow(id: Id, a: Files, b: Files) {
    && a.requests.Keys <= b.requests.Keys <= a.requests.Keys + {id}
    && a.attempts.Keys <= b.attempts.Keys <= a.attempts.Keys + {id}
    && a.records.Keys <= b.records.Keys <= a.records.Keys + {id}
  }

  ghost predicate SameElsewhere(id: Id, a: Files, b: Files) {
    forall other :: other != id ==> SameFilesAt(a, b, other)
  }

  /** b differs from a only in the files of one request. */
  ghost predicate OnlyFilesOf(id: Id, a: Files, b: Files) { KeysGrow(id, a, b) && SameElsewhere(id, a, b) }

  lemma KeysPush(id: Id, a: Files, b: Files, ids: set<Id>)
    requires KeysOk(a, ids) && KeysGrow(id, a, b) && id in b.requests
    ensures KeysOk(b, ids + {id})
  {
  }

  lemma LastLink(pointer: Option<Pointer>, link: Pointer)
    requires pointer.Some? && ChainShape(Lineage(pointer)) && link in Lineage(pointer)
    ensures pointer.value in Lineage(pointer)
    ensures link.id == pointer.value.id ==> link == pointer.value
    ensures link != pointer.value ==> !link.state.Pending?
  {
    var links := Lineage(pointer);
    assert links[|links| - 1] == pointer.value;
    var k :| 0 <= k < |links| && links[k] == link;
  }

  /** Touching only the newest attempt's files keeps the chain when that attempt still validates. */
  lemma ChainTouch(a: Files, b: Files, engineer: Option<Binding>, pointer: Option<Pointer>)
    requires pointer.Some? && ChainOk(a, engineer, pointer)
    requires OnlyFilesOf(pointer.value.id, a, b) && b.requests.Keys == a.requests.Keys
    requires LinkOk(b, engineer, pointer.value)
    ensures ChainOk(b, engineer, pointer)
  {
    hide ChainShape, LinkOk, SameFilesAt;
    forall link | link in Lineage(pointer) ensures LinkOk(b, engineer, link) {
      LastLink(pointer, link);
      if link.id != pointer.value.id { LinkFrame(a, b, engineer, link); }
    }
    LastLink(pointer, pointer.value);
    assert pointer.value.id in LineageIds(pointer);
  }

  lemma IdsPush(links: seq<Pointer>, p: Pointer)
    ensures Ids(links + [p]) == Ids(links) + {p.id}
  {
    var all := links + [p];
    assert forall link :: link in all <==> link in links || link == p;
    forall id | id in Ids(links) + {p.id} ensures id in Ids(all) {
      if id != p.id { var link :| link in links && link.id == id; }
    }
  }

  lemma ShapePush(links: seq<Pointer>, p: Pointer)
    requires ChainShape(links) && |links| < MAX_CHAIN && p.id !in Ids(links)
    requires links != [] ==> !links[|links| - 1].state.Pending?
    ensures ChainShape(links + [p])
  {
    var all := links + [p];
    forall i, j | 0 <= i < j < |all| ensures all[i].id != all[j].id {
      if j == |links| { assert all[i] in links; }
    }
  }

  lemma LinksPush(a: Files, b: Files, engineer: Option<Binding>, links: seq<Pointer>, p: Pointer)
    requires forall link :: link in links ==> LinkOk(a, engineer, link)
    requires p.id !in Ids(links) && SameElsewhere(p.id, a, b) && LinkOk(b, engineer, p)
    ensures forall link :: link in links + [p] ==> LinkOk(b, engineer, link)
  {
    forall link | link in links + [p] ensures LinkOk(b, engineer, link) {
      if link != p {
        assert link in links && link.id in Ids(links);
        LinkFrame(a, b, engineer, link);
      }
    }
  }

  lemma LineagePush(pointer: Option<Pointer>, p: Pointer)
    requires p.intent.previous == pointer && ChainShape(Lineage(pointer)) && !IsPending(pointer)
    requires p.id !in LineageIds(pointer) && |Lineage(pointer)| < MAX_CHAIN
    ensures Lineage(Some(p)) == Lineage(pointer) + [p]
    ensures ChainShape(Lineage(Some(p))) && LineageIds(Some(p)) == LineageIds(pointer) + {p.id}
  {
    IdsPush(Lineage(pointer), p);
    if pointer.Some? { assert Lineage(pointer)[|Lineage(pointer)| - 1] == pointer.value; }
    ShapePush(Lineage(pointer), p);
  }

  /** A validated new attempt, named by a new pointer, extends the chain below the bound. */
  lemma ChainPush(a: Files, b: Files, engineer: Option<Binding>, pointer: Option<Pointer>, p: Pointer)
    requires ChainOk(a, engineer, pointer) && !IsPending(pointer)
    requires p.intent.previous == pointer && p.id !in LineageIds(pointer) && |Lineage(pointer)| < MAX_CHAIN
    requires OnlyFilesOf(p.id, a, b) && LinkOk(b, engineer, p)
    ensures ChainOk(b, engineer, Some(p))
  {
    LineagePush(pointer, p);
    LinksPush(a, b, engineer, Lineage(pointer), p);
    KeysPush(p.id, a, b, LineageIds(pointer));
  }

  lemma ShapeSplit(p: Pointer)
    requires ChainShape(Lineage(Some(p)))
    ensures ChainShape(Lineage(p.intent.previous)) && !IsPending(p.intent.previous)
    ensures |Lineage(p.intent.previous)| < MAX_CHAIN && p.id !in LineageIds(p.intent.previous)
  {
    var older, all := Lineage(p.intent.previous), Lineage(Some(p));
    assert all == older + [p];
    assert forall i :: 0 <= i < |older| ==> older[i] == all[i];
    assert all[|older|] == p;
    if p.intent.previous.Some? { assert older[|older| - 1] == p.intent.previous.value; }
  }

  /** A pending attempt becomes terminal in place, under the same attempt before it. */
  lemma ChainSettle(files: Files, engineer: Option<Binding>, p: Pointer, state: LinkState)
    requires ChainOk(files, engineer, Some(p)) && p.state.Pending?
    requires LinkOk(files, engineer, p.(state := state))
    ensures ChainOk(files, engineer, Some(p.(state := state)))
  {
    assert SameElsewhere(p.id, files, files);
    hide ChainShape, LinkOk, SameFilesAt;
    var q, older := p.(state := state), p.intent.previous;
    ShapeSplit(p);
    LineagePush(older, p);
    LineagePush(older, q);
    LinksPush(files, files, engineer, Lineage(older), q);
  }

  // ----- epochs -----

  lemma {:induction false} HistoryGrows(initial: Pin, ids: seq<Id>, more: seq<Id>, pointer: Option<Pointer>)
    requires HistoryOk(initial, ids, pointer) && ids <= more
    ensures HistoryOk(initial, more, pointer)
    decreases pointer
  {
    if pointer.Some? {
      HistoryGrows(initial, ids, more, pointer.value.intent.previous);
      if pointer.value.state.CommittedAt? {
        var n := pointer.value.state.record.boundary;
        assert more[..n] == ids[..n];
      }
    }
  }

  /** The newest epoch opens after at most all retained requests. */
  lemma {:induction false} LastEpochFrom(initial: Pin, ids: seq<Id>, pointer: Option<Pointer>)
    requires HistoryOk(initial, ids, pointer)
    ensures 1 <= LastEpoch(History(initial, pointer)).from <= |ids| + 1
    decreases pointer
  {
    if pointer.Some? { LastEpochFrom(initial, ids, pointer.value.intent.previous); }
  }

  lemma IndexPush(h: seq<Epoch>, e: Epoch, order: nat)
    requires h != []
    ensures EpochIndex(h + [e], order) == if e.from <= order then |h| else EpochIndex(h, order)
  {
    assert (h + [e])[..|h|] == h;
  }

  predicate SameOpenings(a: seq<Epoch>, b: seq<Epoch>) {
    |a| == |b| && forall k :: 0 <= k < |a| ==> a[k].from == b[k].from
  }

  lemma {:induction false} IndexByOpenings(a: seq<Epoch>, b: seq<Epoch>, order: nat)
    requires a != [] && SameOpenings(a, b)
    ensures EpochIndex(a, order) == EpochIndex(b, order)
    decreases |a|
  {
    if |a| > 1 && LastEpoch(a).from > order {
      IndexByOpenings(a[..|a| - 1], b[..|b| - 1], order);
    }
  }

  /** Resolutions fill in an epoch's expectation; they never move an epoch. */
  predicate SameEpochs(a: seq<Epoch>, b: seq<Epoch>) {
    && |a| == |b|
    && forall k :: 0 <= k < |a| ==> b[k] == a[k].(expected := b[k].expected, resolved := b[k].resolved)
  }

  lemma {:induction false} ResolveAllKeeps(h: seq<Epoch>, pointers: seq<ResolutionPointer>)
    requires h != []
    ensures SameEpochs(h, ResolveAll(h, pointers))
  {
    if pointers != [] { ResolveAllKeeps(h, pointers[..|pointers| - 1]); }
  }

  lemma ResolvedIndex(h: seq<Epoch>, pointers: seq<ResolutionPointer>, order: nat)
    requires h != []
    ensures EpochIndex(ResolveAll(h, pointers), order) == EpochIndex(h, order)
  {
    ResolveAllKeeps(h, pointers);
    IndexByOpenings(h, ResolveAll(h, pointers), order);
  }

  lemma ResolvePush(h: seq<Epoch>, e: Epoch, value: Resolution)
    requires h != [] && value.order < e.from
    ensures Resolve(h + [e], value) == Resolve(h, value) + [e]
  {
    IndexPush(h, e, value.order);
  }

  lemma {:induction false} ResolveAllPush(h: seq<Epoch>, e: Epoch, pointers: seq<ResolutionPointer>)
    requires h != []
    requires forall p :: p in pointers ==> p.record.order < e.from
    ensures ResolveAll(h + [e], pointers) == ResolveAll(h, pointers) + [e]
  {
    if pointers != [] {
      var n := |pointers| - 1;
      ResolveAllPush(h, e, pointers[..n]);
      ResolvePush(ResolveAll(h, pointers[..n]), e, pointers[n].record);
    }
  }

  /** An order below the newest opening is never in the newest epoch, unless there is only one. */
  lemma IndexLast(h: seq<Epoch>, order: nat)
    requires h != []
    ensures LastEpoch(h).from <= order ==> EpochIndex(h, order) == |h| - 1
    ensures |h| > 1 && order < LastEpoch(h).from ==> EpochIndex(h, order) < |h| - 1
  {
  }

  /** Before any resolution, no epoch is resolved, and the first one opens at order 1. */
  lemma {:induction false} HistoryUnresolved(initial: Pin, pointer: Option<Pointer>)
    ensures History(initial, pointer)[0].from == 1
    ensures forall k :: 0 <= k < |History(initial, pointer)| ==> History(initial, pointer)[k].resolved.None?
    decreases pointer
  {
    if pointer.Some? { HistoryUnresolved(initial, pointer.value.intent.previous); }
  }

  /** A pinned expectation always names its qualification, and only a family has one. */
  lemma {:induction false} LastEpochPinned(initial: Pin, ids: seq<Id>, pointer: Option<Pointer>)
    requires HistoryOk(initial, ids, pointer)
    ensures var last := LastEpoch(History(initial, pointer));
            last.qualified ==> last.selector.Family? && last.qualification.Some?
    decreases pointer
  {
    if pointer.Some? { LastEpochPinned(initial, ids, pointer.value.intent.previous); }
  }

  lemma {:induction false} LastSelectorOk(initial: Pin, ids: seq<Id>, pointer: Option<Pointer>)
    requires HistoryOk(initial, ids, pointer)
    ensures SelectorOk(LastEpoch(History(initial, pointer)).selector)
    decreases pointer
  {
    if pointer.Some? { LastSelectorOk(initial, ids, pointer.value.intent.previous); }
  }

  /** The epoch of a claimed resolution is resolved. */
  lemma {:induction false} ResolveAllMarks(h: seq<Epoch>, pointers: seq<ResolutionPointer>, i: nat)
    requires h != [] && i < |pointers|
    ensures ResolveAll(h, pointers)[EpochIndex(h, pointers[i].record.order)].resolved.Some?
  {
    var n := |pointers| - 1;
    ResolvedIndex(h, pointers[..n], pointers[n].record.order);
    if i < n { ResolveAllMarks(h, pointers[..n], i); }
  }

  /** An epoch no claimed resolution belongs to is left as it was opened. */
  lemma {:induction false} ResolveAllSkips(h: seq<Epoch>, pointers: seq<ResolutionPointer>, k: nat)
    requires k < |h|
    requires forall i :: 0 <= i < |pointers| ==> EpochIndex(h, pointers[i].record.order) != k
    ensures ResolveAll(h, pointers)[k] == h[k]
  {
    if pointers != [] {
      var n := |pointers| - 1;
      ResolveAllSkips(h, pointers[..n], k);
      ResolvedIndex(h, pointers[..n], pointers[n].record.order);
    }
  }

  // ----- resolutions -----

  /** More settled facts and more requests never unsettle a validated resolution. */
  lemma ResolutionGrows(h: seq<Epoch>, a: Ledger, b: Ledger, name: Id, value: Resolution)
    requires h != [] && ResolutionOk(h, a.session, a.requests, a.outcomes, name, value)
    requires a.session == b.session && a.outcomes <= b.outcomes
    requires |a.requests| <= |b.requests|
    requires var x, y := a.requests[value.order - 1], b.requests[value.order - 1];
             y == x.(state := y.state, receipt := y.receipt, outcome := y.outcome)
             && IsSettled(y) && y.receipt == x.receipt
    ensures ResolutionOk(h, b.session, b.requests, b.outcomes, name, value)
  {
  }

  // ----- the newest engineer request -----

  lemma {:induction false} LatestIsLatest(requests: seq<Request>, session: Option<string>, from: nat, k: nat)
    requires k < |requests| && IsEngineerRequest(session, requests[k]) && from <= k + 1
    ensures LatestEngineer(requests, session, from).Some?
    ensures k + 1 <= LatestEngineer(requests, session, from).value
  {
    var n := |requests| - 1;
    if !IsEngineerRequest(session, requests[n]) {
      LatestIsLatest(requests[..n], session, from, k);
    }
  }

  /** Who is an engineer request is all that the newest one depends on. */
  lemma {:induction false} LatestBySameRoles(a: seq<Request>, b: seq<Request>, session: Option<string>, from: nat)
    requires |a| == |b|
    requires forall k :: 0 <= k < |a| ==> (IsEngineerRequest(session, a[k]) <==> IsEngineerRequest(session, b[k]))
    ensures LatestEngineer(a, session, from) == LatestEngineer(b, session, from)
  {
    if a != [] { LatestBySameRoles(a[..|a| - 1], b[..|b| - 1], session, from); }
  }
}
