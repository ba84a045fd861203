/** Which boundaries a room can give notice of: exactly those its own commits opened, each as the change or the reset it
    was. */
module NoticeFacts {
  import opened Values
  import opened EngineeringModel
  import opened EngineeringTransition
  import opened JournalProofs
  import opened RoomRuns
  import opened TransitionSafety
  import opened TransitionProtocol
  import opened RoomTheorems
  import opened ModelBoundaries

  /** The attempt was committed by this record. */
  predicate CommittedBy(pointer: Option<Pointer>, link: Pointer, authority: Authority) {
    link in Lineage(pointer) && link.id == authority.request && link.state == CommittedAt(authority.record)
  }

  /** The attempt asked for the model that was already configured. */
  predicate AskedReset(link: Pointer) { link.intent.inputs.source == link.intent.inputs.target }

  /** The epoch was opened by this attempt, after the epoch of its source. */
  predicate OpenedBy(h: seq<Epoch>, k: nat, link: Pointer)
    requires 0 < k < |h|
  {
    && link.state.CommittedAt?
    && h[k].request == Some(link.id) && h[k].record == Some(link.state.record)
    && h[k].selector == link.intent.target.selector && h[k - 1].selector == link.intent.source
  }

  /** Every link of the lineage says of its record what the record says. */
  predicate RecordsMatch(links: seq<Pointer>) {
    forall link :: link in links && link.state.CommittedAt? ==> RecordMatches(link)
  }

  predicate RecordMatches(link: Pointer)
    requires link.state.CommittedAt?
  {
    link.state.record.target == link.intent.target && link.state.record.source == link.intent.source
  }

  lemma HeadOpened(initial: Pin, ids: seq<Id>, p: Pointer)
    requires HistoryOk(initial, ids, Some(p)) && p.state.CommittedAt? && RecordMatches(p)
    ensures |History(initial, Some(p))| > 1
    ensures OpenedBy(History(initial, Some(p)), |History(initial, Some(p))| - 1, p)
  {
  }

  lemma {:induction false} CommitsOpen(initial: Pin, ids: seq<Id>, pointer: Option<Pointer>, link: Pointer)
    requires HistoryOk(initial, ids, pointer) && RecordsMatch(Lineage(pointer))
    requires link in Lineage(pointer) && link.state.CommittedAt?
    ensures exists k :: 0 < k < |History(initial, pointer)| && OpenedBy(History(initial, pointer), k, link)
    decreases pointer
  {
    var p := pointer.value;
    var older, h := History(initial, p.intent.previous), History(initial, pointer);
    assert Lineage(pointer) == Lineage(p.intent.previous) + [p];
    if link == p {
      HeadOpened(initial, ids, p);
    } else {
      CommitsOpen(initial, ids, p.intent.previous, link);
      var k :| 0 < k < |older| && OpenedBy(older, k, link);
      assert older <= h && OpenedBy(h, k, link);
    }
  }

  lemma {:induction false} EpochsOpened(initial: Pin, ids: seq<Id>, pointer: Option<Pointer>, k: nat)
    requires HistoryOk(initial, ids, pointer) && RecordsMatch(Lineage(pointer)) && k < |History(initial, pointer)|
    requires History(initial, pointer)[k].record.Some?
    ensures k > 0 && exists link :: link in Lineage(pointer) && OpenedBy(History(initial, pointer), k, link)
    decreases pointer
  {
    if pointer.Some? {
      var p := pointer.value;
      var older, h := History(initial, p.intent.previous), History(initial, pointer);
      assert Lineage(pointer) == Lineage(p.intent.previous) + [p];
      if k < |older| {
        EpochsOpened(initial, ids, p.intent.previous, k);
        var link :| link in Lineage(p.intent.previous) && OpenedBy(older, k, link);
        assert link in Lineage(pointer) && OpenedBy(h, k, link);
      } else {
        assert p in Lineage(pointer) && OpenedBy(h, k, p);
      }
    }
  }

  lemma SoundMatches(d: Disk)
    requires Sound(d)
    ensures RecordsMatch(Lineage(d.room.pointer))
    ensures forall link :: link in Lineage(d.room.pointer) ==>
              && link.intent.inputs.source == link.intent.source.Configured()
              && link.intent.inputs.target == link.intent.target.selector.Configured()
  {
    forall link | link in Lineage(d.room.pointer)
      ensures link.state.CommittedAt? ==> RecordMatches(link)
      ensures link.intent.inputs.source == link.intent.source.Configured()
      ensures link.intent.inputs.target == link.intent.target.selector.Configured()
    {
      PublishedOk(d, link);
    }
  }

  lemma OpenedStays(h: seq<Epoch>, pointers: seq<ResolutionPointer>, k: nat, link: Pointer)
    requires 0 < k < |h|
    ensures |ResolveAll(h, pointers)| == |h|
    ensures OpenedBy(ResolveAll(h, pointers), k, link) <==> OpenedBy(h, k, link)
  {
    ResolveAllKeeps(h, pointers);
  }

  /** The epoch of an attempt's commit is named by its record, and it is a reset exactly if the attempt asked for one. */
  lemma NamedOpened(d: Disk, link: Pointer, authority: Authority)
    requires Sound(d) && CommittedBy(d.room.pointer, link, authority)
    ensures var k := Named(EpochsOf(d.room), authority, 0);
            k.Some? && 0 < k.value && OpenedBy(EpochsOf(d.room), k.value, link)
            && (IsReset(EpochsOf(d.room), k.value) <==> AskedReset(link))
  {
    var h, e := BaseHistory(d.room), EpochsOf(d.room);
    SoundMatches(d);
    CommitsOpen(d.room.initial, RequestIds(d.room.requests), d.room.pointer, link);
    var k :| 0 < k < |h| && OpenedBy(h, k, link);
    OpenedStays(h, d.room.resolutions, k, link);
    OnlyNamed(d, authority, k);
  }

  lemma OnlyNamed(d: Disk, authority: Authority, k: nat)
    requires Sound(d) && k < |EpochsOf(d.room)| && Names(EpochsOf(d.room)[k], authority)
    ensures Named(EpochsOf(d.room), authority, 0) == Some(k)
  {
    EpochRequests(d.room.initial, d.room.pointer);
    ResolveAllKeeps(BaseHistory(d.room), d.room.resolutions);
    SameOwnRequests(BaseHistory(d.room), EpochsOf(d.room), LineageIds(d.room.pointer));
    var found := Named(EpochsOf(d.room), authority, 0);
    assert Names(EpochsOf(d.room)[found.value], authority);
  }

  lemma NamedCommitted(d: Disk, authority: Authority)
    requires Sound(d) && Named(EpochsOf(d.room), authority, 0).Some?
    ensures exists link :: CommittedBy(d.room.pointer, link, authority)
  {
    var h, k := BaseHistory(d.room), Named(EpochsOf(d.room), authority, 0).value;
    SoundMatches(d);
    ResolveAllKeeps(h, d.room.resolutions);
    EpochsOpened(d.room.initial, RequestIds(d.room.requests), d.room.pointer, k);
    var link :| link in Lineage(d.room.pointer) && OpenedBy(h, k, link);
    assert CommittedBy(d.room.pointer, link, authority);
  }

  /** A reader with an order accepts a boundary exactly if one of the room's own attempts was committed by the record the
      authority names, and was the reset or the change the notice says it was. */
  lemma BoundaryIff(d: Disk, kind: Kind, authority: Authority, order: nat)
    requires Sound(d)
    ensures CommittedBoundary(EpochsOf(d.room), kind, authority, Some(order)).Success?
            <==> exists link :: CommittedBy(d.room.pointer, link, authority) && (kind == RootReset <==> AskedReset(link))
  {
    hide Sound, EpochsOf, IsReset, Named, AskedReset, CommittedBy;
    var e := EpochsOf(d.room);
    forall link | CommittedBy(d.room.pointer, link, authority)
      ensures CommittedBoundary(e, kind, authority, Some(order)).Success? <==> (kind == RootReset <==> AskedReset(link))
    {
      NamedOpened(d, link, authority);
    }
    if CommittedBoundary(e, kind, authority, Some(order)).Success? {
      NamedCommitted(d, authority);
    }
  }

  lemma SoundParts(d: Disk)
    requires Sound(d)
    ensures HistoryOk(d.room.initial, RequestIds(d.room.requests), d.room.pointer)
  {
  }

  lemma HeadResolved(room: Room, ids: seq<Id>, p: Pointer)
    requires HistoryOk(room.initial, ids, Some(p)) && p.state.CommittedAt? && RecordMatches(p) && room.pointer == Some(p)
    ensures |EpochsOf(room)| > 1 && OpenedBy(EpochsOf(room), |EpochsOf(room)| - 1, p)
  {
    hide HistoryOk, RecordMatches, OpenedBy, ResolveAll, History;
    HeadOpened(room.initial, ids, p);
    OpenedStays(History(room.initial, Some(p)), room.resolutions, |History(room.initial, Some(p))| - 1, p);
  }

  lemma HeadMatches(d: Disk, link: Pointer)
    requires Sound(d) && d.room.pointer == Some(link) && link.state.CommittedAt?
    ensures HistoryOk(d.room.initial, RequestIds(d.room.requests), Some(link)) && RecordMatches(link)
  {
    SoundParts(d);
    SoundMatches(d);
    HeadIn(link);
  }

  lemma HeadIn(pointer: Pointer)
    ensures pointer in Lineage(Some(pointer))
  {
    assert Lineage(Some(pointer)) == Lineage(pointer.intent.previous) + [pointer];
  }

  lemma NewestOpened(d: Disk, link: Pointer)
    requires Sound(d) && d.room.pointer == Some(link) && link.state.CommittedAt?
    ensures |EpochsOf(d.room)| > 1 && OpenedBy(EpochsOf(d.room), |EpochsOf(d.room)| - 1, link)
  {
    HeadMatches(d, link);
    hide *;
    HeadResolved(d.room, RequestIds(d.room.requests), link);
  }

  lemma HeadCommitted(pointer: Pointer)
    requires pointer.state.CommittedAt?
    ensures CommittedBy(Some(pointer), pointer, Authority(pointer.id, pointer.state.record))
  {
    HeadIn(pointer);
  }

  /** Once an attempt is committed the room gives notice of it as the newest boundary: under its own id and record, as the
      reset or the change it was, for the model it asked for. */
  lemma CommitGivesNotice(d: Disk, link: Pointer)
    requires Sound(d) && d.room.pointer == Some(link) && link.state.CommittedAt?
    ensures var b := CurrentRootBoundary(EpochsOf(d.room));
            && b.Some? && b.value.authority == Authority(link.id, link.state.record)
            && (b.value.kind == RootReset <==> AskedReset(link))
            && b.value.epoch.selector == link.intent.target.selector
  {
    hide Sound, CommittedBy, EpochsOf, IsReset, Named, AskedReset, Lineage;
    var authority := Authority(link.id, link.state.record);
    HeadCommitted(link);
    NamedOpened(d, link, authority);
    NewestOpened(d, link);
    OnlyNamed(d, authority, |EpochsOf(d.room)| - 1);
  }
}
