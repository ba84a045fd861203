/** What an accepted reading of the transcript proves about every launch, and the loops that read it. */
module ChildEvidenceProofs {
  import opened Values
  import opened ChildEvidence

  // ----- repeated rows -----

  lemma {:induction false} SeenKept(st: State, rows: seq<Row>)
    requires TakeRows(st, rows).Success?
    ensures forall id :: id in st.seen ==> id in TakeRows(st, rows).value.seen
                                           && TakeRows(st, rows).value.seen[id] == st.seen[id]
    decreases |rows|
  {
    if rows != [] {
      var n := |rows| - 1;
      SeenKept(st, rows[..n]);
      RowKeepsSeen(TakeRows(st, rows[..n]).value, rows[n]);
    }
  }

  lemma {:induction false} UsesKeepSeen(st: State, uuid: Option<Id>, blocks: seq<AssistantBlock>)
    requires TakeUses(st, uuid, blocks).Success?
    ensures TakeUses(st, uuid, blocks).value.seen == st.seen
    decreases |blocks|
  {
    if blocks != [] { UsesKeepSeen(st, uuid, blocks[..|blocks| - 1]); }
  }

  lemma {:induction false} BlocksKeepSeen(st: State, message: Message, count: nat, blocks: seq<UserBlock>)
    requires message.User? && TakeBlocks(st, message, count, blocks).Success?
    ensures TakeBlocks(st, message, count, blocks).value.seen == st.seen
    decreases |blocks|
  {
    if blocks != [] { BlocksKeepSeen(st, message, count, blocks[..|blocks| - 1]); }
  }

  lemma BodyKeepsSeen(st: State, row: Row)
    requires TakeBody(st, row).Success?
    ensures TakeBody(st, row).value.seen == st.seen
  {
    if row.body.Parent? {
      match row.body.message
      case Assistant(_, blocks) => UsesKeepSeen(st, row.uuid, blocks);
      case User(_, _, _, _, _, content) =>
        if content.Blocks? { BlocksKeepSeen(st, row.body.message, ResultBlocks(content.blocks), content.blocks); }
      case UnsupportedKind =>
    }
  }

  lemma RowKeepsSeen(st: State, row: Row)
    requires TakeRow(st, row).Success?
    ensures forall id :: id in st.seen ==>
              id in TakeRow(st, row).value.seen && TakeRow(st, row).value.seen[id] == st.seen[id]
    ensures Identified(row) ==>
              row.uuid.value in TakeRow(st, row).value.seen && TakeRow(st, row).value.seen[row.uuid.value] == row
  {
    if !Identified(row) {
      BodyKeepsSeen(st, row);
    } else if row.uuid.value !in st.seen {
      BodyKeepsSeen(st.(seen := st.seen[row.uuid.value := row]), row);
    }
  }

  lemma {:induction false} RowsConcat(st: State, a: seq<Row>, b: seq<Row>)
    ensures TakeRows(st, a + b)
            == if TakeRows(st, a).Refused? then Refused else TakeRows(TakeRows(st, a).value, b)
    decreases |b|
  {
    if b == [] {
      assert a + b == a;
    } else {
      var n := |b| - 1;
      RowsConcat(st, a, b[..n]);
      assert (a + b)[..|a + b| - 1] == a + b[..n];
    }
  }

  lemma RowsOne(st: State, row: Row)
    ensures TakeRows(st, [row]) == TakeRow(st, row)
  {
    assert [row][..0] == [];
  }

  /** After a row with an identity was read, reading the identical row again changes nothing, and any other row
      with that identity refuses. */
  lemma RepeatedRow(st: State, a: seq<Row>, row: Row, b: seq<Row>, again: Row)
    requires Identified(row) && again.uuid == row.uuid && TakeRows(st, a + [row] + b).Success?
    ensures TakeRows(st, a + [row] + b + [again])
            == if again == row then TakeRows(st, a + [row] + b) else Refused
  {
    RowsConcat(st, a + [row], b);
    RowsConcat(st, a, [row]);
    var mid := TakeRows(st, a + [row]).value;
    RowsOne(TakeRows(st, a).value, row);
    RowKeepsSeen(TakeRows(st, a).value, row);
    SeenKept(mid, b);
    RowsConcat(st, a + [row] + b, [again]);
    RowsOne(TakeRows(st, a + [row] + b).value, again);
  }

  /** Repeating an identical identified row anywhere later leaves the whole reading as it was. */
  lemma DuplicateNoop(st: State, a: seq<Row>, row: Row, b: seq<Row>, c: seq<Row>)
    requires Identified(row) && TakeRows(st, a + [row] + b).Success?
    ensures TakeRows(st, a + [row] + b + [row] + c) == TakeRows(st, a + [row] + b + c)
  {
    RepeatedRow(st, a, row, b, row);
    RowsConcat(st, a + [row] + b + [row], c);
    RowsConcat(st, a + [row] + b, c);
  }

  // ----- the shape of what was collected -----

  predicate StateOk(st: State) {
    && Distinct(st.order) && Elements(st.order) == st.launches.Keys
    && (forall id :: id in st.notifications ==> st.notifications[id] != [])
    && (forall id :: id in st.launches ==> id in st.tools && id != "")
  }

  lemma UseOk(st: State, uuid: Option<Id>, block: AssistantBlock)
    requires StateOk(st) && TakeUse(st, uuid, block).Success?
    ensures StateOk(TakeUse(st, uuid, block).value)
  {
    if block.ToolUse? && block.id !in st.tools && IsLaunch(block.name) {
      assert block.id !in Elements(st.order);
      assert Elements(st.order + [block.id]) == Elements(st.order) + {block.id};
    }
  }

  lemma {:induction false} UsesOk(st: State, uuid: Option<Id>, blocks: seq<AssistantBlock>)
    requires StateOk(st) && TakeUses(st, uuid, blocks).Success?
    ensures StateOk(TakeUses(st, uuid, blocks).value)
    decreases |blocks|
  {
    if blocks != [] {
      var n := |blocks| - 1;
      UsesOk(st, uuid, blocks[..n]);
      UseOk(TakeUses(st, uuid, blocks[..n]).value, uuid, blocks[n]);
    }
  }

  lemma {:induction false} BlocksOk(st: State, message: Message, count: nat, blocks: seq<UserBlock>)
    requires message.User? && StateOk(st) && TakeBlocks(st, message, count, blocks).Success?
    ensures StateOk(TakeBlocks(st, message, count, blocks).value)
    decreases |blocks|
  {
    if blocks != [] { BlocksOk(st, message, count, blocks[..|blocks| - 1]); }
  }

  lemma BodyOk(st: State, row: Row)
    requires StateOk(st) && TakeBody(st, row).Success?
    ensures StateOk(TakeBody(st, row).value)
  {
    if row.body.Parent? {
      match row.body.message
      case Assistant(_, blocks) => UsesOk(st, row.uuid, blocks);
      case User(_, _, _, _, _, content) =>
        if content.Blocks? { BlocksOk(st, row.body.message, ResultBlocks(content.blocks), content.blocks); }
      case UnsupportedKind =>
    }
  }

  lemma {:induction false} RowsOk(rows: seq<Row>)
    requires TakeRows(START, rows).Success?
    ensures StateOk(TakeRows(START, rows).value)
    decreases |rows|
  {
    if rows != [] {
      var n := |rows| - 1;
      RowsOk(rows[..n]);
      var st, row := TakeRows(START, rows[..n]).value, rows[n];
      if !Identified(row) { BodyOk(st, row); }
      else if row.uuid.value !in st.seen { BodyOk(st.(seen := st.seen[row.uuid.value := row]), row); }
    }
  }

  // ----- the verdict -----

  datatype Ending = Ending(projection: Projection, disposition: Disposition)

  function Items(st: State, id: Id): seq<Item> { if id in st.results then st.results[id] else [] }

  function Notices(st: State, id: Id): seq<Notification> { if id in st.notifications then st.notifications[id] else [] }

  function EndOf(st: State, guards: set<Id>, id: Id): Result<Ending>
    requires id in st.launches
  {
    var launch := st.launches[id];
    if !ResultsOk(Items(st, id), launch) then Refused
    else
      var p := Agreed(Items(st, id), launch, guards);
      if p.Refused? then Refused
      else
        var d := DispositionOf(launch, p.value, Notices(st, id));
        if d.Refused? then Refused else Success(Ending(p.value, d.value))
  }

  predicate Exclusive(st: State, guards: set<Id>, a: Id, b: Id)
    requires a in st.launches && b in st.launches
    requires EndOf(st, guards, a).Success? && EndOf(st, guards, b).Success?
  {
    Identities(EndOf(st, guards, a).value.projection) !! Identities(EndOf(st, guards, b).value.projection)
  }

  predicate Accepted(st: State, guards: set<Id>) {
    && (forall id :: id in st.launches ==> EndOf(st, guards, id).Success?)
    && (forall a, b :: a in st.launches && b in st.launches && a != b ==> Exclusive(st, guards, a, b))
    && st.notifications.Keys <= st.launches.Keys
  }

  function Ended(st: State, guards: set<Id>, d: Disposition): set<Id>
    requires forall id :: id in st.launches ==> EndOf(st, guards, id).Success?
  {
    set id | id in st.launches && EndOf(st, guards, id).value.disposition == d
  }

  function Reports(st: State, guards: set<Id>): set<Id>
    requires forall id :: id in st.launches ==> EndOf(st, guards, id).Success?
  {
    set id | id in st.launches && EndOf(st, guards, id).value.disposition.Reported?
  }

  /** The background launches that did run. */
  function BackgroundRun(st: State, guards: set<Id>): set<Id>
    requires forall id :: id in st.launches ==> EndOf(st, guards, id).Success?
  {
    set id | id in st.launches && st.launches[id].background
             && EndOf(st, guards, id).value.projection.denial.None?
             && EndOf(st, guards, id).value.projection.blocked.None?
  }

  lemma ReportedIff(st: State, guards: set<Id>, id: Id)
    requires id in st.launches && EndOf(st, guards, id).Success?
    ensures var end := EndOf(st, guards, id).value;
      && (Notices(st, id) != [] <==> end.disposition.Reported?)
      && (end.disposition.Reported? <==>
            st.launches[id].background && end.projection.denial.None? && end.projection.blocked.None?)
  {
  }

  /** Terminal notifications are exactly those of the background launches that were neither denied nor blocked. */
  lemma NotificationsMatchBackground(st: State, guards: set<Id>)
    requires StateOk(st) && Accepted(st, guards)
    ensures st.notifications.Keys == BackgroundRun(st, guards) == Reports(st, guards)
  {
    forall id | id in st.launches
      ensures id in st.notifications <==> EndOf(st, guards, id).value.disposition.Reported?
      ensures id in BackgroundRun(st, guards) <==> EndOf(st, guards, id).value.disposition.Reported?
    {
      ReportedIff(st, guards, id);
    }
  }

  lemma SplitOff(all: set<Id>, part: set<Id>)
    requires part <= all
    ensures |all| == |part| + |all - part|
  {
    assert all == part + (all - part);
  }

  lemma SixParts(all: set<Id>, a: set<Id>, b: set<Id>, c: set<Id>, d: set<Id>, e: set<Id>, f: set<Id>)
    requires forall id :: id in all <==> id in a || id in b || id in c || id in d || id in e || id in f
    requires a !! b !! c !! d !! e !! f
    ensures |all| == |a| + |b| + |c| + |d| + |e| + |f|
  {
    SplitOff(all, a);
    SplitOff(all - a, b);
    SplitOff(all - a - b, c);
    SplitOff(all - a - b - c, d);
    SplitOff(all - a - b - c - d, e);
    assert all - a - b - c - d - e == f;
  }

  /** The disposition of each accepted launch. */
  function Dispositions(st: State, guards: set<Id>): map<Id, Disposition>
    requires forall id :: id in st.launches ==> EndOf(st, guards, id).Success?
  {
    map id | id in st.launches :: EndOf(st, guards, id).value.disposition
  }

  function With(ends: map<Id, Disposition>, d: Disposition): set<Id> { set id | id in ends && ends[id] == d }

  function Reporting(ends: map<Id, Disposition>): set<Id> { set id | id in ends && ends[id].Reported? }

  lemma DispositionParts(ends: map<Id, Disposition>)
    ensures |ends.Keys| == |With(ends, GuardDenied)| + |With(ends, HookBlocked)| + |Reporting(ends)|
                           + |With(ends, ApiError)| + |With(ends, FailedTyped)| + |With(ends, Completed)|
  {
    SixParts(ends.Keys, With(ends, GuardDenied), With(ends, HookBlocked), Reporting(ends), With(ends, ApiError),
             With(ends, FailedTyped), With(ends, Completed));
  }

  /** Every launch ends in exactly one way: the six dispositions add up to the launches. */
  lemma EveryLaunchEndsOnce(st: State, guards: set<Id>)
    requires Accepted(st, guards)
    ensures |st.launches.Keys|
            == |Ended(st, guards, GuardDenied)| + |Ended(st, guards, HookBlocked)| + |Reports(st, guards)|
               + |Ended(st, guards, ApiError)| + |Ended(st, guards, FailedTyped)| + |Ended(st, guards, Completed)|
  {
    DispositionParts(Dispositions(st, guards));
    ReportingIs(st, guards);
    EndedWith(st, guards, GuardDenied);
    EndedWith(st, guards, HookBlocked);
    EndedWith(st, guards, ApiError);
    EndedWith(st, guards, FailedTyped);
    EndedWith(st, guards, Completed);
  }

  lemma ReportingIs(st: State, guards: set<Id>)
    requires forall id :: id in st.launches ==> EndOf(st, guards, id).Success?
    ensures Dispositions(st, guards).Keys == st.launches.Keys
    ensures Reporting(Dispositions(st, guards)) == Reports(st, guards)
  {
  }

  lemma EndedWith(st: State, guards: set<Id>, d: Disposition)
    requires forall id :: id in st.launches ==> EndOf(st, guards, id).Success?
    ensures With(Dispositions(st, guards), d) == Ended(st, guards, d)
  {
  }

  /** What each disposition proves of its launch. A start acknowledgement alone is never an end. */
  lemma DispositionProof(st: State, guards: set<Id>, id: Id)
    requires id in st.launches && EndOf(st, guards, id).Success?
    ensures var launch, end, notices := st.launches[id], EndOf(st, guards, id).value, Notices(st, id);
      match end.disposition
      case GuardDenied => end.projection.error && notices == []
      case HookBlocked => end.projection.error && end.projection.denial.None? && notices == []
      case Reported(task) =>
        launch.background && notices != [] && (forall n :: n in notices ==> n.task == task)
        && ((TaskKind, task) in Identities(end.projection) || (AgentKind, task) in Identities(end.projection))
      case ApiError => !launch.background && notices == [] && end.projection.error
      case FailedTyped => !launch.background && notices == [] && end.projection.error
      case Completed => !launch.background && notices == [] && !end.projection.error
                        && end.projection.completion.Some?
                        && end.projection.completion.value.prompt == Some(launch.prompt)
  {
    var item := Items(st, id)[0];
    assert IdentityOf(item.structured).Success?;
  }

  /** Whatever the projection says comes from every result of the launch, each owned by the launching message. */
  lemma ResultsOwned(st: State, guards: set<Id>, id: Id, k: nat)
    requires id in st.launches && EndOf(st, guards, id).Success? && k < |Items(st, id)|
    ensures Some(Items(st, id)[k].source) == st.launches[id].rowUuid && !Items(st, id)[k].shared
    ensures Items(st, id)[k].canonical.Some? && Items(st, id)[k].error.Some?
    ensures ProjectionOf(Items(st, id)[k], st.launches[id], guards) == Success(EndOf(st, guards, id).value.projection)
  {
  }

  /** An agent or task identity belongs to one launch. */
  lemma IdentityNamesOneLaunch(st: State, guards: set<Id>, a: Id, b: Id, identity: (Kind, Id))
    requires Accepted(st, guards) && a in st.launches && b in st.launches
    requires identity in Identities(EndOf(st, guards, a).value.projection)
    requires identity in Identities(EndOf(st, guards, b).value.projection)
    ensures a == b
  {
    assert a == b || Exclusive(st, guards, a, b);
  }
}
