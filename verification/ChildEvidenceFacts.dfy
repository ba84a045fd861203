/** What the reading takes from the rows, and exactly when a launch has a proved end. */
module ChildEvidenceFacts {
  import opened Values
  import opened ChildEvidence
  import opened ChildEvidenceProofs

  // ----- nothing is overlooked -----

  function LaunchesOf(block: AssistantBlock): set<Id> {
    if block.ToolUse? && block.name in {"Agent", "Task"} then {block.id} else {}
  }

  function ResultsOf(block: UserBlock): set<Id> { if block.ToolResult? then {block.tool} else {} }

  function LaunchesIn(blocks: seq<AssistantBlock>): set<Id> {
    set b, id | b in blocks && id in LaunchesOf(b) :: id
  }

  function ResultsIn(blocks: seq<UserBlock>): set<Id> { set b, id | b in blocks && id in ResultsOf(b) :: id }

  /** The launches, results and terminal notifications a row holds. */
  datatype Ids = Ids(launches: set<Id>, results: set<Id>, notices: set<Id>) {
    function Plus(other: Ids): Ids {
      Ids(launches + other.launches, results + other.results, notices + other.notices)
    }
  }

  const NONE := Ids({}, {}, {})

  function IdsOf(row: Row): Ids {
    if !row.body.Parent? then NONE
    else match row.body.message
         case Assistant(_, blocks) => Ids(LaunchesIn(blocks), {}, {})
         case User(_, _, _, _, _, Notice(Some(n))) => Ids({}, {}, {n.tool})
         case User(_, _, _, _, _, Blocks(blocks)) => Ids({}, ResultsIn(blocks), {})
         case _ => NONE
  }

  function IdsIn(rows: seq<Row>): Ids {
    if rows == [] then NONE else IdsIn(rows[..|rows| - 1]).Plus(IdsOf(rows[|rows| - 1]))
  }

  function Collected(st: State): Ids { Ids(st.launches.Keys, st.results.Keys, st.notifications.Keys) }

  /** The tools remember which of them launched. */
  predicate ToolsOk(st: State) {
    && st.launches.Keys <= st.tools.Keys
    && forall id :: id in st.tools ==>
         && st.tools[id].ToolUse? && st.tools[id].id == id
         && (IsLaunch(st.tools[id].name) <==> id in st.launches)
  }

  lemma UseKeepsTools(st: State, uuid: Option<Id>, block: AssistantBlock)
    requires ToolsOk(st) && TakeUse(st, uuid, block).Success?
    ensures ToolsOk(TakeUse(st, uuid, block).value)
  {
  }

  lemma UseCollects(st: State, uuid: Option<Id>, block: AssistantBlock)
    requires ToolsOk(st) && TakeUse(st, uuid, block).Success?
    ensures Collected(TakeUse(st, uuid, block).value) == Collected(st).Plus(Ids(LaunchesOf(block), {}, {}))
  {
  }

  lemma LaunchesSnoc(blocks: seq<AssistantBlock>, block: AssistantBlock)
    ensures LaunchesIn(blocks + [block]) == LaunchesIn(blocks) + LaunchesOf(block)
  {
    assert forall b :: b in blocks + [block] <==> b in blocks || b == block;
    forall id | id in LaunchesIn(blocks) + LaunchesOf(block) ensures id in LaunchesIn(blocks + [block]) {
      if id in LaunchesOf(block) { assert block in blocks + [block]; }
    }
  }

  lemma BlockCollects(st: State, message: Message, count: nat, block: UserBlock)
    requires message.User? && ToolsOk(st) && TakeBlock(st, message, count, block).Success?
    ensures ToolsOk(TakeBlock(st, message, count, block).value)
    ensures Collected(TakeBlock(st, message, count, block).value) == Collected(st).Plus(Ids({}, ResultsOf(block), {}))
  {
  }

  lemma ResultsSnoc(blocks: seq<UserBlock>, block: UserBlock)
    ensures ResultsIn(blocks + [block]) == ResultsIn(blocks) + ResultsOf(block)
  {
    assert forall b :: b in blocks + [block] <==> b in blocks || b == block;
    forall id | id in ResultsIn(blocks) + ResultsOf(block) ensures id in ResultsIn(blocks + [block]) {
      if id in ResultsOf(block) { assert block in blocks + [block]; }
    }
  }

  lemma {:induction false} UsesCollect(st: State, uuid: Option<Id>, blocks: seq<AssistantBlock>)
    requires ToolsOk(st) && TakeUses(st, uuid, blocks).Success?
    ensures ToolsOk(TakeUses(st, uuid, blocks).value)
    ensures Collected(TakeUses(st, uuid, blocks).value) == Collected(st).Plus(Ids(LaunchesIn(blocks), {}, {}))
    decreases |blocks|
  {
    if blocks != [] {
      var n := |blocks| - 1;
      UsesSplit(st, uuid, blocks);
      hide *;
      UsesCollect(st, uuid, blocks[..n]);
      UseKeepsTools(TakeUses(st, uuid, blocks[..n]).value, uuid, blocks[n]);
      UseCollects(TakeUses(st, uuid, blocks[..n]).value, uuid, blocks[n]);
      assert blocks == blocks[..n] + [blocks[n]];
      LaunchesSnoc(blocks[..n], blocks[n]);
      LaunchesPlus(Collected(st), LaunchesIn(blocks[..n]), LaunchesOf(blocks[n]));
    } else {
      LaunchesPlus(Collected(st), {}, {});
    }
  }

  lemma UsesSplit(st: State, uuid: Option<Id>, blocks: seq<AssistantBlock>)
    requires blocks != [] && TakeUses(st, uuid, blocks).Success?
    ensures var n := |blocks| - 1;
            && TakeUses(st, uuid, blocks[..n]).Success?
            && TakeUses(st, uuid, blocks) == TakeUse(TakeUses(st, uuid, blocks[..n]).value, uuid, blocks[n])
  {
  }

  lemma LaunchesPlus(ids: Ids, a: set<Id>, b: set<Id>)
    ensures ids.Plus(Ids(a, {}, {})).Plus(Ids(b, {}, {})) == ids.Plus(Ids(a + b, {}, {}))
    ensures LaunchesIn([]) == {} && ids.Plus(Ids({}, {}, {})) == ids
  {
  }

  lemma {:induction false} BlocksCollect(st: State, message: Message, count: nat, blocks: seq<UserBlock>)
    requires message.User? && ToolsOk(st) && TakeBlocks(st, message, count, blocks).Success?
    ensures ToolsOk(TakeBlocks(st, message, count, blocks).value)
    ensures Collected(TakeBlocks(st, message, count, blocks).value)
            == Collected(st).Plus(Ids({}, ResultsIn(blocks), {}))
    decreases |blocks|
  {
    if blocks != [] {
      var n := |blocks| - 1;
      hide TakeBlock, ToolsOk, ResultsIn, ResultsOf;
      BlocksCollect(st, message, count, blocks[..n]);
      BlockCollects(TakeBlocks(st, message, count, blocks[..n]).value, message, count, blocks[n]);
      assert blocks == blocks[..n] + [blocks[n]];
      ResultsSnoc(blocks[..n], blocks[n]);
    }
  }

  lemma BodyCollects(st: State, row: Row)
    requires ToolsOk(st) && TakeBody(st, row).Success?
    ensures ToolsOk(TakeBody(st, row).value)
    ensures Collected(TakeBody(st, row).value) == Collected(st).Plus(IdsOf(row))
  {
    if row.body.Parent? {
      match row.body.message
      case Assistant(_, blocks) => UsesCollect(st, row.uuid, blocks);
      case User(_, _, _, _, _, content) =>
        if content.Blocks? { BlocksCollect(st, row.body.message, ResultBlocks(content.blocks), content.blocks); }
      case UnsupportedKind =>
    }
  }

  lemma {:induction false} IdsWithin(rows: seq<Row>, k: nat)
    requires k < |rows|
    ensures IdsIn(rows).Plus(IdsOf(rows[k])) == IdsIn(rows)
    decreases |rows|
  {
    if k < |rows| - 1 { IdsWithin(rows[..|rows| - 1], k); }
  }

  /** The reading overlooks nothing: what it collects are exactly the launches, results and terminal notifications its
      rows hold, and every row it remembers is one of them. */
  lemma {:induction false} CollectsAll(rows: seq<Row>)
    requires TakeRows(START, rows).Success?
    ensures ToolsOk(TakeRows(START, rows).value)
    ensures Collected(TakeRows(START, rows).value) == IdsIn(rows)
    ensures forall id :: id in TakeRows(START, rows).value.seen ==> TakeRows(START, rows).value.seen[id] in rows
    decreases |rows|
  {
    if rows != [] {
      var n := |rows| - 1;
      CollectsAll(rows[..n]);
      var st, row := TakeRows(START, rows[..n]).value, rows[n];
      if Identified(row) && row.uuid.value in st.seen {
        var k :| 0 <= k < n && rows[..n][k] == row;
        IdsWithin(rows[..n], k);
      } else {
        var known := if Identified(row) then st.(seen := st.seen[row.uuid.value := row]) else st;
        BodyCollects(known, row);
        BodyKeepsSeen(known, row);
      }
    }
  }

  // ----- and takes nothing for what it is not -----

  /** One of two or more results of a message that projects only one. */
  predicate SharesProjection(blocks: seq<UserBlock>, structured: Structured) {
    && !structured.Missing?
    && exists i, j :: 0 <= i < j < |blocks| && blocks[i].ToolResult? && blocks[j].ToolResult?
  }

  /** The row holds this result of the tool. */
  predicate HoldsResult(row: Row, id: Id, x: Item) {
    && row.body.Parent? && row.body.message.User? && row.body.message.content.Blocks?
    && var m := row.body.message;
    exists j :: 0 <= j < |m.content.blocks| && ResultIs(m, m.content.blocks[j], id, x)
  }

  predicate ResultIs(m: Message, block: UserBlock, id: Id, x: Item)
    requires m.User? && m.content.Blocks?
  {
    && block.ToolResult? && block.tool == id
    && x == Item(m.source, block.canonical, block.error, block.content, m.structured,
                 SharesProjection(m.content.blocks, m.structured), m.time)
  }

  predicate HoldsNotice(row: Row, id: Id, n: Notification) {
    && row.body.Parent? && row.body.message.User? && row.body.message.content == Notice(Some(n)) && n.tool == id
  }

  lemma {:induction false} CountedTwice(blocks: seq<UserBlock>)
    ensures ResultBlocks(blocks) >= 1 <==> exists i :: 0 <= i < |blocks| && blocks[i].ToolResult?
    ensures ResultBlocks(blocks) >= 2
            <==> exists i, j :: 0 <= i < j < |blocks| && blocks[i].ToolResult? && blocks[j].ToolResult?
    decreases |blocks|
  {
    if blocks != [] {
      var n := |blocks| - 1;
      CountedTwice(blocks[..n]);
      if i :| 0 <= i < n && blocks[..n][i].ToolResult? {
        assert blocks[n].ToolResult? ==> 0 <= i < n < |blocks| && blocks[i].ToolResult?;
      }
      if i, j :| 0 <= i < j < |blocks| && blocks[i].ToolResult? && blocks[j].ToolResult? {
        assert blocks[..n][i].ToolResult? && (j < n ==> blocks[..n][j].ToolResult?);
      }
    }
  }

  /** The results of one tool that some of the first blocks are. */
  predicate FirstResults(m: Message, count: nat, blocks: seq<UserBlock>, id: Id, x: Item)
    requires m.User?
  {
    exists j :: 0 <= j < |blocks| && TakenAs(m, count, blocks[j], id, x)
  }

  predicate TakenAs(m: Message, count: nat, block: UserBlock, id: Id, x: Item)
    requires m.User?
  {
    && block.ToolResult? && block.tool == id
    && x == Item(m.source, block.canonical, block.error, block.content, m.structured,
                 count != 1 && !m.structured.Missing?, m.time)
  }

  lemma BlockItems(st: State, m: Message, count: nat, block: UserBlock, id: Id, x: Item)
    requires m.User? && TakeBlock(st, m, count, block).Success?
    ensures x in Items(TakeBlock(st, m, count, block).value, id)
            <==> x in Items(st, id) || TakenAs(m, count, block, id, x)
    ensures TakeBlock(st, m, count, block).value.notifications == st.notifications
  {
  }

  lemma {:induction false} BlocksItems(st: State, m: Message, count: nat, blocks: seq<UserBlock>, id: Id, x: Item)
    requires m.User? && TakeBlocks(st, m, count, blocks).Success?
    ensures x in Items(TakeBlocks(st, m, count, blocks).value, id)
            <==> x in Items(st, id) || FirstResults(m, count, blocks, id, x)
    ensures TakeBlocks(st, m, count, blocks).value.notifications == st.notifications
    decreases |blocks|
  {
    if blocks != [] {
      var n := |blocks| - 1;
      hide TakeBlock, Items, TakenAs;
      BlocksItems(st, m, count, blocks[..n], id, x);
      BlockItems(TakeBlocks(st, m, count, blocks[..n]).value, m, count, blocks[n], id, x);
      if FirstResults(m, count, blocks[..n], id, x) {
        var j :| 0 <= j < n && TakenAs(m, count, blocks[..n][j], id, x);
        assert TakenAs(m, count, blocks[j], id, x);
      }
      if FirstResults(m, count, blocks, id, x) {
        var j :| 0 <= j < |blocks| && TakenAs(m, count, blocks[j], id, x);
        if j < n { assert TakenAs(m, count, blocks[..n][j], id, x); }
      }
    }
  }

  lemma SharedIs(m: Message, id: Id, x: Item)
    requires m.User? && m.content.Blocks?
    ensures FirstResults(m, ResultBlocks(m.content.blocks), m.content.blocks, id, x)
            <==> exists j :: 0 <= j < |m.content.blocks| && ResultIs(m, m.content.blocks[j], id, x)
  {
    var blocks := m.content.blocks;
    CountedTwice(blocks);
    forall j | 0 <= j < |blocks|
      ensures TakenAs(m, ResultBlocks(blocks), blocks[j], id, x) <==> ResultIs(m, blocks[j], id, x)
    {
    }
  }

  lemma {:induction false} UsesKeepItems(st: State, uuid: Option<Id>, blocks: seq<AssistantBlock>)
    requires TakeUses(st, uuid, blocks).Success?
    ensures TakeUses(st, uuid, blocks).value.results == st.results
    ensures TakeUses(st, uuid, blocks).value.notifications == st.notifications
    decreases |blocks|
  {
    if blocks != [] { UsesKeepItems(st, uuid, blocks[..|blocks| - 1]); }
  }

  lemma BodyItems(st: State, row: Row, id: Id, x: Item)
    requires TakeBody(st, row).Success?
    ensures x in Items(TakeBody(st, row).value, id) <==> x in Items(st, id) || HoldsResult(row, id, x)
  {
    hide ResultIs;
    if row.body.Parent? {
      match row.body.message
      case Assistant(_, blocks) => UsesKeepItems(st, row.uuid, blocks);
      case User(_, _, _, _, _, content) =>
        if content.Blocks? {
          BlocksItems(st, row.body.message, ResultBlocks(content.blocks), content.blocks, id, x);
          SharedIs(row.body.message, id, x);
        }
      case UnsupportedKind =>
    }
  }

  lemma BodyNotices(st: State, row: Row, id: Id, n: Notification)
    requires TakeBody(st, row).Success?
    ensures n in Notices(TakeBody(st, row).value, id) <==> n in Notices(st, id) || HoldsNotice(row, id, n)
  {
    if row.body.Parent? {
      match row.body.message
      case Assistant(_, blocks) => UsesKeepItems(st, row.uuid, blocks);
      case User(_, _, _, _, _, content) =>
        if content.Blocks? {
          BlocksKeepNotices(st, row.body.message, ResultBlocks(content.blocks), content.blocks);
        }
      case UnsupportedKind =>
    }
  }

  lemma {:induction false} BlocksKeepNotices(st: State, m: Message, count: nat, blocks: seq<UserBlock>)
    requires m.User? && TakeBlocks(st, m, count, blocks).Success?
    ensures TakeBlocks(st, m, count, blocks).value.notifications == st.notifications
    decreases |blocks|
  {
    if blocks != [] { BlocksKeepNotices(st, m, count, blocks[..|blocks| - 1]); }
  }

  /** A result is collected for a tool exactly if some row holds it, marked when its message projects another result too. */
  lemma {:induction false} ResultsHeld(rows: seq<Row>, id: Id, x: Item)
    requires TakeRows(START, rows).Success?
    ensures x in Items(TakeRows(START, rows).value, id)
            <==> exists k :: 0 <= k < |rows| && HoldsResult(rows[k], id, x)
    decreases |rows|
  {
    if rows != [] {
      var n := |rows| - 1;
      hide HoldsResult, TakeBody;
      ResultsHeld(rows[..n], id, x);
      CollectsAll(rows[..n]);
      var st, row := TakeRows(START, rows[..n]).value, rows[n];
      if Identified(row) && row.uuid.value in st.seen {
        var k :| 0 <= k < n && rows[..n][k] == row;
      } else {
        BodyItems(if Identified(row) then st.(seen := st.seen[row.uuid.value := row]) else st, row, id, x);
      }
      assert forall k :: 0 <= k < n ==> rows[..n][k] == rows[k];
    }
  }

  /** And a terminal notification exactly if some row is one. */
  lemma {:induction false} NoticesHeld(rows: seq<Row>, id: Id, x: Notification)
    requires TakeRows(START, rows).Success?
    ensures x in Notices(TakeRows(START, rows).value, id)
            <==> exists k :: 0 <= k < |rows| && HoldsNotice(rows[k], id, x)
    decreases |rows|
  {
    if rows != [] {
      var n := |rows| - 1;
      hide HoldsNotice, TakeBody;
      NoticesHeld(rows[..n], id, x);
      CollectsAll(rows[..n]);
      var st, row := TakeRows(START, rows[..n]).value, rows[n];
      if Identified(row) && row.uuid.value in st.seen {
        var k :| 0 <= k < n && rows[..n][k] == row;
      } else {
        BodyNotices(if Identified(row) then st.(seen := st.seen[row.uuid.value := row]) else st, row, id, x);
      }
      assert forall k :: 0 <= k < n ==> rows[..n][k] == rows[k];
    }
  }

  /** The row holds this launch: an Agent or Task use with a prompt, in the background or not. */
  predicate HoldsLaunch(row: Row, id: Id, launch: Launch) {
    && row.body.Parent? && row.body.message.Assistant?
    && var blocks := row.body.message.blocks;
    exists j :: 0 <= j < |blocks| && LaunchIs(row.uuid, blocks[j], id, launch)
  }

  predicate LaunchIs(uuid: Option<Id>, block: AssistantBlock, id: Id, launch: Launch) {
    && block.ToolUse? && block.id == id && block.name in {"Agent", "Task"}
    && block.input == Some(LaunchInput(launch.prompt, Some(launch.background))) && launch.prompt != ""
    && launch.rowUuid == uuid && launch.name == block.name
  }

  lemma UseLaunches(st: State, uuid: Option<Id>, block: AssistantBlock, id: Id)
    requires TakeUse(st, uuid, block).Success? && id in TakeUse(st, uuid, block).value.launches
    ensures var launch := TakeUse(st, uuid, block).value.launches[id];
            (id in st.launches && st.launches[id] == launch) || LaunchIs(uuid, block, id, launch)
  {
  }

  lemma {:induction false} UsesLaunch(st: State, uuid: Option<Id>, blocks: seq<AssistantBlock>, id: Id)
    requires TakeUses(st, uuid, blocks).Success? && id in TakeUses(st, uuid, blocks).value.launches
    ensures var launch := TakeUses(st, uuid, blocks).value.launches[id];
            || (id in st.launches && st.launches[id] == launch)
            || exists j :: 0 <= j < |blocks| && LaunchIs(uuid, blocks[j], id, launch)
    decreases |blocks|
  {
    if blocks != [] {
      var n := |blocks| - 1;
      hide TakeUse, LaunchIs;
      var launch := TakeUses(st, uuid, blocks).value.launches[id];
      UseLaunches(TakeUses(st, uuid, blocks[..n]).value, uuid, blocks[n], id);
      if !LaunchIs(uuid, blocks[n], id, launch) {
        UsesLaunch(st, uuid, blocks[..n], id);
        assert forall j :: 0 <= j < n ==> blocks[..n][j] == blocks[j];
      }
    }
  }

  lemma {:induction false} BlocksKeepLaunches(st: State, m: Message, count: nat, blocks: seq<UserBlock>)
    requires m.User? && TakeBlocks(st, m, count, blocks).Success?
    ensures TakeBlocks(st, m, count, blocks).value.launches == st.launches
    decreases |blocks|
  {
    if blocks != [] { BlocksKeepLaunches(st, m, count, blocks[..|blocks| - 1]); }
  }

  lemma BodyLaunches(st: State, row: Row, id: Id)
    requires TakeBody(st, row).Success? && id in TakeBody(st, row).value.launches
    ensures var launch := TakeBody(st, row).value.launches[id];
            (id in st.launches && st.launches[id] == launch) || HoldsLaunch(row, id, launch)
  {
    hide LaunchIs;
    if row.body.Parent? {
      match row.body.message
      case Assistant(_, blocks) => UsesLaunch(st, row.uuid, blocks, id);
      case User(_, _, _, _, _, content) =>
        if content.Blocks? {
          BlocksKeepLaunches(st, row.body.message, ResultBlocks(content.blocks), content.blocks);
        }
      case UnsupportedKind =>
    }
  }

  /** And every launch it knows is as some row holds it. */
  lemma {:induction false} LaunchesHeld(rows: seq<Row>, id: Id)
    requires TakeRows(START, rows).Success? && id in TakeRows(START, rows).value.launches
    ensures exists k :: 0 <= k < |rows| && HoldsLaunch(rows[k], id, TakeRows(START, rows).value.launches[id])
    decreases |rows|
  {
    var n := |rows| - 1;
    hide HoldsLaunch, TakeBody;
    var st, row := TakeRows(START, rows[..n]).value, rows[n];
    var launch := TakeRows(START, rows).value.launches[id];
    if !(Identified(row) && row.uuid.value in st.seen) {
      BodyLaunches(if Identified(row) then st.(seen := st.seen[row.uuid.value := row]) else st, row, id);
    }
    if !HoldsLaunch(row, id, launch) {
      LaunchesHeld(rows[..n], id);
      assert forall k :: 0 <= k < n ==> rows[..n][k] == rows[k];
    }
  }

  // ----- what one result shows -----

  predicate Named(field: Field) { field.Absent? || (field.Given? && field.id != "") }

  /** The result names its child by well-formed identities, under one task name. */
  predicate NamesAgree(value: Structured) {
    value.Object? ==>
      && Named(value.agentId) && Named(value.taskId) && Named(value.alias)
      && (value.taskId.Given? && value.alias.Given? ==> value.taskId.id == value.alias.id)
  }

  /** An unshared error of the launching message with this text, which its projection repeats behind the error prefix. */
  predicate FailsWith(item: Item, launch: Launch, text: Text) {
    && item.error == Some(true) && !item.shared && Some(item.source) == launch.rowUuid
    && item.content == Some(text) && item.structured == Wrapped(text)
  }

  predicate Said(s: string) { exists k :: 0 <= k < |s| && s[k] !in {' ', '\t', '\n', '\r'} }

  lemma SaidIff(s: string)
    ensures Said(s) <==> !Blank(s)
  {
    if !Blank(s) {
      var c :| c in s && c !in {' ', '\t', '\n', '\r'};
      var k :| 0 <= k < |s| && s[k] == c;
    }
    if k :| 0 <= k < |s| && s[k] !in {' ', '\t', '\n', '\r'} { assert s[k] in s; }
  }

  /** A guard of the room named the launching tool and gave its reason. */
  predicate BlockedBy(text: Text, launch: Launch, guards: set<Id>) {
    && text.HookText? && text.tool == launch.name && (exists g :: g in text.guards && g in guards)
    && (text.stderr.InternalError? || text.stderr.Denial?) && Said(text.stderr.reason)
  }

  /** A typed failure of a named child, for this launch's prompt if it repeats one. */
  predicate TypedFailure(value: Structured, launch: Launch) {
    && value.Object? && NamesAgree(value)
    && (value.status == Some("failed") || value.status == Some("cancelled") || value.status == Some("stopped")
        || value.status == Some("error"))
    && (value.agentId.Given? || value.taskId.Given? || value.alias.Given?)
    && (value.prompt.None? || value.prompt == Some(launch.prompt))
  }

  /** A complete report of a named agent. */
  predicate FullReport(value: Structured, agent: Id) {
    && value.Object? && value.status == Some("completed") && value.completed && value.agentId == Given(agent)
    && agent != ""
  }

  /** What one classified result shows: nothing at all unless its identities agree; otherwise a denial, a block, an API
      error, a typed failure or a completion exactly where its fields say so. */
  lemma ProjectionIff(item: Item, launch: Launch, guards: set<Id>)
    requires item.canonical.Some? && item.error.Some?
    ensures ProjectionOf(item, launch, guards).Success? <==> NamesAgree(item.structured)
    ensures ProjectionOf(item, launch, guards).Success? ==>
      var p := ProjectionOf(item, launch, guards).value;
      && (forall t :: p.denial == Some(t) <==> FailsWith(item, launch, t) && t.GuardText? && Said(t.reason))
      && (forall t :: p.blocked == Some(t) <==> FailsWith(item, launch, t) && BlockedBy(t, launch, guards))
      && (forall t :: p.apiError == Some(t)
                      <==> FailsWith(item, launch, t) && !launch.background && t.ApiErrorText? && Said(t.detail))
      && (p.failed <==> TypedFailure(item.structured, launch))
      && (forall agent :: FullReport(item.structured, agent) ==>
                            p.completion == Some(Completion(agent, item, item.structured.prompt)))
      && (p.completion.Some? ==> FullReport(item.structured, p.completion.value.agent))
  {
    hide Blank, Said;
    if item.content.Some? {
      var t := item.content.value;
      match t
      case ApiErrorText(detail) => SaidIff(detail);
      case GuardText(reason) => SaidIff(reason);
      case HookText(_, own, stderr) =>
        SaidIff(match stderr case InternalError(r) => r case Denial(r) => r case OtherStderr(r) => r);
        assert own * guards != {} <==> exists g :: g in own && g in guards by {
          if own * guards != {} { var g :| g in own * guards; }
          if g :| g in own && g in guards { assert g in own * guards; }
        }
      case OtherText(_) =>
    }
  }

  // ----- when a launch has ended -----

  /** The task a terminal notification must name: the launch's own task, or its agent where it has no task. */
  predicate OwnTask(p: Projection, task: Id) {
    if p.identity.Some? && p.identity.value.task.Some? then task == p.identity.value.task.value
    else task != "" && ((p.identity.Some? && p.identity.value.agent == Some(task))
                        || (p.completion.Some? && p.completion.value.agent == task))
  }

  predicate NotStopped(p: Projection) { p.denial.None? && p.blocked.None? }

  /** The evidence that shows the launch ended this way, and no other. */
  predicate Shows(launch: Launch, p: Projection, notices: seq<Notification>, d: Disposition) {
    match d
    case GuardDenied => p.denial.Some? && notices == []
    case HookBlocked => p.denial.None? && p.blocked.Some? && notices == []
    case Reported(task) =>
      && NotStopped(p) && launch.background && notices != [] && OwnTask(p, task)
      && (forall n :: n in notices ==> n == notices[0] && n.task == task)
    case ApiError => NotStopped(p) && !launch.background && notices == [] && p.apiError.Some?
    case FailedTyped => NotStopped(p) && !launch.background && notices == [] && p.apiError.None? && p.failed
    case Completed =>
      && NotStopped(p) && !launch.background && notices == [] && p.apiError.None? && !p.failed
      && p.completion.Some? && p.completion.value.prompt == Some(launch.prompt)
  }

  lemma ReportedAs(p: Projection, notices: seq<Notification>, task: Id)
    ensures ReportedOf(p, notices) == Success(Reported(task))
            <==> notices != [] && OwnTask(p, task) && (forall n :: n in notices ==> n == notices[0] && n.task == task)
  {
    if notices != [] {
      assert notices[0] in notices;
      if ReportedOf(p, notices) == Success(Reported(task)) {
        forall n | n in notices ensures n == notices[0] && n.task == task {
        }
      }
    }
  }

  lemma ShownIff(launch: Launch, p: Projection, notices: seq<Notification>, d: Disposition)
    ensures DispositionOf(launch, p, notices) == Success(d) <==> Shows(launch, p, notices, d)
  {
    if d.Reported? { ReportedAs(p, notices, d.task); }
  }

  /** A launch has ended in one way exactly when all its results are its own, classified and say the same, and that with
      its terminal notifications shows this end. */
  lemma EndIff(st: State, guards: set<Id>, id: Id, p: Projection, d: Disposition)
    requires id in st.launches
    ensures EndOf(st, guards, id) == Success(Ending(p, d))
            <==> && ResultsOk(Items(st, id), st.launches[id]) && ProjectionOk(p)
                 && (forall k :: 0 <= k < |Items(st, id)| ==>
                       ProjectionOf(Items(st, id)[k], st.launches[id], guards) == Success(p))
                 && Shows(st.launches[id], p, Notices(st, id), d)
  {
    hide ProjectionOf, ProjectionOk, DispositionOf, Shows;
    ShownIff(st.launches[id], p, Notices(st, id), d);
  }
}
