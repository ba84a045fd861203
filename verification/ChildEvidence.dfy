/** What one transcript alone proves about the children it launched. Unless each launch comes to exactly one proved
    end, the whole reading is refused. */
module ChildEvidence {
  import opened Values

  // ----- rows -----

  /** Message text of a failed tool result. The supported prefixes are distinct, so they are constructors here. */
  datatype Text =
    | ApiErrorText(detail: string)
    | GuardText(reason: string)
    | HookText(tool: string, guards: set<Id>, stderr: Stderr)
    | OtherText(value: string)

  datatype Stderr = InternalError(reason: string) | Denial(reason: string) | OtherStderr(value: string)

  datatype Field = Absent | Malformed | Given(id: Id)

  /** The row-level projection of a tool result; Wrapped is a text with the error prefix, completed says the
      whole completed shape is valid, and rest is everything else it holds. */
  datatype Structured =
    | Missing
    | Wrapped(text: Text)
    | Object(agentId: Field, taskId: Field, alias: Field, status: Option<string>, prompt: Option<string>,
             completed: bool, rest: int)
    | Unsupported

  datatype Notification = Notification(tool: Id, task: Id, rest: int)

  /** input holds what an Agent or Task launch must carry; background is none when the flag is not a boolean. */
  datatype LaunchInput = LaunchInput(prompt: string, background: Option<bool>)

  datatype AssistantBlock =
    | BrokenBlock
    | PlainBlock
    | ToolUse(id: Id, name: string, input: Option<LaunchInput>, arguments: int)

  datatype UserBlock =
    | BrokenUserBlock
    | ListedNotification
    | OtherBlock
    | ToolResult(tool: Id, canonical: Option<int>, error: Option<bool>, content: Option<Text>)

  datatype UserContent =
    | Prose
    | Notice(fields: Option<Notification>)
    | UnsupportedContent
    | Blocks(blocks: seq<UserBlock>)

  datatype Message =
    | Assistant(supported: bool, blocks: seq<AssistantBlock>)
    | User(supported: bool, human: bool, source: Id, structured: Structured, time: int, content: UserContent)
    | UnsupportedKind

  datatype Body =
    | Sidechain(named: bool)
    | NamedParent
    | NoMessage
    | Parent(owned: bool, message: Message)

  /** rest is everything else the row holds: two rows are the same only when they agree in all of it. */
  datatype Row = Row(uuid: Option<Id>, body: Body, rest: int)

  /** An absent or empty uuid identifies nothing. */
  predicate Identified(row: Row) { row.uuid.Some? && row.uuid.value != "" }

  // ----- what the rows collect -----

  datatype Launch = Launch(rowUuid: Option<Id>, name: string, background: bool, prompt: string)

  datatype Item = Item(source: Id, canonical: Option<int>, error: Option<bool>, content: Option<Text>,
                       structured: Structured, shared: bool, time: int)

  datatype State = State(launches: map<Id, Launch>, order: seq<Id>, tools: map<Id, AssistantBlock>,
                         results: map<Id, seq<Item>>, notifications: map<Id, seq<Notification>>, seen: map<Id, Row>)

  const START := State(map[], [], map[], map[], map[], map[])

  predicate IsLaunch(name: string) { name == "Agent" || name == "Task" }

  function TakeUse(st: State, uuid: Option<Id>, block: AssistantBlock): Result<State> {
    match block
    case BrokenBlock => Refused
    case PlainBlock => Success(st)
    case ToolUse(id, name, input, _) =>
      if id == "" || name == "" then Refused
      else if id in st.tools then (if st.tools[id] == block then Success(st) else Refused)
      else
        var known := st.(tools := st.tools[id := block]);
        if !IsLaunch(name) then Success(known)
        else if input.None? || input.value.prompt == "" || input.value.background.None? then Refused
        else
          var launch := Launch(uuid, name, input.value.background.value, input.value.prompt);
          Success(known.(launches := st.launches[id := launch], order := st.order + [id]))
  }

  function TakeUses(st: State, uuid: Option<Id>, blocks: seq<AssistantBlock>): Result<State> {
    if blocks == [] then Success(st)
    else
      var earlier := TakeUses(st, uuid, blocks[..|blocks| - 1]);
      if earlier.Refused? then Refused else TakeUse(earlier.value, uuid, blocks[|blocks| - 1])
  }

  function Append<T>(m: map<Id, seq<T>>, id: Id, x: T): map<Id, seq<T>> {
    m[id := (if id in m then m[id] else []) + [x]]
  }

  function ResultBlocks(blocks: seq<UserBlock>): nat {
    if blocks == [] then 0
    else ResultBlocks(blocks[..|blocks| - 1]) + if blocks[|blocks| - 1].ToolResult? then 1 else 0
  }

  function TakeBlock(st: State, message: Message, count: nat, block: UserBlock): Result<State>
    requires message.User?
  {
    match block
    case BrokenUserBlock => Refused
    case ListedNotification => Refused
    case OtherBlock => Success(st)
    case ToolResult(tool, canonical, error, content) =>
      if message.human || tool == "" || message.source == "" then Refused
      else
        var item := Item(message.source, canonical, error, content, message.structured,
                         count != 1 && !message.structured.Missing?, message.time);
        Success(st.(results := Append(st.results, tool, item)))
  }

  function TakeBlocks(st: State, message: Message, count: nat, blocks: seq<UserBlock>): Result<State>
    requires message.User?
  {
    if blocks == [] then Success(st)
    else
      var earlier := TakeBlocks(st, message, count, blocks[..|blocks| - 1]);
      if earlier.Refused? then Refused else TakeBlock(earlier.value, message, count, blocks[|blocks| - 1])
  }

  function TakeMessage(st: State, uuid: Option<Id>, message: Message): Result<State> {
    match message
    case Assistant(supported, blocks) => if supported then TakeUses(st, uuid, blocks) else Refused
    case User(supported, _, _, _, _, content) =>
      if !supported then Refused
      else (match content
            case Prose => Success(st)
            case Notice(fields) =>
              if fields.None? then Refused
              else Success(st.(notifications := Append(st.notifications, fields.value.tool, fields.value)))
            case UnsupportedContent => Refused
            case Blocks(blocks) => TakeBlocks(st, message, ResultBlocks(blocks), blocks))
    case UnsupportedKind => Refused
  }

  function TakeBody(st: State, row: Row): Result<State> {
    match row.body
    case Sidechain(named) => if named then Success(st) else Refused
    case NamedParent => Refused
    case NoMessage => Success(st)
    case Parent(owned, message) => if owned then TakeMessage(st, row.uuid, message) else Refused
  }

  /** A row with an identity counts once; another row with the same identity refuses. */
  function TakeRow(st: State, row: Row): Result<State> {
    if !Identified(row) then TakeBody(st, row)
    else if row.uuid.value in st.seen then (if st.seen[row.uuid.value] == row then Success(st) else Refused)
    else TakeBody(st.(seen := st.seen[row.uuid.value := row]), row)
  }

  function TakeRows(st: State, rows: seq<Row>): Result<State> {
    if rows == [] then Success(st)
    else
      var earlier := TakeRows(st, rows[..|rows| - 1]);
      if earlier.Refused? then Refused else TakeRow(earlier.value, rows[|rows| - 1])
  }

  // ----- what one result says of its child -----

  datatype Identity = Identity(agent: Option<Id>, task: Option<Id>)

  datatype Completion = Completion(agent: Id, fingerprint: Item, prompt: Option<string>)

  datatype Projection = Projection(canonical: int, error: bool, identity: Option<Identity>, status: Option<string>,
                                   completion: Option<Completion>, failed: bool, apiError: Option<Text>,
                                   denial: Option<Text>, blocked: Option<Text>)

  const FAILED_STATUS: set<string> := {"failed", "cancelled", "stopped", "error"}

  predicate Blank(s: string) { forall c :: c in s ==> c in {' ', '\t', '\n', '\r'} }

  function Known(field: Field): Option<Id> { if field.Given? then Some(field.id) else None }

  predicate Broken(field: Field) { field.Malformed? || field == Given("") }

  /** Explicit identities must be well formed, and the two names of a task must agree. */
  function IdentityOf(value: Structured): Result<Option<Identity>> {
    if !value.Object? then Success(None)
    else if Broken(value.agentId) || Broken(value.taskId) || Broken(value.alias) then Refused
    else if value.taskId.Given? && value.alias.Given? && value.taskId != value.alias then Refused
    else if value.agentId.Absent? && value.taskId.Absent? && value.alias.Absent? then Success(None)
    else Success(Some(Identity(Known(value.agentId),
                               if value.taskId.Given? then Known(value.taskId) else Known(value.alias))))
  }

  function CompletionOf(item: Item): Option<Completion> {
    var value := item.structured;
    if item.canonical.None? || !value.Object? || value.status != Some("completed") || !value.completed
       || !value.agentId.Given? || Broken(value.agentId) then None
    else Some(Completion(value.agentId.id, item, value.prompt))
  }

  predicate FailedLaunch(value: Structured, launch: Launch) {
    && value.Object? && value.status.Some? && value.status.value in FAILED_STATUS
    && IdentityOf(value).Success? && IdentityOf(value).value.Some?
    && (value.prompt.Some? ==> value.prompt.value == launch.prompt)
  }

  /** An error of the launching message whose projection is exactly the prefixed form of its own text. */
  predicate OwnError(item: Item, launch: Launch) {
    && item.error == Some(true) && !item.shared && Some(item.source) == launch.rowUuid
    && item.content.Some? && item.structured == Wrapped(item.content.value)
  }

  predicate ApiErrorOf(item: Item, launch: Launch) {
    && !launch.background && OwnError(item, launch)
    && item.content.value.ApiErrorText? && !Blank(item.content.value.detail)
  }

  predicate GuardDenialOf(item: Item, launch: Launch) {
    OwnError(item, launch) && item.content.value.GuardText? && !Blank(item.content.value.reason)
  }

  predicate HookBlockedOf(item: Item, launch: Launch, guards: set<Id>) {
    && OwnError(item, launch) && item.content.value.HookText?
    && item.content.value.tool == launch.name
    && item.content.value.guards * guards != {}
    && !item.content.value.stderr.OtherStderr? && !Blank(item.content.value.stderr.reason)
  }

  function When(holds: bool, text: Option<Text>): Option<Text> { if holds then text else None }

  function ProjectionOf(item: Item, launch: Launch, guards: set<Id>): Result<Projection>
    requires item.canonical.Some? && item.error.Some?
  {
    var identity := IdentityOf(item.structured);
    if identity.Refused? then Refused
    else Success(Projection(item.canonical.value, item.error.value, identity.value,
                            if item.structured.Object? then item.structured.status else None,
                            CompletionOf(item), FailedLaunch(item.structured, launch),
                            When(ApiErrorOf(item, launch), item.content),
                            When(GuardDenialOf(item, launch), item.content),
                            When(HookBlockedOf(item, launch, guards), item.content)))
  }

  predicate ProjectionOk(p: Projection) {
    && !(p.completion.Some? && p.failed) && !(p.completion.Some? && p.apiError.Some?) && !(p.failed && p.apiError.Some?)
    && (p.completion.Some? ==> !p.error)
    && (p.failed ==> p.error)
  }

  // ----- one launch -----

  /** How a launch ended. */
  datatype Disposition = GuardDenied | HookBlocked | Reported(task: Id) | ApiError | FailedTyped | Completed

  predicate ResultsOk(items: seq<Item>, launch: Launch) {
    && items != []
    && forall k :: 0 <= k < |items| ==>
         && Some(items[k].source) == launch.rowUuid
         && items[k].canonical.Some? && items[k].error.Some? && !items[k].shared
  }

  /** The one projection all results of a launch agree on. */
  function Agreed(items: seq<Item>, launch: Launch, guards: set<Id>): Result<Projection>
    requires ResultsOk(items, launch)
  {
    var first := ProjectionOf(items[0], launch, guards);
    if first.Refused? || !ProjectionOk(first.value) then Refused
    else if forall k :: 0 <= k < |items| ==> ProjectionOf(items[k], launch, guards) == first then first
    else Refused
  }

  datatype Kind = AgentKind | TaskKind

  function Named(kind: Kind, id: Option<Id>): set<(Kind, Id)> {
    if id.Some? && id.value != "" then {(kind, id.value)} else {}
  }

  function Agents(p: Projection): set<(Kind, Id)> {
    (if p.identity.Some? then Named(AgentKind, p.identity.value.agent) else {})
    + if p.completion.Some? then Named(AgentKind, Some(p.completion.value.agent)) else {}
  }

  function Identities(p: Projection): set<(Kind, Id)> {
    Agents(p) + if p.identity.Some? then Named(TaskKind, p.identity.value.task) else {}
  }

  /** The terminal notifications of a background launch agree and name its own task, or its own agent where it has
      no task identity. */
  function ReportedOf(p: Projection, notifications: seq<Notification>): Result<Disposition> {
    if notifications == [] then Refused
    else if exists k :: 0 <= k < |notifications| && notifications[k] != notifications[0] then Refused
    else
      var task := notifications[0].task;
      if p.identity.Some? && p.identity.value.task.Some? then
        (if task == p.identity.value.task.value then Success(Reported(task)) else Refused)
      else if (AgentKind, task) in Agents(p) then Success(Reported(task))
      else Refused
  }

  function DispositionOf(launch: Launch, p: Projection, notifications: seq<Notification>): Result<Disposition> {
    if p.denial.Some? then (if notifications == [] then Success(GuardDenied) else Refused)
    else if p.blocked.Some? then (if notifications == [] then Success(HookBlocked) else Refused)
    else if launch.background then ReportedOf(p, notifications)
    else if notifications != [] then Refused
    else if p.apiError.Some? then Success(ApiError)
    else if p.failed then Success(FailedTyped)
    else if p.completion.Some? && p.completion.value.prompt == Some(launch.prompt) then Success(Completed)
    else Refused
  }
}
