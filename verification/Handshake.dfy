/** The attachment handshake witness: it watches both directions of a JSON-RPC connection and calls ready once,
    only after the whole Model Context Protocol initialization and an exact tool listing. */
module Handshake {
  import opened Values
  import opened EvidenceScan

  /** A request id with its JSON type: the string "1" and the number 1 are different ids. */
  datatype Key = Text(s: string) | Number(n: int)

  datatype Verb = Initialize | Initialized | ToolsList | OtherVerb

  /** What the witness reads of one frame. verb is its method, none when it is absent or null; id when it is absent or not a
      string or integer; initParams and initResult say that the parameters or the result of an initialization are
      well formed; tools are the listed names when every row names its tool. */
  datatype Frame =
    | Broken
    | Message(verbKey: bool, verb: Option<Verb>, idKey: bool, id: Option<Key>, initParams: bool, error: bool,
              initResult: bool, tools: Option<multiset<string>>, nextCursor: bool)

  /** One observed frame; readyFails says that recording the receipt would fail. */
  datatype Seen = Seen(client: bool, frame: Frame, readyFails: bool)

  datatype Callback = Ready | ReadyFailed | Invalid

  /** The handshake fields; a pending id is dropped when its reply arrives. */
  datatype Core = Core(initializeId: Option<Key>, toolsId: Option<Key>, initializeSeen: bool, initializeOk: bool,
                       initialized: bool, toolsOk: bool)

  datatype State = State(core: Core, recorded: bool, failed: bool, calls: seq<Callback>)

  const START := State(Core(None, None, false, false, false, false), false, false, [])

  /** None rejects the frame. */
  function FromClient(c: Core, m: Frame): Option<Core>
    requires m.Message?
  {
    if m.verb == Some(Initialize) then
      (if c.initializeSeen || m.id.None? || !m.initParams then None
       else Some(c.(initializeSeen := true, initializeId := m.id)))
    else if m.verb == Some(Initialized) then
      (if !c.initializeSeen || c.initialized || m.idKey then None else Some(c.(initialized := true)))
    else if m.verb == Some(ToolsList) then
      (if !c.initializeSeen || m.id.None? || c.toolsId.Some? || m.id == c.initializeId then None
       else Some(c.(toolsId := m.id, toolsOk := false)))
    else if m.id.Some? && (m.id == c.initializeId || m.id == c.toolsId) then None
    else Some(c)
  }

  predicate InitReply(m: Frame)
    requires m.Message?
  {
    !m.error && m.initResult
  }

  predicate ToolsReply(m: Frame, expected: multiset<string>)
    requires m.Message?
  {
    !m.error && m.tools == Some(expected) && !m.nextCursor
  }

  function FromServer(c: Core, m: Frame, expected: multiset<string>): Option<Core>
    requires m.Message?
  {
    if m.verbKey || m.id.None? then Some(c)
    else if c.initializeSeen && m.id == c.initializeId then
      (if c.initializeOk || !InitReply(m) then None else Some(c.(initializeOk := true, initializeId := None)))
    else if m.id == c.toolsId then
      (if c.toolsOk || !ToolsReply(m, expected) then None else Some(c.(toolsOk := true, toolsId := None)))
    else Some(c)
  }

  function Read(c: Core, seen: Seen, expected: multiset<string>): Option<Core> {
    if seen.frame.Broken? then None
    else if seen.client then FromClient(c, seen.frame)
    else FromServer(c, seen.frame, expected)
  }

  predicate Complete(c: Core) { c.initializeOk && c.initialized && c.toolsOk }

  function Observe(st: State, seen: Seen, expected: multiset<string>): State {
    if st.failed then st
    else
      var core := Read(st.core, seen, expected);
      if core.None? then st.(failed := true, calls := st.calls + [Invalid])
      else if !Complete(core.value) || st.recorded then st.(core := core.value)
      else if seen.readyFails then State(core.value, false, true, st.calls + [ReadyFailed, Invalid])
      else State(core.value, true, false, st.calls + [Ready])
  }

  function ObserveAll(history: seq<Seen>, expected: multiset<string>): State {
    if history == [] then START
    else Observe(ObserveAll(history[..|history| - 1], expected), history[|history| - 1], expected)
  }

  // ----- what ready means, in terms of the frames alone -----

  predicate Sent(seen: Seen, client: bool) { seen.client == client && seen.frame.Message? }

  predicate Asks(seen: Seen, verb: Verb) { Sent(seen, true) && seen.frame.verb == Some(verb) }

  predicate Replies(seen: Seen, id: Option<Key>) {
    Sent(seen, false) && !seen.frame.verbKey && seen.frame.id.Some? && seen.frame.id == id
  }

  /** One initialize request, answered under its own typed id by a valid result. */
  predicate InitializedBy(history: seq<Seen>, i: nat, r: nat) {
    && i < r < |history| && Asks(history[i], Initialize) && history[i].frame.id.Some? && history[i].frame.initParams
    && Replies(history[r], history[i].frame.id) && InitReply(history[r].frame)
    && forall k :: 0 <= k < |history| && Asks(history[k], Initialize) ==> k == i
  }

  /** Exactly one initialized notification, after the initialize request. */
  predicate NotifiedBy(history: seq<Seen>, i: nat, n: nat) {
    && i < n < |history| && Asks(history[n], Initialized) && !history[n].frame.idKey
    && forall k :: 0 <= k < |history| && Asks(history[k], Initialized) ==> k == n
  }

  /** The latest tools/list request is answered under its own typed id with exactly the expected tools. */
  predicate ListedBy(history: seq<Seen>, expected: multiset<string>, t: nat, r: nat) {
    && t < r < |history| && Asks(history[t], ToolsList) && history[t].frame.id.Some?
    && Replies(history[r], history[t].frame.id) && ToolsReply(history[r].frame, expected)
    && forall k :: t < k < |history| ==> !Asks(history[k], ToolsList)
  }

  ghost predicate HandshakeDone(history: seq<Seen>, expected: multiset<string>) {
    exists i: nat, r: nat, n: nat, t: nat, l: nat :: Handshaken(history, expected, i, r, n, t, l)
  }

  predicate Handshaken(history: seq<Seen>, expected: multiset<string>, i: nat, r: nat, n: nat, t: nat, l: nat) {
    InitializedBy(history, i, r) && NotifiedBy(history, i, n) && ListedBy(history, expected, t, l) && i < t
  }

  // ----- the invariant -----

  /** The frames that moved the witness: the initialize request and its reply, the initialized notification, the
      latest tools/list request and its reply. */
  datatype Marks = Marks(init: nat, reply: nat, note: nat, list: nat, listed: nat)

  function Track(marks: Marks, before: Core, after: Core, k: nat): Marks {
    Marks(if after.initializeSeen && !before.initializeSeen then k else marks.init,
          if after.initializeOk && !before.initializeOk then k else marks.reply,
          if after.initialized && !before.initialized then k else marks.note,
          if after.toolsId.Some? && after.toolsId != before.toolsId then k else marks.list,
          if after.toolsOk && !before.toolsOk then k else marks.listed)
  }

  function MarksOf(history: seq<Seen>, expected: multiset<string>): Marks {
    if history == [] then Marks(0, 0, 0, 0, 0)
    else
      var n := |history| - 1;
      Track(MarksOf(history[..n], expected), ObserveAll(history[..n], expected).core,
            ObserveAll(history, expected).core, n)
  }

  predicate NeverAsked(history: seq<Seen>, verb: Verb) {
    forall k :: 0 <= k < |history| ==> !Asks(history[k], verb)
  }

  /** The initialize request stands alone, pending under its id or answered. */
  predicate InitOk(c: Core, m: Marks, history: seq<Seen>) {
    if !c.initializeSeen then NeverAsked(history, Initialize) && c.initializeId.None? && !c.initializeOk
    else
      && m.init < |history| && Asks(history[m.init], Initialize)
      && history[m.init].frame.id.Some? && history[m.init].frame.initParams
      && (forall k :: 0 <= k < |history| && Asks(history[k], Initialize) ==> k == m.init)
      && (!c.initializeOk ==>
            && c.initializeId == history[m.init].frame.id
            && forall k :: m.init < k < |history| ==> !Replies(history[k], c.initializeId))
      && (c.initializeOk ==> c.initializeId.None? && InitializedBy(history, m.init, m.reply))
  }

  predicate NoteOk(c: Core, m: Marks, history: seq<Seen>) {
    if !c.initialized then NeverAsked(history, Initialized)
    else c.initializeSeen && NotifiedBy(history, m.init, m.note)
  }

  /** The latest tools/list request is pending under an id of its own, or answered. */
  predicate ListOk(c: Core, m: Marks, history: seq<Seen>, expected: multiset<string>) {
    && (c.toolsId.Some? ==>
          && c.initializeSeen && !c.toolsOk && c.initializeId != c.toolsId
          && m.init < m.list < |history| && Asks(history[m.list], ToolsList)
          && history[m.list].frame.id == c.toolsId
          && forall k :: m.list < k < |history| ==>
               !Asks(history[k], ToolsList) && !Replies(history[k], c.toolsId))
    && (c.toolsId.None? && !c.toolsOk ==> NeverAsked(history, ToolsList))
    && (c.toolsOk ==> c.initializeSeen && m.init < m.list && ListedBy(history, expected, m.list, m.listed))
  }

  predicate Inv(c: Core, m: Marks, history: seq<Seen>, expected: multiset<string>) {
    InitOk(c, m, history) && NoteOk(c, m, history) && ListOk(c, m, history, expected)
  }

  lemma SnocAsked(history: seq<Seen>, seen: Seen, verb: Verb)
    ensures NeverAsked(history + [seen], verb) <==> NeverAsked(history, verb) && !Asks(seen, verb)
  {
    var all := history + [seen];
    assert all[|history|] == seen;
    assert forall k :: 0 <= k < |history| ==> all[k] == history[k];
  }

  lemma ReadInit(c: Core, m: Marks, history: seq<Seen>, seen: Seen, expected: multiset<string>)
    requires InitOk(c, m, history) && Read(c, seen, expected).Some?
    ensures var next := Read(c, seen, expected).value; InitOk(next, Track(m, c, next, |history|), history + [seen])
  {
    SnocAsked(history, seen, Initialize);
  }

  lemma ReadNote(c: Core, m: Marks, history: seq<Seen>, seen: Seen, expected: multiset<string>)
    requires InitOk(c, m, history) && NoteOk(c, m, history) && Read(c, seen, expected).Some?
    ensures var next := Read(c, seen, expected).value; NoteOk(next, Track(m, c, next, |history|), history + [seen])
  {
    SnocAsked(history, seen, Initialized);
  }

  lemma ClientList(c: Core, m: Marks, history: seq<Seen>, seen: Seen, expected: multiset<string>)
    requires InitOk(c, m, history) && ListOk(c, m, history, expected)
    requires Sent(seen, true) && FromClient(c, seen.frame).Some?
    ensures var next := FromClient(c, seen.frame).value;
      ListOk(next, Track(m, c, next, |history|), history + [seen], expected)
  {
    SnocAsked(history, seen, ToolsList);
  }

  lemma ServerList(c: Core, m: Marks, history: seq<Seen>, seen: Seen, expected: multiset<string>)
    requires InitOk(c, m, history) && ListOk(c, m, history, expected)
    requires Sent(seen, false) && FromServer(c, seen.frame, expected).Some?
    ensures var next := FromServer(c, seen.frame, expected).value;
      ListOk(next, Track(m, c, next, |history|), history + [seen], expected)
  {
    SnocAsked(history, seen, ToolsList);
  }

  lemma ReadKeeps(c: Core, m: Marks, history: seq<Seen>, seen: Seen, expected: multiset<string>)
    requires Inv(c, m, history, expected) && Read(c, seen, expected).Some?
    ensures var next := Read(c, seen, expected).value;
      Inv(next, Track(m, c, next, |history|), history + [seen], expected)
  {
    ReadInit(c, m, history, seen, expected);
    ReadNote(c, m, history, seen, expected);
    if seen.client { ClientList(c, m, history, seen, expected); } else { ServerList(c, m, history, seen, expected); }
  }

  lemma ObserveSnoc(history: seq<Seen>, seen: Seen, expected: multiset<string>)
    ensures ObserveAll(history + [seen], expected) == Observe(ObserveAll(history, expected), seen, expected)
    ensures MarksOf(history + [seen], expected)
            == Track(MarksOf(history, expected), ObserveAll(history, expected).core,
                     ObserveAll(history + [seen], expected).core, |history|)
  {
    assert (history + [seen])[..|history|] == history;
  }

  lemma {:induction false} HistoryInv(history: seq<Seen>, expected: multiset<string>)
    requires !ObserveAll(history, expected).failed
    ensures Inv(ObserveAll(history, expected).core, MarksOf(history, expected), history, expected)
    decreases |history|
  {
    if history != [] {
      var n := |history| - 1;
      assert history == history[..n] + [history[n]];
      ObserveSnoc(history[..n], history[n], expected);
      HistoryInv(history[..n], expected);
      ReadKeeps(ObserveAll(history[..n], expected).core, MarksOf(history[..n], expected), history[..n], history[n],
                expected);
    }
  }

  // ----- main results -----

  /** While it has not failed, the witness considers the handshake complete exactly when the frames show it. */
  lemma CompleteIff(history: seq<Seen>, expected: multiset<string>)
    requires !ObserveAll(history, expected).failed
    ensures Complete(ObserveAll(history, expected).core) <==> HandshakeDone(history, expected)
  {
    HistoryInv(history, expected);
    InvCompleteIff(ObserveAll(history, expected).core, MarksOf(history, expected), history, expected);
  }

  lemma DoneIsComplete(c: Core, m: Marks, history: seq<Seen>, expected: multiset<string>, i: nat, r: nat, n: nat, t: nat,
                       l: nat)
    requires Inv(c, m, history, expected) && Handshaken(history, expected, i, r, n, t, l)
    ensures Complete(c)
  {
    assert Asks(history[i], Initialize) && Asks(history[n], Initialized) && Asks(history[t], ToolsList);
    assert Replies(history[r], history[i].frame.id) && Replies(history[l], history[t].frame.id);
  }

  /** The callbacks, in order, of a witness in each situation. */
  predicate CallsOk(st: State) {
    if st.failed then
      st.calls == [Invalid] || st.calls == [Ready, Invalid] || st.calls == [ReadyFailed, Invalid]
    else st.calls == (if st.recorded then [Ready] else []) && (Complete(st.core) ==> st.recorded)
  }

  /** ready and invalid are each called at most once, nothing follows invalid, and a complete handshake has been
      recorded unless the witness failed. */
  lemma {:induction false} CallsAtMostOnce(history: seq<Seen>, expected: multiset<string>)
    ensures CallsOk(ObserveAll(history, expected))
    decreases |history|
  {
    if history != [] {
      var n := |history| - 1;
      CallsAtMostOnce(history[..n], expected);
      assert history == history[..n] + [history[n]];
      ObserveSnoc(history[..n], history[n], expected);
    }
  }

  predicate ReadyCalled(st: State) { st.calls != [] && st.calls[0] == Ready }

  /** ready is called in a step that completes the whole handshake. */
  lemma ReadyOnlyWhenDone(history: seq<Seen>, seen: Seen, expected: multiset<string>)
    requires !ReadyCalled(ObserveAll(history, expected)) && ReadyCalled(ObserveAll(history + [seen], expected))
    ensures HandshakeDone(history + [seen], expected)
  {
    ObserveSnoc(history, seen, expected);
    CallsAtMostOnce(history, expected);
    CompleteIff(history + [seen], expected);
  }

  /** A witness that has not failed has called ready for every completed handshake. */
  lemma ReadyWhenDone(history: seq<Seen>, expected: multiset<string>)
    requires !ObserveAll(history, expected).failed && HandshakeDone(history, expected)
    ensures ReadyCalled(ObserveAll(history, expected))
  {
    CompleteIff(history, expected);
    CallsAtMostOnce(history, expected);
  }

  /** Failure is absorbing. */
  lemma {:induction false} FailureAbsorbs(history: seq<Seen>, later: seq<Seen>, expected: multiset<string>)
    requires ObserveAll(history, expected).failed
    ensures ObserveAll(history + later, expected) == ObserveAll(history, expected)
    decreases |later|
  {
    if later == [] {
      assert history + later == history;
    } else {
      var n := |later| - 1;
      FailureAbsorbs(history, later[..n], expected);
      assert history + later == (history + later[..n]) + [later[n]];
      ObserveSnoc(history + later[..n], later[n], expected);
    }
  }

  // ----- exactly which traffic fails -----

  /** An initialize request under this id is waiting for its reply. */
  predicate AwaitsInit(history: seq<Seen>, id: Option<Key>) {
    && id.Some?
    && exists i :: 0 <= i < |history| && Asks(history[i], Initialize) && history[i].frame.id == id
                   && forall k :: i < k < |history| ==> !Replies(history[k], id)
  }

  /** The latest tools/list request waits for its reply, under this id. */
  predicate AwaitsList(history: seq<Seen>, id: Option<Key>) {
    && id.Some?
    && exists t :: 0 <= t < |history| && Asks(history[t], ToolsList) && history[t].frame.id == id
                   && forall k :: t < k < |history| ==> !Asks(history[k], ToolsList) && !Replies(history[k], id)
  }

  predicate AwaitsAnyList(history: seq<Seen>) {
    exists t :: 0 <= t < |history| && history[t].frame.Message? && AwaitsList(history, history[t].frame.id)
  }

  /** A client's frame breaks the handshake: a second initialize or one that is no request, an initialized that comes too
      early, twice or as a request, a tools/list that comes too early, while another waits or under the waiting
      initialize's id, or any other frame under a waiting id. */
  predicate ClientBreaks(history: seq<Seen>, m: Frame)
    requires m.Message?
  {
    if m.verb == Some(Initialize) then !NeverAsked(history, Initialize) || m.id.None? || !m.initParams
    else if m.verb == Some(Initialized) then
      NeverAsked(history, Initialize) || !NeverAsked(history, Initialized) || m.idKey
    else if m.verb == Some(ToolsList) then
      NeverAsked(history, Initialize) || m.id.None? || AwaitsAnyList(history) || AwaitsInit(history, m.id)
    else AwaitsInit(history, m.id) || AwaitsList(history, m.id)
  }

  /** A server's reply under a waiting id breaks the handshake when it is not the valid result. */
  predicate ServerBreaks(history: seq<Seen>, m: Frame, expected: multiset<string>)
    requires m.Message?
  {
    && !m.verbKey
    && if AwaitsInit(history, m.id) then m.error || !m.initResult
       else AwaitsList(history, m.id) && (m.error || m.tools != Some(expected) || m.nextCursor)
  }

  predicate Breaks(history: seq<Seen>, seen: Seen, expected: multiset<string>) {
    || seen.frame.Broken?
    || (if seen.client then ClientBreaks(history, seen.frame) else ServerBreaks(history, seen.frame, expected))
  }

  ghost predicate EverDone(history: seq<Seen>, expected: multiset<string>) {
    exists j :: 0 <= j <= |history| && HandshakeDone(history[..j], expected)
  }

  /** Some frame breaks the handshake, or the first completion could not be recorded. */
  ghost predicate FailsAt(history: seq<Seen>, expected: multiset<string>, k: nat)
    requires k < |history|
  {
    || Breaks(history[..k], history[k], expected)
    || (history[k].readyFails && !EverDone(history[..k], expected) && HandshakeDone(history[..k + 1], expected))
  }

  lemma AwaitsInitIff(c: Core, m: Marks, history: seq<Seen>, id: Option<Key>)
    requires InitOk(c, m, history)
    ensures AwaitsInit(history, id) <==> id.Some? && c.initializeId == id
    ensures c.initializeSeen <==> !NeverAsked(history, Initialize)
  {
    if AwaitsInit(history, id) {
      var i :| 0 <= i < |history| && Asks(history[i], Initialize) && history[i].frame.id == id
               && forall k :: i < k < |history| ==> !Replies(history[k], id);
      assert c.initializeSeen && i == m.init;
    }
  }

  lemma AwaitsListIff(c: Core, m: Marks, history: seq<Seen>, expected: multiset<string>, id: Option<Key>)
    requires ListOk(c, m, history, expected)
    ensures AwaitsList(history, id) <==> id.Some? && c.toolsId == id
  {
    if AwaitsList(history, id) {
      var t :| 0 <= t < |history| && Asks(history[t], ToolsList) && history[t].frame.id == id
               && forall k :: t < k < |history| ==> !Asks(history[k], ToolsList) && !Replies(history[k], id);
      assert t == m.list;
    }
  }

  lemma AwaitsAnyIff(c: Core, m: Marks, history: seq<Seen>, expected: multiset<string>)
    requires ListOk(c, m, history, expected)
    ensures AwaitsAnyList(history) <==> c.toolsId.Some?
  {
    forall t | 0 <= t < |history| && history[t].frame.Message?
      ensures AwaitsList(history, history[t].frame.id)
              <==> history[t].frame.id.Some? && c.toolsId == history[t].frame.id
    {
      AwaitsListIff(c, m, history, expected, history[t].frame.id);
    }
  }

  /** While it has not failed, the witness rejects exactly a frame that breaks the handshake. */
  lemma RejectsIff(c: Core, m: Marks, history: seq<Seen>, seen: Seen, expected: multiset<string>)
    requires Inv(c, m, history, expected)
    ensures Read(c, seen, expected).None? <==> Breaks(history, seen, expected)
  {
    if seen.frame.Message? {
      AwaitsInitIff(c, m, history, seen.frame.id);
      AwaitsListIff(c, m, history, expected, seen.frame.id);
      AwaitsAnyIff(c, m, history, expected);
    }
    hide AwaitsInit, AwaitsList, AwaitsAnyList, Asks, Replies, ListedBy, NotifiedBy, InitializedBy;
  }

  /** Unless it failed, the witness has recorded exactly when the handshake was ever complete. */
  lemma {:induction false} RecordedIff(history: seq<Seen>, expected: multiset<string>)
    requires !ObserveAll(history, expected).failed
    ensures ObserveAll(history, expected).recorded <==> EverDone(history, expected)
    decreases |history|
  {
    CompleteIff(history, expected);
    assert history[..|history|] == history;
    hide HandshakeDone, Read;
    if history == [] {
      assert history[..0] == [];
    } else {
      var n := |history| - 1;
      assert history == history[..n] + [history[n]];
      ObserveSnoc(history[..n], history[n], expected);
      RecordedIff(history[..n], expected);
      EverSnoc(history[..n], history[n], expected);
    }
  }

  lemma EverSnoc(history: seq<Seen>, seen: Seen, expected: multiset<string>)
    ensures EverDone(history + [seen], expected)
            <==> EverDone(history, expected) || HandshakeDone(history + [seen], expected)
  {
    var all := history + [seen];
    assert all[..|all|] == all;
    assert forall j :: 0 <= j <= |history| ==> all[..j] == history[..j];
    hide HandshakeDone;
  }

  /** The witness fails exactly when some frame broke the handshake or its first completion could not be recorded: no
      other traffic disturbs it. */
  lemma {:induction false} FailedIff(history: seq<Seen>, expected: multiset<string>)
    ensures ObserveAll(history, expected).failed <==> exists k :: 0 <= k < |history| && FailsAt(history, expected, k)
    decreases |history|
  {
    if history != [] {
      var n := |history| - 1;
      var before := history[..n];
      assert history == before + [history[n]] && history[..n + 1] == history;
      ObserveSnoc(before, history[n], expected);
      FailedIff(before, expected);
      forall k | 0 <= k < n ensures FailsAt(history, expected, k) <==> FailsAt(before, expected, k) {
        assert history[..k] == before[..k] && history[..k + 1] == before[..k + 1] && history[k] == before[k];
      }
      if !ObserveAll(before, expected).failed { FailsNow(before, history[n], expected); }
    }
  }

  lemma FailsNow(before: seq<Seen>, seen: Seen, expected: multiset<string>)
    requires !ObserveAll(before, expected).failed
    ensures ObserveAll(before + [seen], expected).failed <==> FailsAt(before + [seen], expected, |before|)
  {
    var history := before + [seen];
    var st, now := ObserveAll(before, expected), ObserveAll(history, expected);
    assert history[..|before|] == before && history[..|before| + 1] == history;
    ObserveSnoc(before, seen, expected);
    HistoryInv(before, expected);
    RejectsIff(st.core, MarksOf(before, expected), before, seen, expected);
    RecordedIff(before, expected);
    CompletesNow(before, seen, expected);
    hide HandshakeDone, Breaks, EverDone, Read, Inv;
  }

  /** What an accepted frame makes of the handshake. */
  lemma CompletesNow(before: seq<Seen>, seen: Seen, expected: multiset<string>)
    requires !ObserveAll(before, expected).failed
    ensures var core := Read(ObserveAll(before, expected).core, seen, expected);
            core.Some? ==> (Complete(core.value) <==> HandshakeDone(before + [seen], expected))
  {
    var st := ObserveAll(before, expected);
    HistoryInv(before, expected);
    if Read(st.core, seen, expected).Some? {
      var next, m := Read(st.core, seen, expected).value, MarksOf(before, expected);
      var marks := Track(m, st.core, next, |before|);
      ReadKeeps(st.core, m, before, seen, expected);
      InvCompleteIff(next, marks, before + [seen], expected);
    }
  }

  lemma InvCompleteIff(c: Core, m: Marks, history: seq<Seen>, expected: multiset<string>)
    requires Inv(c, m, history, expected)
    ensures Complete(c) <==> HandshakeDone(history, expected)
  {
    if Complete(c) {
      assert Handshaken(history, expected, m.init, m.reply, m.note, m.list, m.listed);
    }
    if HandshakeDone(history, expected) {
      var i: nat, r: nat, n: nat, t: nat, l: nat :| Handshaken(history, expected, i, r, n, t, l);
      DoneIsComplete(c, m, history, expected, i, r, n, t, l);
    }
  }

  /** The object the two directions report to, under its lock. */
  class Witness {
    const expected: multiset<string>
    var initializeId: Option<Key>
    var toolsId: Option<Key>
    var initializeSeen: bool
    var initializeOk: bool
    var initialized: bool
    var toolsOk: bool
    var recorded: bool
    var failed: bool
    var calls: seq<Callback>

    constructor (expected: multiset<string>)
      ensures this.expected == expected && Now() == START
    {
      this.expected := expected;
      initializeId, toolsId, initializeSeen, initializeOk := None, None, false, false;
      initialized, toolsOk, recorded, failed, calls := false, false, false, false, [];
    }

    function Now(): State
      reads this
    {
      State(Core(initializeId, toolsId, initializeSeen, initializeOk, initialized, toolsOk), recorded, failed, calls)
    }

    method Reject()
      requires !failed
      modifies this
      ensures Now() == old(Now()).(failed := true, calls := old(calls) + [Invalid])
    {
      failed, calls := true, calls + [Invalid];
    }

    /** Reads one client frame into the handshake fields. */
    method ClientFrame(m: Frame) returns (ok: bool)
      requires m.Message?
      modifies this
      ensures ok <==> FromClient(old(Now()).core, m).Some?
      ensures Now() == if ok then old(Now()).(core := FromClient(old(Now()).core, m).value) else old(Now())
    {
      if m.verb == Some(Initialize) {
        if initializeSeen || m.id.None? || !m.initParams { return false; }
        initializeSeen, initializeId := true, m.id;
      } else if m.verb == Some(Initialized) {
        if !initializeSeen || initialized || m.idKey { return false; }
        initialized := true;
      } else if m.verb == Some(ToolsList) {
        if !initializeSeen || m.id.None? || toolsId.Some? || m.id == initializeId { return false; }
        toolsId, toolsOk := m.id, false;
      } else if m.id.Some? && (m.id == initializeId || m.id == toolsId) {
        return false;
      }
      return true;
    }

    method ServerFrame(m: Frame) returns (ok: bool)
      requires m.Message?
      modifies this
      ensures ok <==> FromServer(old(Now()).core, m, expected).Some?
      ensures Now() == if ok then old(Now()).(core := FromServer(old(Now()).core, m, expected).value) else old(Now())
    {
      if m.verbKey || m.id.None? { return true; }
      if initializeSeen && m.id == initializeId {
        if initializeOk || !InitReply(m) { return false; }
        initializeOk, initializeId := true, None;
      } else if m.id == toolsId {
        if toolsOk || !ToolsReply(m, expected) { return false; }
        toolsOk, toolsId := true, None;
      }
      return true;
    }

    method ObserveFrame(seen: Seen)
      modifies this
      ensures Now() == Observe(old(Now()), seen, expected)
    {
      if failed { return; }
      var ok := false;
      if seen.frame.Message? {
        if seen.client { ok := ClientFrame(seen.frame); } else { ok := ServerFrame(seen.frame); }
      }
      if !ok {
        Reject();
      } else if initializeOk && initialized && toolsOk && !recorded {
        if seen.readyFails {
          calls := calls + [ReadyFailed];
          Reject();
        } else {
          recorded, calls := true, calls + [Ready];
        }
      }
    }
  }

  // ----- framing -----

  /** Keeps one unfinished frame between reads. */
  class LineReader {
    var pending: Bytes

    constructor ()
      ensures pending == []
    {
      pending := [];
    }

    /** Delivers every frame the data completes, in order, and keeps the unfinished rest. */
    method Feed(data: Bytes) returns (frames: seq<Bytes>)
      requires NEWLINE !in pending
      modifies this
      ensures frames == Lines(old(pending) + data) && pending == Tail(old(pending) + data)
      ensures NEWLINE !in pending
    {
      ghost var whole := pending + data;
      frames := [];
      var rest, done := data, false;
      while !done
        invariant NEWLINE !in pending
        invariant !done ==> Lines(whole) == frames + Lines(pending + rest) && Tail(whole) == Tail(pending + rest)
        invariant done ==> Lines(whole) == frames && Tail(whole) == pending
        decreases !done, |rest|
      {
        var end := First(rest);
        var part := rest[..end];
        assert NEWLINE !in part;
        if end == |rest| {
          assert pending + rest == pending + part;
          SplitNone(pending + part);
          pending, done := pending + part, true;
        } else {
          FrameCut(pending, rest, end);
          frames, pending, rest := frames + [pending + part], [], rest[end + 1..];
          assert [] + rest == rest;
        }
      }
    }
  }

  lemma FrameCut(pending: Bytes, rest: Bytes, end: nat)
    requires NEWLINE !in pending && end == First(rest) < |rest|
    ensures Lines(pending + rest) == [pending + rest[..end]] + Lines(rest[end + 1..])
    ensures Tail(pending + rest) == Tail(rest[end + 1..])
  {
    assert pending + rest == (pending + rest[..end]) + [NEWLINE] + rest[end + 1..];
    SplitLine(pending + rest[..end], rest[end + 1..]);
  }

  function Joined(chunks: seq<Bytes>): Bytes {
    if chunks == [] then [] else Joined(chunks[..|chunks| - 1]) + chunks[|chunks| - 1]
  }

  /** What a reader has delivered and still holds after feeding the chunks one by one. */
  function Delivery(chunks: seq<Bytes>): (seq<Bytes>, Bytes) {
    if chunks == [] then ([], [])
    else
      var (frames, pending) := Delivery(chunks[..|chunks| - 1]);
      var data := chunks[|chunks| - 1];
      (frames + Lines(pending + data), Tail(pending + data))
  }

  /** However the bytes are cut into reads, the same frames are delivered: the lines of the whole. */
  lemma {:induction false} ChunkingIrrelevant(chunks: seq<Bytes>)
    ensures Delivery(chunks) == (Lines(Joined(chunks)), Tail(Joined(chunks)))
    decreases |chunks|
  {
    if chunks != [] {
      var n := |chunks| - 1;
      ChunkingIrrelevant(chunks[..n]);
      SplitConcat(Joined(chunks[..n]), chunks[n]);
    }
  }
}
