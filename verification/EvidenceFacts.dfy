/** When an interval, a child or a read is proved: exactly which messages, results and occurrences it takes. */
module EvidenceFacts {
  import opened Values
  import opened EvidenceCounts
  import opened EvidenceReads

  // ----- the parent interval -----

  /** A single message of the request's text, within the minute after the request was made and no later than its receipt. */
  predicate Matches(h: Human, request: Request) {
    && h.unique && h.text == Some(request.text) && h.time.Some?
    && 0 <= h.time.value - request.createdAt <= 60 && h.time.value <= request.observedAt
  }

  /** The one message the request anchors at. */
  predicate OnlyAnchor(humans: seq<Human>, request: Request, i: nat) {
    && i < |humans| && Matches(humans[i], request)
    && forall k :: 0 <= k < |humans| && Matches(humans[k], request) ==> k == i
  }

  /** The first message of the lowest number after this one. */
  predicate NextAfter(humans: seq<Human>, number: nat, j: nat) {
    && j < |humans| && humans[j].number > number
    && forall k :: 0 <= k < |humans| && humans[k].number > number && k != j ==>
         humans[j].number < humans[k].number || (humans[j].number == humans[k].number && j < k)
  }

  predicate NoneAfter(humans: seq<Human>, number: nat) {
    forall k :: 0 <= k < |humans| ==> humans[k].number <= number
  }

  /** The next message closes the exchange: it is one message, later in time, and no other later one shares its time. */
  predicate Closes(humans: seq<Human>, number: nat, start: Time, j: nat, end: Time) {
    && NextAfter(humans, number, j) && humans[j].unique && humans[j].time == Some(end) && start < end
    && forall k :: 0 <= k < |humans| && humans[k].number > number && humans[k].time == Some(end) ==>
         humans[k].number == humans[j].number
  }

  ghost predicate IntervalAt(humans: seq<Human>, request: Request, allowTerminal: bool, i: nat, scope: Scope) {
    && OnlyAnchor(humans, request, i)
    && match scope
       case Boundary(number, start, endNumber, end) =>
         && number == humans[i].number && Some(start) == humans[i].time
         && exists j :: 0 <= j < |humans| && Closes(humans, number, start, j, end) && humans[j].number == endNumber
       case Terminal(number, start, end) =>
         && number == humans[i].number && Some(start) == humans[i].time && NoneAfter(humans, number)
         && allowTerminal && request.finished == Some(end) && start <= end <= request.observedAt
       case Child(_, _, _) => false
  }

  lemma SelectNone(humans: seq<Human>, f: Human -> bool)
    ensures Select(humans, f) == [] <==> forall k :: 0 <= k < |humans| ==> !f(humans[k])
  {
    if Select(humans, f) == [] {
      forall k | 0 <= k < |humans| ensures !f(humans[k]) { assert humans[k] in humans; }
    } else {
      assert Select(humans, f)[0] in humans;
    }
  }

  lemma {:induction false} SelectOne(humans: seq<Human>, f: Human -> bool, i: nat)
    requires i < |humans| && f(humans[i]) && forall k :: 0 <= k < |humans| && f(humans[k]) ==> k == i
    ensures Select(humans, f) == [humans[i]]
    decreases |humans|
  {
    if i == 0 {
      forall k | 0 <= k < |humans[1..]| ensures !f(humans[1..][k]) { assert humans[1..][k] == humans[k + 1]; }
      SelectNone(humans[1..], f);
    } else {
      SelectOne(humans[1..], f, i - 1);
    }
  }

  lemma {:induction false} SelectedAt(humans: seq<Human>, f: Human -> bool) returns (i: nat)
    requires |Select(humans, f)| == 1
    ensures i < |humans| && f(humans[i]) && Select(humans, f) == [humans[i]]
    ensures forall k :: 0 <= k < |humans| && f(humans[k]) ==> k == i
    decreases |humans|
  {
    if f(humans[0]) {
      i := 0;
      SelectNone(humans[1..], f);
      assert forall k :: 0 < k < |humans| ==> humans[k] == humans[1..][k - 1];
    } else {
      var rest := SelectedAt(humans[1..], f);
      i := rest + 1;
      assert forall k :: 0 < k < |humans| ==> humans[k] == humans[1..][k - 1];
    }
  }

  lemma AnchorsIff(humans: seq<Human>, request: Request)
    ensures |AnchorsOf(humans, request)| == 1 <==> exists i :: 0 <= i < |humans| && OnlyAnchor(humans, request, i)
  {
    var f := (h: Human) => Anchors(h, request);
    if |AnchorsOf(humans, request)| == 1 {
      var i := SelectedAt(humans, f);
      assert OnlyAnchor(humans, request, i);
    }
    if i :| 0 <= i < |humans| && OnlyAnchor(humans, request, i) { SelectOne(humans, f, i); }
  }

  lemma AnchorIs(humans: seq<Human>, request: Request, i: nat)
    requires OnlyAnchor(humans, request, i)
    ensures AnchorsOf(humans, request) == [humans[i]]
  {
    SelectOne(humans, (h: Human) => Anchors(h, request), i);
  }

  lemma EarliestCons(h: Human, rest: seq<Human>)
    ensures Earliest([h] + rest)
            == if rest == [] || h.number <= Earliest(rest).number then h else Earliest(rest)
  {
    assert ([h] + rest)[1..] == rest;
  }

  lemma AfterCons(humans: seq<Human>, number: nat)
    requires humans != []
    ensures After(humans, number)
            == if humans[0].number > number then [humans[0]] + After(humans[1..], number) else After(humans[1..], number)
  {
  }

  lemma NextTail(humans: seq<Human>, number: nat, j: nat)
    requires NextAfter(humans, number, j) && j > 0
    ensures NextAfter(humans[1..], number, j - 1) && humans[1..][j - 1] == humans[j]
    ensures humans[0].number > number ==> humans[j].number < humans[0].number
  {
    assert forall k :: 0 <= k < |humans[1..]| ==> humans[1..][k] == humans[k + 1];
  }

  lemma LowestFirst(humans: seq<Human>, number: nat)
    requires NextAfter(humans, number, 0)
    ensures forall h :: h in After(humans[1..], number) ==> humans[0].number <= h.number
  {
    forall h | h in After(humans[1..], number) ensures humans[0].number <= h.number {
      var k :| 0 <= k < |humans[1..]| && humans[1..][k] == h;
      assert humans[k + 1] == h;
    }
  }

  lemma {:induction false} EarliestAt(humans: seq<Human>, number: nat, j: nat)
    requires NextAfter(humans, number, j)
    ensures After(humans, number) != [] && Earliest(After(humans, number)) == humans[j]
    decreases |humans|
  {
    hide After, Earliest;
    AfterCons(humans, number);
    if j == 0 {
      EarliestCons(humans[0], After(humans[1..], number));
      LowestFirst(humans, number);
    } else {
      NextTail(humans, number, j);
      EarliestAt(humans[1..], number, j - 1);
      EarliestCons(humans[0], After(humans[1..], number));
    }
  }

  lemma {:induction false} NextExists(humans: seq<Human>, number: nat) returns (j: nat)
    requires After(humans, number) != []
    ensures NextAfter(humans, number, j)
    decreases |humans|
  {
    var rest := After(humans[1..], number);
    assert forall k :: 0 <= k < |humans[1..]| ==> humans[1..][k] == humans[k + 1];
    if rest == [] {
      j := 0;
      NoneAfterIff(humans[1..], number);
      assert forall k :: 0 < k < |humans| ==> humans[k] == humans[1..][k - 1];
    } else {
      var next := NextExists(humans[1..], number);
      assert forall k :: 0 < k < |humans| ==> humans[k] == humans[1..][k - 1];
      j := if humans[0].number > number && humans[0].number <= humans[next + 1].number then 0 else next + 1;
    }
  }

  lemma NoneAfterIff(humans: seq<Human>, number: nat)
    ensures After(humans, number) == [] <==> NoneAfter(humans, number)
  {
    SelectNone(humans, (h: Human) => h.number > number);
  }

  lemma ClosedIff(humans: seq<Human>, request: Request, allowTerminal: bool, i: nat, j: nat, scope: Scope)
    requires OnlyAnchor(humans, request, i) && NextAfter(humans, humans[i].number, j)
    ensures ParentInterval(humans, request, allowTerminal) == Bound(scope)
            <==> exists end :: Closes(humans, humans[i].number, humans[i].time.value, j, end)
                   && scope == Boundary(humans[i].number, humans[i].time.value, humans[j].number, end)
  {
    AnchorIs(humans, request, i);
    EarliestAt(humans, humans[i].number, j);
    var later := After(humans, humans[i].number);
    if humans[j].time.Some? {
      assert (exists h :: h in later && h.number != humans[j].number && h.time == humans[j].time)
             <==> exists k :: 0 <= k < |humans| && humans[k].number > humans[i].number
                              && humans[k].time == humans[j].time && humans[k].number != humans[j].number;
    }
  }

  lemma OneNext(humans: seq<Human>, number: nat, i: nat, j: nat)
    requires NextAfter(humans, number, i) && NextAfter(humans, number, j)
    ensures i == j
  {
  }

  /** An interval is proved exactly when one message anchors the request and either the next message closes it or, after
      a finished turn, no message follows. */
  lemma IntervalIff(humans: seq<Human>, request: Request, allowTerminal: bool, scope: Scope)
    ensures ParentInterval(humans, request, allowTerminal) == Bound(scope)
            <==> exists i :: 0 <= i < |humans| && IntervalAt(humans, request, allowTerminal, i, scope)
  {
    AnchorsIff(humans, request);
    if i :| 0 <= i < |humans| && OnlyAnchor(humans, request, i) {
      AnchorIs(humans, request, i);
      NoneAfterIff(humans, humans[i].number);
      IntervalAtIff(humans, request, allowTerminal, i, scope);
      assert forall k :: 0 <= k < |humans| && IntervalAt(humans, request, allowTerminal, k, scope) ==> k == i;
    }
  }

  lemma IntervalAtIff(humans: seq<Human>, request: Request, allowTerminal: bool, i: nat, scope: Scope)
    requires OnlyAnchor(humans, request, i)
    ensures ParentInterval(humans, request, allowTerminal) == Bound(scope)
            <==> IntervalAt(humans, request, allowTerminal, i, scope)
  {
    AnchorIs(humans, request, i);
    NoneAfterIff(humans, humans[i].number);
    if After(humans, humans[i].number) != [] {
      var j := NextExists(humans, humans[i].number);
      ClosedIff(humans, request, allowTerminal, i, j, scope);
      forall k, end | 0 <= k < |humans| && Closes(humans, humans[i].number, humans[i].time.value, k, end) ensures k == j {
        OneNext(humans, humans[i].number, k, j);
      }
    }
  }

  // ----- the child of a launch -----

  /** The tool entry launches one child inside the scope, and no result of it belongs to another message. */
  predicate Launchable(scan: Scan, scope: Scope, strict: bool, launchUuids: set<Id>, entry: Entry) {
    var occurrences, observations := OccurrencesIn(entry.occurrences, scope), Observations(scan, entry, scope);
    && occurrences != [] && AllLaunch(occurrences) && Uniform(occurrences)
    && occurrences[0].launch.Some? && occurrences[0].launch.value.prompt != ""
    && (strict ==> !StrictIssue(observations, occurrences[0].uuid))
    && forall k :: 0 <= k < |observations| ==> !Misplaced(observations[k], occurrences[0].uuid, launchUuids)
  }

  /** Every result is a non-error that names this agent or none, and some result does name it. */
  predicate RanAs(observations: seq<Observation>, agent: Id) {
    && (exists k :: 0 <= k < |observations| && observations[k].agent == Some(agent))
    && forall k :: 0 <= k < |observations| ==>
         && observations[k].canonical.Some? && observations[k].classification == Some(false)
         && (observations[k].agent.Some? ==> observations[k].agent == Some(agent))
  }

  /** The first result that completes the launch; every other result has the same completion. */
  predicate CompletedBy(observations: seq<Observation>, prompt: string, k: nat) {
    && k < |observations| && Completes(observations[k], prompt)
    && (forall i :: 0 <= i < k ==> !Completes(observations[i], prompt))
    && forall i :: 0 <= i < |observations| ==> observations[i].fingerprint == observations[k].fingerprint
  }

  predicate NotCompleted(observations: seq<Observation>, prompt: string) {
    forall i :: 0 <= i < |observations| ==> !Completes(observations[i], prompt)
  }

  lemma {:induction false} FirstCompletionAt(observations: seq<Observation>, prompt: string, k: nat)
    requires k < |observations| && Completes(observations[k], prompt)
    requires forall i :: 0 <= i < k ==> !Completes(observations[i], prompt)
    ensures FirstCompletion(observations, prompt) == Some(observations[k])
    decreases k
  {
    if k > 0 { FirstCompletionAt(observations[1..], prompt, k - 1); }
  }

  lemma {:induction false} FirstIndex(observations: seq<Observation>, prompt: string) returns (k: nat)
    requires !NotCompleted(observations, prompt)
    ensures k < |observations| && Completes(observations[k], prompt)
    ensures forall i :: 0 <= i < k ==> !Completes(observations[i], prompt)
    decreases |observations|
  {
    if Completes(observations[0], prompt) {
      k := 0;
    } else {
      assert forall i :: 0 < i < |observations| ==> observations[i] == observations[1..][i - 1];
      var rest := FirstIndex(observations[1..], prompt);
      k := rest + 1;
    }
  }

  lemma NoFingerprints(observations: seq<Observation>, prompt: string)
    ensures Fingerprints(observations, prompt) == {} <==> NotCompleted(observations, prompt)
  {
    forall i | 0 <= i < |observations| && Completes(observations[i], prompt)
      ensures observations[i].fingerprint.value in Fingerprints(observations, prompt)
    {
    }
  }

  /** The completions conflict exactly when some result completes the launch and another does not share it. */
  lemma ConflictIff(observations: seq<Observation>, prompt: string, k: nat)
    requires k < |observations| && Completes(observations[k], prompt)
    requires forall i :: 0 <= i < k ==> !Completes(observations[i], prompt)
    ensures CompletedBy(observations, prompt, k)
            <==> Singular(Fingerprints(observations, prompt))
                 && !exists o :: o in observations
                                 && (o.fingerprint.None? || o.fingerprint.value !in Fingerprints(observations, prompt))
  {
    var completions := Fingerprints(observations, prompt);
    assert observations[k].fingerprint.value in completions;
    if CompletedBy(observations, prompt, k) {
      forall o | o in observations ensures o.fingerprint == observations[k].fingerprint {
      }
    }
  }

  lemma AgentsIff(observations: seq<Observation>, agent: Id)
    ensures RanAs(observations, agent)
            <==> AgentIds(observations) == {agent}
                 && !exists o :: o in observations && (o.canonical.None? || o.classification != Some(false))
  {
    if RanAs(observations, agent) {
      var k :| 0 <= k < |observations| && observations[k].agent == Some(agent);
      assert agent in AgentIds(observations);
    }
    if AgentIds(observations) == {agent} {
      assert agent in AgentIds(observations);
      var o :| o in observations && o.agent == Some(agent);
      forall k | 0 <= k < |observations| && observations[k].agent.Some? ensures observations[k].agent == Some(agent) {
        assert observations[k].agent.value in AgentIds(observations);
      }
    }
  }

  lemma SingularIff<T>(s: set<T>, x: T)
    requires x in s
    ensures Singular(s) <==> s == {x}
  {
  }

  predicate Unconflicted(observations: seq<Observation>, prompt: string) {
    NotCompleted(observations, prompt) || exists k :: 0 <= k < |observations| && CompletedBy(observations, prompt, k)
  }

  lemma UnconflictedIff(observations: seq<Observation>, prompt: string)
    ensures Unconflicted(observations, prompt)
            <==> Singular(Fingerprints(observations, prompt))
                 && (Fingerprints(observations, prompt) == {}
                     || !exists o :: o in observations
                                     && (o.fingerprint.None?
                                         || o.fingerprint.value !in Fingerprints(observations, prompt)))
  {
    NoFingerprints(observations, prompt);
    if !NotCompleted(observations, prompt) {
      var k := FirstIndex(observations, prompt);
      ConflictIff(observations, prompt, k);
      assert forall i :: 0 <= i < |observations| && CompletedBy(observations, prompt, i) ==> i == k;
    }
  }

  lemma AgentOf(scope: Scope, first: Occurrence, launch: Launch, observations: seq<Observation>, launchUuids: set<Id>,
                agent: Id)
    requires forall o :: o in observations ==> !Misplaced(o, first.uuid, launchUuids)
    requires RanAs(observations, agent) && Unconflicted(observations, launch.prompt)
    ensures Resolve(scope, first, launch, observations, launchUuids).agent == Some(agent)
  {
    hide RanAs, Unconflicted, CoversChild, ChildOf, Fingerprints, AgentIds, Misplaced;
    AgentsIff(observations, agent);
    UnconflictedIff(observations, launch.prompt);
    assert agent in AgentIds(observations);
    SingularIff(AgentIds(observations), agent);
  }

  lemma AgentOnly(scope: Scope, first: Occurrence, launch: Launch, observations: seq<Observation>, launchUuids: set<Id>)
    requires Resolve(scope, first, launch, observations, launchUuids).agent.Some?
    ensures forall o :: o in observations ==> !Misplaced(o, first.uuid, launchUuids)
    ensures RanAs(observations, Resolve(scope, first, launch, observations, launchUuids).agent.value)
    ensures Unconflicted(observations, launch.prompt)
  {
    hide RanAs, Unconflicted, CoversChild, ChildOf, Fingerprints, AgentIds, Misplaced;
    var agent := Resolve(scope, first, launch, observations, launchUuids).agent.value;
    SingularIff(AgentIds(observations), agent);
    AgentsIff(observations, agent);
    UnconflictedIff(observations, launch.prompt);
  }

  lemma IntervalOf(scope: Scope, first: Occurrence, launch: Launch, observations: seq<Observation>,
                   launchUuids: set<Id>, k: nat)
    requires CompletedBy(observations, launch.prompt, k)
    requires Resolve(scope, first, launch, observations, launchUuids).agent.Some?
    ensures Resolve(scope, first, launch, observations, launchUuids).interval.Some?
            <==> !launch.flagged
                 && CoversChild(scope, first.number, first.time, observations[k].number, observations[k].time)
    ensures var c := Resolve(scope, first, launch, observations, launchUuids);
      c.interval.Some? ==>
        && c == Candidate(c.agent, Some(ChildOf(scope, first.time.value, observations[k].time.value)), None,
                          Some(first.uuid), Some(launch.subagent))
  {
    hide CompletedBy, ChildOf, Fingerprints, AgentIds, Misplaced, FirstCompletion;
    CompletionAt(observations, launch.prompt, k);
  }

  lemma CompletionAt(observations: seq<Observation>, prompt: string, k: nat)
    requires CompletedBy(observations, prompt, k)
    ensures FirstCompletion(observations, prompt) == Some(observations[k])
  {
    FirstCompletionAt(observations, prompt, k);
  }

  predicate Attributed(scan: Scan, scope: Scope, strict: bool, launchUuids: set<Id>, entry: Entry, agent: Id) {
    && Launchable(scan, scope, strict, launchUuids, entry)
    && RanAs(Observations(scan, entry, scope), agent)
    && Unconflicted(Observations(scan, entry, scope), OccurrencesIn(entry.occurrences, scope)[0].launch.value.prompt)
  }

  /** A launch is attributed to an agent exactly when its results are its own, all non-errors that name that agent, and
      do not conflict about its completion. */
  lemma AttributedIff(scan: Scan, scope: Scope, strict: bool, launchUuids: set<Id>, entry: Entry, agent: Id)
    ensures Attributed(scan, scope, strict, launchUuids, entry, agent)
            <==> CandidateOf(scan, scope, strict, launchUuids, entry).Some?
                 && CandidateOf(scan, scope, strict, launchUuids, entry).value.agent == Some(agent)
  {
    hide RanAs, Unconflicted, Resolve, Misplaced, StrictIssue;
    var occurrences, observations := OccurrencesIn(entry.occurrences, scope), Observations(scan, entry, scope);
    LaunchableAny(occurrences);
    if occurrences != [] && occurrences[0].launch.Some? {
      var first, launch := occurrences[0], occurrences[0].launch.value;
      if Resolve(scope, first, launch, observations, launchUuids).agent.Some? {
        AgentOnly(scope, first, launch, observations, launchUuids);
      }
      if Attributed(scan, scope, strict, launchUuids, entry, agent) {
        AgentOf(scope, first, launch, observations, launchUuids, agent);
      }
    }
  }

  lemma LaunchableAny(occurrences: seq<Occurrence>)
    ensures occurrences != [] && AllLaunch(occurrences) ==> AnyLaunch(occurrences)
  {
    if occurrences != [] && AllLaunch(occurrences) { assert occurrences[0] in occurrences; }
  }

  /** The k-th result ends the child this launch started: it is the first completion, all results share it, and it lies
      with the launch inside the scope. */
  predicate EndsChild(scan: Scan, scope: Scope, strict: bool, launchUuids: set<Id>, entry: Entry, agent: Id, k: nat) {
    && Attributed(scan, scope, strict, launchUuids, entry, agent)
    && var first := OccurrencesIn(entry.occurrences, scope)[0];
    var observations := Observations(scan, entry, scope);
    && k < |observations| && CompletedBy(observations, first.launch.value.prompt, k) && !first.launch.value.flagged
    && first.time.Some? && observations[k].time.Some? && first.time.value <= observations[k].time.value
    && Contains(scope, first.number, first.time) && Contains(scope, observations[k].number, observations[k].time)
  }

  lemma NoCompletion(scope: Scope, first: Occurrence, launch: Launch, observations: seq<Observation>,
                     launchUuids: set<Id>)
    requires NotCompleted(observations, launch.prompt)
    ensures Resolve(scope, first, launch, observations, launchUuids).interval.None?
  {
    NoFingerprints(observations, launch.prompt);
  }

  lemma EndedBy(scan: Scan, scope: Scope, strict: bool, launchUuids: set<Id>, entry: Entry) returns (agent: Id, k: nat)
    requires CandidateOf(scan, scope, strict, launchUuids, entry).Some?
    requires CandidateOf(scan, scope, strict, launchUuids, entry).value.interval.Some?
    ensures EndsChild(scan, scope, strict, launchUuids, entry, agent, k)
  {
    hide RanAs, Resolve, Misplaced, StrictIssue, Contains, CompletedBy, NotCompleted, Launchable;
    var first := OccurrencesIn(entry.occurrences, scope)[0];
    var launch, observations := first.launch.value, Observations(scan, entry, scope);
    WithAgent(scope, first, launch, observations, launchUuids);
    agent := CandidateOf(scan, scope, strict, launchUuids, entry).value.agent.value;
    AttributedIff(scan, scope, strict, launchUuids, entry, agent);
    if NotCompleted(observations, launch.prompt) { NoCompletion(scope, first, launch, observations, launchUuids); }
    k :| 0 <= k < |observations| && CompletedBy(observations, launch.prompt, k);
    IntervalOf(scope, first, launch, observations, launchUuids, k);
  }

  lemma WithAgent(scope: Scope, first: Occurrence, launch: Launch, observations: seq<Observation>, launchUuids: set<Id>)
    requires Resolve(scope, first, launch, observations, launchUuids).interval.Some?
    ensures Resolve(scope, first, launch, observations, launchUuids).agent.Some?
  {
  }

  /** The child's interval runs from its launch to the result that ends it. */
  lemma ChildInterval(scan: Scan, scope: Scope, strict: bool, launchUuids: set<Id>, entry: Entry, agent: Id, k: nat)
    requires EndsChild(scan, scope, strict, launchUuids, entry, agent, k)
    ensures var first := OccurrencesIn(entry.occurrences, scope)[0];
      var end := Observations(scan, entry, scope)[k];
      CandidateOf(scan, scope, strict, launchUuids, entry)
      == Some(Candidate(Some(agent), Some(ChildOf(scope, first.time.value, end.time.value)), None, Some(first.uuid),
                        Some(first.launch.value.subagent)))
  {
    hide RanAs, Unconflicted, Resolve, Misplaced, StrictIssue, CompletedBy, ChildOf;
    var first := OccurrencesIn(entry.occurrences, scope)[0];
    LaunchableAny(OccurrencesIn(entry.occurrences, scope));
    AttributedIff(scan, scope, strict, launchUuids, entry, agent);
    IntervalOf(scope, first, first.launch.value, Observations(scan, entry, scope), launchUuids, k);
  }

  /** A launch has a proved interval exactly when one result of it ends its child. */
  lemma ChildIff(scan: Scan, scope: Scope, strict: bool, launchUuids: set<Id>, entry: Entry)
    ensures (exists agent: Id, k: nat :: EndsChild(scan, scope, strict, launchUuids, entry, agent, k))
            <==> CandidateOf(scan, scope, strict, launchUuids, entry).Some?
                 && CandidateOf(scan, scope, strict, launchUuids, entry).value.interval.Some?
  {
    hide CandidateOf, EndsChild;
    if agent: Id, k: nat :| EndsChild(scan, scope, strict, launchUuids, entry, agent, k) {
      ChildInterval(scan, scope, strict, launchUuids, entry, agent, k);
    }
    if CandidateOf(scan, scope, strict, launchUuids, entry).Some?
       && CandidateOf(scan, scope, strict, launchUuids, entry).value.interval.Some? {
      var agent, k := EndedBy(scan, scope, strict, launchUuids, entry);
    }
  }

  // ----- reads -----

  /** All results are classified and are one and the same result. */
  predicate OneResult(observations: seq<Observation>) {
    && observations != []
    && forall k :: 0 <= k < |observations| ==>
         && observations[k].canonical.Some? && observations[k].classification.Some?
         && observations[k].canonical == observations[0].canonical
  }

  /** A read is failed or not exactly when its results are one classified result, and open exactly without a result. */
  lemma SummaryIff(observations: seq<Observation>)
    ensures Summarize(observations) == Unresolved <==> observations == []
    ensures Summarize(observations) == Failed <==> OneResult(observations) && observations[0].classification == Some(true)
    ensures Summarize(observations) == NonError
            <==> OneResult(observations) && observations[0].classification == Some(false)
  {
    if OneResult(observations) {
      forall o | o in observations ensures o.canonical.Some? && o.classification.Some? {
      }
    } else if observations != [] {
      var k :| 0 <= k < |observations|
               && (observations[k].canonical.None? || observations[k].classification.None?
                   || observations[k].canonical != observations[0].canonical);
      assert observations[k] in observations;
    }
  }

  /** An entry is counted as a request exactly when all its occurrences inside the scope are one supported read. */
  lemma ReadIff(scan: Scan, scope: Scope, entry: Entry, input: ReadInput)
    ensures (exists r :: r in RequestsOf(scan, scope, entry) && r.input == input)
            <==> var occurrences := OccurrencesIn(entry.occurrences, scope);
                 && occurrences != [] && occurrences[0].read == Some(input)
                 && forall k :: 0 <= k < |occurrences| ==>
                      occurrences[k].tool == Read && occurrences[k].canonical == occurrences[0].canonical
  {
    var occurrences := OccurrencesIn(entry.occurrences, scope);
    if KindOf(entry, scope) == ReadOf(input) {
      assert ReadRequest(input, Summarize(Observations(scan, entry, scope))) in RequestsOf(scan, scope, entry);
      forall k | 0 <= k < |occurrences|
        ensures occurrences[k].tool == Read && occurrences[k].canonical == occurrences[0].canonical
      {
        if k > 0 { assert occurrences[k].tool == occurrences[0].tool; }
      }
    }
  }
}
