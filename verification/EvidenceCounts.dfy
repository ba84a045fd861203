/** Intervals, launch correlation and read counts of one actor's scanned transcript. Times are instants in one
    fixed unit; only their order matters, apart from the 60 seconds after a request. */
module EvidenceCounts {
  import opened Values

  type Time = int

  const MINUTE: Time := 60

  // ----- intervals -----

  /** A proved parent interval, by record number and time; or a child's, by time inside every ancestor. */
  datatype Scope =
    | Boundary(anchorNumber: nat, anchorTime: Time, endNumber: nat, endTime: Time)
    | Terminal(anchorNumber: nat, anchorTime: Time, endTime: Time)
    | Child(start: Time, end: Time, ancestors: seq<Scope>)

  predicate ContainsTime(scope: Scope, time: Option<Time>) {
    time.Some? && var t := time.value;
    match scope
    case Boundary(_, anchor, _, end) => anchor <= t < end
    case Terminal(_, anchor, end) => anchor <= t <= end
    case Child(start, end, ancestors) =>
      start <= t <= end && forall a :: a in ancestors ==> ContainsTime(a, time)
  }

  predicate Contains(scope: Scope, number: nat, time: Option<Time>) {
    && ContainsTime(scope, time)
    && match scope
       case Boundary(anchor, _, end, _) => anchor < number < end
       case Terminal(anchor, _, _) => anchor < number
       case Child(_, _, _) => true
  }

  predicate CoversChild(scope: Scope, launchNumber: nat, launch: Option<Time>, resultNumber: nat, result: Option<Time>) {
    && launch.Some? && result.Some? && launch.value <= result.value
    && Contains(scope, launchNumber, launch) && Contains(scope, resultNumber, result)
  }

  function ChildOf(scope: Scope, start: Time, end: Time): Scope {
    Child(start, end, (if scope.Child? then scope.ancestors else []) + [scope])
  }

  /** Whatever lies in a child's interval lies in time inside the interval it was launched from. */
  lemma ChildNested(scope: Scope, start: Time, end: Time, time: Option<Time>)
    requires ContainsTime(ChildOf(scope, start, end), time)
    ensures ContainsTime(scope, time) && start <= time.value <= end
  {
    var ancestors := ChildOf(scope, start, end).ancestors;
    assert ancestors[|ancestors| - 1] == scope;
  }

  // ----- the parent interval -----

  datatype Human = Human(number: nat, time: Option<Time>, text: Option<int>, unique: bool)

  /** The selected request and its receipt; finished is the terminal turn's completion, when the turn ended. */
  datatype Request = Request(text: int, createdAt: Time, observedAt: Time, finished: Option<Time>)

  datatype Bound = Bound(scope: Scope) | Unbound | Ambiguous

  predicate Anchors(human: Human, request: Request) {
    && human.unique && human.time.Some? && human.text == Some(request.text)
    && request.createdAt <= human.time.value <= request.createdAt + MINUTE
    && human.time.value <= request.observedAt
  }

  function Select(humans: seq<Human>, f: Human -> bool): (r: seq<Human>)
    ensures forall h :: h in r <==> h in humans && f(h)
    ensures |r| <= |humans|
  {
    if humans == [] then [] else (if f(humans[0]) then [humans[0]] else []) + Select(humans[1..], f)
  }

  function AnchorsOf(humans: seq<Human>, request: Request): seq<Human> {
    Select(humans, (h: Human) => Anchors(h, request))
  }

  function After(humans: seq<Human>, number: nat): seq<Human> { Select(humans, (h: Human) => h.number > number) }

  function Earliest(humans: seq<Human>): (r: Human)
    requires humans != []
    ensures r in humans && forall h :: h in humans ==> r.number <= h.number
  {
    if |humans| == 1 then humans[0]
    else
      var rest := Earliest(humans[1..]);
      if humans[0].number <= rest.number then humans[0] else rest
  }

  function ParentInterval(humans: seq<Human>, request: Request, allowTerminal: bool): Bound {
    var candidates := AnchorsOf(humans, request);
    if candidates == [] then Unbound
    else if |candidates| > 1 then Ambiguous
    else
      var anchor := candidates[0];
      assert anchor in candidates;
      var later := After(humans, anchor.number);
      if later != [] then
        var endpoint := Earliest(later);
        if endpoint.time.None? || !endpoint.unique then Unbound
        else if endpoint.time.value <= anchor.time.value then Ambiguous
        else if exists h :: h in later && h.number != endpoint.number && h.time == endpoint.time then Ambiguous
        else Bound(Boundary(anchor.number, anchor.time.value, endpoint.number, endpoint.time.value))
      else if !allowTerminal || request.finished.None? then Unbound
      else if !(anchor.time.value <= request.finished.value <= request.observedAt) then Unbound
      else Bound(Terminal(anchor.number, anchor.time.value, request.finished.value))
  }

  /** No other human message lies inside a proved parent interval: it is one exchange. */
  lemma IntervalIsOneExchange(humans: seq<Human>, request: Request, allowTerminal: bool, h: Human)
    requires ParentInterval(humans, request, allowTerminal).Bound? && h in humans
    ensures !Contains(ParentInterval(humans, request, allowTerminal).scope, h.number, h.time)
  {
    var anchor := AnchorsOf(humans, request)[0];
    var later := After(humans, anchor.number);
    if h.number > anchor.number { assert h in later; }
  }

  /** Two requests anchored at different messages of one transcript never share a record. */
  lemma IntervalsDisjoint(humans: seq<Human>, a: Request, b: Request, allowA: bool, allowB: bool, number: nat,
                          time: Option<Time>)
    requires ParentInterval(humans, a, allowA).Bound? && ParentInterval(humans, b, allowB).Bound?
    requires ParentInterval(humans, a, allowA).scope.anchorNumber
             != ParentInterval(humans, b, allowB).scope.anchorNumber
    ensures !(Contains(ParentInterval(humans, a, allowA).scope, number, time)
              && Contains(ParentInterval(humans, b, allowB).scope, number, time))
  {
    var ha := AnchorsOf(humans, a)[0];
    var hb := AnchorsOf(humans, b)[0];
    var laterA := After(humans, ha.number);
    var laterB := After(humans, hb.number);
    assert ha in humans && hb in humans;
    if ha.number < hb.number { assert hb in laterA; } else { assert ha in laterB; }
  }

  // ----- tool entries -----

  datatype Tool = Read | Agent | Task | Other

  datatype PathClass = Evidence | Outside | Unclassified

  datatype ReadInput = ReadInput(path: PathClass, slice: nat, input: nat)

  datatype Launch = Launch(prompt: string, flagged: bool, subagent: int)

  datatype Occurrence = Occurrence(number: nat, time: Option<Time>, uuid: Id, tool: Tool, canonical: nat,
                                   read: Option<ReadInput>, launch: Option<Launch>)

  /** One tool identity with every occurrence in the source. */
  datatype Entry = Entry(toolId: Id, occurrences: seq<Occurrence>)

  /** A correlated result block. classification: error or not, when it could be told; issue stands for a shared
      or contradictory structured identity, which only the strict reading refuses. */
  datatype Observation = Observation(number: nat, time: Option<Time>, canonical: Option<nat>,
                                     classification: Option<bool>, agent: Option<Id>, fingerprint: Option<int>,
                                     prompt: Option<string>, source: Option<Id>, issue: bool)

  /** Where a repeated record stood. */
  datatype Mark = Mark(number: nat, time: Option<Time>)

  datatype Scan = Scan(entries: seq<Entry>, results: map<Id, seq<Observation>>, duplicates: seq<Mark>)

  function OccurrencesIn(occurrences: seq<Occurrence>, scope: Scope): (r: seq<Occurrence>)
    ensures forall o :: o in r <==> o in occurrences && Contains(scope, o.number, o.time)
  {
    if occurrences == [] then []
    else (if Contains(scope, occurrences[0].number, occurrences[0].time) then [occurrences[0]] else [])
         + OccurrencesIn(occurrences[1..], scope)
  }

  function ResultsIn(results: seq<Observation>, scope: Scope): (r: seq<Observation>)
    ensures forall o :: o in r <==> o in results && Contains(scope, o.number, o.time)
  {
    if results == [] then []
    else (if Contains(scope, results[0].number, results[0].time) then [results[0]] else [])
         + ResultsIn(results[1..], scope)
  }

  function Observations(scan: Scan, entry: Entry, scope: Scope): seq<Observation> {
    if entry.toolId in scan.results then ResultsIn(scan.results[entry.toolId], scope) else []
  }

  predicate Launches(o: Occurrence) { o.tool == Agent || o.tool == Task }

  // ----- launches -----

  datatype Reason = AttributionAmbiguous | LaunchUnresolved | IntervalUnbound

  datatype Candidate = Candidate(agent: Option<Id>, interval: Option<Scope>, reason: Option<Reason>,
                                 launchUuid: Option<Id>, subagent: Option<int>)

  function Refused(reason: Reason): Candidate { Candidate(None, None, Some(reason), None, None) }

  function LaunchUuids(entries: seq<Entry>): set<Id> {
    set e, o | e in entries && o in e.occurrences && Launches(o) :: o.uuid
  }

  function AgentIds(results: seq<Observation>): set<Id> { set o | o in results && o.agent.Some? :: o.agent.value }

  predicate Completes(o: Observation, prompt: string) {
    o.fingerprint.Some? && o.canonical.Some? && o.prompt == Some(prompt)
  }

  function Fingerprints(results: seq<Observation>, prompt: string): set<int> {
    set o | o in results && Completes(o, prompt) :: o.fingerprint.value
  }

  function FirstCompletion(results: seq<Observation>, prompt: string): (r: Option<Observation>)
    ensures r.None? <==> Fingerprints(results, prompt) == {}
    ensures r.Some? ==> r.value in results && Completes(r.value, prompt)
  {
    if results == [] then None
    else if Completes(results[0], prompt) then
      assert results[0].fingerprint.value in Fingerprints(results, prompt); Some(results[0])
    else
      assert Fingerprints(results, prompt) == Fingerprints(results[1..], prompt);
      FirstCompletion(results[1..], prompt)
  }

  predicate Singular<T(==)>(s: set<T>) { forall x, y :: x in s && y in s ==> x == y }

  predicate Misplaced(o: Observation, uuid: Id, launchUuids: set<Id>) {
    o.source.Some? && o.source.value != uuid && o.source.value in launchUuids
  }

  /** The candidate of one launch whose result observations have been gathered. */
  function Resolve(scope: Scope, first: Occurrence, launch: Launch, observations: seq<Observation>, launchUuids: set<Id>)
    : Candidate
  {
    var ids := AgentIds(observations);
    if (exists o :: o in observations && Misplaced(o, first.uuid, launchUuids)) || !Singular(ids) then
      Refused(AttributionAmbiguous)
    else if exists o :: o in observations && (o.canonical.None? || o.classification != Some(false)) then
      Refused(LaunchUnresolved)
    else if ids == {} then Refused(LaunchUnresolved)
    else
      var agent :| agent in ids;
      var completions := Fingerprints(observations, launch.prompt);
      if !Singular(completions) then Refused(AttributionAmbiguous)
      else if completions != {} && (exists o :: o in observations
                                     && (o.fingerprint.None? || o.fingerprint.value !in completions)) then
        Refused(AttributionAmbiguous)
      else
        var completion := FirstCompletion(observations, launch.prompt);
        if launch.flagged || completion.None?
           || !CoversChild(scope, first.number, first.time, completion.value.number, completion.value.time) then
          Candidate(Some(agent), None, Some(IntervalUnbound), None, Some(launch.subagent))
        else
          Candidate(Some(agent), Some(ChildOf(scope, first.time.value, completion.value.time.value)), None,
                    Some(first.uuid), Some(launch.subagent))
  }

  predicate Uniform(occurrences: seq<Occurrence>) {
    forall i, j :: 0 <= i < j < |occurrences| ==> occurrences[i].canonical == occurrences[j].canonical
  }

  predicate AnyLaunch(occurrences: seq<Occurrence>) { exists o :: o in occurrences && Launches(o) }

  predicate AllLaunch(occurrences: seq<Occurrence>) { forall o :: o in occurrences ==> Launches(o) }

  /** The strict reading refuses a result of another message or with a shared or contradictory identity. */
  predicate StrictIssue(observations: seq<Observation>, uuid: Id) {
    exists o :: o in observations && (o.source != Some(uuid) || o.issue)
  }

  /** The candidate of one tool entry, or none when it launches nothing inside the scope. */
  function CandidateOf(scan: Scan, scope: Scope, strict: bool, launchUuids: set<Id>, entry: Entry): (r: Option<Candidate>)
    ensures r.Some? <==> AnyLaunch(OccurrencesIn(entry.occurrences, scope))
  {
    var occurrences := OccurrencesIn(entry.occurrences, scope);
    if !AnyLaunch(occurrences) then None
    else if !AllLaunch(occurrences) || !Uniform(occurrences) then Some(Refused(AttributionAmbiguous))
    else
      var first := occurrences[0];
      var observations := Observations(scan, entry, scope);
      if first.launch.None? || first.launch.value.prompt == "" then Some(Refused(LaunchUnresolved))
      else if strict && StrictIssue(observations, first.uuid) then Some(Refused(AttributionAmbiguous))
      else Some(Resolve(scope, first, first.launch.value, observations, launchUuids))
  }

  function Start(entry: Entry): nat { if entry.occurrences == [] then 0 else entry.occurrences[0].number }

  predicate Sorted(entries: seq<Entry>) {
    forall i, j :: 0 <= i < j < |entries| ==> Start(entries[i]) <= Start(entries[j])
  }

  /** Entries with an occurrence, in the order of their first; entries that start together keep their order. */
  function Ordered(entries: seq<Entry>): seq<Entry> {
    if entries == [] then []
    else
      var n := |entries| - 1;
      if entries[n].occurrences == [] then Ordered(entries[..n]) else Insert(Ordered(entries[..n]), entries[n])
  }

  function Insert(sorted: seq<Entry>, entry: Entry): seq<Entry> {
    if sorted == [] || Start(sorted[|sorted| - 1]) <= Start(entry) then sorted + [entry]
    else Insert(sorted[..|sorted| - 1], entry) + [sorted[|sorted| - 1]]
  }

  predicate Below(entries: seq<Entry>, bound: nat) { forall i :: 0 <= i < |entries| ==> Start(entries[i]) <= bound }

  lemma SortedSnoc(entries: seq<Entry>, entry: Entry, bound: nat)
    requires Sorted(entries) && Below(entries, Start(entry)) && Start(entry) <= bound
    ensures Sorted(entries + [entry]) && Below(entries + [entry], bound)
  {
  }

  lemma SortedInit(entries: seq<Entry>, bound: nat)
    requires entries != [] && Sorted(entries) && Below(entries, bound)
    ensures var n := |entries| - 1;
      Sorted(entries[..n]) && Below(entries[..n], Start(entries[n])) && Start(entries[n]) <= bound
      && entries == entries[..n] + [entries[n]]
  {
  }

  lemma {:induction false} InsertSorted(sorted: seq<Entry>, entry: Entry, bound: nat)
    requires Sorted(sorted) && Start(entry) <= bound && Below(sorted, bound)
    ensures Sorted(Insert(sorted, entry)) && Below(Insert(sorted, entry), bound)
    decreases |sorted|
  {
    if sorted == [] {
      SortedSnoc(sorted, entry, bound);
    } else {
      var n := |sorted| - 1;
      SortedInit(sorted, bound);
      if Start(sorted[n]) <= Start(entry) {
        SortedSnoc(sorted[..n], sorted[n], Start(entry));
        SortedSnoc(sorted, entry, bound);
      } else {
        InsertSorted(sorted[..n], entry, Start(sorted[n]));
        SortedSnoc(Insert(sorted[..n], entry), sorted[n], bound);
      }
    }
  }

  lemma {:induction false} InsertContents(sorted: seq<Entry>, entry: Entry)
    ensures multiset(Insert(sorted, entry)) == multiset(sorted) + multiset{entry}
    decreases |sorted|
  {
    if sorted != [] {
      var n := |sorted| - 1;
      InsertContents(sorted[..n], entry);
      assert sorted == sorted[..n] + [sorted[n]];
    }
  }

  function Highest(entries: seq<Entry>): (r: nat)
    ensures Below(entries, r)
  {
    if entries == [] then 0
    else
      var n := |entries| - 1;
      var rest := Highest(entries[..n]);
      assert forall i :: 0 <= i < n ==> entries[..n][i] == entries[i];
      if Start(entries[n]) >= rest then Start(entries[n]) else rest
  }

  function Occurring(entries: seq<Entry>): seq<Entry> {
    if entries == [] then []
    else Occurring(entries[..|entries| - 1])
         + if entries[|entries| - 1].occurrences == [] then [] else [entries[|entries| - 1]]
  }

  /** The admission order is sorted by first occurrence and leaves no occurring entry out. */
  lemma {:induction false} OrderedSorted(entries: seq<Entry>)
    ensures Sorted(Ordered(entries))
    ensures multiset(Ordered(entries)) == multiset(Occurring(entries))
    decreases |entries|
  {
    if entries != [] {
      var n := |entries| - 1;
      OrderedSorted(entries[..n]);
      if entries[n].occurrences != [] {
        var earlier := Ordered(entries[..n]);
        var bound := Highest(earlier) + Start(entries[n]);
        InsertContents(earlier, entries[n]);
        InsertSorted(earlier, entries[n], bound);
      }
    }
  }

  /** The candidates of a list of entries, and the entries they came from, in the same order. */
  function Candidates(scan: Scan, scope: Scope, strict: bool, launchUuids: set<Id>, entries: seq<Entry>): seq<Candidate> {
    if entries == [] then []
    else
      var last := entries[|entries| - 1];
      var earlier := Candidates(scan, scope, strict, launchUuids, entries[..|entries| - 1]);
      var candidate := CandidateOf(scan, scope, strict, launchUuids, last);
      if candidate.Some? then earlier + [candidate.value] else earlier
  }

  function LaunchEntries(scope: Scope, entries: seq<Entry>): seq<Entry> {
    if entries == [] then []
    else
      var last := entries[|entries| - 1];
      LaunchEntries(scope, entries[..|entries| - 1])
      + if AnyLaunch(OccurrencesIn(last.occurrences, scope)) then [last] else []
  }

  lemma CandidatesSnoc(scan: Scan, scope: Scope, strict: bool, launchUuids: set<Id>, entries: seq<Entry>, k: nat)
    requires k < |entries|
    ensures var candidate := CandidateOf(scan, scope, strict, launchUuids, entries[k]);
      Candidates(scan, scope, strict, launchUuids, entries[..k + 1])
      == Candidates(scan, scope, strict, launchUuids, entries[..k]) + if candidate.Some? then [candidate.value] else []
  {
    assert entries[..k + 1][..k] == entries[..k];
  }

  /** One candidate for each launch entry of the scope, in the order of the scan. */
  method LaunchCandidates(scan: Scan, scope: Scope, strict: bool) returns (candidates: seq<Candidate>)
    ensures candidates == Candidates(scan, scope, strict, LaunchUuids(scan.entries), Ordered(scan.entries))
  {
    var launchUuids := LaunchUuids(scan.entries);
    var ordered := Ordered(scan.entries);
    candidates := [];
    for k := 0 to |ordered|
      invariant candidates == Candidates(scan, scope, strict, launchUuids, ordered[..k])
    {
      CandidatesSnoc(scan, scope, strict, launchUuids, ordered, k);
      var candidate := CandidateOf(scan, scope, strict, launchUuids, ordered[k]);
      if candidate.Some? { candidates := candidates + [candidate.value]; }
    }
    assert ordered[..|ordered|] == ordered;
  }

  /** Each candidate lines up with the launch it resolves: position by position, the same entry. */
  lemma {:induction false} CandidatesAligned(scan: Scan, scope: Scope, strict: bool, launchUuids: set<Id>,
                                             entries: seq<Entry>)
    ensures |Candidates(scan, scope, strict, launchUuids, entries)| == |LaunchEntries(scope, entries)|
    ensures forall i :: 0 <= i < |LaunchEntries(scope, entries)| ==>
              CandidateOf(scan, scope, strict, launchUuids, LaunchEntries(scope, entries)[i])
              == Some(Candidates(scan, scope, strict, launchUuids, entries)[i])
    decreases |entries|
  {
    if entries != [] { CandidatesAligned(scan, scope, strict, launchUuids, entries[..|entries| - 1]); }
  }

  datatype Annotated = Annotated(candidate: Candidate, toolId: Id, tool: Tool, launchUuid: Id, number: nat,
                                 time: Option<Time>)

  function Annotate(candidate: Candidate, entry: Entry, scope: Scope): Annotated
    requires OccurrencesIn(entry.occurrences, scope) != []
  {
    var first := OccurrencesIn(entry.occurrences, scope)[0];
    Annotated(candidate, entry.toolId, first.tool, first.uuid, first.number, first.time)
  }

  /** Position by position, a candidate of the launch entry. */
  predicate Aligned(scan: Scan, scope: Scope, strict: bool, launches: seq<Entry>, candidates: seq<Candidate>) {
    && |launches| == |candidates|
    && forall i :: 0 <= i < |launches| ==>
         CandidateOf(scan, scope, strict, LaunchUuids(scan.entries), launches[i]) == Some(candidates[i])
  }

  predicate AnnotatedBy(scope: Scope, launches: seq<Entry>, candidates: seq<Candidate>, inventory: seq<Annotated>) {
    && |inventory| == |candidates| == |launches|
    && forall i :: 0 <= i < |inventory| ==> AnnotatedAs(scope, launches[i], candidates[i], inventory[i])
  }

  predicate AnnotatedAs(scope: Scope, launch: Entry, candidate: Candidate, annotated: Annotated) {
    OccurrencesIn(launch.occurrences, scope) != [] && annotated == Annotate(candidate, launch, scope)
  }

  method PickLaunches(scope: Scope, ordered: seq<Entry>) returns (launches: seq<Entry>)
    ensures launches == LaunchEntries(scope, ordered)
  {
    launches := [];
    for k := 0 to |ordered|
      invariant launches == LaunchEntries(scope, ordered[..k])
    {
      assert ordered[..k + 1][..k] == ordered[..k];
      if AnyLaunch(OccurrencesIn(ordered[k].occurrences, scope)) { launches := launches + [ordered[k]]; }
    }
    assert ordered[..|ordered|] == ordered;
  }

  method AnnotateAll(scope: Scope, launches: seq<Entry>, candidates: seq<Candidate>) returns (inventory: seq<Annotated>)
    requires |launches| == |candidates|
    requires forall i :: 0 <= i < |launches| ==> AnyLaunch(OccurrencesIn(launches[i].occurrences, scope))
    ensures AnnotatedBy(scope, launches, candidates, inventory)
  {
    inventory := [];
    for i := 0 to |launches|
      invariant |inventory| == i
      invariant forall k :: 0 <= k < i ==> AnnotatedAs(scope, launches[k], candidates[k], inventory[k])
    {
      assert AnyLaunch(OccurrencesIn(launches[i].occurrences, scope));
      inventory := inventory + [Annotate(candidates[i], launches[i], scope)];
    }
  }

  lemma AlignedLaunches(scan: Scan, scope: Scope, strict: bool)
    ensures Aligned(scan, scope, strict, LaunchEntries(scope, Ordered(scan.entries)),
                    Candidates(scan, scope, strict, LaunchUuids(scan.entries), Ordered(scan.entries)))
  {
    CandidatesAligned(scan, scope, strict, LaunchUuids(scan.entries), Ordered(scan.entries));
  }

  /** Pairs the candidates with the launch entries, listed a second time. The two lists always agree in length, so an
      answer is always given, and the k-th annotation belongs to the entry of the k-th candidate. */
  method LaunchInventory(scan: Scan, scope: Scope, strict: bool)
    returns (inventory: Option<seq<Annotated>>, candidates: seq<Candidate>)
    ensures inventory.Some?
    ensures Aligned(scan, scope, strict, LaunchEntries(scope, Ordered(scan.entries)), candidates)
    ensures AnnotatedBy(scope, LaunchEntries(scope, Ordered(scan.entries)), candidates, inventory.value)
  {
    candidates := LaunchCandidates(scan, scope, strict);
    var ordered := Ordered(scan.entries);
    var launches := PickLaunches(scope, ordered);
    AlignedLaunches(scan, scope, strict);
    if |launches| != |candidates| { return None, candidates; }
    forall i | 0 <= i < |launches| ensures AnyLaunch(OccurrencesIn(launches[i].occurrences, scope)) {
      assert CandidateOf(scan, scope, strict, LaunchUuids(scan.entries), launches[i]).Some?;
    }
    var annotated := AnnotateAll(scope, launches, candidates);
    inventory := Some(annotated);
  }

  /** A candidate with a proved interval: every result of the launch inside the scope is a non-error that names
      at most this agent, and the interval lies inside the scope it was launched from. */
  lemma CandidateSound(scan: Scan, scope: Scope, strict: bool, launchUuids: set<Id>, entry: Entry)
    requires CandidateOf(scan, scope, strict, launchUuids, entry).Some?
    requires CandidateOf(scan, scope, strict, launchUuids, entry).value.interval.Some?
    ensures var c := CandidateOf(scan, scope, strict, launchUuids, entry).value;
      && c.agent.Some? && c.interval.value.Child? && c.interval.value.start <= c.interval.value.end
      && ContainsTime(scope, Some(c.interval.value.start)) && ContainsTime(scope, Some(c.interval.value.end))
      && forall o :: o in Observations(scan, entry, scope) ==>
           && o.classification == Some(false)
           && (o.agent.Some? ==> o.agent == c.agent)
  {
    var first := OccurrencesIn(entry.occurrences, scope)[0];
    var observations := Observations(scan, entry, scope);
    forall o | o in observations
      ensures o.classification == Some(false) && (o.agent.Some? ==> o.agent.value in AgentIds(observations))
    {
    }
    assert Singular(AgentIds(observations));
  }
}
