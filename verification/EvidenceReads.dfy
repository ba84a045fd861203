/** The read counts of one actor inside its proved interval, and what they conserve. */
module EvidenceReads {
  import opened Values
  import opened EvidenceCounts

  datatype Summary = NonError | Failed | Unresolved | Unclassifiable

  predicate Agree(observations: seq<Observation>) {
    forall i, j :: 0 <= i < j < |observations| ==> observations[i].canonical == observations[j].canonical
  }

  /** The one outcome its correlated results agree on. */
  function Summarize(observations: seq<Observation>): Summary {
    if observations == [] then Unresolved
    else if exists o :: o in observations && (o.canonical.None? || o.classification.None?) then Unclassifiable
    else if !Agree(observations) then Unclassifiable
    else
      assert observations[0] in observations;
      if observations[0].classification.value then Failed else NonError
  }

  // ----- which entries are reads -----

  datatype Kind = Absent | Conflicting(read: bool) | NotRead | Unsupported | ReadOf(input: ReadInput)

  predicate OneTool(occurrences: seq<Occurrence>) {
    forall i, j :: 0 <= i < j < |occurrences| ==> occurrences[i].tool == occurrences[j].tool
  }

  predicate AnyRead(occurrences: seq<Occurrence>) { exists o :: o in occurrences && o.tool == Read }

  /** How one tool entry counts: conflicting identities are quarantined, other tools are not counted. */
  function KindOf(entry: Entry, scope: Scope): Kind {
    var occurrences := OccurrencesIn(entry.occurrences, scope);
    if occurrences == [] then Absent
    else if !OneTool(occurrences) || !Uniform(occurrences) then Conflicting(AnyRead(occurrences))
    else if occurrences[0].tool != Read then NotRead
    else if occurrences[0].read.None? then Unsupported
    else ReadOf(occurrences[0].read.value)
  }

  /** A classified read request with its outcome. */
  datatype ReadRequest = ReadRequest(input: ReadInput, outcome: Summary)

  function RequestsOf(scan: Scan, scope: Scope, entry: Entry): seq<ReadRequest> {
    if KindOf(entry, scope).ReadOf?
    then [ReadRequest(KindOf(entry, scope).input, Summarize(Observations(scan, entry, scope)))] else []
  }

  function Requests(scan: Scan, scope: Scope, entries: seq<Entry>): seq<ReadRequest> {
    if entries == [] then []
    else Requests(scan, scope, entries[..|entries| - 1]) + RequestsOf(scan, scope, entries[|entries| - 1])
  }

  function InClass(requests: seq<ReadRequest>, class_: PathClass): nat {
    if requests == [] then 0
    else InClass(requests[..|requests| - 1], class_) + if requests[|requests| - 1].input.path == class_ then 1 else 0
  }

  function WithOutcome(requests: seq<ReadRequest>, outcome: Summary): nat {
    if requests == [] then 0
    else WithOutcome(requests[..|requests| - 1], outcome) + if requests[|requests| - 1].outcome == outcome then 1 else 0
  }

  function InputsOf(requests: seq<ReadRequest>): (xs: seq<nat>)
    ensures |xs| == |requests|
  {
    if requests == [] then []
    else InputsOf(requests[..|requests| - 1]) + [requests[|requests| - 1].input.input]
  }

  function Inputs(requests: seq<ReadRequest>): set<nat> { Elements(InputsOf(requests)) }

  function Slices(requests: seq<ReadRequest>): set<nat> {
    set r | r in requests && r.input.path != Unclassified :: r.input.slice
  }

  function Quarantines(entry: Entry, scope: Scope): nat {
    if KindOf(entry, scope) == Conflicting(true) || KindOf(entry, scope) == Unsupported then 1 else 0
  }

  function QuarantinedOf(entries: seq<Entry>, scope: Scope): nat {
    if entries == [] then 0
    else QuarantinedOf(entries[..|entries| - 1], scope) + Quarantines(entries[|entries| - 1], scope)
  }

  /** Every read has exactly one path class and exactly one outcome. */
  lemma {:induction false} Partitions(requests: seq<ReadRequest>)
    ensures InClass(requests, Evidence) + InClass(requests, Outside) + InClass(requests, Unclassified) == |requests|
    ensures WithOutcome(requests, NonError) + WithOutcome(requests, Failed) + WithOutcome(requests, Unresolved)
            + WithOutcome(requests, Unclassifiable) == |requests|
    decreases |requests|
  {
    if requests != [] { Partitions(requests[..|requests| - 1]); }
  }

  /** How often each input was requested, in the order the inputs first appeared. */
  datatype Repetition = Repetition(order: seq<nat>, sizes: map<nat, nat>)

  function Size(sizes: map<nat, nat>, x: nat): nat { if x in sizes then sizes[x] else 0 }

  function Total(order: seq<nat>, sizes: map<nat, nat>): nat {
    if order == [] then 0 else Size(sizes, order[|order| - 1]) + Total(order[..|order| - 1], sizes)
  }

  /** Each input once, in the order of its first request; the sizes add up to the total. */
  predicate Listing(order: seq<nat>, sizes: map<nat, nat>, inputs: set<nat>, total: nat) {
    Distinct(order) && Elements(order) == inputs && sizes.Keys == inputs && Positive(sizes) && Total(order, sizes) == total
  }

  predicate RepetitionOf(r: Repetition, xs: seq<nat>) { Listing(r.order, r.sizes, Elements(xs), |xs|) }

  predicate Positive(sizes: map<nat, nat>) { forall x :: x in sizes ==> sizes[x] > 0 }

  function Count(r: Repetition, x: nat): Repetition {
    if x in r.sizes then r.(sizes := r.sizes[x := r.sizes[x] + 1])
    else Repetition(r.order + [x], r.sizes[x := 1])
  }

  lemma {:induction false} TotalOther(order: seq<nat>, sizes: map<nat, nat>, x: nat, n: nat)
    requires x !in Elements(order)
    ensures Total(order, sizes[x := n]) == Total(order, sizes)
    decreases |order|
  {
    if order != [] {
      assert order[|order| - 1] in Elements(order);
      TotalOther(order[..|order| - 1], sizes, x, n);
    }
  }

  lemma ElementsSnoc(order: seq<nat>, x: nat)
    ensures Elements(order + [x]) == Elements(order) + {x}
  {
  }

  lemma {:induction false} TotalMore(order: seq<nat>, sizes: map<nat, nat>, x: nat)
    requires Distinct(order) && x in Elements(order)
    ensures Total(order, sizes[x := Size(sizes, x) + 1]) == Total(order, sizes) + 1
    decreases |order|
  {
    var n := |order| - 1;
    assert order == order[..n] + [order[n]];
    ElementsSnoc(order[..n], order[n]);
    if order[n] == x {
      TotalOther(order[..n], sizes, x, Size(sizes, x) + 1);
    } else {
      TotalMore(order[..n], sizes, x);
    }
  }

  lemma InputsSnoc(requests: seq<ReadRequest>, request: ReadRequest)
    ensures InputsOf(requests + [request]) == InputsOf(requests) + [request.input.input]
  {
    assert (requests + [request])[..|requests|] == requests;
  }

  lemma DistinctSnoc(order: seq<nat>, x: nat)
    requires Distinct(order) && x !in Elements(order)
    ensures Distinct(order + [x])
  {
  }

  lemma TotalFirst(order: seq<nat>, sizes: map<nat, nat>, x: nat)
    requires x !in Elements(order)
    ensures Total(order + [x], sizes[x := 1]) == Total(order, sizes) + 1
  {
    TotalOther(order, sizes, x, 1);
    assert (order + [x])[..|order|] == order;
  }

  lemma ListingAgain(order: seq<nat>, sizes: map<nat, nat>, inputs: set<nat>, total: nat, x: nat)
    requires Listing(order, sizes, inputs, total) && x in sizes
    ensures Listing(order, sizes[x := sizes[x] + 1], inputs, total + 1)
  {
    TotalMore(order, sizes, x);
  }

  lemma ListingFirst(order: seq<nat>, sizes: map<nat, nat>, inputs: set<nat>, total: nat, x: nat)
    requires Listing(order, sizes, inputs, total) && x !in sizes
    ensures Listing(order + [x], sizes[x := 1], inputs + {x}, total + 1)
  {
    DistinctSnoc(order, x);
    ElementsSnoc(order, x);
    TotalFirst(order, sizes, x);
  }

  lemma CountKeeps(r: Repetition, xs: seq<nat>, x: nat)
    requires RepetitionOf(r, xs)
    ensures RepetitionOf(Count(r, x), xs + [x])
  {
    ElementsSnoc(xs, x);
    if x in r.sizes {
      ListingAgain(r.order, r.sizes, Elements(xs), |xs|, x);
      assert Elements(xs) + {x} == Elements(xs);
    } else {
      ListingFirst(r.order, r.sizes, Elements(xs), |xs|, x);
    }
  }

  /** The surplus of each repeated input, summed: every request but the first for each. */
  method Repeats(r: Repetition) returns (surplus: nat)
    requires Elements(r.order) == r.sizes.Keys && Positive(r.sizes)
    ensures surplus + |r.order| == Total(r.order, r.sizes)
  {
    surplus := 0;
    for k := 0 to |r.order|
      invariant surplus + k == Total(r.order[..k], r.sizes)
    {
      assert r.order[..k + 1][..k] == r.order[..k];
      assert r.order[k] in Elements(r.order);
      var size := r.sizes[r.order[k]];
      if size > 1 { surplus := surplus + size - 1; }
    }
    assert r.order[..|r.order|] == r.order;
  }

  lemma RepetitionNone()
    ensures RepetitionOf(Repetition([], map[]), [])
  {
  }

  lemma ElementsFit(xs: seq<nat>)
    ensures |Elements(xs)| <= |xs|
  {
    if xs != [] {
      var n := |xs| - 1;
      ElementsFit(xs[..n]);
      assert xs == xs[..n] + [xs[n]];
      ElementsSnoc(xs[..n], xs[n]);
    }
  }

  /** How many entries of the list repeat an earlier one. */
  function Surplus(xs: seq<nat>): nat {
    ElementsFit(xs); |xs| - |Elements(xs)|
  }

  method NothingRepeated(xs: seq<nat>) returns (r: Repetition)
    requires |xs| == 0
    ensures RepetitionOf(r, xs)
  {
    RepetitionNone();
    r := Repetition([], map[]);
  }

  method CountEach(xs: seq<nat>) returns (r: Repetition)
    ensures RepetitionOf(r, xs)
  {
    hide RepetitionOf, Count, Elements;
    r := NothingRepeated(xs[..0]);
    for k := 0 to |xs|
      invariant RepetitionOf(r, xs[..k])
    {
      CountKeeps(r, xs[..k], xs[k]);
      assert xs[..k + 1] == xs[..k] + [xs[k]];
      r := Count(r, xs[k]);
    }
    assert xs[..|xs|] == xs;
  }

  method CountSurplus(xs: seq<nat>) returns (surplus: nat)
    ensures surplus == Surplus(xs)
  {
    var r := CountEach(xs);
    DistinctCount(r.order);
    surplus := Repeats(r);
  }

  // ----- duplicates -----

  function Canonicals(occurrences: seq<Occurrence>): seq<nat> {
    if occurrences == [] then []
    else Canonicals(occurrences[..|occurrences| - 1]) + [occurrences[|occurrences| - 1].canonical]
  }

  function ResultCanonicals(observations: seq<Observation>): seq<nat> {
    if observations == [] then []
    else ResultCanonicals(observations[..|observations| - 1])
         + if observations[|observations| - 1].canonical.Some? then [observations[|observations| - 1].canonical.value]
           else []
  }

  /** Repeated occurrences and repeated results of one tool entry, whatever tool it is. */
  function DuplicatesOf(scan: Scan, scope: Scope, entry: Entry): nat {
    if OccurrencesIn(entry.occurrences, scope) == [] then 0
    else Surplus(Canonicals(OccurrencesIn(entry.occurrences, scope)))
         + Surplus(ResultCanonicals(Observations(scan, entry, scope)))
  }

  function DuplicatesIn(scan: Scan, scope: Scope, entries: seq<Entry>): nat {
    if entries == [] then 0
    else DuplicatesIn(scan, scope, entries[..|entries| - 1]) + DuplicatesOf(scan, scope, entries[|entries| - 1])
  }

  function MarksIn(marks: seq<Mark>, scope: Scope): nat {
    if marks == [] then 0
    else MarksIn(marks[..|marks| - 1], scope)
         + if Contains(scope, marks[|marks| - 1].number, marks[|marks| - 1].time) then 1 else 0
  }

  method CountMarks(marks: seq<Mark>, scope: Scope) returns (n: nat)
    ensures n == MarksIn(marks, scope)
  {
    n := 0;
    for k := 0 to |marks|
      invariant n == MarksIn(marks[..k], scope)
    {
      assert marks[..k + 1][..k] == marks[..k];
      if Contains(scope, marks[k].number, marks[k].time) { n := n + 1; }
    }
    assert marks[..|marks|] == marks;
  }

  method CountDuplicates(scan: Scan, scope: Scope, entry: Entry) returns (n: nat)
    ensures n == DuplicatesOf(scan, scope, entry)
  {
    var occurrences := OccurrencesIn(entry.occurrences, scope);
    if occurrences == [] { return 0; }
    var uses := CountSurplus(Canonicals(occurrences));
    var results := CountSurplus(ResultCanonicals(Observations(scan, entry, scope)));
    return uses + results;
  }

  datatype Counts = Counts(requests: nat, evidence: nat, outside: nat, unclassified: nat, slices: nat, repeated: nat,
                           nonError: nat, failed: nat, unresolved: nat, unsupported: nat, duplicateRecords: nat,
                           duplicateObservations: nat)

  /** The counts are the ones the classified requests give. */
  predicate CountsOf(c: Counts, requests: seq<ReadRequest>) {
    && c.requests == |requests|
    && c.evidence == InClass(requests, Evidence)
    && c.outside == InClass(requests, Outside)
    && c.unclassified == InClass(requests, Unclassified)
    && c.nonError == WithOutcome(requests, NonError)
    && c.failed == WithOutcome(requests, Failed)
    && c.unresolved == WithOutcome(requests, Unresolved) + WithOutcome(requests, Unclassifiable)
  }

  lemma RequestsSnoc(scan: Scan, scope: Scope, entries: seq<Entry>, k: nat)
    requires k < |entries|
    ensures Requests(scan, scope, entries[..k + 1])
            == Requests(scan, scope, entries[..k]) + RequestsOf(scan, scope, entries[k])
    ensures QuarantinedOf(entries[..k + 1], scope)
            == QuarantinedOf(entries[..k], scope) + Quarantines(entries[k], scope)
    ensures DuplicatesIn(scan, scope, entries[..k + 1])
            == DuplicatesIn(scan, scope, entries[..k]) + DuplicatesOf(scan, scope, entries[k])
  {
    assert entries[..k + 1][..k] == entries[..k];
  }

  lemma TallySnoc(requests: seq<ReadRequest>, r: ReadRequest)
    ensures forall class_ :: InClass(requests + [r], class_)
                             == InClass(requests, class_) + if r.input.path == class_ then 1 else 0
    ensures forall outcome :: WithOutcome(requests + [r], outcome)
                              == WithOutcome(requests, outcome) + if r.outcome == outcome then 1 else 0
    ensures Slices(requests + [r]) == Slices(requests) + if r.input.path != Unclassified then {r.input.slice} else {}
  {
    assert (requests + [r])[..|requests|] == requests;
    assert forall x :: x in requests + [r] <==> x in requests || x == r;
  }

  /** Counts one classified request. */
  method Tally(c: Counts, r: ReadRequest, ghost requests: seq<ReadRequest>) returns (next: Counts)
    requires CountsOf(c, requests)
    ensures CountsOf(next, requests + [r])
    ensures next.unsupported == c.unsupported && next.duplicateObservations == c.duplicateObservations
    ensures Slices(requests + [r]) == Slices(requests) + if r.input.path != Unclassified then {r.input.slice} else {}
  {
    TallySnoc(requests, r);
    next := c.(requests := c.requests + 1);
    match r.input.path {
      case Evidence => next := next.(evidence := next.evidence + 1);
      case Outside => next := next.(outside := next.outside + 1);
      case Unclassified => next := next.(unclassified := next.unclassified + 1);
    }
    match r.outcome {
      case NonError => next := next.(nonError := next.nonError + 1);
      case Failed => next := next.(failed := next.failed + 1);
      case Unresolved => next := next.(unresolved := next.unresolved + 1);
      case Unclassifiable => next := next.(unresolved := next.unresolved + 1);
    }
  }

  predicate Tallied(c: Counts, slices: set<nat>, inputs: Repetition, requests: seq<ReadRequest>) {
    CountsOf(c, requests) && slices == Slices(requests) && RepetitionOf(inputs, InputsOf(requests))
  }

  /** Counts one tool entry's read, if it is one. */
  method CountRead(scan: Scan, scope: Scope, entry: Entry, c: Counts, slices: set<nat>, inputs: Repetition,
                   ghost requests: seq<ReadRequest>)
    returns (c': Counts, slices': set<nat>, inputs': Repetition, ghost requests': seq<ReadRequest>)
    requires Tallied(c, slices, inputs, requests)
    ensures requests' == requests + RequestsOf(scan, scope, entry)
    ensures Tallied(c', slices', inputs', requests')
    ensures c'.unsupported == c.unsupported + Quarantines(entry, scope)
    ensures c'.duplicateObservations == c.duplicateObservations
  {
    hide KindOf, Summarize, Observations, RepetitionOf, InputsOf, Slices, Count;
    c', slices', inputs', requests' := c, slices, inputs, requests;
    var kind := KindOf(entry, scope);
    if kind == Conflicting(true) || kind == Unsupported {
      c' := c.(unsupported := c.unsupported + 1);
    } else if kind.ReadOf? {
      var request := ReadRequest(kind.input, Summarize(Observations(scan, entry, scope)));
      c' := Tally(c, request, requests);
      if kind.input.path != Unclassified { slices' := slices + {kind.input.slice}; }
      inputs' := Count(inputs, kind.input.input);
      CountKeeps(inputs, InputsOf(requests), kind.input.input);
      InputsSnoc(requests, request);
      requests' := requests + [request];
    }
    assert requests' == requests + RequestsOf(scan, scope, entry);
  }

  const ZERO := Counts(0, 0, 0, 0, 0, 0, 0, 0, 0, 0, 0, 0)

  lemma NoSlices(requests: seq<ReadRequest>)
    requires |requests| == 0
    ensures Slices(requests) == {}
  {
  }

  lemma TalliedNone(slices: set<nat>, inputs: Repetition, requests: seq<ReadRequest>)
    requires |requests| == 0 && slices == {} && inputs == Repetition([], map[])
    ensures Tallied(ZERO, slices, inputs, requests)
  {
    RepetitionNone();
    NoSlices(requests);
  }

  /** What the entries counted so far gave. */
  ghost predicate Counted(scan: Scan, scope: Scope, entries: seq<Entry>, c: Counts, slices: set<nat>,
                          inputs: Repetition, requests: seq<ReadRequest>)
  {
    && requests == Requests(scan, scope, entries)
    && Tallied(c, slices, inputs, requests)
    && c.unsupported == QuarantinedOf(entries, scope)
    && c.duplicateObservations == DuplicatesIn(scan, scope, entries)
  }

  lemma NoEntries(scan: Scan, scope: Scope, entries: seq<Entry>)
    requires |entries| == 0
    ensures Requests(scan, scope, entries) == []
    ensures QuarantinedOf(entries, scope) == 0 && DuplicatesIn(scan, scope, entries) == 0
  {
  }

  lemma CountedNone(scan: Scan, scope: Scope, entries: seq<Entry>, slices: set<nat>, inputs: Repetition,
                    requests: seq<ReadRequest>)
    requires |entries| == |requests| == 0 && slices == {} && inputs == Repetition([], map[])
    ensures Counted(scan, scope, entries, ZERO, slices, inputs, requests)
  {
    NoEntries(scan, scope, entries);
    TalliedNone(slices, inputs, requests);
  }

  lemma CountedSnoc(scan: Scan, scope: Scope, entries: seq<Entry>, k: nat, c: Counts, requests: seq<ReadRequest>,
                    c': Counts, slices': set<nat>, inputs': Repetition, requests': seq<ReadRequest>)
    requires k < |entries| && requests == Requests(scan, scope, entries[..k])
    requires c.unsupported == QuarantinedOf(entries[..k], scope)
    requires c.duplicateObservations == DuplicatesIn(scan, scope, entries[..k])
    requires requests' == requests + RequestsOf(scan, scope, entries[k]) && Tallied(c', slices', inputs', requests')
    requires c'.unsupported == c.unsupported + Quarantines(entries[k], scope)
    requires c'.duplicateObservations == c.duplicateObservations + DuplicatesOf(scan, scope, entries[k])
    ensures Counted(scan, scope, entries[..k + 1], c', slices', inputs', requests')
  {
    RequestsSnoc(scan, scope, entries, k);
  }

  /** Counts one tool entry: its duplicates, then its read. */
  method CountEntry(scan: Scan, scope: Scope, entries: seq<Entry>, k: nat, c: Counts, slices: set<nat>,
                    inputs: Repetition, ghost requests: seq<ReadRequest>)
    returns (c': Counts, slices': set<nat>, inputs': Repetition, ghost requests': seq<ReadRequest>)
    requires k < |entries| && Counted(scan, scope, entries[..k], c, slices, inputs, requests)
    ensures Counted(scan, scope, entries[..k + 1], c', slices', inputs', requests')
  {
    var duplicates := CountDuplicates(scan, scope, entries[k]);
    var read;
    read, slices', inputs', requests' := CountRead(scan, scope, entries[k], c, slices, inputs, requests);
    c' := read.(duplicateObservations := read.duplicateObservations + duplicates);
    CountedSnoc(scan, scope, entries, k, c, requests, c', slices', inputs', requests');
  }

  method NothingCounted(scan: Scan, scope: Scope, entries: seq<Entry>)
    returns (c: Counts, slices: set<nat>, inputs: Repetition, ghost requests: seq<ReadRequest>)
    requires |entries| == 0
    ensures Counted(scan, scope, entries, c, slices, inputs, requests)
  {
    c, slices, inputs, requests := ZERO, {}, Repetition([], map[]), [];
    CountedNone(scan, scope, entries, slices, inputs, requests);
  }

  method CountEntries(scan: Scan, scope: Scope)
    returns (c: Counts, slices: set<nat>, inputs: Repetition, ghost requests: seq<ReadRequest>)
    ensures Counted(scan, scope, scan.entries, c, slices, inputs, requests)
  {
    c, slices, inputs, requests := NothingCounted(scan, scope, scan.entries[..0]);
    for k := 0 to |scan.entries|
      invariant Counted(scan, scope, scan.entries[..k], c, slices, inputs, requests)
    {
      c, slices, inputs, requests := CountEntry(scan, scope, scan.entries, k, c, slices, inputs, requests);
    }
    assert scan.entries[..|scan.entries|] == scan.entries;
  }

  /** One actor's counts. Reads are partitioned by path and by outcome, a repeated input is every request for it but
      one, and a duplicate observation every occurrence or result of one tool identity but the first of its kind. */
  method CountGroup(scan: Scan, scope: Scope) returns (c: Counts)
    ensures CountsOf(c, Requests(scan, scope, scan.entries))
    ensures c.requests == c.evidence + c.outside + c.unclassified
    ensures c.requests == c.nonError + c.failed + c.unresolved
    ensures c.repeated + |Inputs(Requests(scan, scope, scan.entries))| == c.requests
    ensures c.slices == |Slices(Requests(scan, scope, scan.entries))|
    ensures c.unsupported == QuarantinedOf(scan.entries, scope)
    ensures c.duplicateRecords == MarksIn(scan.duplicates, scope)
    ensures c.duplicateObservations == DuplicatesIn(scan, scope, scan.entries)
  {
    var marks := CountMarks(scan.duplicates, scope);
    var counted, slices, inputs, requests := CountEntries(scan, scope);
    Partitions(requests);
    DistinctCount(inputs.order);
    var repeated := Repeats(inputs);
    c := counted.(slices := |slices|, repeated := repeated, duplicateRecords := marks);
  }
}
