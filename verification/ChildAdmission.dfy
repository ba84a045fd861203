/** Admission of child actors: a worklist over the launches every scanned source claims, with global agent
    identities, bounded claims and children, and revocation of everything below an ambiguous child. */
module ChildAdmission {
  import opened Values

  // ----- the launch graph -----

  /** One resolved launch of a source. interval is the proved child interval, if there is one. */
  datatype Candidate = Candidate(agent: Option<Id>, interval: Option<int>, reason: int)

  /** What reading a child's own file gives. A failed read may exhaust a shared budget; what it already read
      still contributes its claims. */
  datatype Outcome = Unreadable(budget: bool) | Read(contradictory: bool)

  datatype Scan = Scan(outcome: Outcome, candidates: seq<Candidate>)

  type Files = map<Id, Scan>

  function ScanOf(files: Files, id: Id): Scan { if id in files then files[id] else Scan(Unreadable(false), []) }

  datatype Limits = Limits(children: nat, toolIds: nat)

  /** An admitted child. */
  datatype Entry = Entry(agent: Id, interval: Option<int>, parent: Option<nat>, ambiguous: bool)

  datatype Item = Item(parent: Option<nat>, candidates: seq<Candidate>)

  datatype Problem = Unresolved(reason: int) | AttributionAmbiguous | ToolIdLimit | ChildLimit | Unread

  datatype State = State(admitted: seq<Entry>, byAgent: map<Id, nat>, claimed: set<Id>, closed: bool,
                         queue: seq<Item>, problems: set<Problem>)

  // ----- descendants -----

  predicate ParentsOk(admitted: seq<Entry>) {
    forall i :: 0 <= i < |admitted| && admitted[i].parent.Some? ==> admitted[i].parent.value < i
  }

  /** The entry is the ancestor or lies below it. */
  predicate Descends(admitted: seq<Entry>, index: nat, ancestor: nat)
    requires ParentsOk(admitted) && index < |admitted|
    decreases index
  {
    index == ancestor
    || (admitted[index].parent.Some? && Descends(admitted, admitted[index].parent.value, ancestor))
  }

  /** The walk of the source: up the parents until the ancestor, the root or an entry seen before. */
  method DescendsFrom(admitted: seq<Entry>, start: Option<nat>, ancestor: nat) returns (r: bool)
    requires ParentsOk(admitted) && (start.Some? ==> start.value < |admitted|)
    ensures r <==> start.Some? && Descends(admitted, start.value, ancestor)
  {
    var index: Option<nat> := start;
    var seen: set<nat> := {};
    while index.Some? && index.value !in seen
      invariant index.Some? ==> index.value < |admitted|
      invariant forall k :: k in seen ==> index.Some? ==> index.value < k
      invariant (start.Some? && Descends(admitted, start.value, ancestor))
                <==> (index.Some? && Descends(admitted, index.value, ancestor))
      decreases if index.Some? then index.value + 1 else 0
    {
      seen := seen + {index.value};
      if index.value == ancestor { return true; }
      index := admitted[index.value].parent;
    }
    return false;
  }

  lemma {:induction false} DescendsTrans(admitted: seq<Entry>, a: nat, b: nat, c: nat)
    requires ParentsOk(admitted) && a < |admitted| && b < |admitted|
    requires Descends(admitted, a, b) && Descends(admitted, b, c)
    ensures Descends(admitted, a, c)
    decreases a
  {
    if a != b { DescendsTrans(admitted, admitted[a].parent.value, b, c); }
  }

  lemma {:induction false} DescendsUp(admitted: seq<Entry>, a: nat, b: nat)
    requires ParentsOk(admitted) && a < |admitted| && Descends(admitted, a, b)
    ensures b <= a
    decreases a
  {
    if a != b { DescendsUp(admitted, admitted[a].parent.value, b); }
  }

  predicate SameShape(a: seq<Entry>, b: seq<Entry>) {
    && |a| == |b|
    && forall i :: 0 <= i < |a| ==> b[i] == a[i].(ambiguous := b[i].ambiguous)
  }

  lemma {:induction false} DescendsSame(a: seq<Entry>, b: seq<Entry>, index: nat, ancestor: nat)
    requires SameShape(a, b) && ParentsOk(a) && ParentsOk(b) && index < |a|
    ensures Descends(a, index, ancestor) <==> Descends(b, index, ancestor)
    decreases index
  {
    assert b[index].parent == a[index].parent;
    if index != ancestor && a[index].parent.Some? { DescendsSame(a, b, a[index].parent.value, ancestor); }
  }

  /** Some entry at or above this one is marked. */
  predicate Tainted(admitted: seq<Entry>, index: nat)
    requires ParentsOk(admitted) && index < |admitted|
  {
    exists a :: 0 <= a < |admitted| && admitted[a].ambiguous && Descends(admitted, index, a)
  }

  // ----- one candidate -----

  /** The scan of an admitted child leaves it without authority. */
  predicate Revoked(files: Files, agent: Id, interval: Option<int>) {
    interval.Some? && (ScanOf(files, agent).outcome.Unreadable? || ScanOf(files, agent).outcome.contradictory)
  }

  function Admit(st: State, files: Files, id: Id, c: Candidate, parent: Option<nat>): State {
    var scan := ScanOf(files, id);
    var entry := Entry(id, c.interval, parent, Revoked(files, id, c.interval));
    var index := |st.admitted|;
    var grown := st.(admitted := st.admitted + [entry], byAgent := st.byAgent[id := index]);
    if c.interval.None? then grown.(problems := st.problems + {Unresolved(c.reason)})
    else grown.(closed := st.closed || (scan.outcome.Unreadable? && scan.outcome.budget),
                queue := st.queue + [Item(Some(index), scan.candidates)],
                problems := st.problems + if scan.outcome.Unreadable? then {Unread}
                                          else if scan.outcome.contradictory then {AttributionAmbiguous} else {})
  }

  function Take(st: State, files: Files, limits: Limits, c: Candidate, parent: Option<nat>): State
    requires ParentsOk(st.admitted) && (parent.Some? ==> parent.value < |st.admitted|)
    requires forall id :: id in st.byAgent ==> st.byAgent[id] < |st.admitted|
  {
    if c.agent.None? then st.(problems := st.problems + {Unresolved(c.reason)})
    else
      var id := c.agent.value;
      if id in st.claimed then
        var noted := st.(problems := st.problems + {AttributionAmbiguous});
        if id !in st.byAgent then noted
        else
          var index := st.byAgent[id];
          noted.(admitted := st.admitted[index := st.admitted[index].(ambiguous := true)])
      else if |st.claimed| >= limits.toolIds then
        st.(closed := true, problems := st.problems + {ToolIdLimit})
      else
        var now := st.(claimed := st.claimed + {id});
        if st.closed || (parent.Some? && Tainted(st.admitted, parent.value)) then now
        else if |st.admitted| >= limits.children then
          now.(closed := true, problems := st.problems + {ChildLimit})
        else Admit(now, files, id, c, parent)
  }

  // ----- what the worklist keeps -----

  /** How many candidates claim the agent. */
  function Claims(seen: seq<Candidate>, id: Id): nat {
    if seen == [] then 0
    else Claims(seen[..|seen| - 1], id) + if seen[|seen| - 1].agent == Some(id) then 1 else 0
  }

  predicate IndexOk(st: State) {
    && (forall id :: id in st.byAgent ==>
          && st.byAgent[id] < |st.admitted| && st.admitted[st.byAgent[id]].agent == id)
    && (forall i :: 0 <= i < |st.admitted| ==>
          && st.admitted[i].agent in st.byAgent && st.byAgent[st.admitted[i].agent] == i
          && st.admitted[i].agent in st.claimed)
  }

  ghost predicate ClaimsOk(st: State, limits: Limits, seen: seq<Candidate>) {
    && (forall id :: id in st.claimed ==> Claims(seen, id) > 0)
    && (|st.claimed| < limits.toolIds ==> forall id: Id :: Claims(seen, id) > 0 ==> id in st.claimed)
  }

  /** An entry is marked exactly when its agent was claimed again or its own scan revoked it. */
  predicate MarksOk(st: State, files: Files, seen: seq<Candidate>) {
    forall i :: 0 <= i < |st.admitted| ==>
      (st.admitted[i].ambiguous <==>
         Claims(seen, st.admitted[i].agent) >= 2 || Revoked(files, st.admitted[i].agent, st.admitted[i].interval))
  }

  predicate QueueOk(st: State, limits: Limits) {
    && |st.admitted| <= limits.children
    && 1 <= |st.queue| <= 1 + |st.admitted|
    && forall k :: 0 <= k < |st.queue| && st.queue[k].parent.Some? ==> st.queue[k].parent.value < |st.admitted|
  }

  /** The queue after the parent's own source is exactly the files of the admitted children with an interval. */
  ghost predicate SourcesOk(st: State, files: Files) {
    && (forall k :: 1 <= k < |st.queue| ==>
          && st.queue[k].parent.Some? && st.queue[k].parent.value < |st.admitted|
          && st.admitted[st.queue[k].parent.value].interval.Some?
          && st.queue[k].candidates == ScanOf(files, st.admitted[st.queue[k].parent.value].agent).candidates)
    && forall i :: 0 <= i < |st.admitted| && st.admitted[i].interval.Some? ==>
         exists k :: 1 <= k < |st.queue| && st.queue[k].parent == Some(i)
  }

  /** While no problem was noted, every launch seen is an admitted child with an interval and authority. */
  predicate CompleteOk(st: State, seen: seq<Candidate>) {
    st.problems == {} ==>
      && !st.closed
      && (forall i :: 0 <= i < |st.admitted| ==> st.admitted[i].interval.Some? && !st.admitted[i].ambiguous)
      && forall k :: 0 <= k < |seen| ==> seen[k].agent.Some? && seen[k].agent.value in st.byAgent
  }

  /** Each entry is a launch of the source it is listed under: the file of its parent entry, or the parent's own. */
  predicate OriginsOk(st: State) {
    forall i :: 0 <= i < |st.admitted| ==> ListedUnder(st.queue, st.admitted[i])
  }

  predicate ListedUnder(queue: seq<Item>, entry: Entry) {
    exists k, j :: 0 <= k < |queue| && 0 <= j < |queue[k].candidates| && LaunchedAs(queue[k], j, entry)
  }

  predicate LaunchedAs(item: Item, j: nat, entry: Entry)
    requires j < |item.candidates|
  {
    item.parent == entry.parent && item.candidates[j].agent == Some(entry.agent)
    && item.candidates[j].interval == entry.interval
  }

  /** A named agent with an interval and a readable file that does not contradict itself. */
  predicate Sound(files: Files, c: Candidate) {
    c.agent.Some? && c.interval.Some? && !Revoked(files, c.agent.value, c.interval)
  }

  ghost predicate AllSound(files: Files, limits: Limits, seen: seq<Candidate>) {
    && |seen| <= limits.toolIds && |seen| <= limits.children
    && forall k :: 0 <= k < |seen| ==> Sound(files, seen[k]) && Claims(seen, seen[k].agent.value) == 1
  }

  predicate SizesOk(st: State, limits: Limits, seen: seq<Candidate>) {
    && |st.admitted| <= |seen| && |st.claimed| <= |seen| && |st.claimed| <= limits.toolIds
    && (st.problems == {} ==> |st.admitted| == |st.claimed| == |seen|)
  }

  /** A problem is noted only when there is one. */
  ghost predicate NotedOk(st: State, files: Files, limits: Limits, seen: seq<Candidate>) {
    && (st.problems == {} ==> forall k :: 0 <= k < |seen| ==> Sound(files, seen[k]))
    && (AllSound(files, limits, seen) ==> st.problems == {})
  }

  ghost predicate Inv(st: State, files: Files, limits: Limits, seen: seq<Candidate>) {
    && ParentsOk(st.admitted)
    && IndexOk(st)
    && ClaimsOk(st, limits, seen)
    && MarksOk(st, files, seen)
    && QueueOk(st, limits)
    && SourcesOk(st, files)
    && CompleteOk(st, seen)
  }

  lemma ListedStill(before: seq<Item>, after: seq<Item>, a: Entry, b: Entry)
    requires before <= after && ListedUnder(before, a) && b == a.(ambiguous := b.ambiguous)
    ensures ListedUnder(after, b)
  {
    var k, j :| 0 <= k < |before| && 0 <= j < |before[k].candidates| && LaunchedAs(before[k], j, a);
    assert LaunchedAs(after[k], j, b);
  }

  lemma TakeOrigins(st: State, files: Files, limits: Limits, item: Item, j: nat)
    requires ParentsOk(st.admitted) && (item.parent.Some? ==> item.parent.value < |st.admitted|)
    requires forall id :: id in st.byAgent ==> st.byAgent[id] < |st.admitted|
    requires OriginsOk(st) && item in st.queue && j < |item.candidates|
    ensures OriginsOk(Take(st, files, limits, item.candidates[j], item.parent))
  {
    var next := Take(st, files, limits, item.candidates[j], item.parent);
    forall i | 0 <= i < |next.admitted| ensures ListedUnder(next.queue, next.admitted[i]) {
      if i < |st.admitted| {
        ListedStill(st.queue, next.queue, st.admitted[i], next.admitted[i]);
      } else {
        var k :| 0 <= k < |st.queue| && st.queue[k] == item;
        assert LaunchedAs(next.queue[k], j, next.admitted[i]);
      }
    }
  }

  predicate Placed(st: State, parent: Option<nat>) {
    && ParentsOk(st.admitted) && (parent.Some? ==> parent.value < |st.admitted|)
    && forall id :: id in st.byAgent ==> st.byAgent[id] < |st.admitted|
  }

  /** While nothing was noted no source is closed and no entry is marked. */
  predicate Unmarked(st: State) {
    !st.closed && forall i :: 0 <= i < |st.admitted| ==> !st.admitted[i].ambiguous
  }

  lemma TakeSizes(st: State, files: Files, limits: Limits, c: Candidate, parent: Option<nat>, seen: seq<Candidate>)
    requires Placed(st, parent) && SizesOk(st, limits, seen) && (st.problems == {} ==> Unmarked(st))
    ensures SizesOk(Take(st, files, limits, c, parent), limits, seen + [c])
  {
  }

  /** A candidate taken without a note was sound. */
  lemma TakeSilent(st: State, files: Files, limits: Limits, c: Candidate, parent: Option<nat>)
    requires Placed(st, parent) && (st.problems == {} ==> Unmarked(st))
    requires Take(st, files, limits, c, parent).problems == {}
    ensures st.problems == {} && Sound(files, c)
  {
    assert st.problems <= Take(st, files, limits, c, parent).problems;
  }

  /** A sound first claim within the limits is taken without a note. */
  lemma TakeSound(st: State, files: Files, limits: Limits, c: Candidate, parent: Option<nat>)
    requires Placed(st, parent) && Unmarked(st) && st.problems == {} && Sound(files, c)
    requires c.agent.value !in st.claimed && |st.claimed| < limits.toolIds && |st.admitted| < limits.children
    ensures Take(st, files, limits, c, parent).problems == {}
  {
  }

  lemma InvPlaced(st: State, files: Files, limits: Limits, seen: seq<Candidate>, parent: Option<nat>)
    requires Inv(st, files, limits, seen) && (parent.Some? ==> parent.value < |st.admitted|)
    ensures Placed(st, parent) && (st.problems == {} ==> Unmarked(st))
    ensures forall id :: id in st.claimed ==> Claims(seen, id) > 0
  {
  }

  lemma TakeNoted(st: State, files: Files, limits: Limits, c: Candidate, parent: Option<nat>, seen: seq<Candidate>)
    requires Placed(st, parent) && (st.problems == {} ==> Unmarked(st))
    requires forall id :: id in st.claimed ==> Claims(seen, id) > 0
    requires SizesOk(st, limits, seen) && NotedOk(st, files, limits, seen)
    ensures NotedOk(Take(st, files, limits, c, parent), files, limits, seen + [c])
  {
    hide Take, AllSound, Sound, Unmarked;
    var next := Take(st, files, limits, c, parent);
    if next.problems == {} { TakeSilent(st, files, limits, c, parent); }
    if AllSound(files, limits, seen + [c]) {
      SoundBefore(files, limits, seen, c);
      TakeSound(st, files, limits, c, parent);
    }
  }

  /** The entries only grew in number and in marks. */
  predicate Grown(a: seq<Entry>, b: seq<Entry>) {
    && |a| <= |b|
    && forall i :: 0 <= i < |a| ==>
         b[i] == a[i].(ambiguous := b[i].ambiguous) && (a[i].ambiguous ==> b[i].ambiguous)
  }

  lemma {:induction false} DescendsGrown(a: seq<Entry>, b: seq<Entry>, index: nat, ancestor: nat)
    requires Grown(a, b) && ParentsOk(a) && ParentsOk(b) && index < |a| && Descends(a, index, ancestor)
    ensures Descends(b, index, ancestor)
    decreases index
  {
    assert b[index].parent == a[index].parent;
    if index != ancestor { DescendsGrown(a, b, a[index].parent.value, ancestor); }
  }

  lemma TaintedGrown(a: seq<Entry>, b: seq<Entry>, index: nat)
    requires Grown(a, b) && ParentsOk(a) && ParentsOk(b) && index < |a| && Tainted(a, index)
    ensures Tainted(b, index)
  {
    var x :| 0 <= x < |a| && a[x].ambiguous && Descends(a, index, x);
    DescendsGrown(a, b, index, x);
  }

  /** The agent was offered by a source at or below a marked entry. */
  predicate Barred(st: State, id: Id)
    requires ParentsOk(st.admitted)
  {
    exists k, j :: 0 <= k < |st.queue| && 0 <= j < |st.queue[k].candidates| && BarredBy(st, st.queue[k], j, id)
  }

  predicate BarredBy(st: State, item: Item, j: nat, id: Id)
    requires ParentsOk(st.admitted) && j < |item.candidates|
  {
    && item.candidates[j].agent == Some(id)
    && item.parent.Some? && item.parent.value < |st.admitted| && Tainted(st.admitted, item.parent.value)
  }

  /** Reading the child used up the budget it shares with the rest. */
  predicate Exhausts(files: Files, entry: Entry) {
    var outcome := ScanOf(files, entry.agent).outcome;
    entry.interval.Some? && outcome.Unreadable? && outcome.budget
  }

  predicate ClosedOk(st: State, files: Files, limits: Limits) {
    st.closed ==> || |st.claimed| >= limits.toolIds || |st.admitted| >= limits.children
                  || exists i :: 0 <= i < |st.admitted| && Exhausts(files, st.admitted[i])
  }

  /** A named launch that was not admitted came when admission was closed or from a source that had lost authority. */
  predicate DropsOk(st: State, seen: seq<Candidate>)
    requires ParentsOk(st.admitted)
  {
    forall k :: 0 <= k < |seen| && seen[k].agent.Some? && seen[k].agent.value !in st.byAgent ==>
      st.closed || Barred(st, seen[k].agent.value)
  }

  lemma EntriesGrow(st: State, files: Files, limits: Limits, c: Candidate, parent: Option<nat>)
    requires Placed(st, parent)
    ensures var next := Take(st, files, limits, c, parent);
      Grown(st.admitted, next.admitted) && st.queue <= next.queue
  {
    hide Revoked, ScanOf, Tainted;
  }

  lemma ParentsGrow(st: State, files: Files, limits: Limits, c: Candidate, parent: Option<nat>)
    requires Placed(st, parent)
    ensures ParentsOk(Take(st, files, limits, c, parent).admitted)
  {
    hide Revoked, ScanOf, Tainted;
  }

  lemma TakeGrows(st: State, files: Files, limits: Limits, c: Candidate, parent: Option<nat>)
    requires Placed(st, parent)
    ensures var next := Take(st, files, limits, c, parent);
      && Grown(st.admitted, next.admitted) && ParentsOk(next.admitted) && st.queue <= next.queue
      && (forall id :: id in st.byAgent ==> id in next.byAgent) && (st.closed ==> next.closed)
  {
    hide Revoked, ScanOf, Tainted, Grown, ParentsOk;
    EntriesGrow(st, files, limits, c, parent);
    ParentsGrow(st, files, limits, c, parent);
  }

  lemma BarredStill(st: State, next: State, id: Id)
    requires Grown(st.admitted, next.admitted) && ParentsOk(st.admitted) && ParentsOk(next.admitted)
    requires st.queue <= next.queue && Barred(st, id)
    ensures Barred(next, id)
  {
    var k, j :| 0 <= k < |st.queue| && 0 <= j < |st.queue[k].candidates| && BarredBy(st, st.queue[k], j, id);
    TaintedGrown(st.admitted, next.admitted, st.queue[k].parent.value);
    assert BarredBy(next, next.queue[k], j, id);
  }

  /** One candidate is admitted unless it was claimed before, admission is closed, or its source lost authority. */
  lemma TakeDecides(st: State, files: Files, limits: Limits, item: Item, j: nat)
    requires Placed(st, item.parent) && item in st.queue && j < |item.candidates|
    requires item.candidates[j].agent.Some?
    ensures var next, id := Take(st, files, limits, item.candidates[j], item.parent), item.candidates[j].agent.value;
      ParentsOk(next.admitted) && (id in next.byAgent || id in st.claimed || next.closed || Barred(next, id))
  {
    TakeGrows(st, files, limits, item.candidates[j], item.parent);
    var next, id := Take(st, files, limits, item.candidates[j], item.parent), item.candidates[j].agent.value;
    if item.parent.Some? && Tainted(st.admitted, item.parent.value) && id !in next.byAgent {
      TaintedGrown(st.admitted, next.admitted, item.parent.value);
      var k :| 0 <= k < |st.queue| && st.queue[k] == item;
      assert BarredBy(next, next.queue[k], j, id);
    }
  }

  lemma {:induction false} ClaimedSomewhere(seen: seq<Candidate>, id: Id) returns (k: nat)
    requires Claims(seen, id) > 0
    ensures k < |seen| && seen[k].agent == Some(id)
    decreases |seen|
  {
    var n := |seen| - 1;
    if seen[n].agent == Some(id) { k := n; } else { k := ClaimedSomewhere(seen[..n], id); }
  }

  lemma TakeDrops(st: State, files: Files, limits: Limits, item: Item, j: nat, seen: seq<Candidate>)
    requires Placed(st, item.parent) && item in st.queue && j < |item.candidates| && DropsOk(st, seen)
    requires forall id :: id in st.claimed ==> Claims(seen, id) > 0
    ensures var next := Take(st, files, limits, item.candidates[j], item.parent);
      ParentsOk(next.admitted) && DropsOk(next, seen + [item.candidates[j]])
  {
    TakeGrows(st, files, limits, item.candidates[j], item.parent);
    hide Take, Barred;
    var next, all := Take(st, files, limits, item.candidates[j], item.parent), seen + [item.candidates[j]];
    forall k | 0 <= k < |all| && all[k].agent.Some? && all[k].agent.value !in next.byAgent
      ensures next.closed || Barred(next, all[k].agent.value)
    {
      var id, first := all[k].agent.value, k;
      if k == |seen| {
        TakeDecides(st, files, limits, item, j);
        if id in st.claimed { first := ClaimedSomewhere(seen, id); }
      }
      if first < |seen| && !next.closed { BarredStill(st, next, id); }
    }
  }

  lemma TakeClosed(st: State, files: Files, limits: Limits, c: Candidate, parent: Option<nat>)
    requires Placed(st, parent) && ClosedOk(st, files, limits)
    ensures ClosedOk(Take(st, files, limits, c, parent), files, limits)
  {
    TakeGrows(st, files, limits, c, parent);
    var next := Take(st, files, limits, c, parent);
    if exists i :: 0 <= i < |st.admitted| && Exhausts(files, st.admitted[i]) {
      var i :| 0 <= i < |st.admitted| && Exhausts(files, st.admitted[i]);
      assert Exhausts(files, next.admitted[i]);
    } else if |next.admitted| > |st.admitted| && next.closed && !st.closed {
      assert Exhausts(files, next.admitted[|st.admitted|]);
    }
  }

  /** Where the entries came from, why launches were dropped, and why problems were noted. */
  ghost predicate Traced(st: State, files: Files, limits: Limits, seen: seq<Candidate>) {
    && OriginsOk(st) && SizesOk(st, limits, seen) && NotedOk(st, files, limits, seen)
    && ClosedOk(st, files, limits) && ParentsOk(st.admitted) && DropsOk(st, seen)
  }

  lemma TakeTraced(st: State, files: Files, limits: Limits, item: Item, j: nat, seen: seq<Candidate>)
    requires Inv(st, files, limits, seen) && Traced(st, files, limits, seen)
    requires item.parent.Some? ==> item.parent.value < |st.admitted|
    requires item in st.queue && j < |item.candidates|
    ensures Traced(Take(st, files, limits, item.candidates[j], item.parent), files, limits, seen + [item.candidates[j]])
  {
    hide OriginsOk, SizesOk, NotedOk, Inv, Unmarked, ClosedOk, DropsOk, Take;
    InvPlaced(st, files, limits, seen, item.parent);
    TakeOrigins(st, files, limits, item, j);
    TakeSizes(st, files, limits, item.candidates[j], item.parent, seen);
    TakeNoted(st, files, limits, item.candidates[j], item.parent, seen);
    TakeClosed(st, files, limits, item.candidates[j], item.parent);
    TakeDrops(st, files, limits, item, j, seen);
  }

  lemma SoundBefore(files: Files, limits: Limits, seen: seq<Candidate>, c: Candidate)
    requires AllSound(files, limits, seen + [c])
    ensures AllSound(files, limits, seen)
    ensures |seen| < limits.toolIds && |seen| < limits.children
    ensures Sound(files, c) && Claims(seen, c.agent.value) == 0
  {
    ClaimsSnoc(seen, c);
    assert (seen + [c])[|seen|] == c;
    forall k | 0 <= k < |seen| ensures Sound(files, seen[k]) && Claims(seen, seen[k].agent.value) == 1 {
      assert (seen + [c])[k] == seen[k] && Sound(files, (seen + [c])[k]);
      ClaimedHere(seen, k);
    }
  }

  lemma {:induction false} ClaimedHere(seen: seq<Candidate>, k: nat)
    requires k < |seen| && seen[k].agent.Some?
    ensures Claims(seen, seen[k].agent.value) > 0
    decreases |seen|
  {
    if k < |seen| - 1 { ClaimedHere(seen[..|seen| - 1], k); }
  }

  lemma ClaimsSnoc(seen: seq<Candidate>, c: Candidate)
    ensures forall id: Id {:trigger Claims(seen + [c], id)} ::
              Claims(seen + [c], id) == Claims(seen, id) + if c.agent == Some(id) then 1 else 0
  {
    assert (seen + [c])[..|seen|] == seen;
  }

  /** Each kind of candidate keeps the invariant. */
  lemma TakeUnknown(st: State, files: Files, limits: Limits, c: Candidate, seen: seq<Candidate>)
    requires Inv(st, files, limits, seen) && c.agent.None?
    ensures Inv(st.(problems := st.problems + {Unresolved(c.reason)}), files, limits, seen + [c])
  {
    ClaimsSnoc(seen, c);
  }

  function Marked(st: State, index: nat): State
    requires index < |st.admitted|
  {
    st.(admitted := st.admitted[index := st.admitted[index].(ambiguous := true)],
        problems := st.problems + {AttributionAmbiguous})
  }

  lemma MarkedShape(st: State, files: Files, limits: Limits, index: nat)
    requires ParentsOk(st.admitted) && IndexOk(st) && QueueOk(st, limits) && SourcesOk(st, files)
    requires index < |st.admitted|
    ensures ParentsOk(Marked(st, index).admitted) && IndexOk(Marked(st, index)) && QueueOk(Marked(st, index), limits)
    ensures SourcesOk(Marked(st, index), files)
  {
  }

  lemma MarkedMarks(st: State, files: Files, index: nat, c: Candidate, seen: seq<Candidate>)
    requires MarksOk(st, files, seen) && IndexOk(st) && index < |st.admitted|
    requires c.agent == Some(st.admitted[index].agent) && Claims(seen, st.admitted[index].agent) > 0
    ensures MarksOk(Marked(st, index), files, seen + [c])
  {
    ClaimsSnoc(seen, c);
  }

  lemma TakeRepeated(st: State, files: Files, limits: Limits, c: Candidate, parent: Option<nat>, seen: seq<Candidate>)
    requires Inv(st, files, limits, seen) && c.agent.Some? && c.agent.value in st.claimed
    requires parent.Some? ==> parent.value < |st.admitted|
    ensures Inv(Take(st, files, limits, c, parent), files, limits, seen + [c])
  {
    ClaimsSnoc(seen, c);
    if c.agent.value in st.byAgent {
      MarkedShape(st, files, limits, st.byAgent[c.agent.value]);
      MarkedMarks(st, files, st.byAgent[c.agent.value], c, seen);
    }
  }

  lemma TakeBeyond(st: State, files: Files, limits: Limits, c: Candidate, parent: Option<nat>, seen: seq<Candidate>)
    requires Inv(st, files, limits, seen) && c.agent.Some? && c.agent.value !in st.claimed
    requires |st.claimed| >= limits.toolIds
    requires parent.Some? ==> parent.value < |st.admitted|
    ensures Inv(Take(st, files, limits, c, parent), files, limits, seen + [c])
  {
    ClaimsSnoc(seen, c);
  }

  /** A first claim that is remembered but not admitted. */
  lemma TakeClaimed(st: State, files: Files, limits: Limits, c: Candidate, closed: bool, problems: set<Problem>,
                    seen: seq<Candidate>)
    requires Inv(st, files, limits, seen) && c.agent.Some? && c.agent.value !in st.claimed
    requires |st.claimed| < limits.toolIds
    requires problems != {}
    ensures Inv(st.(claimed := st.claimed + {c.agent.value}, closed := closed, problems := problems),
                files, limits, seen + [c])
  {
    ClaimsSnoc(seen, c);
  }

  lemma AdmittedIndex(st: State, files: Files, id: Id, c: Candidate, parent: Option<nat>)
    requires IndexOk(st) && id !in st.claimed
    ensures IndexOk(Admit(st.(claimed := st.claimed + {id}), files, id, c, parent))
  {
  }

  lemma AdmittedMarks(st: State, files: Files, id: Id, c: Candidate, parent: Option<nat>, seen: seq<Candidate>)
    requires MarksOk(st, files, seen) && IndexOk(st) && id !in st.claimed && c.agent == Some(id)
    requires Claims(seen, id) == 0
    ensures MarksOk(Admit(st.(claimed := st.claimed + {id}), files, id, c, parent), files, seen + [c])
  {
    ClaimsSnoc(seen, c);
  }

  lemma AdmittedQueue(st: State, files: Files, limits: Limits, id: Id, c: Candidate, parent: Option<nat>)
    requires QueueOk(st, limits) && ParentsOk(st.admitted) && |st.admitted| < limits.children
    requires parent.Some? ==> parent.value < |st.admitted|
    ensures QueueOk(Admit(st, files, id, c, parent), limits)
    ensures ParentsOk(Admit(st, files, id, c, parent).admitted)
  {
  }

  lemma AdmittedSources(st: State, files: Files, id: Id, c: Candidate, parent: Option<nat>)
    requires SourcesOk(st, files) && 1 <= |st.queue|
    ensures SourcesOk(Admit(st, files, id, c, parent), files)
  {
    var next := Admit(st, files, id, c, parent);
    forall i | 0 <= i < |next.admitted| && next.admitted[i].interval.Some?
      ensures exists k :: 1 <= k < |next.queue| && next.queue[k].parent == Some(i)
    {
      if i < |st.admitted| {
        var k :| 1 <= k < |st.queue| && st.queue[k].parent == Some(i);
        assert next.queue[k].parent == Some(i);
      } else {
        assert next.queue[|st.queue|].parent == Some(i);
      }
    }
  }

  lemma AdmittedComplete(st: State, files: Files, id: Id, c: Candidate, parent: Option<nat>, seen: seq<Candidate>)
    requires CompleteOk(st, seen) && c.agent == Some(id)
    ensures CompleteOk(Admit(st, files, id, c, parent), seen + [c])
  {
  }

  lemma TakeAdmitted(st: State, files: Files, limits: Limits, c: Candidate, parent: Option<nat>, seen: seq<Candidate>)
    requires Inv(st, files, limits, seen) && c.agent.Some? && c.agent.value !in st.claimed
    requires |st.claimed| < limits.toolIds && |st.admitted| < limits.children
    requires parent.Some? ==> parent.value < |st.admitted|
    ensures Inv(Admit(st.(claimed := st.claimed + {c.agent.value}), files, c.agent.value, c, parent),
                files, limits, seen + [c])
  {
    var id := c.agent.value;
    ClaimsSnoc(seen, c);
    AdmittedIndex(st, files, id, c, parent);
    AdmittedMarks(st, files, id, c, parent, seen);
    AdmittedQueue(st.(claimed := st.claimed + {id}), files, limits, id, c, parent);
    AdmittedSources(st.(claimed := st.claimed + {id}), files, id, c, parent);
    AdmittedComplete(st.(claimed := st.claimed + {id}), files, id, c, parent, seen);
  }

  lemma TakeKeeps(st: State, files: Files, limits: Limits, c: Candidate, parent: Option<nat>, seen: seq<Candidate>)
    requires Inv(st, files, limits, seen)
    requires parent.Some? ==> parent.value < |st.admitted|
    ensures Inv(Take(st, files, limits, c, parent), files, limits, seen + [c])
  {
    if c.agent.None? {
      TakeUnknown(st, files, limits, c, seen);
    } else if c.agent.value in st.claimed {
      TakeRepeated(st, files, limits, c, parent, seen);
    } else if |st.claimed| >= limits.toolIds {
      TakeBeyond(st, files, limits, c, parent, seen);
    } else if st.closed || (parent.Some? && Tainted(st.admitted, parent.value)) {
      assert st.problems != {};
      TakeClaimed(st, files, limits, c, st.closed, st.problems, seen);
    } else if |st.admitted| >= limits.children {
      TakeClaimed(st, files, limits, c, true, st.problems + {ChildLimit}, seen);
    } else {
      TakeAdmitted(st, files, limits, c, parent, seen);
    }
  }

  // ----- the worklist -----

  function Flatten(items: seq<Item>): seq<Candidate> {
    if items == [] then [] else Flatten(items[..|items| - 1]) + items[|items| - 1].candidates
  }

  lemma FlattenSnoc(items: seq<Item>, k: nat)
    requires k < |items|
    ensures Flatten(items[..k + 1]) == Flatten(items[..k]) + items[k].candidates
  {
    assert items[..k + 1][..k] == items[..k];
  }

  lemma TakeQueue(st: State, files: Files, limits: Limits, c: Candidate, parent: Option<nat>)
    requires ParentsOk(st.admitted) && (parent.Some? ==> parent.value < |st.admitted|)
    requires forall id :: id in st.byAgent ==> st.byAgent[id] < |st.admitted|
    ensures st.queue <= Take(st, files, limits, c, parent).queue
    ensures |st.admitted| <= |Take(st, files, limits, c, parent).admitted|
  {
  }

  /** A candidate becomes a child exactly where it names an agent no one claimed before, admission is open, its source has
      authority and both limits leave room; the entry it becomes, and what is noted of it. */
  lemma AdmitsIff(st: State, files: Files, limits: Limits, c: Candidate, parent: Option<nat>)
    requires Placed(st, parent)
    ensures var next := Take(st, files, limits, c, parent);
      && (|next.admitted| > |st.admitted|
          <==> && c.agent.Some? && c.agent.value !in st.claimed && !st.closed
               && (parent.Some? ==> !Tainted(st.admitted, parent.value))
               && |st.claimed| < limits.toolIds && |st.admitted| < limits.children)
      && (|next.admitted| > |st.admitted| ==>
            var read := ScanOf(files, c.agent.value).outcome;
            && next.admitted == st.admitted + [Entry(c.agent.value, c.interval, parent,
                                                     c.interval.Some? && (read.Unreadable? || read.contradictory))]
            && next.problems == st.problems + if c.interval.None? then {Unresolved(c.reason)}
                                              else if read.Unreadable? then {Unread}
                                              else if read.contradictory then {AttributionAmbiguous} else {})
  {
    hide ScanOf, Tainted;
  }

  /** Whether some marked entry is at or above the parent. */
  method AnyTainted(admitted: seq<Entry>, parent: nat) returns (tainted: bool)
    requires ParentsOk(admitted) && parent < |admitted|
    ensures tainted <==> Tainted(admitted, parent)
  {
    for index := 0 to |admitted|
      invariant forall a :: 0 <= a < index ==> !(admitted[a].ambiguous && Descends(admitted, parent, a))
    {
      if admitted[index].ambiguous {
        var below := DescendsFrom(admitted, Some(parent), index);
        if below { return true; }
      }
    }
    return false;
  }

  /** Takes one candidate off the source being read. */
  method TakeNext(st: State, files: Files, limits: Limits, c: Candidate, parent: Option<nat>) returns (next: State)
    requires ParentsOk(st.admitted) && (parent.Some? ==> parent.value < |st.admitted|)
    requires forall id :: id in st.byAgent ==> st.byAgent[id] < |st.admitted|
    ensures next == Take(st, files, limits, c, parent)
  {
    next := st;
    if c.agent.None? {
      next := next.(problems := next.problems + {Unresolved(c.reason)});
      return;
    }
    var id := c.agent.value;
    if id in st.claimed {
      if id in st.byAgent {
        var index := st.byAgent[id];
        next := next.(admitted := next.admitted[index := next.admitted[index].(ambiguous := true)]);
      }
      next := next.(problems := next.problems + {AttributionAmbiguous});
      return;
    }
    if |st.claimed| >= limits.toolIds {
      next := next.(closed := true, problems := next.problems + {ToolIdLimit});
      return;
    }
    next := next.(claimed := next.claimed + {id});
    var barred := st.closed;
    if !barred && parent.Some? { barred := AnyTainted(st.admitted, parent.value); }
    if barred { return; }
    if |st.admitted| >= limits.children {
      next := next.(closed := true, problems := next.problems + {ChildLimit});
      return;
    }
    next := Admit(next, files, id, c, parent);
  }

  const START := State([], map[], {}, false, [], {})

  lemma StartKeeps(parent: seq<Candidate>, files: Files, limits: Limits)
    ensures Inv(START.(queue := [Item(None, parent)]), files, limits, [])
    ensures Traced(START.(queue := [Item(None, parent)]), files, limits, [])
  {
  }

  lemma TakeAt(st: State, files: Files, limits: Limits, item: Item, k: nat, before: seq<Candidate>)
    requires k < |item.candidates| && Inv(st, files, limits, before + item.candidates[..k])
    requires Traced(st, files, limits, before + item.candidates[..k]) && item in st.queue
    requires item.parent.Some? ==> item.parent.value < |st.admitted|
    ensures Inv(Take(st, files, limits, item.candidates[k], item.parent), files, limits,
                before + item.candidates[..k + 1])
    ensures Traced(Take(st, files, limits, item.candidates[k], item.parent), files, limits,
                   before + item.candidates[..k + 1])
  {
    TakeKeeps(st, files, limits, item.candidates[k], item.parent, before + item.candidates[..k]);
    TakeTraced(st, files, limits, item, k, before + item.candidates[..k]);
    assert before + item.candidates[..k + 1] == before + item.candidates[..k] + [item.candidates[k]];
  }

  /** Takes every candidate of one source. */
  method TakeSource(st: State, files: Files, limits: Limits, item: Item, ghost before: seq<Candidate>)
    returns (next: State)
    requires Inv(st, files, limits, before) && Traced(st, files, limits, before)
    requires item in st.queue && (item.parent.Some? ==> item.parent.value < |st.admitted|)
    ensures Inv(next, files, limits, before + item.candidates)
    ensures Traced(next, files, limits, before + item.candidates)
    ensures st.queue <= next.queue
  {
    next := st;
    assert before + item.candidates[..0] == before;
    for k := 0 to |item.candidates|
      invariant item.parent.Some? ==> item.parent.value < |next.admitted|
      invariant Inv(next, files, limits, before + item.candidates[..k])
      invariant Traced(next, files, limits, before + item.candidates[..k])
      invariant st.queue <= next.queue
    {
      TakeQueue(next, files, limits, item.candidates[k], item.parent);
      TakeAt(next, files, limits, item, k, before);
      next := TakeNext(next, files, limits, item.candidates[k], item.parent);
    }
    assert item.candidates[..|item.candidates|] == item.candidates;
  }

  lemma FlattenNone()
    ensures Flatten([]) == []
  {
  }

  lemma QueueGrown(queue: seq<Item>, grown: seq<Item>, head: nat)
    requires head < |queue| && queue <= grown
    ensures grown[..head] == queue[..head] && grown[head] == queue[head] && grown[0] == queue[0]
    ensures Flatten(grown[..head + 1]) == Flatten(queue[..head]) + queue[head].candidates
  {
    FlattenSnoc(grown, head);
  }

  lemma QueueBounds(st: State, files: Files, limits: Limits, seen: seq<Candidate>)
    requires Inv(st, files, limits, seen)
    ensures 1 <= |st.queue| <= limits.children + 1
    ensures forall k :: 0 <= k < |st.queue| && st.queue[k].parent.Some? ==> st.queue[k].parent.value < |st.admitted|
  {
  }

  /** Drives the queue of sources, the parent's own first. It ends within the child limit, and leaves every
      source it scanned, revoked or failed ones included, fully claimed. */
  method Gather(parent: seq<Candidate>, files: Files, limits: Limits) returns (st: State)
    ensures Inv(st, files, limits, Flatten(st.queue)) && Traced(st, files, limits, Flatten(st.queue))
    ensures st.queue[0] == Item(None, parent)
    ensures |st.queue| <= limits.children + 1
  {
    hide Inv, Traced, Flatten;
    st := START.(queue := [Item(None, parent)]);
    var head := 0;
    FlattenNone();
    StartKeeps(parent, files, limits);
    assert st.queue[..0] == [];
    while head < |st.queue|
      invariant head <= |st.queue|
      invariant Inv(st, files, limits, Flatten(st.queue[..head]))
      invariant Traced(st, files, limits, Flatten(st.queue[..head]))
      invariant |st.queue| > 0 && st.queue[0] == Item(None, parent)
      decreases limits.children + 1 - head
    {
      var item := st.queue[head];
      QueueBounds(st, files, limits, Flatten(st.queue[..head]));
      var next := TakeSource(st, files, limits, item, Flatten(st.queue[..head]));
      QueueGrown(st.queue, next.queue, head);
      st := next;
      head := head + 1;
    }
    assert st.queue[..head] == st.queue;
    QueueBounds(st, files, limits, Flatten(st.queue));
  }

  // ----- closure -----

  /** Marks everything below a marked entry. */
  method CloseUnder(admitted: seq<Entry>) returns (closed: seq<Entry>)
    requires ParentsOk(admitted)
    ensures SameShape(admitted, closed) && ParentsOk(closed)
    ensures forall i :: 0 <= i < |closed| ==> (closed[i].ambiguous <==> Tainted(admitted, i))
  {
    closed := admitted;
    for index := 0 to |admitted|
      invariant SameShape(admitted, closed)
      invariant forall i :: 0 <= i < |closed| ==>
                  (closed[i].ambiguous <==> admitted[i].ambiguous || TaintedBefore(admitted, i, index))
    {
      ghost var before := closed;
      if closed[index].ambiguous {
        for other := 0 to |admitted|
          invariant SameShape(admitted, closed) && SameShape(admitted, before)
          invariant forall i :: 0 <= i < |closed| ==>
                      (closed[i].ambiguous <==> before[i].ambiguous || (i < other && Descends(admitted, i, index)))
        {
          SameParents(admitted, closed);
          var below := DescendsFrom(closed, Some(other), index);
          DescendsSame(admitted, closed, other, index);
          if below { closed := closed[other := closed[other].(ambiguous := true)]; }
        }
      }
      TaintStep(admitted, index, before[index].ambiguous);
    }
    SameParents(admitted, closed);
    forall i | 0 <= i < |closed| ensures closed[i].ambiguous <==> Tainted(admitted, i) {
      TaintedAll(admitted, i);
    }
  }

  lemma SameParents(a: seq<Entry>, b: seq<Entry>)
    requires SameShape(a, b) && ParentsOk(a)
    ensures ParentsOk(b)
  {
    forall i | 0 <= i < |b| && b[i].parent.Some? ensures b[i].parent.value < i { assert b[i].parent == a[i].parent; }
  }

  /** Some entry before the bound is marked and at or above this one. */
  predicate TaintedBefore(admitted: seq<Entry>, i: nat, bound: nat)
    requires ParentsOk(admitted) && i < |admitted|
  {
    exists a :: 0 <= a < Min(bound, |admitted|) && admitted[a].ambiguous && Descends(admitted, i, a)
  }

  lemma TaintedAll(admitted: seq<Entry>, i: nat)
    requires ParentsOk(admitted) && i < |admitted|
    ensures Tainted(admitted, i) <==> admitted[i].ambiguous || TaintedBefore(admitted, i, |admitted|)
  {
  }

  /** One more source of marks: what lies below it was tainted before, or is now. */
  lemma TaintStep(admitted: seq<Entry>, index: nat, marked: bool)
    requires ParentsOk(admitted) && index < |admitted|
    requires marked <==> admitted[index].ambiguous || TaintedBefore(admitted, index, index)
    ensures forall i :: 0 <= i < |admitted| ==>
              (TaintedBefore(admitted, i, index + 1) <==>
                 TaintedBefore(admitted, i, index) || (admitted[index].ambiguous && Descends(admitted, i, index)))
    ensures forall i :: 0 <= i < |admitted| && marked && Descends(admitted, i, index) ==>
              admitted[i].ambiguous || TaintedBefore(admitted, i, index + 1)
  {
    forall i | 0 <= i < |admitted| && marked && Descends(admitted, i, index)
      ensures TaintedBefore(admitted, i, index + 1)
    {
      if !admitted[index].ambiguous {
        var a :| 0 <= a < index && admitted[a].ambiguous && Descends(admitted, index, a);
        DescendsTrans(admitted, i, index, a);
      }
    }
  }

  // ----- what the audit reports -----

  /** The claims of every scanned source, the parent's and the children's, in the order they were read. */
  method AdmitChildren(parent: seq<Candidate>, files: Files, limits: Limits) returns (children: seq<Entry>, st: State)
    ensures Inv(st, files, limits, Flatten(st.queue)) && st.queue[0] == Item(None, parent)
    ensures Traced(st, files, limits, Flatten(st.queue))
    ensures |children| <= limits.children && |st.queue| <= limits.children + 1
    ensures Reported(st, children)
  {
    st := Gather(parent, files, limits);
    children := CloseUnder(st.admitted);
  }

  /** The children as they leave the closure pass. */
  predicate Reported(st: State, children: seq<Entry>)
    requires ParentsOk(st.admitted)
  {
    && SameShape(st.admitted, children) && ParentsOk(children)
    && forall i :: 0 <= i < |children| ==> (children[i].ambiguous <==> Tainted(st.admitted, i))
  }

  /** A child loses its authority exactly when some child at or above it was claimed more than once by the scanned
      sources, could not be read, or contradicted itself. */
  lemma AmbiguousIff(st: State, files: Files, limits: Limits, children: seq<Entry>, i: nat)
    requires Inv(st, files, limits, Flatten(st.queue)) && Reported(st, children) && i < |children|
    ensures children[i].ambiguous <==>
      exists a :: 0 <= a < |children| && Descends(children, i, a)
        && (Claims(Flatten(st.queue), children[a].agent) >= 2
            || Revoked(files, children[a].agent, children[a].interval))
  {
    forall a | 0 <= a < |children|
      ensures Descends(children, i, a) <==> Descends(st.admitted, i, a)
      ensures st.admitted[a].agent == children[a].agent && st.admitted[a].interval == children[a].interval
    {
      DescendsSame(st.admitted, children, i, a);
    }
  }

  /** An unambiguous child's agent is claimed by exactly one candidate of all scanned sources, and so is every
      child's above it. */
  lemma UnambiguousClaimedOnce(st: State, files: Files, limits: Limits, children: seq<Entry>, i: nat, a: nat)
    requires Inv(st, files, limits, Flatten(st.queue)) && Reported(st, children)
    requires i < |children| && a < |children| && !children[i].ambiguous && Descends(children, i, a)
    ensures Claims(Flatten(st.queue), children[a].agent) == 1
    ensures !Revoked(files, children[a].agent, children[a].interval)
  {
    AmbiguousIff(st, files, limits, children, i);
    assert st.admitted[a].agent in st.claimed && st.admitted[a].agent == children[a].agent;
  }

  /** What lies below an ambiguous child is ambiguous. */
  lemma AmbiguousClosed(st: State, children: seq<Entry>, i: nat, j: nat)
    requires ParentsOk(st.admitted) && Reported(st, children)
    requires i < |children| && j < |children| && children[i].ambiguous && Descends(children, j, i)
    ensures children[j].ambiguous
  {
    var a :| 0 <= a < |st.admitted| && st.admitted[a].ambiguous && Descends(st.admitted, i, a);
    DescendsSame(st.admitted, children, j, i);
    DescendsTrans(st.admitted, j, i, a);
  }

  /** When no problem was noted nothing was dropped: every launch of every scanned source is its own admitted,
      readable, unambiguous child. */
  lemma NoProblemMeansComplete(st: State, files: Files, limits: Limits, children: seq<Entry>, k: nat)
    requires Inv(st, files, limits, Flatten(st.queue)) && Reported(st, children) && st.problems == {}
    requires k < |Flatten(st.queue)|
    ensures Flatten(st.queue)[k].agent.Some?
    ensures exists i :: 0 <= i < |children| && children[i].agent == Flatten(st.queue)[k].agent.value
              && children[i].interval.Some? && !children[i].ambiguous
    ensures Claims(Flatten(st.queue), Flatten(st.queue)[k].agent.value) == 1
  {
    var id := Flatten(st.queue)[k].agent.value;
    var i := st.byAgent[id];
    assert children[i].agent == id;
    UnambiguousClaimedOnce(st, files, limits, children, i, i);
  }

  /** The launch is one of the list. */
  predicate LaunchedIn(candidates: seq<Candidate>, child: Entry) {
    exists c :: c in candidates && c.agent == Some(child.agent) && c.interval == child.interval
  }

  /** Every child was launched by what it is listed under: its parent child's own file, or the parent's source. */
  lemma ChildOrigin(st: State, files: Files, limits: Limits, children: seq<Entry>, parent: seq<Candidate>, i: nat)
    requires Inv(st, files, limits, Flatten(st.queue)) && Traced(st, files, limits, Flatten(st.queue))
    requires st.queue[0] == Item(None, parent) && Reported(st, children) && i < |children|
    ensures children[i].parent.None? ==> LaunchedIn(parent, children[i])
    ensures children[i].parent.Some? ==>
              && children[i].parent.value < i && children[children[i].parent.value].interval.Some?
              && LaunchedIn(ScanOf(files, children[children[i].parent.value].agent).candidates, children[i])
  {
    assert ListedUnder(st.queue, st.admitted[i]);
    var k, j :| 0 <= k < |st.queue| && 0 <= j < |st.queue[k].candidates| && LaunchedAs(st.queue[k], j, st.admitted[i]);
    var c := st.queue[k].candidates[j];
    assert c.agent == Some(children[i].agent) && c.interval == children[i].interval;
    assert children[i].parent == st.admitted[i].parent;
    if k > 0 {
      var p := st.admitted[i].parent.value;
      assert children[p].agent == st.admitted[p].agent && children[p].interval == st.admitted[p].interval;
    }
  }

  /** No problem is noted exactly when every launch of every scanned source is sound, claimed once and within the
      limits. */
  lemma CompleteIff(st: State, files: Files, limits: Limits, children: seq<Entry>)
    requires Inv(st, files, limits, Flatten(st.queue)) && Traced(st, files, limits, Flatten(st.queue))
    requires Reported(st, children)
    ensures st.problems == {} <==> AllSound(files, limits, Flatten(st.queue))
  {
    if st.problems == {} {
      forall k | 0 <= k < |Flatten(st.queue)|
        ensures Sound(files, Flatten(st.queue)[k]) && Claims(Flatten(st.queue), Flatten(st.queue)[k].agent.value) == 1
      {
        NoProblemMeansComplete(st, files, limits, children, k);
      }
    }
  }

  /** A named launch without an admitted child was met with admission closed, because a limit was reached or a read used
      up the budget, or was made by a child that is itself without authority. */
  lemma DroppedForReason(st: State, files: Files, limits: Limits, children: seq<Entry>, k: nat)
    requires Inv(st, files, limits, Flatten(st.queue)) && Traced(st, files, limits, Flatten(st.queue))
    requires st.queue[0].parent.None? && Reported(st, children)
    requires k < |Flatten(st.queue)| && Flatten(st.queue)[k].agent.Some?
    requires forall i :: 0 <= i < |children| ==> Flatten(st.queue)[k].agent != Some(children[i].agent)
    ensures |st.claimed| >= limits.toolIds || |children| >= limits.children
            || (exists i :: 0 <= i < |children| && Exhausts(files, children[i]))
            || exists p :: 0 <= p < |children| && children[p].ambiguous
                           && Claims(ScanOf(files, children[p].agent).candidates, Flatten(st.queue)[k].agent.value) > 0
  {
    hide Flatten, MarksOk, CompleteOk, OriginsOk, SizesOk, NotedOk, ClaimsOk, Barred, Exhausts, Claims;
    var id := Flatten(st.queue)[k].agent.value;
    if id in st.byAgent { AdmittedChild(st, children, id); }
    if st.closed {
      if i :| 0 <= i < |st.admitted| && Exhausts(files, st.admitted[i]) { ExhaustsStill(st, files, children, i); }
    } else {
      BarredBelow(st, files, children, id);
    }
  }

  lemma AdmittedChild(st: State, children: seq<Entry>, id: Id)
    requires IndexOk(st) && SameShape(st.admitted, children) && id in st.byAgent
    ensures exists i :: 0 <= i < |children| && children[i].agent == id
  {
    assert children[st.byAgent[id]].agent == st.admitted[st.byAgent[id]].agent;
  }

  lemma SourceOf(st: State, files: Files, k: nat)
    requires SourcesOk(st, files) && 1 <= k < |st.queue|
    ensures st.queue[k].parent.Some? && st.queue[k].parent.value < |st.admitted|
    ensures st.queue[k].candidates == ScanOf(files, st.admitted[st.queue[k].parent.value].agent).candidates
  {
  }

  lemma ExhaustsStill(st: State, files: Files, children: seq<Entry>, i: nat)
    requires SameShape(st.admitted, children) && i < |children| && Exhausts(files, st.admitted[i])
    ensures Exhausts(files, children[i])
  {
    assert children[i].agent == st.admitted[i].agent && children[i].interval == st.admitted[i].interval;
  }

  lemma BarredBelow(st: State, files: Files, children: seq<Entry>, id: Id)
    requires ParentsOk(st.admitted) && SourcesOk(st, files) && Reported(st, children) && Barred(st, id)
    requires st.queue != [] && st.queue[0].parent.None?
    ensures exists p :: 0 <= p < |children| && children[p].ambiguous
                        && Claims(ScanOf(files, children[p].agent).candidates, id) > 0
  {
    hide SourcesOk, Tainted, ScanOf, Claims;
    var m, j :| 0 <= m < |st.queue| && 0 <= j < |st.queue[m].candidates| && BarredBy(st, st.queue[m], j, id);
    var p := st.queue[m].parent.value;
    ClaimedHere(st.queue[m].candidates, j);
    SourceOf(st, files, m);
    assert children[p].ambiguous && children[p].agent == st.admitted[p].agent;
  }
}
