/** The reading loops: rows are collected once, then every launch is judged. */
module ChildEvidenceReader {
  import opened Values
  import opened ChildEvidence
  import opened ChildEvidenceProofs

  method ReadUses(st: State, uuid: Option<Id>, blocks: seq<AssistantBlock>) returns (r: Result<State>)
    ensures r == TakeUses(st, uuid, blocks)
  {
    r := Success(st);
    for k := 0 to |blocks|
      invariant r == TakeUses(st, uuid, blocks[..k]) && r.Success?
    {
      assert blocks[..k + 1][..k] == blocks[..k];
      r := TakeUse(r.value, uuid, blocks[k]);
      if r.Refused? {
        UsesRefused(st, uuid, blocks, k + 1);
        return;
      }
    }
    assert blocks[..|blocks|] == blocks;
  }

  lemma {:induction false} UsesRefused(st: State, uuid: Option<Id>, blocks: seq<AssistantBlock>, k: nat)
    requires k <= |blocks| && TakeUses(st, uuid, blocks[..k]).Refused?
    ensures TakeUses(st, uuid, blocks).Refused?
    decreases |blocks| - k
  {
    if k == |blocks| {
      assert blocks[..k] == blocks;
    } else {
      assert blocks[..k + 1][..k] == blocks[..k];
      UsesRefused(st, uuid, blocks, k + 1);
    }
  }

  method CountResults(blocks: seq<UserBlock>) returns (n: nat)
    ensures n == ResultBlocks(blocks)
  {
    n := 0;
    for k := 0 to |blocks|
      invariant n == ResultBlocks(blocks[..k])
    {
      assert blocks[..k + 1][..k] == blocks[..k];
      if blocks[k].ToolResult? { n := n + 1; }
    }
    assert blocks[..|blocks|] == blocks;
  }

  method ReadBlocks(st: State, message: Message, blocks: seq<UserBlock>) returns (r: Result<State>)
    requires message.User?
    ensures r == TakeBlocks(st, message, ResultBlocks(blocks), blocks)
  {
    var count := CountResults(blocks);
    r := Success(st);
    for k := 0 to |blocks|
      invariant r == TakeBlocks(st, message, count, blocks[..k]) && r.Success?
    {
      assert blocks[..k + 1][..k] == blocks[..k];
      r := TakeBlock(r.value, message, count, blocks[k]);
      if r.Refused? {
        BlocksRefused(st, message, count, blocks, k + 1);
        return;
      }
    }
    assert blocks[..|blocks|] == blocks;
  }

  lemma {:induction false} BlocksRefused(st: State, message: Message, count: nat, blocks: seq<UserBlock>, k: nat)
    requires message.User? && k <= |blocks| && TakeBlocks(st, message, count, blocks[..k]).Refused?
    ensures TakeBlocks(st, message, count, blocks).Refused?
    decreases |blocks| - k
  {
    if k == |blocks| {
      assert blocks[..k] == blocks;
    } else {
      assert blocks[..k + 1][..k] == blocks[..k];
      BlocksRefused(st, message, count, blocks, k + 1);
    }
  }

  method ReadBody(st: State, row: Row) returns (r: Result<State>)
    ensures r == TakeBody(st, row)
  {
    if !row.body.Parent? || !row.body.owned { return TakeBody(st, row); }
    match row.body.message {
      case Assistant(supported, blocks) =>
        if !supported { return Refused; }
        r := ReadUses(st, row.uuid, blocks);
      case User(supported, _, _, _, _, content) =>
        if supported && content.Blocks? {
          r := ReadBlocks(st, row.body.message, content.blocks);
        } else {
          r := TakeMessage(st, row.uuid, row.body.message);
        }
      case UnsupportedKind => r := Refused;
    }
  }

  /** Reads the rows in order, each identified row once. */
  method Collect(rows: seq<Row>) returns (r: Result<State>)
    ensures r == TakeRows(START, rows)
  {
    r := Success(START);
    for k := 0 to |rows|
      invariant r == TakeRows(START, rows[..k]) && r.Success?
    {
      assert rows[..k + 1][..k] == rows[..k];
      var st, row := r.value, rows[k];
      if Identified(row) && row.uuid.value in st.seen {
        if st.seen[row.uuid.value] != row { RowsRefused(rows, k + 1); return Refused; }
      } else {
        if Identified(row) { st := st.(seen := st.seen[row.uuid.value := row]); }
        r := ReadBody(st, row);
        if r.Refused? { RowsRefused(rows, k + 1); return; }
      }
    }
    assert rows[..|rows|] == rows;
  }

  lemma {:induction false} RowsRefused(rows: seq<Row>, k: nat)
    requires k <= |rows| && TakeRows(START, rows[..k]).Refused?
    ensures TakeRows(START, rows).Refused?
    decreases |rows| - k
  {
    if k == |rows| {
      assert rows[..k] == rows;
    } else {
      assert rows[..k + 1][..k] == rows[..k];
      RowsRefused(rows, k + 1);
    }
  }

  // ----- judging -----

  type Key = (Kind, Id)

  /** The identities the judged launches own, and that they own them alone. */
  ghost predicate OwnersOk(owned: map<Id, set<Key>>, judged: seq<Id>, owners: map<Key, Id>) {
    && (forall id :: id in judged ==> id in owned)
    && (forall key :: key in owners ==> owners[key] in judged && key in owned[owners[key]])
    && forall id, key :: id in judged && key in owned[id] ==> key in owners && owners[key] == id
  }

  function Add(owners: map<Key, Id>, keys: set<Key>, id: Id): map<Key, Id> { owners + map key | key in keys :: id }

  lemma OwnersAdd(owned: map<Id, set<Key>>, judged: seq<Id>, owners: map<Key, Id>, id: Id)
    requires OwnersOk(owned, judged, owners) && id in owned && id !in judged
    requires owned[id] !! owners.Keys
    ensures OwnersOk(owned, judged + [id], Add(owners, owned[id], id))
  {
    assert forall x :: x in judged + [id] <==> x in judged || x == id;
  }

  lemma OwnersExclusive(owned: map<Id, set<Key>>, judged: seq<Id>, owners: map<Key, Id>, a: Id, b: Id)
    requires OwnersOk(owned, judged, owners) && a in judged && b in judged && a != b
    ensures owned[a] !! owned[b]
  {
    forall key | key in owned[a] ensures key !in owned[b] {
      assert owners[key] == a;
    }
  }

  lemma OwnersConflict(owned: map<Id, set<Key>>, judged: seq<Id>, owners: map<Key, Id>, id: Id)
    returns (other: Id)
    requires OwnersOk(owned, judged, owners) && id in owned && id !in judged
    requires !(owned[id] !! owners.Keys)
    ensures other in judged && !(owned[other] !! owned[id])
  {
    var key :| key in owned[id] && key in owners;
    other := owners[key];
  }

  /** The identities of the launches whose end is proved. */
  function Owned(st: State, guards: set<Id>): map<Id, set<Key>> {
    map id | id in st.launches && EndOf(st, guards, id).Success? :: Identities(EndOf(st, guards, id).value.projection)
  }

  datatype Report = Report(toolUses: nat, launches: nat, background: nat, correlated: nat, notifications: nat,
                           apiErrors: nat, denied: nat, blocked: nat)

  /** How many of the list are chosen. */
  function Tally(order: seq<Id>, chosen: set<Id>): nat {
    if order == [] then 0
    else Tally(order[..|order| - 1], chosen) + if order[|order| - 1] in chosen then 1 else 0
  }

  lemma TallyStep(order: seq<Id>, k: nat, chosen: set<Id>)
    requires k < |order|
    ensures Tally(order[..k + 1], chosen) == Tally(order[..k], chosen) + if order[k] in chosen then 1 else 0
  {
    assert order[..k + 1][..k] == order[..k];
  }

  lemma IntersectMore(chosen: set<Id>, s: set<Id>, x: Id)
    requires x !in s
    ensures |chosen * (s + {x})| == |chosen * s| + if x in chosen then 1 else 0
  {
    if x in chosen {
      assert chosen * (s + {x}) == (chosen * s) + {x};
    } else {
      assert chosen * (s + {x}) == chosen * s;
    }
  }

  lemma {:induction false} TallyCounts(order: seq<Id>, chosen: set<Id>)
    requires Distinct(order)
    ensures Tally(order, chosen) == |chosen * Elements(order)|
    decreases |order|
  {
    if order == [] {
      assert chosen * Elements(order) == {};
    } else {
      var n := |order| - 1;
      TallyCounts(order[..n], chosen);
      assert Elements(order) == Elements(order[..n]) + {order[n]};
      assert order[n] !in Elements(order[..n]);
      IntersectMore(chosen, Elements(order[..n]), order[n]);
    }
  }

  /** The dispositions of the launches whose end is proved. */
  function Ends(st: State, guards: set<Id>): map<Id, Disposition> {
    map id | id in st.launches && EndOf(st, guards, id).Success? :: EndOf(st, guards, id).value.disposition
  }

  lemma EndsWith(st: State, guards: set<Id>, d: Disposition)
    requires forall id :: id in st.launches ==> EndOf(st, guards, id).Success?
    ensures With(Ends(st, guards), d) == Ended(st, guards, d) && Ended(st, guards, d) <= st.launches.Keys
  {
  }

  lemma TallyEnded(st: State, guards: set<Id>, d: Disposition)
    requires StateOk(st) && forall id :: id in st.launches ==> EndOf(st, guards, id).Success?
    ensures Tally(st.order, With(Ends(st, guards), d)) == |Ended(st, guards, d)|
  {
    OrderOk(st);
    EndsWith(st, guards, d);
    TallyAll(st.order, With(Ends(st, guards), d));
  }

  lemma TallyAll(order: seq<Id>, chosen: set<Id>)
    requires Distinct(order) && chosen <= Elements(order)
    ensures Tally(order, chosen) == |chosen|
  {
    TallyCounts(order, chosen);
    assert chosen * Elements(order) == chosen;
  }

  lemma OrderOk(st: State)
    requires StateOk(st)
    ensures Distinct(st.order) && Elements(st.order) == st.launches.Keys
  {
  }

  /** Every launch has a proved end, and no identity serves two launches. */
  predicate AllEnd(st: State, guards: set<Id>) {
    && (forall id :: id in st.launches ==> EndOf(st, guards, id).Success?)
    && forall a, b :: a in st.launches && b in st.launches && a != b ==> Exclusive(st, guards, a, b)
  }

  lemma ConflictRefuses(st: State, guards: set<Id>, judged: seq<Id>, owners: map<Key, Id>, id: Id)
    requires OwnersOk(Owned(st, guards), judged, owners) && id in Owned(st, guards) && id !in judged
    requires !(Owned(st, guards)[id] !! owners.Keys)
    ensures !AllEnd(st, guards)
  {
    var other := OwnersConflict(Owned(st, guards), judged, owners, id);
    assert other in Owned(st, guards) && other != id;
    assert AllEnd(st, guards) ==> Exclusive(st, guards, other, id);
  }

  /** One launch: its end, and the identities it takes. */
  method JudgeOne(st: State, guards: set<Id>, id: Id, ghost judged: seq<Id>, owners: map<Key, Id>)
    returns (end: Option<Disposition>, owned: map<Key, Id>)
    requires id in st.launches && id !in judged && OwnersOk(Owned(st, guards), judged, owners)
    ensures end.None? ==> !AllEnd(st, guards)
    ensures end.Some? ==> id in Ends(st, guards) && Ends(st, guards)[id] == end.value
    ensures end.Some? ==> OwnersOk(Owned(st, guards), judged + [id], owned)
  {
    var proved := EndOf(st, guards, id);
    if proved.Refused? { return None, owners; }
    var keys := Identities(proved.value.projection);
    assert id in Owned(st, guards) && Owned(st, guards)[id] == keys;
    if !(keys !! owners.Keys) {
      ConflictRefuses(st, guards, judged, owners, id);
      return None, owners;
    }
    OwnersAdd(Owned(st, guards), judged, owners, id);
    return Some(proved.value.disposition), Add(owners, keys, id);
  }

  lemma AllJudged(st: State, guards: set<Id>, owners: map<Key, Id>)
    requires StateOk(st) && OwnersOk(Owned(st, guards), st.order, owners)
    ensures AllEnd(st, guards)
  {
    forall id | id in st.launches ensures id in st.order && EndOf(st, guards, id).Success? {
      assert id in Elements(st.order);
      assert id in Owned(st, guards);
    }
    forall a, b | a in st.launches && b in st.launches && a != b ensures Exclusive(st, guards, a, b) {
      OwnersExclusive(Owned(st, guards), st.order, owners, a, b);
    }
  }

  lemma OrderAt(st: State, k: nat)
    requires StateOk(st) && k < |st.order|
    ensures st.order[k] in st.launches && st.order[k] !in st.order[..k]
    ensures st.order[..k + 1] == st.order[..k] + [st.order[k]]
  {
    assert st.order[k] in Elements(st.order);
  }

  /** Every launch in the order it was made. */
  method JudgeLaunches(st: State, guards: set<Id>) returns (ok: bool, denied: nat, blocked: nat, apiErrors: nat)
    requires StateOk(st)
    ensures ok <==> AllEnd(st, guards)
    ensures ok ==> denied == Tally(st.order, With(Ends(st, guards), GuardDenied))
    ensures ok ==> blocked == Tally(st.order, With(Ends(st, guards), HookBlocked))
    ensures ok ==> apiErrors == Tally(st.order, With(Ends(st, guards), ApiError))
  {
    hide StateOk, EndOf, Ends, Owned, AllEnd;
    var owners: map<Key, Id> := map[];
    ghost var ends := Ends(st, guards);
    ok, denied, blocked, apiErrors := true, 0, 0, 0;
    for k := 0 to |st.order|
      invariant ok && OwnersOk(Owned(st, guards), st.order[..k], owners)
      invariant denied == Tally(st.order[..k], With(ends, GuardDenied))
      invariant blocked == Tally(st.order[..k], With(ends, HookBlocked))
      invariant apiErrors == Tally(st.order[..k], With(ends, ApiError))
    {
      OrderAt(st, k);
      var end, owned := JudgeOne(st, guards, st.order[k], st.order[..k], owners);
      if end.None? { ok := false; return; }
      owners := owned;
      TallyStep(st.order, k, With(ends, GuardDenied));
      TallyStep(st.order, k, With(ends, HookBlocked));
      TallyStep(st.order, k, With(ends, ApiError));
      if end.value == GuardDenied { denied := denied + 1; }
      if end.value == HookBlocked { blocked := blocked + 1; }
      if end.value == ApiError { apiErrors := apiErrors + 1; }
    }
    assert st.order[..|st.order|] == st.order;
    AllJudged(st, guards, owners);
  }

  /** Judges the collected transcript. */
  method Judge(st: State, guards: set<Id>) returns (r: Result<Report>)
    requires StateOk(st)
    ensures r.Success? <==> Accepted(st, guards)
    ensures r.Success? ==>
              && r.value.denied == |Ended(st, guards, GuardDenied)|
              && r.value.blocked == |Ended(st, guards, HookBlocked)|
              && r.value.apiErrors == |Ended(st, guards, ApiError)|
              && r.value.correlated == r.value.launches == |st.launches.Keys|
              && r.value.notifications == |BackgroundRun(st, guards)|
  {
    var ok, denied, blocked, apiErrors := JudgeLaunches(st, guards);
    if !ok || !(st.notifications.Keys <= st.launches.Keys) { return Refused; }
    NotificationsMatchBackground(st, guards);
    TallyEnded(st, guards, GuardDenied);
    TallyEnded(st, guards, HookBlocked);
    TallyEnded(st, guards, ApiError);
    CorrelatedAll(st, guards);
    var background := set id | id in st.launches && st.launches[id].background;
    r := Success(Report(|st.tools.Keys|, |st.launches.Keys|, |background|, |st.launches.Keys * st.results.Keys|,
                        |st.notifications.Keys|, apiErrors, denied, blocked));
  }

  /** Every launch has a correlated result. */
  lemma CorrelatedAll(st: State, guards: set<Id>)
    requires forall id :: id in st.launches ==> EndOf(st, guards, id).Success?
    ensures st.launches.Keys * st.results.Keys == st.launches.Keys
  {
    forall id | id in st.launches ensures id in st.results { assert Items(st, id) != []; }
  }

  /** The whole reading: accepted exactly when the rows were readable and every launch ended in one proved way. */
  method Evidence(rows: seq<Row>, guards: set<Id>) returns (r: Result<Report>)
    ensures r.Success? <==> TakeRows(START, rows).Success? && Accepted(TakeRows(START, rows).value, guards)
    ensures r.Success? ==> r.value.correlated == r.value.launches
    ensures r.Success? ==> r.value.notifications == |BackgroundRun(TakeRows(START, rows).value, guards)|
  {
    var collected := Collect(rows);
    if collected.Refused? { return Refused; }
    RowsOk(rows);
    r := Judge(collected.value, guards);
  }
}
