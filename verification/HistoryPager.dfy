/** The bounded conversation reader: pages from the newest to the oldest, smaller pages after an oversized
    response, and one collection per kind of row. The server may answer anything. */
module HistoryPager {
  import opened Values

  const PAGE_ITEMS: nat := 100
  const MAX_PAGES: nat := 2000
  const MAX_REQUESTS: nat := MAX_PAGES + 7
  const MAX_RESPONSE_BYTES: nat := 8_000_000
  const MAX_OBSERVATION_BYTES: nat := 160_000_000

  datatype Kind = Turn | Message | Activity

  /** A row after projection. body stands for everything but its identity; sequence is none where a message
      sequence is not a natural number. */
  datatype Item = BrokenItem | Item(id: Id, body: int, sequence: Option<nat>)

  /** supported: the arrays and the more flag have their types and nothing contradicts truncation. */
  datatype Page = Page(supported: bool, bytes: nat, identity: int, turns: seq<Item>, messages: seq<Item>,
                       activities: seq<Item>, more: bool, oldest: Option<int>)

  datatype Reply = TooLarge | Answered(page: Page)

  /** One round: what the clock says before and after the request, and what the server answers. */
  datatype Round = Round(lateBefore: bool, reply: Reply, lateAfter: bool)

  datatype Limit = AggregateBytes | Elapsed | Pages | Requests

  type Rows = map<Id, Item>

  datatype Collections = Collections(turns: Rows, messages: Rows, activities: Rows)

  datatype Outcome = Unusable | Stopped(limit: Limit) | History(rows: Collections, truncated: bool)

  function ItemsOf(page: Page, kind: Kind): seq<Item> {
    match kind
    case Turn => page.turns
    case Message => page.messages
    case Activity => page.activities
  }

  function RowsOf(c: Collections, kind: Kind): Rows {
    match kind
    case Turn => c.turns
    case Message => c.messages
    case Activity => c.activities
  }

  // ----- one page -----

  predicate UsableItem(item: Item, kind: Kind) {
    item.Item? && item.id != "" && (kind == Message ==> item.sequence.Some?)
  }

  predicate WellFormed(items: seq<Item>, kind: Kind) { forall k :: 0 <= k < |items| ==> UsableItem(items[k], kind) }

  predicate NoDuplicates(items: seq<Item>) {
    forall j, k :: 0 <= j < k < |items| && items[j].Item? && items[k].Item? ==> items[j].id != items[k].id
  }

  predicate Agreeing(items: seq<Item>, rows: Rows) {
    forall k :: 0 <= k < |items| && items[k].Item? && items[k].id in rows ==> rows[items[k].id] == items[k]
  }

  /** Well-formed rows without a duplicate; in a strict read, none that differs from a newer copy. */
  predicate UsableItems(items: seq<Item>, kind: Kind, rows: Rows, strict: bool) {
    WellFormed(items, kind) && NoDuplicates(items) && (strict ==> Agreeing(items, rows))
  }

  /** Adds the rows that are not there yet. */
  function Merge(rows: Rows, items: seq<Item>): Rows {
    if items == [] then rows
    else
      var n := |items| - 1;
      var merged := Merge(rows, items[..n]);
      if items[n].BrokenItem? || items[n].id in merged then merged else merged[items[n].id := items[n]]
  }

  lemma {:induction false} MergeKeeps(rows: Rows, items: seq<Item>)
    ensures forall id :: id in rows ==> id in Merge(rows, items) && Merge(rows, items)[id] == rows[id]
    ensures forall id :: id in Merge(rows, items) && id !in rows ==>
              exists k :: 0 <= k < |items| && items[k].Item? && items[k].id == id
    ensures forall k :: 0 <= k < |items| && items[k].Item? ==> items[k].id in Merge(rows, items)
    decreases |items|
  {
    if items != [] { MergeKeeps(rows, items[..|items| - 1]); }
  }

  lemma {:induction false} MergeTakes(rows: Rows, items: seq<Item>, k: nat)
    requires k < |items| && items[k].Item? && items[k].id !in rows
    requires forall i, j :: 0 <= i < j < |items| && items[i].Item? && items[j].Item? ==> items[i].id != items[j].id
    ensures items[k].id in Merge(rows, items) && Merge(rows, items)[items[k].id] == items[k]
    decreases |items|
  {
    var n := |items| - 1;
    MergeKeeps(rows, items[..n]);
    if k < n { MergeTakes(rows, items[..n], k); }
  }

  function IdsOf(items: seq<Item>): set<Id> { set item | item in items && item.Item? :: item.id }

  lemma IdsSnoc(items: seq<Item>, item: Item)
    requires item.Item?
    ensures IdsOf(items + [item]) == IdsOf(items) + {item.id}
    ensures NoDuplicates(items + [item]) <==> NoDuplicates(items) && item.id !in IdsOf(items)
  {
    var all := items + [item];
    assert forall x :: x in all <==> x in items || x == item;
    if NoDuplicates(all) {
      assert forall k :: 0 <= k < |items| ==> all[k] == items[k];
      assert all[|items|] == item;
    }
  }

  lemma UsablePart(items: seq<Item>, kind: Kind, rows: Rows, strict: bool, k: nat)
    requires k <= |items| && !UsableItems(items[..k], kind, rows, strict)
    ensures !UsableItems(items, kind, rows, strict)
  {
  }

  /** One row: refused exactly when the rows up to it are not usable. */
  lemma UsableSnoc(items: seq<Item>, item: Item, kind: Kind, rows: Rows, strict: bool)
    requires UsableItems(items, kind, rows, strict)
    ensures UsableItems(items + [item], kind, rows, strict) <==>
      && UsableItem(item, kind) && item.id !in IdsOf(items)
      && (strict && item.id in rows ==> rows[item.id] == item)
  {
    var all := items + [item];
    assert all[|items|] == item && forall k :: 0 <= k < |items| ==> all[k] == items[k];
    if item.Item? { IdsSnoc(items, item); }
  }

  lemma MergeSnoc(rows: Rows, before: seq<Item>, item: Item)
    ensures Merge(rows, before + [item])
            == if item.BrokenItem? || item.id in Merge(rows, before) then Merge(rows, before)
               else Merge(rows, before)[item.id := item]
  {
    assert (before + [item])[..|before|] == before;
  }

  /** One more row, or a refusal. */
  method CollectOne(item: Item, ghost before: seq<Item>, kind: Kind, rows: Rows, strict: bool, now: Rows,
                    identities: set<Id>)
    returns (ok: bool, next: Rows, ids: set<Id>)
    requires UsableItems(before, kind, rows, strict) && now == Merge(rows, before) && identities == IdsOf(before)
    ensures ok <==> UsableItems(before + [item], kind, rows, strict)
    ensures ok ==> next == Merge(rows, before + [item]) && ids == IdsOf(before + [item])
  {
    UsableSnoc(before, item, kind, rows, strict);
    next, ids := now, identities;
    if !UsableItem(item, kind) { return false, next, ids; }
    if strict && item.id in rows && rows[item.id] != item { return false, next, ids; }
    if item.id in identities { return false, next, ids; }
    IdsSnoc(before, item);
    MergeSnoc(rows, before, item);
    ids := identities + {item.id};
    if item.id !in now { next := now[item.id := item]; }
    ok := true;
  }

  /** Reads the rows of one kind of one page into their collection. */
  method Collect(items: seq<Item>, kind: Kind, rows: Rows, strict: bool) returns (ok: bool, now: Rows)
    ensures ok <==> UsableItems(items, kind, rows, strict)
    ensures ok ==> now == Merge(rows, items)
  {
    now := rows;
    var identities: set<Id> := {};
    for k := 0 to |items|
      invariant UsableItems(items[..k], kind, rows, strict)
      invariant now == Merge(rows, items[..k]) && identities == IdsOf(items[..k])
    {
      assert items[..k + 1] == items[..k] + [items[k]];
      ok, now, identities := CollectOne(items[k], items[..k], kind, rows, strict, now, identities);
      if !ok {
        UsablePart(items, kind, rows, strict, k + 1);
        return;
      }
    }
    assert items[..|items|] == items;
    ok := true;
  }

  // ----- the pages of a read -----

  /** The collection of one kind over the pages read, newest first. */
  function Newest(pages: seq<Page>, kind: Kind): Rows {
    if pages == [] then map[] else Merge(Newest(pages[..|pages| - 1], kind), ItemsOf(pages[|pages| - 1], kind))
  }

  predicate UsablePage(page: Page, pages: seq<Page>, strict: bool) {
    && UsableItems(page.turns, Turn, Newest(pages, Turn), strict)
    && UsableItems(page.messages, Message, Newest(pages, Message), strict)
    && UsableItems(page.activities, Activity, Newest(pages, Activity), strict)
  }

  /** Every page read was usable where it was read, and tells of one conversation. */
  predicate Usable(pages: seq<Page>, strict: bool) {
    && (forall k :: 0 <= k < |pages| ==> UsablePage(pages[k], pages[..k], strict))
    && forall k :: 0 <= k < |pages| ==> pages[k].identity == pages[0].identity
  }

  predicate Has(page: Page, kind: Kind, item: Item) { item.Item? && item in ItemsOf(page, kind) }

  predicate HasId(page: Page, kind: Kind, id: Id) {
    exists k :: 0 <= k < |ItemsOf(page, kind)| && ItemsOf(page, kind)[k].Item? && ItemsOf(page, kind)[k].id == id
  }

  lemma UsableKind(pages: seq<Page>, strict: bool, k: nat, kind: Kind)
    requires Usable(pages, strict) && k < |pages|
    ensures UsableItems(ItemsOf(pages[k], kind), kind, Newest(pages[..k], kind), strict)
  {
    assert UsablePage(pages[k], pages[..k], strict);
  }

  lemma MergeIds(rows: Rows, page: Page, kind: Kind, id: Id)
    ensures id in Merge(rows, ItemsOf(page, kind)) <==> id in rows || HasId(page, kind, id)
  {
    MergeKeeps(rows, ItemsOf(page, kind));
  }

  lemma {:induction false} NewestIds(pages: seq<Page>, kind: Kind, id: Id)
    ensures id in Newest(pages, kind) <==> exists k :: 0 <= k < |pages| && HasId(pages[k], kind, id)
    decreases |pages|
  {
    if pages != [] {
      var n := |pages| - 1;
      NewestIds(pages[..n], kind, id);
      MergeIds(Newest(pages[..n], kind), pages[n], kind, id);
      assert forall k :: 0 <= k < n ==> pages[..n][k] == pages[k];
    }
  }

  lemma UsablePrefix(pages: seq<Page>, strict: bool, n: nat)
    requires Usable(pages, strict) && n <= |pages|
    ensures Usable(pages[..n], strict)
  {
    forall k | 0 <= k < n ensures UsablePage(pages[..n][k], pages[..n][..k], strict) {
      assert pages[..n][..k] == pages[..k];
    }
  }

  lemma MergedCopy(rows: Rows, items: seq<Item>, kind: Kind, strict: bool, item: Item)
    requires UsableItems(items, kind, rows, strict) && item in items && item.Item?
    requires item.id in rows ==> rows[item.id] == item
    ensures item.id in Merge(rows, items) && Merge(rows, items)[item.id] == item
  {
    var k :| 0 <= k < |items| && items[k] == item;
    if item.id in rows { MergeKeeps(rows, items); } else { MergeTakes(rows, items, k); }
  }

  lemma MergedKeep(rows: Rows, items: seq<Item>, id: Id, item: Item)
    requires id in rows && rows[id] == item
    ensures id in Merge(rows, items) && Merge(rows, items)[id] == item
  {
    MergeKeeps(rows, items);
  }

  /** A row kept by the pages up to its own stays kept by the older ones. */
  lemma {:induction false} KeptLater(pages: seq<Page>, kind: Kind, i: nat, id: Id, item: Item)
    requires i < |pages| && id in Newest(pages[..i + 1], kind) && Newest(pages[..i + 1], kind)[id] == item
    ensures id in Newest(pages, kind) && Newest(pages, kind)[id] == item
    decreases |pages|
  {
    var n := |pages| - 1;
    if i == n {
      assert pages[..i + 1] == pages;
    } else {
      assert pages[..n][..i + 1] == pages[..i + 1];
      KeptLater(pages[..n], kind, i, id, item);
      MergedKeep(Newest(pages[..n], kind), ItemsOf(pages[n], kind), id, item);
    }
  }

  /** The row kept for an identity is the one of the newest page that has it. */
  lemma NewestCopy(pages: seq<Page>, strict: bool, kind: Kind, i: nat, item: Item)
    requires Usable(pages, strict) && i < |pages| && Has(pages[i], kind, item)
    requires forall k :: 0 <= k < i ==> !HasId(pages[k], kind, item.id)
    ensures item.id in Newest(pages, kind) && Newest(pages, kind)[item.id] == item
  {
    var newer := pages[..i];
    NewestIds(newer, kind, item.id);
    assert item.id !in Newest(newer, kind);
    UsableKind(pages, strict, i, kind);
    MergedCopy(Newest(newer, kind), ItemsOf(pages[i], kind), kind, strict, item);
    NewestStep(pages, i, kind);
    KeptLater(pages, kind, i, item.id, item);
  }

  lemma NewestStep(pages: seq<Page>, i: nat, kind: Kind)
    requires i < |pages|
    ensures Newest(pages[..i + 1], kind) == Merge(Newest(pages[..i], kind), ItemsOf(pages[i], kind))
  {
    assert pages[..i + 1][..i] == pages[..i];
  }

  /** In a strict read every copy of a row, on whatever page, is the copy kept. */
  lemma StrictAgrees(pages: seq<Page>, kind: Kind, i: nat, item: Item)
    requires Usable(pages, true) && i < |pages| && Has(pages[i], kind, item)
    ensures item.id in Newest(pages, kind) && Newest(pages, kind)[item.id] == item
  {
    UsableKind(pages, true, i, kind);
    MergedCopy(Newest(pages[..i], kind), ItemsOf(pages[i], kind), kind, true, item);
    NewestStep(pages, i, kind);
    KeptLater(pages, kind, i, item.id, item);
  }

  // ----- what a round of the server does to a read -----

  /** The rows of one kind are well formed and name no row twice; in a strict read each agrees with every copy on a newer
      page. */
  predicate PlainRows(page: Page, pages: seq<Page>, kind: Kind, strict: bool) {
    && DistinctRows(ItemsOf(page, kind), kind)
    && (strict ==> forall k :: 0 <= k < |ItemsOf(page, kind)| ==> AgreesWithAll(pages, kind, ItemsOf(page, kind)[k]))
  }

  predicate DistinctRows(items: seq<Item>, kind: Kind) {
    && (forall k :: 0 <= k < |items| ==>
          items[k].Item? && items[k].id != "" && (kind == Message ==> items[k].sequence.Some?))
    && forall j, k :: 0 <= j < k < |items| && items[j].Item? && items[k].Item? ==> items[j].id != items[k].id
  }

  predicate AgreesWithAll(pages: seq<Page>, kind: Kind, item: Item) {
    forall i :: 0 <= i < |pages| ==> AgreesWith(pages[i], kind, item)
  }

  /** No row of the page with this identity differs. */
  predicate AgreesWith(page: Page, kind: Kind, item: Item) {
    forall j :: 0 <= j < |ItemsOf(page, kind)| && ItemsOf(page, kind)[j].Item? && item.Item? ==>
      ItemsOf(page, kind)[j].id == item.id ==> ItemsOf(page, kind)[j] == item
  }

  lemma PlainRowsIff(page: Page, pages: seq<Page>, kind: Kind, strict: bool)
    requires Usable(pages, strict)
    ensures UsableItems(ItemsOf(page, kind), kind, Newest(pages, kind), strict) <==> PlainRows(page, pages, kind, strict)
  {
    hide Newest, Usable, UsableItems, DistinctRows, AgreesWithAll;
    var items, rows := ItemsOf(page, kind), Newest(pages, kind);
    UsableSplit(items, kind, rows, strict);
    DistinctIff(items, kind, rows);
    if strict {
      forall k | 0 <= k < |items| && items[k].Item?
        ensures SameAsRow(items[k], rows) <==> AgreesWithAll(pages, kind, items[k])
      {
        CopiesAgree(pages, kind, items[k]);
      }
      if DistinctRows(items, kind) { AllItems(items, kind); }
    }
  }

  predicate SameAsRow(item: Item, rows: Rows) { item.Item? && item.id in rows ==> rows[item.id] == item }

  lemma UsableSplit(items: seq<Item>, kind: Kind, rows: Rows, strict: bool)
    ensures UsableItems(items, kind, rows, strict)
            <==> UsableItems(items, kind, rows, false)
                 && (strict ==> forall k :: 0 <= k < |items| ==> SameAsRow(items[k], rows))
  {
  }

  lemma DistinctIff(items: seq<Item>, kind: Kind, rows: Rows)
    ensures UsableItems(items, kind, rows, false) <==> DistinctRows(items, kind)
  {
  }

  lemma AllItems(items: seq<Item>, kind: Kind)
    requires DistinctRows(items, kind)
    ensures forall k :: 0 <= k < |items| ==> items[k].Item?
  {
  }

  lemma CopiesAgree(pages: seq<Page>, kind: Kind, item: Item)
    requires Usable(pages, true) && item.Item?
    ensures SameAsRow(item, Newest(pages, kind)) <==> AgreesWithAll(pages, kind, item)
  {
    NewestIds(pages, kind, item.id);
    forall i, j | 0 <= i < |pages| && 0 <= j < |ItemsOf(pages[i], kind)| && ItemsOf(pages[i], kind)[j].Item?
      ensures var copy := ItemsOf(pages[i], kind)[j];
              copy.id in Newest(pages, kind) && Newest(pages, kind)[copy.id] == copy
    {
      StrictAgrees(pages, kind, i, ItemsOf(pages[i], kind)[j]);
    }
    hide Newest, Usable;
    if item.id in Newest(pages, kind) {
      var i :| 0 <= i < |pages| && HasId(pages[i], kind, item.id);
      var j :| 0 <= j < |ItemsOf(pages[i], kind)| && ItemsOf(pages[i], kind)[j].Item?
               && ItemsOf(pages[i], kind)[j].id == item.id;
    }
  }

  /** The page tells of the conversation read so far, and its rows are plain. */
  predicate Fits(page: Page, pages: seq<Page>, strict: bool) {
    && (pages != [] ==> page.identity == pages[0].identity)
    && PlainRows(page, pages, Turn, strict) && PlainRows(page, pages, Message, strict)
    && PlainRows(page, pages, Activity, strict)
  }

  lemma FitsIff(page: Page, pages: seq<Page>, strict: bool)
    requires Usable(pages, strict)
    ensures Fits(page, pages, strict)
            <==> UsablePage(page, pages, strict) && (pages != [] ==> page.identity == pages[0].identity)
  {
    PlainRowsIff(page, pages, Turn, strict);
    PlainRowsIff(page, pages, Message, strict);
    PlainRowsIff(page, pages, Activity, strict);
    hide Newest, UsableItems, PlainRows;
  }

  /** The pages answered in the first rounds, newest first. */
  function PagesRead(server: nat -> Round, n: nat): seq<Page> {
    if n == 0 then []
    else PagesRead(server, n - 1) + if server(n - 1).reply.Answered? then [server(n - 1).reply.page] else []
  }

  /** The bytes those rounds count for: an oversized response counts for one more than the largest allowed. */
  function Bytes(server: nat -> Round, n: nat): nat {
    if n == 0 then 0
    else Bytes(server, n - 1) + if server(n - 1).reply.Answered? then server(n - 1).reply.page.bytes else 8_000_001
  }

  /** How many of them were oversized. */
  function Oversized(server: nat -> Round, n: nat): nat {
    if n == 0 then 0 else Oversized(server, n - 1) + if server(n - 1).reply.TooLarge? then 1 else 0
  }

  /** The page names an older place to go on from. */
  predicate LeadsBack(page: Page, pages: seq<Page>) {
    && page.oldest.Some? && page.oldest.value > 0
    && (pages != [] && pages[|pages| - 1].oldest.Some? ==> page.oldest.value < pages[|pages| - 1].oldest.value)
  }

  /** There is room for one more page, and the request goes out in time. */
  predicate Asks(server: nat -> Round, n: nat) { |PagesRead(server, n)| < 2000 && !server(n).lateBefore }

  /** The answer is a supported page, within the bytes and in time. */
  predicate Arrives(server: nat -> Round, n: nat) {
    && Asks(server, n) && server(n).reply.Answered? && server(n).reply.page.supported
    && Bytes(server, n + 1) <= 160_000_000 && !server(n).lateAfter
  }

  /** The round takes the read on: a smaller page at the same place, or a page that leads back. */
  predicate Moves(server: nat -> Round, n: nat, strict: bool) {
    if server(n).reply.TooLarge? then Asks(server, n) && Bytes(server, n + 1) < 160_000_000 && Oversized(server, n) < 6
    else
      var page := server(n).reply.page;
      && Arrives(server, n) && Fits(page, PagesRead(server, n), strict) && page.more
      && LeadsBack(page, PagesRead(server, n))
  }

  /** The round completes the read: a fitting page with nothing before it. */
  predicate Finishes(server: nat -> Round, n: nat, strict: bool) {
    Arrives(server, n) && Fits(server(n).reply.page, PagesRead(server, n), strict) && !server(n).reply.page.more
  }

  /** The round shows that the history cannot be read: a single item is too large, the page is no page, does not fit, or
      says that there is more and not where. */
  predicate Spoils(server: nat -> Round, n: nat, strict: bool) {
    if server(n).reply.TooLarge? then Asks(server, n) && Bytes(server, n + 1) < 160_000_000 && Oversized(server, n) >= 6
    else
      var page, pages := server(n).reply.page, PagesRead(server, n);
      || (Asks(server, n) && !page.supported)
      || (Arrives(server, n) && (!Fits(page, pages, strict) || (page.more && !LeadsBack(page, pages))))
  }

  /** The round reaches a limit of the read. */
  predicate Limits(server: nat -> Round, n: nat, limit: Limit) {
    match limit
    case Pages => |PagesRead(server, n)| >= 2000
    case Requests => false
    case AggregateBytes =>
      && Asks(server, n)
      && if server(n).reply.TooLarge? then Bytes(server, n + 1) >= 160_000_000
         else server(n).reply.page.supported && Bytes(server, n + 1) > 160_000_000
    case Elapsed =>
      && |PagesRead(server, n)| < 2000
      && (|| server(n).lateBefore
          || (server(n).reply.Answered? && server(n).reply.page.supported && Bytes(server, n + 1) <= 160_000_000
              && server(n).lateAfter))
  }

  predicate AllMove(server: nat -> Round, n: nat, strict: bool) { forall k :: 0 <= k < n ==> Moves(server, k, strict) }

  /** The read is over at this round, with this outcome. */
  predicate EndsAt(server: nat -> Round, n: nat, strict: bool, o: Outcome) {
    && AllMove(server, n, strict)
    && match o
       case Unusable => Spoils(server, n, strict)
       case Stopped(limit) => (strict || PagesRead(server, n) == []) && Limits(server, n, limit)
       case History(rows, truncated) =>
         if truncated
         then && !strict && PagesRead(server, n) != [] && rows == CollectionsOf(PagesRead(server, n))
              && (Limits(server, n, AggregateBytes) || Limits(server, n, Elapsed) || Limits(server, n, Pages))
         else Finishes(server, n, strict) && rows == CollectionsOf(PagesRead(server, n + 1))
  }

  /** Every round does exactly one of these, so a read has one end. */
  lemma OneEnd(server: nat -> Round, m: nat, n: nat, strict: bool, o: Outcome, p: Outcome)
    requires EndsAt(server, m, strict, o) && EndsAt(server, n, strict, p)
    ensures m == n && o == p
  {
    EndsThere(server, m, strict, o);
    EndsThere(server, n, strict, p);
    hide Fits, PagesRead, Bytes, Oversized, CollectionsOf, LeadsBack, Moves;
  }

  lemma EndsThere(server: nat -> Round, n: nat, strict: bool, o: Outcome)
    requires EndsAt(server, n, strict, o)
    ensures !Moves(server, n, strict)
  {
    hide Fits, PagesRead, Bytes, Oversized, CollectionsOf, LeadsBack;
  }

  /** The outcome by what the rounds of the server are: the history is complete exactly when some round finishes the read
      and all before it took it on, unusable exactly when one spoils it instead, and otherwise a limit was reached. */
  lemma OutcomeIff(server: nat -> Round, n: nat, strict: bool, o: Outcome)
    requires EndsAt(server, n, strict, o)
    ensures (o.History? && !o.truncated) <==> exists m: nat :: AllMove(server, m, strict) && Finishes(server, m, strict)
    ensures o.Unusable? <==> exists m: nat :: AllMove(server, m, strict) && Spoils(server, m, strict)
    ensures (o.Stopped? || (o.History? && o.truncated))
            <==> exists m: nat, limit :: AllMove(server, m, strict) && Limits(server, m, limit)
  {
    forall m: nat | AllMove(server, m, strict) && Finishes(server, m, strict) ensures o.History? && !o.truncated {
      OneEnd(server, m, n, strict, History(CollectionsOf(PagesRead(server, m + 1)), false), o);
    }
    forall m: nat | AllMove(server, m, strict) && Spoils(server, m, strict) ensures o.Unusable? {
      OneEnd(server, m, n, strict, Unusable, o);
    }
    forall m: nat, limit | AllMove(server, m, strict) && Limits(server, m, limit)
      ensures o.Stopped? || (o.History? && o.truncated)
    {
      if strict || PagesRead(server, m) == [] {
        OneEnd(server, m, n, strict, Stopped(limit), o);
      } else {
        OneEnd(server, m, n, strict, History(CollectionsOf(PagesRead(server, m)), true), o);
      }
    }
    hide Fits, PagesRead, Bytes, Oversized, CollectionsOf, LeadsBack, Moves, Finishes, Spoils, Limits;
  }

  // ----- the reading loop -----

  /** The page size after so many oversized responses. */
  function SizeAfter(reductions: nat): nat {
    if reductions == 0 then PAGE_ITEMS
    else
      var half := SizeAfter(reductions - 1) / 2;
      if half >= 1 then half else 1
  }

  /** Halving the first page size of 100 rounds down to one at the sixth reduction and not before. */
  lemma SizesReachOne(reductions: nat)
    ensures SizeAfter(reductions) == 1 <==> reductions >= 6
    ensures SizeAfter(reductions) >= 1
  {
    if reductions > 0 { SizesReachOne(reductions - 1); }
    assert SizeAfter(1) == 50 && SizeAfter(2) == 25 && SizeAfter(3) == 12;
    assert SizeAfter(4) == 6 && SizeAfter(5) == 3 && SizeAfter(6) == 1;
  }

  predicate Falling(cursors: seq<nat>) {
    && (forall k :: 0 <= k < |cursors| ==> cursors[k] > 0)
    && forall j, k :: 0 <= j < k < |cursors| ==> cursors[j] > cursors[k]
  }

  function CollectionsOf(pages: seq<Page>): Collections {
    Collections(Newest(pages, Turn), Newest(pages, Message), Newest(pages, Activity))
  }

  /** What a bounded stop answers: a strict read refuses, an ordinary one keeps what it has. */
  function BoundedResult(limit: Limit, pages: seq<Page>, strict: bool): Outcome {
    if strict || pages == [] then Stopped(limit) else History(CollectionsOf(pages), true)
  }

  lemma UsableGrow(pages: seq<Page>, page: Page, strict: bool)
    requires Usable(pages, strict) && UsablePage(page, pages, strict)
    requires pages != [] ==> page.identity == pages[0].identity
    ensures Usable(pages + [page], strict)
  {
    var all := pages + [page];
    forall k | 0 <= k < |all| ensures UsablePage(all[k], all[..k], strict) {
      assert all[..k] == if k < |pages| then pages[..k] else pages;
    }
  }

  /** The collections after one more page, or a refusal. */
  method AddPage(page: Page, c: Collections, pages: seq<Page>, strict: bool) returns (ok: bool, now: Collections)
    requires c == CollectionsOf(pages)
    ensures ok <==> UsablePage(page, pages, strict)
    ensures ok ==> now == CollectionsOf(pages + [page])
  {
    assert (pages + [page])[..|pages|] == pages;
    now := c;
    var turns, messages, activities: Rows;
    ok, turns := Collect(page.turns, Turn, c.turns, strict);
    if !ok { return; }
    ok, messages := Collect(page.messages, Message, c.messages, strict);
    if !ok { return; }
    ok, activities := Collect(page.activities, Activity, c.activities, strict);
    now := Collections(turns, messages, activities);
  }

  /** What the loop keeps of the pages read so far. */
  predicate Reading(pages: seq<Page>, cursors: seq<nat>, c: Collections, cursor: Option<nat>, identity: Option<int>,
                    strict: bool)
  {
    && |pages| == |cursors|
    && Usable(pages, strict) && c == CollectionsOf(pages)
    && Falling(cursors) && AtCursor(cursors, cursor) && OfOne(pages, identity)
  }

  lemma ReadingNone(strict: bool)
    ensures Reading([], [], Collections(map[], map[], map[]), None, None, strict)
  {
  }

  predicate AtCursor(cursors: seq<nat>, cursor: Option<nat>) {
    cursor == if cursors == [] then None else Some(cursors[|cursors| - 1])
  }

  predicate OfOne(pages: seq<Page>, identity: Option<int>) {
    identity == if pages == [] then None else Some(pages[0].identity)
  }

  lemma FallingGrow(cursors: seq<nat>, cursor: Option<nat>, next: nat)
    requires Falling(cursors) && AtCursor(cursors, cursor) && next > 0 && (cursor.Some? ==> next < cursor.value)
    ensures Falling(cursors + [next]) && AtCursor(cursors + [next], Some(next))
  {
    forall j | 0 <= j < |cursors| ensures cursors[j] > next {
      if j < |cursors| - 1 { assert cursors[j] > cursors[|cursors| - 1]; }
    }
  }

  lemma ReadingGrow(pages: seq<Page>, cursors: seq<nat>, c: Collections, cursor: Option<nat>, identity: Option<int>,
                    strict: bool, page: Page, next: nat)
    requires Reading(pages, cursors, c, cursor, identity, strict) && UsablePage(page, pages, strict)
    requires identity.Some? ==> page.identity == identity.value
    requires next > 0 && (cursor.Some? ==> next < cursor.value)
    ensures Reading(pages + [page], cursors + [next], CollectionsOf(pages + [page]), Some(next),
                    Some(if identity.Some? then identity.value else page.identity), strict)
  {
    UsableGrow(pages, page, strict);
    FallingGrow(cursors, cursor, next);
  }

  predicate Paced(size: nat, reductions: nat) { size == SizeAfter(reductions) }

  lemma SizeHalves(reductions: nat)
    ensures SizeAfter(reductions + 1) == if SizeAfter(reductions) / 2 >= 1 then SizeAfter(reductions) / 2 else 1
    ensures SizeAfter(reductions) == 1 <==> reductions >= 6
  {
    SizesReachOne(reductions);
  }

  /** An answer over the pages read: every page was usable where it was read, the cursors strictly fell, and a
      history is the newest copy of every row; a complete one ends at a page with nothing before it, and a strict
      read is complete or no answer. */
  predicate ReadOk(o: Outcome, pages: seq<Page>, cursors: seq<nat>, strict: bool) {
    && Usable(pages, strict) && Falling(cursors) && |cursors| <= |pages|
    && o != Stopped(Requests)
    && (o.Stopped? ==> strict || pages == [])
    && (o.History? ==> pages != [] && o.rows == CollectionsOf(pages))
    && (o.History? && !o.truncated ==> !pages[|pages| - 1].more)
    && (o.History? && o.truncated ==> !strict)
  }

  lemma BoundedOk(limit: Limit, pages: seq<Page>, cursors: seq<nat>, c: Collections, cursor: Option<nat>,
                  identity: Option<int>, strict: bool)
    requires Reading(pages, cursors, c, cursor, identity, strict) && limit != Requests
    ensures ReadOk(BoundedResult(limit, pages, strict), pages, cursors, strict)
    ensures ReadOk(Unusable, pages, cursors, strict)
  {
  }

  lemma CompleteOk(pages: seq<Page>, cursors: seq<nat>, c: Collections, cursor: Option<nat>, identity: Option<int>,
                   strict: bool, page: Page)
    requires Reading(pages, cursors, c, cursor, identity, strict) && UsablePage(page, pages, strict) && !page.more
    requires identity.Some? ==> page.identity == identity.value
    ensures ReadOk(History(CollectionsOf(pages + [page]), false), pages + [page], cursors, strict)
  {
    UsableGrow(pages, page, strict);
  }

  /** What one page does to a read: it ends it, or moves it to an older cursor. */
  datatype Turned = Ended(o: Outcome, kept: bool) | Moved(c: Collections, cursor: nat, identity: int)

  /** The cursor is the place the last page named. */
  predicate AtOldest(pages: seq<Page>, cursor: Option<nat>) {
    if pages == [] then cursor.None?
    else cursor.Some? && pages[|pages| - 1].oldest == Some(cursor.value)
  }

  method TakePage(page: Page, pages: seq<Page>, c: Collections, cursor: Option<nat>, identity: Option<int>, strict: bool,
                  ghost cursors: seq<nat>)
    returns (t: Turned)
    requires Reading(pages, cursors, c, cursor, identity, strict) && AtOldest(pages, cursor)
    ensures t.Ended? ==> ReadOk(t.o, if t.kept then pages + [page] else pages, cursors, strict)
    ensures t.Ended? ==>
              if Fits(page, pages, strict) && !page.more
              then t == Ended(History(CollectionsOf(pages + [page]), false), true)
              else t == Ended(Unusable, false)
                   && (!Fits(page, pages, strict) || (page.more && !LeadsBack(page, pages)))
    ensures t.Moved? ==>
              && Fits(page, pages, strict) && page.more && LeadsBack(page, pages)
              && Reading(pages + [page], cursors + [t.cursor], t.c, Some(t.cursor), Some(t.identity), strict)
              && AtOldest(pages + [page], Some(t.cursor))
  {
    BoundedOk(Elapsed, pages, cursors, c, cursor, identity, strict);
    ReadingFits(page, pages, cursors, c, cursor, identity, strict);
    hide ReadOk, UsablePage, Usable, CollectionsOf, Falling, AtCursor, OfOne, Fits;
    if identity.Some? && page.identity != identity.value { return Ended(Unusable, false); }
    var ok, now := AddPage(page, c, pages, strict);
    if !ok { return Ended(Unusable, false); }
    if !page.more {
      CompleteOk(pages, cursors, c, cursor, identity, strict, page);
      return Ended(History(now, false), true);
    }
    if page.oldest.None? || page.oldest.value <= 0 || (cursor.Some? && page.oldest.value >= cursor.value) {
      return Ended(Unusable, false);
    }
    ReadingGrow(pages, cursors, c, cursor, identity, strict, page, page.oldest.value);
    return Moved(now, page.oldest.value, if identity.Some? then identity.value else page.identity);
  }

  lemma ReadingFits(page: Page, pages: seq<Page>, cursors: seq<nat>, c: Collections, cursor: Option<nat>,
                    identity: Option<int>, strict: bool)
    requires Reading(pages, cursors, c, cursor, identity, strict)
    ensures Fits(page, pages, strict)
            <==> UsablePage(page, pages, strict) && (identity.Some? ==> page.identity == identity.value)
    ensures identity.Some? <==> pages != []
  {
    FitsIff(page, pages, strict);
    hide Fits, UsablePage, Usable;
  }

  // ----- one round of the loop -----

  /** Where a read stands after so many rounds, all of which took it on. */
  predicate Reached(server: nat -> Round, n: nat, strict: bool, pages: seq<Page>, cursor: Option<nat>, observed: nat,
                    reductions: nat)
  {
    && AllMove(server, n, strict) && pages == PagesRead(server, n) && AtOldest(pages, cursor)
    && observed == Bytes(server, n) && reductions == Oversized(server, n)
  }

  lemma BoundedEnds(server: nat -> Round, n: nat, strict: bool, limit: Limit)
    requires AllMove(server, n, strict) && Limits(server, n, limit)
    ensures EndsAt(server, n, strict, BoundedResult(limit, PagesRead(server, n), strict))
  {
    hide PagesRead, Bytes, AllMove, CollectionsOf;
  }

  lemma MovesOn(server: nat -> Round, n: nat, strict: bool)
    requires AllMove(server, n, strict) && Moves(server, n, strict)
    ensures AllMove(server, n + 1, strict)
  {
    hide Moves;
  }

  lemma RoundCounts(server: nat -> Round, n: nat)
    ensures PagesRead(server, n + 1)
            == PagesRead(server, n) + if server(n).reply.Answered? then [server(n).reply.page] else []
    ensures Bytes(server, n + 1)
            == Bytes(server, n) + if server(n).reply.Answered? then server(n).reply.page.bytes else MAX_RESPONSE_BYTES + 1
    ensures Oversized(server, n + 1) == Oversized(server, n) + if server(n).reply.TooLarge? then 1 else 0
  {
  }

  /** What one reply does to a read. */
  datatype Turn =
    | Over(o: Outcome, kept: bool)
    | Smaller(size: nat)
    | Older(c: Collections, cursor: nat, identity: int)

  /** An oversized reply halves the page and keeps the cursor. */
  method TakeOversized(size: nat, reductions: nat, seen: nat, pages: seq<Page>, c: Collections, cursor: Option<nat>,
                       identity: Option<int>, strict: bool, cursors: seq<nat>, ghost server: nat -> Round, ghost n: nat)
    returns (t: Turn)
    requires Reading(pages, cursors, c, cursor, identity, strict) && Paced(size, reductions)
    requires AllMove(server, n, strict) && pages == PagesRead(server, n) && reductions == Oversized(server, n)
    requires server(n).reply.TooLarge? && Asks(server, n) && seen == Bytes(server, n + 1)
    ensures t.Over? ==> !t.kept && EndsAt(server, n, strict, t.o) && ReadOk(t.o, pages, cursors, strict)
    ensures t.Smaller? ==> Paced(t.size, reductions + 1) && reductions + 1 <= 6 && Moves(server, n, strict)
    ensures !t.Older?
  {
    hide ReadOk, Reading, AllMove, PagesRead, Bytes;
    SizeHalves(reductions);
    var o;
    if seen >= MAX_OBSERVATION_BYTES {
      BoundedEnds(server, n, strict, AggregateBytes);
      o := Bounded(AggregateBytes, pages, cursors, c, cursor, identity, strict);
      return Over(o, false);
    }
    if size == 1 {
      o := Refuse(pages, cursors, c, cursor, identity, strict);
      return Over(o, false);
    }
    var smaller := Shrink(size, reductions);
    return Smaller(smaller);
  }

  /** A page is taken within the byte and time bounds. */
  method TakeAnswer(round: Round, seen: nat, pages: seq<Page>, c: Collections, cursor: Option<nat>,
                    identity: Option<int>, strict: bool, cursors: seq<nat>, ghost server: nat -> Round, ghost n: nat)
    returns (t: Turn)
    requires Reading(pages, cursors, c, cursor, identity, strict) && AtOldest(pages, cursor)
    requires AllMove(server, n, strict) && pages == PagesRead(server, n)
    requires round == server(n) && round.reply.Answered? && Asks(server, n) && seen == Bytes(server, n + 1)
    ensures t.Over? ==>
              && EndsAt(server, n, strict, t.o)
              && ReadOk(t.o, if t.kept then pages + [round.reply.page] else pages, cursors, strict)
    ensures !t.Smaller?
    ensures t.Older? ==>
              && Moves(server, n, strict) && AtOldest(pages + [round.reply.page], Some(t.cursor))
              && Reading(pages + [round.reply.page], cursors + [t.cursor], t.c, Some(t.cursor), Some(t.identity), strict)
  {
    RoundCounts(server, n);
    hide ReadOk, Reading, AllMove, PagesRead, Bytes, Fits, LeadsBack, CollectionsOf, BoundedResult;
    var o;
    if !round.reply.page.supported {
      o := Refuse(pages, cursors, c, cursor, identity, strict);
      return Over(o, false);
    }
    if seen > MAX_OBSERVATION_BYTES {
      BoundedEnds(server, n, strict, AggregateBytes);
      o := Bounded(AggregateBytes, pages, cursors, c, cursor, identity, strict);
      return Over(o, false);
    }
    if round.lateAfter {
      BoundedEnds(server, n, strict, Elapsed);
      o := Bounded(Elapsed, pages, cursors, c, cursor, identity, strict);
      return Over(o, false);
    }
    var page := TakePage(round.reply.page, pages, c, cursor, identity, strict, cursors);
    t := if page.Ended? then Over(page.o, page.kept) else Older(page.c, page.cursor, page.identity);
  }

  /** Everything the loop knows after so many rounds. */
  predicate InLoop(server: nat -> Round, n: nat, strict: bool, pages: seq<Page>, cursors: seq<nat>, c: Collections,
                   cursor: Option<nat>, identity: Option<int>, size: nat, reductions: nat, observed: nat)
  {
    && Reading(pages, cursors, c, cursor, identity, strict) && Paced(size, reductions)
    && |pages| <= MAX_PAGES && reductions <= 6 && n == |pages| + reductions
    && Reached(server, n, strict, pages, cursor, observed, reductions)
  }

  /** Nothing read yet, and the largest page to ask for. */
  method Begin(ghost server: nat -> Round, strict: bool)
    returns (c: Collections, size: nat, cursor: Option<nat>, identity: Option<int>, pages: seq<Page>, cursors: seq<nat>)
    ensures InLoop(server, 0, strict, pages, cursors, c, cursor, identity, size, 0, 0)
  {
    c, size, cursor, identity := Collections(map[], map[], map[]), PAGE_ITEMS, None, None;
    pages, cursors := [], [];
    ReadingNone(strict);
  }

  /** One round whose request went out in time. */
  method TakeRound(round: Round, size: nat, reductions: nat, observed: nat, pages: seq<Page>, c: Collections,
                   cursor: Option<nat>, identity: Option<int>, strict: bool, cursors: seq<nat>,
                   ghost server: nat -> Round, ghost n: nat)
    returns (t: Turn, seen: nat)
    requires InLoop(server, n, strict, pages, cursors, c, cursor, identity, size, reductions, observed)
    requires round == server(n) && !round.lateBefore && |pages| < MAX_PAGES
    ensures (t.Over? && t.kept) || t.Older? ==> round.reply.Answered?
    ensures t.Over? ==>
              && EndsAt(server, n, strict, t.o)
              && ReadOk(t.o, if t.kept then pages + [round.reply.page] else pages, cursors, strict)
    ensures t.Smaller? ==>
              InLoop(server, n + 1, strict, pages, cursors, c, cursor, identity, t.size, reductions + 1, seen)
    ensures t.Older? ==>
              InLoop(server, n + 1, strict, pages + [round.reply.page], cursors + [t.cursor], t.c, Some(t.cursor),
                     Some(t.identity), size, reductions, seen)
  {
    hide ReadOk, Reading, AllMove, PagesRead, Bytes, Oversized, Moves, EndsAt, AtOldest;
    RoundCounts(server, n);
    if round.reply.TooLarge? {
      seen := observed + MAX_RESPONSE_BYTES + 1;
      t := TakeOversized(size, reductions, seen, pages, c, cursor, identity, strict, cursors, server, n);
    } else {
      seen := observed + round.reply.page.bytes;
      t := TakeAnswer(round, seen, pages, c, cursor, identity, strict, cursors, server, n);
    }
    if !t.Over? { MovesOn(server, n, strict); }
  }

  /** The limit that stopped the loop, or a clock that ran out before a request. */
  method StopAt(limit: Limit, pages: seq<Page>, c: Collections, cursor: Option<nat>, identity: Option<int>, strict: bool,
                cursors: seq<nat>, ghost size: nat, ghost reductions: nat, ghost observed: nat,
                ghost server: nat -> Round, ghost n: nat)
    returns (o: Outcome)
    requires InLoop(server, n, strict, pages, cursors, c, cursor, identity, size, reductions, observed)
    requires Limits(server, n, limit)
    ensures EndsAt(server, n, strict, o) && ReadOk(o, pages, cursors, strict)
  {
    hide ReadOk, Reading, AllMove, PagesRead, Bytes, Oversized, EndsAt, AtOldest;
    BoundedEnds(server, n, strict, limit);
    o := Bounded(limit, pages, cursors, c, cursor, identity, strict);
  }

  /** The whole read against any server: it ends at the one round that finishes it, spoils it or reaches a limit, and all
      rounds before that took it on. Oversized responses halve the page and keep the cursor, so the requests exceed the
      pages by at most the reductions and the request limit is never what stops it. */
  method Conversation(server: nat -> Round, strict: bool)
    returns (o: Outcome, pages: seq<Page>, cursors: seq<nat>, requests: nat)
    ensures exists n: nat :: n <= requests <= n + 1 && EndsAt(server, n, strict, o)
    ensures ReadOk(o, pages, cursors, strict)
    ensures |pages| <= MAX_PAGES && requests <= |pages| + 7 && requests <= MAX_REQUESTS
  {
    hide *;
    var c, size, cursor, identity;
    c, size, cursor, identity, pages, cursors := Begin(server, strict);
    var reductions, observed := 0, 0;
    requests := 0;
    LoopCounts(server, 0, strict, pages, cursors, c, cursor, identity, size, 0, 0);
    while |pages| < MAX_PAGES && requests < MAX_REQUESTS
      invariant InLoop(server, requests, strict, pages, cursors, c, cursor, identity, size, reductions, observed)
      invariant |pages| <= MAX_PAGES && reductions <= 6 && requests == |pages| + reductions
      decreases MAX_REQUESTS - requests
    {
      var round := server(requests);
      if round.lateBefore {
        LateLimits(server, requests, strict, pages, cursors, c, cursor, identity, size, reductions, observed);
        o := StopAt(Elapsed, pages, c, cursor, identity, strict, cursors, size, reductions, observed, server, requests);
        return;
      }
      requests := requests + 1;
      var t, seen := TakeRound(round, size, reductions, observed, pages, c, cursor, identity, strict, cursors, server,
                               requests - 1);
      observed := seen;
      match t {
        case Over(end, kept) =>
          o := end;
          if kept { pages := pages + [round.reply.page]; }
          return;
        case Smaller(smaller) => size, reductions := smaller, reductions + 1;
        case Older(now, older, same) =>
          c, pages, cursors := now, pages + [round.reply.page], cursors + [older];
          cursor, identity := Some(older), Some(same);
      }
      LoopCounts(server, requests, strict, pages, cursors, c, cursor, identity, size, reductions, observed);
    }
    PagesLimit(server, requests, strict, pages, cursors, c, cursor, identity, size, reductions, observed);
    o := StopAt(if |pages| >= MAX_PAGES then Pages else Requests, pages, c, cursor, identity, strict, cursors, size,
                reductions, observed, server, requests);
  }

  lemma LoopCounts(server: nat -> Round, n: nat, strict: bool, pages: seq<Page>, cursors: seq<nat>, c: Collections,
                   cursor: Option<nat>, identity: Option<int>, size: nat, reductions: nat, observed: nat)
    requires InLoop(server, n, strict, pages, cursors, c, cursor, identity, size, reductions, observed)
    ensures |pages| <= MAX_PAGES && reductions <= 6 && n == |pages| + reductions && MAX_REQUESTS == MAX_PAGES + 7
  {
  }

  lemma LateLimits(server: nat -> Round, n: nat, strict: bool, pages: seq<Page>, cursors: seq<nat>, c: Collections,
                   cursor: Option<nat>, identity: Option<int>, size: nat, reductions: nat, observed: nat)
    requires InLoop(server, n, strict, pages, cursors, c, cursor, identity, size, reductions, observed)
    requires server(n).lateBefore && |pages| < MAX_PAGES
    ensures Limits(server, n, Elapsed)
  {
  }

  lemma PagesLimit(server: nat -> Round, n: nat, strict: bool, pages: seq<Page>, cursors: seq<nat>, c: Collections,
                   cursor: Option<nat>, identity: Option<int>, size: nat, reductions: nat, observed: nat)
    requires InLoop(server, n, strict, pages, cursors, c, cursor, identity, size, reductions, observed)
    ensures |pages| >= MAX_PAGES ==> Limits(server, n, Pages)
  {
  }

  /** Half the page, at least one item. */
  method Shrink(size: nat, reductions: nat) returns (smaller: nat)
    requires Paced(size, reductions) && size != 1
    ensures Paced(smaller, reductions + 1) && reductions + 1 <= 6
  {
    SizeHalves(reductions);
    smaller := if size / 2 >= 1 then size / 2 else 1;
  }

  method Refuse(pages: seq<Page>, cursors: seq<nat>, c: Collections, cursor: Option<nat>, identity: Option<int>,
                strict: bool)
    returns (o: Outcome)
    requires Reading(pages, cursors, c, cursor, identity, strict)
    ensures o == Unusable && ReadOk(o, pages, cursors, strict)
  {
    BoundedOk(Elapsed, pages, cursors, c, cursor, identity, strict);
    o := Unusable;
  }

  /** A bounded stop of the loop, over the pages read so far. */
  method Bounded(limit: Limit, pages: seq<Page>, cursors: seq<nat>, c: Collections, cursor: Option<nat>,
                 identity: Option<int>, strict: bool)
    returns (o: Outcome)
    requires Reading(pages, cursors, c, cursor, identity, strict) && limit != Requests
    ensures o == BoundedResult(limit, pages, strict) && ReadOk(o, pages, cursors, strict)
  {
    BoundedOk(limit, pages, cursors, c, cursor, identity, strict);
    o := if strict || pages == [] then Stopped(limit) else History(c, true);
  }
}
