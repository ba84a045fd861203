/** The bounded transcript reader: an admitted extent is read in chunks of whatever length the file system
    returns, split at newlines, and charged to budgets shared by every scan of one audit. */
module EvidenceScan {
  import opened Values

  type Byte = bv8
  type Bytes = seq<Byte>

  const NEWLINE: Byte := 10
  const READ_CHUNK: nat := 262_144

  datatype Reason =
    | SourceChanged
    | TranscriptBytesLimit
    | AggregateBytesLimit
    | RecordBytesLimit
    | RecordCountLimit
    | RecordRefused

  datatype Outcome = Scanned(torn: bool) | Failed(reason: Reason)

  /** One delivered record: its bytes without the newline, whether one ended it, and its number from one. */
  datatype Record = Record(payload: Bytes, terminated: bool, number: nat)

  datatype Limits = Limits(bytes: nat, aggregate: nat, record: nat, records: nat)

  // ----- splitting a whole extent -----

  /** The position of the first newline, or the length when there is none. */
  function First(s: Bytes): (i: nat)
    ensures i <= |s|
    ensures i < |s| ==> s[i] == NEWLINE
    ensures forall j :: 0 <= j < i ==> s[j] != NEWLINE
  {
    if s == [] || s[0] == NEWLINE then 0 else 1 + First(s[1..])
  }

  /** The newline-terminated lines, without their newlines. */
  function Lines(s: Bytes): seq<Bytes>
    decreases |s|
  {
    var i := First(s);
    if i == |s| then [] else [s[..i]] + Lines(s[i + 1..])
  }

  /** What follows the last newline. */
  function Tail(s: Bytes): Bytes
    decreases |s|
  {
    var i := First(s);
    if i == |s| then s else Tail(s[i + 1..])
  }

  predicate Fits(s: Bytes, limit: nat) {
    && (forall line :: line in Lines(s) ==> |line| <= limit)
    && |Tail(s)| <= limit
  }

  /** The records of a whole extent in order: its lines, then the unterminated tail if there is one. */
  function Records(s: Bytes): seq<Record> {
    Numbered(Lines(s), 0) + if Tail(s) == [] then [] else [Record(Tail(s), false, |Lines(s)| + 1)]
  }

  /** Terminated records, numbered on from the records before them. */
  function Numbered(lines: seq<Bytes>, before: nat): (r: seq<Record>)
    ensures |r| == |lines|
    ensures forall k :: 0 <= k < |lines| ==> r[k] == Record(lines[k], true, before + k + 1)
  {
    seq(|lines|, k requires 0 <= k < |lines| => Record(lines[k], true, before + k + 1))
  }

  function Join(lines: seq<Bytes>, tail: Bytes): Bytes {
    if lines == [] then tail else lines[0] + [NEWLINE] + Join(lines[1..], tail)
  }

  // ----- what splitting means -----

  lemma FirstOf(line: Bytes, rest: Bytes)
    requires NEWLINE !in line
    ensures First(line + [NEWLINE] + rest) == |line|
  {
    var s := line + [NEWLINE] + rest;
    assert s[|line|] == NEWLINE;
    forall j | 0 <= j < |line| ensures s[j] != NEWLINE { assert s[j] == line[j]; }
  }

  /** Splitting loses nothing: the lines and the tail give the extent back. */
  lemma {:induction false} JoinSplit(s: Bytes)
    ensures Join(Lines(s), Tail(s)) == s
    ensures NEWLINE !in Tail(s) && forall line :: line in Lines(s) ==> NEWLINE !in line
    decreases |s|
  {
    var i := First(s);
    if i < |s| {
      var line, rest := s[..i], s[i + 1..];
      JoinSplit(rest);
      CutAround(s, i, []);
      SplitLine(line, rest);
      JoinFirst(line, Lines(rest), Tail(rest));
    } else {
      SplitNone(s);
    }
  }

  lemma JoinFirst(line: Bytes, lines: seq<Bytes>, tail: Bytes)
    ensures Join([line] + lines, tail) == line + [NEWLINE] + Join(lines, tail)
  {
    assert ([line] + lines)[1..] == lines;
  }

  /** It is the only way to cut the extent into newline-free pieces. */
  lemma {:induction false} SplitUnique(lines: seq<Bytes>, tail: Bytes)
    requires NEWLINE !in tail && forall line :: line in lines ==> NEWLINE !in line
    ensures Lines(Join(lines, tail)) == lines && Tail(Join(lines, tail)) == tail
    decreases |lines|
  {
    var s := Join(lines, tail);
    if lines == [] {
      assert First(tail) == |tail|;
    } else {
      var rest := Join(lines[1..], tail);
      SplitUnique(lines[1..], tail);
      FirstOf(lines[0], rest);
      assert s == lines[0] + [NEWLINE] + rest;
      assert s[..|lines[0]|] == lines[0] && s[|lines[0]| + 1..] == rest;
      assert lines == [lines[0]] + lines[1..];
    }
  }

  lemma SplitLine(line: Bytes, rest: Bytes)
    requires NEWLINE !in line
    ensures Lines(line + [NEWLINE] + rest) == [line] + Lines(rest)
    ensures Tail(line + [NEWLINE] + rest) == Tail(rest)
  {
    var s := line + [NEWLINE] + rest;
    FirstOf(line, rest);
    assert s[..|line|] == line && s[|line| + 1..] == rest;
  }

  lemma SplitNone(s: Bytes)
    requires NEWLINE !in s
    ensures Lines(s) == [] && Tail(s) == s
  {
  }

  lemma CutAround(a: Bytes, i: nat, b: Bytes)
    requires i < |a| && a[i] == NEWLINE
    ensures a == a[..i] + [NEWLINE] + a[i + 1..]
    ensures a + b == a[..i] + [NEWLINE] + (a[i + 1..] + b)
  {
  }

  lemma ConcatOne(line: Bytes, x: seq<Bytes>, y: seq<Bytes>)
    ensures [line] + (x + y) == ([line] + x) + y
  {
  }

  /** Splitting a longer extent continues from the pending tail of a shorter one. */
  lemma {:induction false} SplitConcat(a: Bytes, b: Bytes)
    ensures Lines(a + b) == Lines(a) + Lines(Tail(a) + b)
    ensures Tail(a + b) == Tail(Tail(a) + b)
    decreases |a|
  {
    var i := First(a);
    if i < |a| {
      var line, rest := a[..i], a[i + 1..];
      SplitConcat(rest, b);
      CutAround(a, i, b);
      SplitLine(line, rest);
      SplitLine(line, rest + b);
      ConcatOne(line, Lines(rest), Lines(Tail(rest) + b));
    } else {
      SplitNone(a);
    }
  }

  // ----- budgets -----

  /** The budgets of one audit. Failed scans leave their bytes charged. */
  class Collector {
    var aggregate: nat
    var records: nat
    const limits: Limits

    constructor (limits: Limits)
      ensures this.limits == limits && aggregate == 0 && records == 0
    {
      this.limits, aggregate, records := limits, 0, 0;
    }

    method Charge(count: nat) returns (ok: bool)
      modifies this`aggregate
      ensures aggregate == old(aggregate) + count
      ensures ok <==> aggregate <= limits.aggregate
    {
      aggregate := aggregate + count;
      ok := aggregate <= limits.aggregate;
    }

    method CountRecord() returns (ok: bool)
      modifies this`records
      ensures records == old(records) + 1
      ensures ok <==> records <= limits.records
    {
      records := records + 1;
      ok := records <= limits.records;
    }
  }

  /** An open file. A read may return any nonempty part of what was asked for while the file lasts, and may
      come back empty at any time (the file was cut short). */
  class Handle {
    const content: Bytes
    var position: nat
    /** Whether some read came back empty. */
    var dry: bool

    constructor (content: Bytes)
      ensures this.content == content && position == 0 && !dry
    {
      this.content, position, dry := content, 0, false;
    }

    method Read(allowance: nat) returns (chunk: Bytes)
      requires position <= |content| && 0 < allowance
      modifies this
      ensures position == old(position) + |chunk| <= |content| && |chunk| <= allowance
      ensures chunk == content[old(position)..position]
      ensures dry <==> old(dry) || chunk == []
    {
      var n: nat :| n <= allowance && position + n <= |content|;
      chunk := content[position..position + n];
      position := position + n;
      dry := dry || n == 0;
    }
  }

  // ----- one scan -----

  predicate AdmitOk(size: nat, c: Collector)
    reads c
  {
    size <= c.limits.bytes && c.aggregate + size <= c.limits.aggregate
  }

  method AdmitExtent(size: nat, c: Collector) returns (refusal: Option<Reason>)
    ensures refusal.None? <==> AdmitOk(size, c)
    ensures refusal.Some? ==> refusal.value == if size > c.limits.bytes then TranscriptBytesLimit
                                               else AggregateBytesLimit
  {
    if size > c.limits.bytes { return Some(TranscriptBytesLimit); }
    if c.aggregate + size > c.limits.aggregate { return Some(AggregateBytesLimit); }
    return None;
  }

  /** What the record handler answers for the last of a list of records, after all those before it: identity and tool
      budgets beyond the record count refuse, everything else is only noted. */
  type Judge = seq<Record> -> bool

  /** The handler accepted each of the records when it came. */
  ghost predicate Approved(accepts: Judge, records: seq<Record>) {
    records == [] || (Approved(accepts, records[..|records| - 1]) && accepts(records))
  }

  lemma ApprovedSnoc(accepts: Judge, records: seq<Record>, next: Record)
    ensures Approved(accepts, records + [next]) <==> Approved(accepts, records) && accepts(records + [next])
  {
    assert (records + [next])[..|records|] == records;
  }

  lemma {:induction false} ApprovedPrefix(accepts: Judge, short: seq<Record>, long: seq<Record>)
    requires short <= long && Approved(accepts, long)
    ensures Approved(accepts, short)
    decreases |long|
  {
    if |short| < |long| {
      ApprovedPrefix(accepts, short, long[..|long| - 1]);
    } else {
      assert short == long;
    }
  }

  /** Why the record after those delivered is refused. */
  ghost predicate Refuses(accepts: Judge, done: seq<Record>, next: Record, limit: nat, reason: Reason) {
    match reason
    case RecordBytesLimit => |next.payload| > limit
    case RecordCountLimit => |next.payload| <= limit
    case RecordRefused => |next.payload| <= limit && !accepts(done + [next])
    case _ => false
  }

  /** The records are the first lines of the pending bytes, none too long. */
  predicate Taken(pending: Bytes, before: nat, limit: nat, records: seq<Record>) {
    var lines := Lines(pending);
    |records| <= |lines| && records == Numbered(lines[..|records|], before) && Bounded(lines[..|records|], limit)
  }

  /** Every line was taken, and this is what follows the last. */
  predicate Finished(pending: Bytes, records: seq<Record>, rest: Bytes) {
    |records| == |Lines(pending)| && rest == Tail(pending)
  }

  /** The line after those taken is refused. */
  ghost predicate Halted(pending: Bytes, before: seq<Record>, limit: nat, accepts: Judge, records: seq<Record>,
                         reason: Reason)
  {
    && |records| < |Lines(pending)|
    && Refuses(accepts, before + records, Record(Lines(pending)[|records|], true, |before| + |records| + 1), limit,
               reason)
  }

  /** The position of the first newline from start on, or the length when there is none. */
  function Find(pending: Bytes, start: nat): (end: nat)
    requires start <= |pending|
    ensures start <= end <= |pending|
  {
    start + First(pending[start..])
  }

  /** What the delivery loop keeps. */
  ghost predicate Delivering(pending: Bytes, start: nat, before: seq<Record>, limit: nat, accepts: Judge,
                             records: seq<Record>, done: seq<Bytes>)
    requires start <= |pending|
  {
    && Split(pending, start, done) && records == Numbered(done, |before|) && Bounded(done, limit)
    && Approved(accepts, before + records)
  }

  /** The position was reached by taking exactly these records. */
  ghost predicate Reached(pending: Bytes, start: nat, before: seq<Record>, limit: nat, accepts: Judge,
                          records: seq<Record>)
  {
    start <= |pending| && exists done :: Delivering(pending, start, before, limit, accepts, records, done)
  }

  lemma DeliveringNext(pending: Bytes, start: nat, end: nat, before: seq<Record>, limit: nat, accepts: Judge,
                       records: seq<Record>, done: seq<Bytes>)
    requires start <= |pending| && Delivering(pending, start, before, limit, accepts, records, done)
    requires end == Find(pending, start) < |pending| && |pending[start..end]| <= limit
    requires accepts(before + records + [Record(pending[start..end], true, |before| + |records| + 1)])
    ensures Delivering(pending, end + 1, before, limit, accepts,
                       records + [Record(pending[start..end], true, |before| + |records| + 1)],
                       done + [pending[start..end]])
  {
    var payload := pending[start..end];
    var next := Record(payload, true, |before| + |records| + 1);
    SplitNext(pending, start, end, done);
    NumberedSnoc(done, payload, |before|);
    BoundedSnoc(done, payload, limit);
    ApprovedSnoc(accepts, before + records, next);
    assert before + (records + [next]) == before + records + [next];
  }

  lemma DeliveringStops(pending: Bytes, start: nat, end: nat, before: seq<Record>, limit: nat, accepts: Judge,
                        records: seq<Record>, done: seq<Bytes>, reason: Reason)
    requires start <= |pending| && Delivering(pending, start, before, limit, accepts, records, done)
    requires end == Find(pending, start) < |pending|
    requires Refuses(accepts, before + records, Record(pending[start..end], true, |before| + |records| + 1), limit,
                     reason)
    ensures Taken(pending, |before|, limit, records) && Halted(pending, before, limit, accepts, records, reason)
  {
    SplitNext(pending, start, end, done);
  }

  /** One terminated record. */
  method DeliverOne(pending: Bytes, start: nat, end: nat, before: seq<Record>, records: seq<Record>, c: Collector,
                    accepts: Judge)
    returns (refusal: Option<Reason>, more: seq<Record>)
    requires Reached(pending, start, before, c.limits.record, accepts, records)
    requires end == Find(pending, start) < |pending|
    modifies c`records
    ensures refusal.Some? ==>
              && more == records && Taken(pending, |before|, c.limits.record, more)
              && Halted(pending, before, c.limits.record, accepts, more, refusal.value)
    ensures refusal.None? ==> Reached(pending, end + 1, before, c.limits.record, accepts, more)
    ensures c.records == old(c.records) + if refusal == Some(RecordBytesLimit) then 0 else 1
    ensures refusal == Some(RecordCountLimit) ==> c.records > c.limits.records
  {
    var payload := pending[start..end];
    var next := Record(payload, true, |before| + |records| + 1);
    ghost var done :| Delivering(pending, start, before, c.limits.record, accepts, records, done);
    more := records;
    if |payload| > c.limits.record {
      DeliveringStops(pending, start, end, before, c.limits.record, accepts, records, done, RecordBytesLimit);
      return Some(RecordBytesLimit), more;
    }
    var ok := c.CountRecord();
    if !ok {
      DeliveringStops(pending, start, end, before, c.limits.record, accepts, records, done, RecordCountLimit);
      return Some(RecordCountLimit), more;
    }
    if !accepts(before + records + [next]) {
      DeliveringStops(pending, start, end, before, c.limits.record, accepts, records, done, RecordRefused);
      return Some(RecordRefused), more;
    }
    DeliveringNext(pending, start, end, before, c.limits.record, accepts, records, done);
    return None, records + [next];
  }

  /** Splits the pending bytes into records, keeping the unfinished end. */
  method Deliver(pending: Bytes, before: seq<Record>, c: Collector, accepts: Judge)
    returns (records: seq<Record>, rest: Bytes, refusal: Option<Reason>)
    requires Approved(accepts, before)
    modifies c`records
    ensures Taken(pending, |before|, c.limits.record, records)
    ensures refusal.None? ==> Approved(accepts, before + records) && Finished(pending, records, rest)
    ensures refusal.Some? ==> Halted(pending, before, c.limits.record, accepts, records, refusal.value)
    ensures c.records >= old(c.records)
    ensures refusal == Some(RecordCountLimit) ==> c.records > c.limits.records
  {
    records, refusal := [], None;
    var start := 0;
    ReachedNone(pending, before, c.limits.record, accepts, records);
    while true
      invariant Reached(pending, start, before, c.limits.record, accepts, records)
      invariant c.records >= old(c.records)
      decreases |pending| - start
    {
      var end := Find(pending, start);
      if end == |pending| {
        ReachedAll(pending, before, c.limits.record, accepts, start, records);
        return records, pending[start..], None;
      }
      refusal, records := DeliverOne(pending, start, end, before, records, c, accepts);
      if refusal.Some? { return records, [], refusal; }
      start := end + 1;
    }
  }

  lemma ReachedNone(pending: Bytes, before: seq<Record>, limit: nat, accepts: Judge, records: seq<Record>)
    requires Approved(accepts, before) && |records| == 0
    ensures Reached(pending, 0, before, limit, accepts, records)
  {
    var done: seq<Bytes> := [];
    assert pending[0..] == pending && before + records == before && done + Lines(pending) == Lines(pending);
    assert Delivering(pending, 0, before, limit, accepts, records, done);
  }

  predicate Bounded(lines: seq<Bytes>, limit: nat) { forall k :: 0 <= k < |lines| ==> |lines[k]| <= limit }

  /** The lines before start are done, the rest are still in the pending bytes. */
  ghost predicate Split(pending: Bytes, start: nat, done: seq<Bytes>)
    requires start <= |pending|
  {
    && Lines(pending) == done + Lines(pending[start..])
    && Tail(pending) == Tail(pending[start..])
  }

  lemma SplitDone(pending: Bytes, start: nat, done: seq<Bytes>)
    requires start <= |pending|
    requires Split(pending, start, done) && Find(pending, start) == |pending|
    ensures done == Lines(pending) == Lines(pending)[..|done|] && Tail(pending) == pending[start..]
  {
  }

  lemma ReachedAll(pending: Bytes, before: seq<Record>, limit: nat, accepts: Judge, start: nat, records: seq<Record>)
    requires Reached(pending, start, before, limit, accepts, records) && Find(pending, start) == |pending|
    ensures Taken(pending, |before|, limit, records) && Finished(pending, records, pending[start..])
    ensures Approved(accepts, before + records)
  {
    var done :| Delivering(pending, start, before, limit, accepts, records, done);
    SplitDone(pending, start, done);
  }

  lemma BoundedSnoc(done: seq<Bytes>, line: Bytes, limit: nat)
    requires Bounded(done, limit) && |line| <= limit
    ensures Bounded(done + [line], limit)
  {
  }

  lemma SplitNext(pending: Bytes, start: nat, end: nat, done: seq<Bytes>)
    requires start <= |pending|
    requires Split(pending, start, done) && end == Find(pending, start) < |pending|
    ensures |done| < |Lines(pending)| && Lines(pending)[|done|] == pending[start..end]
    ensures Lines(pending)[..|done|] == done
    ensures Split(pending, end + 1, done + [pending[start..end]])
  {
    NextLine(pending, start, end);
    ConcatMiddle(done, pending[start..end], Lines(pending[end + 1..]));
  }

  lemma ConcatMiddle(x: seq<Bytes>, line: Bytes, y: seq<Bytes>)
    ensures x + ([line] + y) == (x + [line]) + y
    ensures (x + ([line] + y))[..|x|] == x && (x + ([line] + y))[|x|] == line
  {
  }

  lemma CutAt(s: Bytes, start: nat, end: nat)
    requires start <= end < |s| && s[end] == NEWLINE
    ensures s[start..] == s[start..end] + [NEWLINE] + s[end + 1..]
  {
  }

  lemma NextLine(pending: Bytes, start: nat, end: nat)
    requires start <= |pending| && end == Find(pending, start) < |pending|
    ensures Lines(pending[start..]) == [pending[start..end]] + Lines(pending[end + 1..])
    ensures Tail(pending[start..]) == Tail(pending[end + 1..])
  {
    var rest := pending[start..];
    CutAt(pending, start, end);
    SplitLine(pending[start..end], pending[end + 1..]);
  }

  lemma NumberedSnoc(done: seq<Bytes>, line: Bytes, before: nat)
    ensures Numbered(done + [line], before) == Numbered(done, before) + [Record(line, true, before + |done| + 1)]
  {
  }

  lemma NumberedConcat(a: seq<Bytes>, b: seq<Bytes>)
    ensures Numbered(a + b, 0) == Numbered(a, 0) + Numbered(b, |a|)
  {
  }

  lemma NumberedPrefix(a: seq<Bytes>, b: seq<Bytes>, k: nat)
    requires k <= |b|
    ensures Numbered(a, 0) + Numbered(b[..k], |a|) <= Numbered(a + b, 0)
  {
    NumberedConcat(a, b[..k]);
  }

  lemma BoundedConcat(a: seq<Bytes>, b: seq<Bytes>, limit: nat)
    ensures Bounded(a + b, limit) <==> Bounded(a, limit) && Bounded(b, limit)
  {
    if Bounded(a + b, limit) {
      forall k | 0 <= k < |a| ensures |a[k]| <= limit { assert (a + b)[k] == a[k]; }
      forall k | 0 <= k < |b| ensures |b[k]| <= limit { assert (a + b)[|a| + k] == b[k]; }
    }
  }

  lemma FitsBounded(s: Bytes, limit: nat)
    ensures Fits(s, limit) <==> Bounded(Lines(s), limit) && |Tail(s)| <= limit
  {
  }

  /** Whatever is longer than the limit in a prefix is longer than the limit in the whole. */
  lemma FitsPrefix(a: Bytes, b: Bytes, limit: nat)
    requires Fits(a + b, limit)
    ensures Fits(a, limit)
  {
    SplitConcat(a, b);
    FitsBounded(a + b, limit);
    BoundedConcat(Lines(a), Lines(Tail(a) + b), limit);
    JoinSplit(a);
    PendingFits(Tail(a), b, limit);
    FitsBounded(a, limit);
  }

  lemma PendingFits(pending: Bytes, b: Bytes, limit: nat)
    requires NEWLINE !in pending && Bounded(Lines(pending + b), limit) && |Tail(pending + b)| <= limit
    ensures |pending| <= limit
  {
    var s := pending + b;
    var i := First(s);
    assert forall j :: 0 <= j < |pending| ==> s[j] == pending[j];
    if i < |s| { assert Lines(s)[0] == s[..i]; }
  }

  /** What a chunk completes, taken after all records before it. */
  lemma ChunkTaken(consumed: Bytes, chunk: Bytes, limit: nat, records: seq<Record>, more: seq<Record>)
    requires records == Numbered(Lines(consumed), 0) && Taken(Tail(consumed) + chunk, |records|, limit, more)
    ensures records + more <= Numbered(Lines(consumed + chunk), 0)
  {
    ChunkRecords(consumed, chunk, Lines(Tail(consumed) + chunk), |more|);
  }

  lemma ChunkFinished(consumed: Bytes, chunk: Bytes, limit: nat, records: seq<Record>, more: seq<Record>, rest: Bytes)
    requires records == Numbered(Lines(consumed), 0) && Fits(consumed, limit)
    requires Taken(Tail(consumed) + chunk, |records|, limit, more) && Finished(Tail(consumed) + chunk, more, rest)
    ensures records + more == Numbered(Lines(consumed + chunk), 0) && rest == Tail(consumed + chunk)
    ensures Fits(consumed + chunk, limit) <==> |rest| <= limit
  {
    var lines := Lines(Tail(consumed) + chunk);
    assert lines[..|lines|] == lines;
    ChunkRecords(consumed, chunk, lines, |more|);
    ChunkFits(consumed, chunk, limit, lines);
    SplitConcat(consumed, chunk);
  }

  lemma ChunkHalted(consumed: Bytes, chunk: Bytes, limit: nat, accepts: Judge, records: seq<Record>, more: seq<Record>,
                    reason: Reason)
    requires records == Numbered(Lines(consumed), 0) && Fits(consumed, limit)
    requires Taken(Tail(consumed) + chunk, |records|, limit, more)
    requires Halted(Tail(consumed) + chunk, records, limit, accepts, more, reason)
    ensures reason in [RecordBytesLimit, RecordCountLimit, RecordRefused]
    ensures reason == RecordBytesLimit ==> !Fits(consumed + chunk, limit)
    ensures reason == RecordRefused ==> !Approved(accepts, Numbered(Lines(consumed + chunk), 0))
  {
    var lines := Lines(Tail(consumed) + chunk);
    if reason == RecordBytesLimit {
      ChunkFits(consumed, chunk, limit, lines);
      assert |lines[|more|]| > limit;
    } else if reason == RecordRefused {
      ChunkRefused(consumed, chunk, accepts, lines, records + more, |more|);
    }
  }

  lemma ChunkRecords(consumed: Bytes, chunk: Bytes, lines: seq<Bytes>, k: nat)
    requires lines == Lines(Tail(consumed) + chunk) && k <= |lines|
    ensures Numbered(Lines(consumed), 0) + Numbered(lines[..k], |Lines(consumed)|)
            <= Numbered(Lines(consumed + chunk), 0)
    ensures Numbered(Lines(consumed), 0) + Numbered(lines, |Lines(consumed)|) == Numbered(Lines(consumed + chunk), 0)
  {
    SplitConcat(consumed, chunk);
    NumberedPrefix(Lines(consumed), lines, k);
    NumberedConcat(Lines(consumed), lines);
  }

  lemma NumberedNext(lines: seq<Bytes>, before: nat, k: nat)
    requires k < |lines|
    ensures Numbered(lines[..k + 1], before) == Numbered(lines[..k], before) + [Record(lines[k], true, before + k + 1)]
  {
    assert lines[..k + 1] == lines[..k] + [lines[k]];
    NumberedSnoc(lines[..k], lines[k], before);
  }

  lemma ConcatThree(a: seq<Record>, b: seq<Record>, next: Record)
    ensures a + (b + [next]) == a + b + [next]
  {
  }

  lemma ChunkRefused(consumed: Bytes, chunk: Bytes, accepts: Judge, lines: seq<Bytes>, done: seq<Record>, k: nat)
    requires lines == Lines(Tail(consumed) + chunk) && k < |lines|
    requires done == Numbered(Lines(consumed), 0) + Numbered(lines[..k], |Lines(consumed)|)
    requires !accepts(done + [Record(lines[k], true, |done| + 1)])
    ensures !Approved(accepts, Numbered(Lines(consumed + chunk), 0))
  {
    var next := Record(lines[k], true, |done| + 1);
    NumberedNext(lines, |Lines(consumed)|, k);
    ConcatThree(Numbered(Lines(consumed), 0), Numbered(lines[..k], |Lines(consumed)|), next);
    ChunkRecords(consumed, chunk, lines, k + 1);
    RefusedPrefix(accepts, done, next, Numbered(Lines(consumed + chunk), 0));
  }

  lemma ChunkFits(consumed: Bytes, chunk: Bytes, limit: nat, lines: seq<Bytes>)
    requires Fits(consumed, limit) && lines == Lines(Tail(consumed) + chunk)
    ensures Fits(consumed + chunk, limit) <==> Bounded(lines, limit) && |Tail(consumed + chunk)| <= limit
  {
    SplitConcat(consumed, chunk);
    FitsBounded(consumed, limit);
    FitsBounded(consumed + chunk, limit);
    BoundedConcat(Lines(consumed), lines, limit);
  }

  lemma RefusedPrefix(accepts: Judge, done: seq<Record>, next: Record, all: seq<Record>)
    requires done + [next] <= all && !accepts(done + [next])
    ensures !Approved(accepts, all)
  {
    if Approved(accepts, all) {
      ApprovedPrefix(accepts, done + [next], all);
      ApprovedSnoc(accepts, done, next);
    }
  }

  lemma RecordsOf(s: Bytes)
    ensures Numbered(Lines(s), 0) <= Records(s)
    ensures Tail(s) == [] ==> Records(s) == Numbered(Lines(s), 0)
    ensures Tail(s) != [] ==> Records(s) == Numbered(Lines(s), 0) + [Record(Tail(s), false, |Lines(s)| + 1)]
  {
  }

  lemma LongerFails(content: Bytes, position: nat, size: nat, limit: nat)
    requires position <= size && position <= |content|
    ensures size <= |content| && Fits(content[..size], limit) ==> Fits(content[..position], limit)
  {
    if size <= |content| && Fits(content[..size], limit) {
      assert content[..size] == content[..position] + content[position..size];
      FitsPrefix(content[..position], content[position..size], limit);
    }
  }

  /** A record the handler refused in a prefix is refused in the whole. */
  lemma LongerRefused(content: Bytes, position: nat, size: nat, accepts: Judge)
    requires position <= size && position <= |content| && !Approved(accepts, Numbered(Lines(content[..position]), 0))
    ensures !Approved(accepts, Records(content[..position]))
    ensures size <= |content| ==> !Approved(accepts, Records(content[..size]))
  {
    var a := content[..position];
    RecordsOf(a);
    if Approved(accepts, Records(a)) { ApprovedPrefix(accepts, Numbered(Lines(a), 0), Records(a)); }
    if size <= |content| {
      var b := content[position..size];
      assert content[..size] == a + b;
      SplitConcat(a, b);
      NumberedConcat(Lines(a), Lines(Tail(a) + b));
      RecordsOf(a + b);
      if Approved(accepts, Records(a + b)) { ApprovedPrefix(accepts, Numbered(Lines(a), 0), Records(a + b)); }
    }
  }

  /** What the loop keeps: the records of everything consumed, and its unfinished end. */
  ghost predicate Scanning(consumed: Bytes, records: seq<Record>, pending: Bytes, limit: nat, accepts: Judge) {
    && records == Numbered(Lines(consumed), 0) && pending == Tail(consumed) && Fits(consumed, limit)
    && Approved(accepts, records)
  }

  /** Why a scan stopped inside the extent. */
  ghost predicate Stops(consumed: Bytes, limit: nat, accepts: Judge, dry: bool, full: bool, reason: Reason) {
    match reason
    case SourceChanged => dry
    case RecordBytesLimit => !Fits(consumed, limit)
    case RecordCountLimit => full
    case RecordRefused => !Approved(accepts, Numbered(Lines(consumed), 0))
    case _ => false
  }

  /** One read and what it completes. */
  method ScanChunk(h: Handle, allowance: nat, pending: Bytes, records: seq<Record>, c: Collector, accepts: Judge)
    returns (stop: Option<Reason>, rest: Bytes, more: seq<Record>)
    requires h.position <= |h.content| && allowance > 0
    requires Scanning(h.content[..h.position], records, pending, c.limits.record, accepts)
    requires c.aggregate + allowance <= c.limits.aggregate
    modifies h, c
    ensures old(h.position) <= h.position <= |h.content| && h.position <= old(h.position) + allowance
    ensures c.aggregate == old(c.aggregate) + h.position - old(h.position)
    ensures more <= Records(h.content[..h.position])
    ensures stop.None? ==> h.position > old(h.position) && (h.dry ==> old(h.dry))
    ensures stop.None? ==> Scanning(h.content[..h.position], more, rest, c.limits.record, accepts)
    ensures stop.Some? ==>
              Stops(h.content[..h.position], c.limits.record, accepts, h.dry, c.records > c.limits.records, stop.value)
  {
    ghost var consumed := h.content[..h.position];
    var chunk := h.Read(allowance);
    if chunk == [] {
      assert h.content[..h.position] == consumed;
      RecordsOf(consumed);
      return Some(SourceChanged), pending, records;
    }
    assert h.content[..h.position] == consumed + chunk;
    var ok := c.Charge(|chunk|);
    assert ok;
    var taken, refused;
    taken, rest, refused := Deliver(pending + chunk, records, c, accepts);
    more := records + taken;
    ChunkTaken(consumed, chunk, c.limits.record, records, taken);
    RecordsOf(consumed + chunk);
    if refused.Some? {
      ChunkHalted(consumed, chunk, c.limits.record, accepts, records, taken, refused.value);
      return refused, rest, more;
    }
    ChunkFinished(consumed, chunk, c.limits.record, records, taken, rest);
    if |rest| > c.limits.record { return Some(RecordBytesLimit), rest, more; }
    stop := None;
  }

  /** The unterminated tail, if there is one, is the last record. */
  method ScanTail(pending: Bytes, records: seq<Record>, c: Collector, accepts: Judge, ghost content: Bytes)
    returns (stop: Option<Reason>, more: seq<Record>)
    requires Scanning(content, records, pending, c.limits.record, accepts)
    modifies c`records
    ensures more <= Records(content)
    ensures stop.None? ==> more == Records(content) && Approved(accepts, more)
    ensures stop.Some? ==>
              || (stop.value == RecordCountLimit && c.records > c.limits.records)
              || (stop.value == RecordRefused && !Approved(accepts, Records(content)))
  {
    RecordsOf(content);
    if pending == [] { return None, records; }
    var next := Record(pending, false, |records| + 1);
    var ok := c.CountRecord();
    if !ok { return Some(RecordCountLimit), records; }
    ApprovedSnoc(accepts, records, next);
    if !accepts(records + [next]) { return Some(RecordRefused), records; }
    return None, records + [next];
  }

  /** The chunks of an admitted extent, one read after another. */
  method ScanExtent(h: Handle, size: nat, c: Collector, accepts: Judge)
    returns (stop: Option<Reason>, pending: Bytes, records: seq<Record>)
    requires h.position == 0 && !h.dry && AdmitOk(size, c)
    modifies h, c
    ensures h.position <= size && h.position <= |h.content|
    ensures c.aggregate == old(c.aggregate) + h.position
    ensures records <= Records(h.content[..h.position])
    ensures stop.None? ==> h.position == size && Scanning(h.content[..size], records, pending, c.limits.record, accepts)
    ensures stop.None? ==> !h.dry
    ensures stop.Some? ==>
              Stops(h.content[..h.position], c.limits.record, accepts, h.dry, c.records > c.limits.records, stop.value)
  {
    var left;
    left, pending, records, stop := size, [], [], None;
    ghost var before := c.aggregate;
    ScanningNone(h.content[..0], records, pending, c.limits.record, accepts);
    while left > 0
      invariant 0 <= left <= size && h.position == size - left <= |h.content| && !h.dry
      invariant c.aggregate == before + h.position && stop.None?
      invariant Scanning(h.content[..h.position], records, pending, c.limits.record, accepts)
    {
      var start := h.position;
      stop, pending, records := ScanChunk(h, Min(READ_CHUNK, Min(left, c.limits.record + 2 - |pending|)), pending,
                                          records, c, accepts);
      if stop.Some? { return; }
      left := left - (h.position - start);
    }
    RecordsOf(h.content[..h.position]);
  }

  lemma ScanningNone(consumed: Bytes, records: seq<Record>, pending: Bytes, limit: nat, accepts: Judge)
    requires |consumed| == |records| == |pending| == 0
    ensures Scanning(consumed, records, pending, limit, accepts)
  {
  }

  /** Reads and splits the admitted extent. Whatever the reads return and whatever the handler accepts, it delivers the
      records of the whole extent in order, refuses on length exactly when some record is longer than the limit and for
      the handler exactly when it refuses one, charges what it read even when it refuses, and never overruns the
      aggregate budget once the extent is admitted. */
  method ScanSource(h: Handle, size: nat, stable: bool, c: Collector, accepts: Judge)
    returns (o: Outcome, records: seq<Record>)
    requires h.position == 0 && !h.dry
    modifies h, c
    ensures !old(AdmitOk(size, c)) ==>
              o == Failed(if size > c.limits.bytes then TranscriptBytesLimit else AggregateBytesLimit)
              && h.position == 0 && records == []
    ensures h.position <= size && h.position <= |h.content|
    ensures c.aggregate == old(c.aggregate) + h.position
    ensures old(AdmitOk(size, c)) ==> c.aggregate <= c.limits.aggregate && o != Failed(AggregateBytesLimit)
    ensures o.Scanned? ==>
              && h.position == size && stable
              && Fits(h.content[..size], c.limits.record)
              && records == Records(h.content[..size]) && Approved(accepts, records)
              && (o.torn <==> Tail(h.content[..size]) != [])
    ensures records <= Records(h.content[..h.position])
    ensures o == Failed(RecordBytesLimit) ==> !Fits(h.content[..h.position], c.limits.record)
    ensures o == Failed(RecordRefused) ==> !Approved(accepts, Records(h.content[..h.position]))
    ensures old(AdmitOk(size, c)) && o == Failed(SourceChanged) ==> h.dry || !stable
    ensures o == Failed(RecordCountLimit) ==> c.records > c.limits.records
    ensures old(AdmitOk(size, c)) && size <= |h.content| && !h.dry && stable && c.records <= c.limits.records ==>
              (o.Scanned? <==> Fits(h.content[..size], c.limits.record)
                               && Approved(accepts, Records(h.content[..size])))
  {
    var refusal := AdmitExtent(size, c);
    if refusal.Some? { return Failed(refusal.value), []; }
    var stop, pending;
    stop, pending, records := ScanExtent(h, size, c, accepts);
    if stop.Some? {
      LongerFails(h.content, h.position, size, c.limits.record);
      if stop == Some(RecordRefused) { LongerRefused(h.content, h.position, size, accepts); }
      return Failed(stop.value), records;
    }
    stop, records := ScanTail(pending, records, c, accepts, h.content[..size]);
    if stop.Some? { return Failed(stop.value), records; }
    if !stable { return Failed(SourceChanged), records; }
    return Scanned(pending != []), records;
  }

  /** Reads the same extent again; hash stands for the digest of the first reading, which identifies its bytes. */
  method RehashSource(h: Handle, hash: Sha<Bytes>, size: nat, stable: bool, c: Collector) returns (same: bool)
    requires h.position == 0
    modifies h, c`aggregate
    ensures same ==> old(AdmitOk(size, c)) && stable && size <= |h.content| && h.content[..size] == hash
    ensures old(AdmitOk(size, c)) && stable && size <= |h.content| && h.content[..size] == hash && !h.dry ==> same
    ensures h.position <= size && c.aggregate == old(c.aggregate) + h.position
    ensures old(AdmitOk(size, c)) ==> c.aggregate <= c.limits.aggregate
  {
    var refusal := AdmitExtent(size, c);
    if refusal.Some? { return false; }
    var left, hashed: Bytes := size, [];
    ghost var before := c.aggregate;
    while left > 0
      invariant 0 <= left <= size && h.position == size - left <= |h.content|
      invariant c.aggregate == before + h.position
      invariant hashed == h.content[..h.position]
      invariant h.dry ==> old(h.dry)
      invariant c.aggregate + left <= c.limits.aggregate
    {
      var chunk := h.Read(Min(READ_CHUNK, left));
      if chunk == [] { return false; }
      var ok := c.Charge(|chunk|);
      if !ok { return false; }
      left := left - |chunk|;
      hashed := hashed + chunk;
    }
    return stable && hashed == hash;
  }
}
