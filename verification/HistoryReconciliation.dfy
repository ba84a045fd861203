/** Proofs that stand in for history a receipt did not capture. Only an explicit audit makes one; when the evidence it
    binds changes it is invalidated on disk; once invalidated it never answers again. */
module HistoryReconciliation {
  import opened Values

  const CHAIN_LIMIT: nat := 1000

  datatype Lane = CompletedTurn | FailedTurn

  /** The evidence a proof binds. The two lanes record different facts, so their inputs never coincide. */
  datatype Inputs = Inputs(lane: Lane, evidence: int)

  datatype Proof = Proof(lane: Lane, receipt: int, text: int, inputs: Inputs, head: Option<Sha<Invalidation>>,
                         supersedes: Option<int>)

  datatype Invalidation = Invalidation(proof: Sha<Proof>, outcome: Option<int>, previous: Option<Sha<Invalidation>>,
                                       reason: string)

  /** One retained request, as saved or as an operation holds it in memory. */
  datatype Request = Request(receipt: int, text: int, outcome: Option<int>, proof: Option<Sha<Proof>>,
                             invalidation: Option<Sha<Invalidation>>)

  /** The readable record files and the saved request. */
  datatype World = World(saved: Request, proofs: set<Proof>, invalidations: set<Invalidation>)

  // ----- the invalidation chain -----

  function Chain(head: Option<Invalidation>): seq<Invalidation>
    decreases head
  {
    if head.None? then [] else [head.value] + Chain(head.value.previous)
  }

  predicate HeadOk(w: World, head: Option<Invalidation>) {
    && |Chain(head)| <= CHAIN_LIMIT
    && forall x :: x in Chain(head) ==> x in w.invalidations
  }

  /** Walks the chain; a cycle cannot occur, because each record's digest covers the one before it. */
  method InvalidationHead(w: World, head: Option<Invalidation>) returns (ok: bool)
    ensures ok <==> HeadOk(w, head)
  {
    var cursor, count := head, 0;
    ghost var walked: seq<Invalidation> := [];
    while cursor.Some?
      invariant count == |walked| <= CHAIN_LIMIT && Chain(head) == walked + Chain(cursor)
      invariant forall x :: x in walked ==> x in w.invalidations
      decreases cursor
    {
      if count >= CHAIN_LIMIT { return false; }
      if cursor.value !in w.invalidations {
        assert cursor.value in Chain(cursor);
        return false;
      }
      count := count + 1;
      walked := walked + [cursor.value];
      cursor := cursor.value.previous;
    }
    return true;
  }

  // ----- operations -----

  datatype Write = StoreInvalidation(record: Invalidation) | StoreProof(proof: Proof) | Save(request: Request)

  function Put(w: World, x: Write): World {
    match x
    case StoreInvalidation(v) => w.(invalidations := w.invalidations + {v})
    case StoreProof(p) => w.(proofs := w.proofs + {p})
    case Save(r) => w.(saved := r)
  }

  function PutAll(w: World, ws: seq<Write>): World
    decreases ws
  {
    if ws == [] then w else PutAll(Put(w, ws[0]), ws[1..])
  }

  /** The durable writes of an operation, the request as it then holds it, and what it answers: a refusal, no
      proof, or a proof. */
  datatype Step = Step(writes: seq<Write>, memory: Request, answer: Result<Option<Proof>>)

  /** Persists only this invalidation; a proof whose invalidation is already the readable head is left alone. */
  function Invalidate(w: World, memory: Request, reason: string): Step {
    if w.saved.proof.None? then Step([], memory, Success(None))
    else
      var previous := w.saved.invalidation;
      if previous.Some? && previous.value in w.invalidations && previous.value.proof == w.saved.proof.value then
        Step([], memory.(invalidation := previous), Success(None))
      else
        var record := Invalidation(w.saved.proof.value, w.saved.outcome, previous, reason);
        Step([StoreInvalidation(record), Save(w.saved.(invalidation := Some(record)))],
             memory.(invalidation := Some(record)), Success(None))
  }

  predicate Loads(w: World, memory: Request) {
    && (memory.proof.Some? ==>
          && memory.proof.value in w.proofs
          && memory.proof.value.receipt == memory.receipt && memory.proof.value.text == memory.text)
    && HeadOk(w, memory.invalidation)
  }

  /** The prior proof no longer holds for the evidence of this observation. */
  predicate Stale(memory: Request, lane: Lane, inputs: Option<Inputs>)
    requires memory.proof.Some?
  {
    var prior := memory.proof.value;
    || (lane == FailedTurn && prior.lane != FailedTurn)
    || inputs != Some(prior.inputs)
    || prior.head != memory.invalidation
  }

  /** The proof this observation authorizes, after any prior one was invalidated. */
  function Mint(after: Step, lane: Lane, inputs: Option<Inputs>, explicit: bool, settled: bool): Step {
    if !explicit || inputs.None? then after.(answer := Success(None))
    else if !settled then after.(answer := Refused)
    else
      var memory := after.memory;
      var proof := Proof(lane, memory.receipt, memory.text, inputs.value, memory.invalidation, memory.outcome);
      Step(after.writes + [StoreProof(proof)], memory.(proof := Some(proof)), Success(Some(proof)))
  }

  const CHANGED := "Complete-history reconciliation evidence changed or became unknown"

  /** One observation of a truncated receipt. inputs are the evidence that would authorize a proof, settled whether
      the delegates have settled. */
  function Reconcile(w: World, memory: Request, lane: Lane, inputs: Option<Inputs>, explicit: bool, settled: bool)
    : Step
  {
    if !Loads(w, memory) then Step([], memory, Refused)
    else if memory.proof.None? then Mint(Step([], memory, Success(None)), lane, inputs, explicit, settled)
    else if !Stale(memory, lane, inputs) then
      Step([], memory, if settled then Success(memory.proof) else Refused)
    else
      var dropped := Invalidate(w, memory, CHANGED);
      if !HeadOk(PutAll(w, dropped.writes), dropped.memory.invalidation) then dropped.(answer := Refused)
      else Mint(dropped, lane, inputs, explicit, settled)
  }

  // ----- runs -----

  datatype Call =
    | Observe(lane: Lane, inputs: Option<Inputs>, explicit: bool, settled: bool)
    | FailedOperation(reason: string)
    | Damage(proofs: set<Proof>, invalidations: set<Invalidation>)

  /** One locked operation: it holds the request with the outcome it observed, performs its writes as far as the
      machine gets, and may save what it holds at the end. */
  datatype Event = Event(call: Call, outcome: Option<int>, saves: bool, cut: nat)

  function StepOf(w: World, event: Event): Step {
    var memory := w.saved.(outcome := event.outcome);
    match event.call
    case Observe(lane, inputs, explicit, settled) => Reconcile(w, memory, lane, inputs, explicit, settled)
    case FailedOperation(reason) => Invalidate(w, memory, reason)
    case Damage(_, _) => Step([], memory, Success(None))
  }

  function Durable(w: World, event: Event): seq<Write> {
    var step := StepOf(w, event);
    var writes := step.writes + if event.saves then [Save(step.memory)] else [];
    writes[..Min(event.cut, |writes|)]
  }

  function Next(w: World, event: Event): World {
    if event.call.Damage? then
      w.(proofs := w.proofs - event.call.proofs, invalidations := w.invalidations - event.call.invalidations)
    else PutAll(w, Durable(w, event))
  }

  function Run(w: World, events: seq<Event>): World
    decreases events
  {
    if events == [] then w else Run(Next(w, events[0]), events[1..])
  }

  // ----- an invalidated proof is older than every head above it -----

  function Depth(head: Option<Invalidation>): nat
    decreases head
  {
    if head.None? then 0 else 1 + ProofDepth(head.value.proof) + Depth(head.value.previous)
  }

  function ProofDepth(p: Proof): nat
    decreases p
  {
    1 + Depth(p.head)
  }

  predicate Invalidated(head: Option<Invalidation>, p: Proof) {
    exists x :: x in Chain(head) && x.proof == p
  }

  lemma {:induction false} ChainDepth(head: Option<Invalidation>, x: Invalidation)
    requires x in Chain(head)
    ensures Depth(head) >= 1 + ProofDepth(x.proof)
    decreases head
  {
    if x != head.value { ChainDepth(head.value.previous, x); }
  }

  /** A proof that an invalidation of the chain names was minted under an older head. */
  lemma InvalidatedHead(head: Option<Invalidation>, p: Proof)
    requires Invalidated(head, p)
    ensures p.head != head
  {
    var x :| x in Chain(head) && x.proof == p;
    ChainDepth(head, x);
  }

  // ----- heads only grow -----

  predicate Extends(now: Option<Invalidation>, before: Option<Invalidation>) {
    forall x :: x in Chain(before) ==> x in Chain(now)
  }

  lemma ExtendsInvalidated(now: Option<Invalidation>, before: Option<Invalidation>, p: Proof)
    requires Extends(now, before) && Invalidated(before, p)
    ensures Invalidated(now, p)
  {
  }

  /** An invalidation leaves the saved proof invalidated, in what the operation holds and in its last write. */
  lemma InvalidateDrops(w: World, memory: Request, reason: string)
    requires memory.proof == w.saved.proof && memory.invalidation == w.saved.invalidation
    ensures var step := Invalidate(w, memory, reason);
      && Extends(step.memory.invalidation, w.saved.invalidation)
      && step.memory == memory.(invalidation := step.memory.invalidation)
      && (w.saved.proof.Some? ==> Invalidated(step.memory.invalidation, w.saved.proof.value))
      && |step.writes| <= 2
      && (step.writes != [] ==> step.writes[1] == Save(w.saved.(invalidation := step.memory.invalidation)))
      && (step.writes == [] ==> step.memory.invalidation == w.saved.invalidation)
  {
    var step := Invalidate(w, memory, reason);
    if w.saved.proof.Some? { assert step.memory.invalidation.value in Chain(step.memory.invalidation); }
  }

  // ----- one operation -----

  predicate Holds(w: World, memory: Request) {
    memory.proof == w.saved.proof && memory.invalidation == w.saved.invalidation
  }

  /** Whatever an observation answers, it never answers a proof that was already invalidated. */
  lemma AnswerNotInvalidated(w: World, memory: Request, lane: Lane, inputs: Option<Inputs>, explicit: bool,
                             settled: bool, p: Proof)
    requires Holds(w, memory) && Invalidated(w.saved.invalidation, p)
    ensures Reconcile(w, memory, lane, inputs, explicit, settled).answer != Success(Some(p))
  {
    InvalidateDrops(w, memory, CHANGED);
    InvalidatedHead(w.saved.invalidation, p);
    var dropped := Invalidate(w, memory, CHANGED);
    ExtendsInvalidated(dropped.memory.invalidation, w.saved.invalidation, p);
    InvalidatedHead(dropped.memory.invalidation, p);
  }

  /** A new proof needs the explicit audit and binds the inputs it was given and the newest invalidation. */
  lemma MintedOnlyByAudit(w: World, memory: Request, lane: Lane, inputs: Option<Inputs>, explicit: bool,
                          settled: bool, p: Proof)
    requires Holds(w, memory)
    requires Reconcile(w, memory, lane, inputs, explicit, settled).answer == Success(Some(p))
    ensures w.saved.proof == Some(p) || explicit
    ensures w.saved.proof == Some(p) ==> inputs == Some(p.inputs) && p.head == w.saved.invalidation
    ensures w.saved.proof != Some(p) ==>
      && inputs == Some(p.inputs) && p.receipt == memory.receipt && p.text == memory.text
      && p.head == Reconcile(w, memory, lane, inputs, explicit, settled).memory.invalidation
      && (w.saved.proof.Some? ==> Invalidated(p.head, w.saved.proof.value))
  {
    InvalidateDrops(w, memory, CHANGED);
    if w.saved.proof == Some(p) && Loads(w, memory) && Stale(memory, lane, inputs) {
      InvalidatedHead(Invalidate(w, memory, CHANGED).memory.invalidation, p);
    }
  }

  // ----- whole runs -----

  /** Every proof the saved request ever carried is the current one or was invalidated. */
  ghost predicate Carried(w: World, carried: set<Proof>) {
    && (w.saved.proof.Some? ==> w.saved.proof.value in carried)
    && forall p :: p in carried ==> w.saved.proof == Some(p) || Invalidated(w.saved.invalidation, p)
  }

  function WithCurrent(carried: set<Proof>, r: Request): set<Proof> {
    carried + if r.proof.Some? then {r.proof.value} else {}
  }

  /** What any prefix of an operation's writes leaves saved. */
  predicate Follows(before: Request, now: Request) {
    && Extends(now.invalidation, before.invalidation)
    && (now.proof == before.proof
        || (now.proof.Some? && now.proof.value.head == now.invalidation
            && (before.proof.Some? ==> Invalidated(now.invalidation, before.proof.value))))
  }

  lemma MemoryFollows(w: World, event: Event)
    ensures Follows(w.saved, StepOf(w, event).memory)
  {
    var memory := w.saved.(outcome := event.outcome);
    match event.call
    case Observe(lane, inputs, explicit, settled) => InvalidateDrops(w, memory, CHANGED);
    case FailedOperation(reason) => InvalidateDrops(w, memory, reason);
    case Damage(_, _) =>
  }

  /** The writes of an operation save nothing but the invalidation, before the request it holds at the end. */
  lemma StepWrites(w: World, event: Event)
    ensures forall k :: 0 <= k < |StepOf(w, event).writes| && StepOf(w, event).writes[k].Save? ==>
              && StepOf(w, event).writes[k].request
                 == w.saved.(invalidation := StepOf(w, event).writes[k].request.invalidation)
              && Extends(StepOf(w, event).writes[k].request.invalidation, w.saved.invalidation)
  {
    var memory := w.saved.(outcome := event.outcome);
    match event.call
    case Observe(lane, inputs, explicit, settled) => InvalidateDrops(w, memory, CHANGED);
    case FailedOperation(reason) => InvalidateDrops(w, memory, reason);
    case Damage(_, _) =>
  }

  lemma {:induction false} SavedBy(w: World, ws: seq<Write>, before: Request)
    requires Follows(before, w.saved)
    requires forall k :: 0 <= k < |ws| && ws[k].Save? ==> Follows(before, ws[k].request)
    ensures Follows(before, PutAll(w, ws).saved)
    decreases |ws|
  {
    if ws != [] { SavedBy(Put(w, ws[0]), ws[1..], before); }
  }

  lemma NextFollows(w: World, event: Event)
    ensures Follows(w.saved, Next(w, event).saved)
  {
    if !event.call.Damage? {
      var step := StepOf(w, event);
      MemoryFollows(w, event);
      StepWrites(w, event);
      SavedBy(w, Durable(w, event), w.saved);
    }
  }

  lemma CarriedOn(w: World, now: World, carried: set<Proof>)
    requires Carried(w, carried) && Follows(w.saved, now.saved)
    ensures Carried(now, WithCurrent(carried, now.saved))
    ensures now.saved.proof != w.saved.proof ==> now.saved.proof.value !in carried
  {
    forall p | p in carried ensures now.saved.proof == Some(p) || Invalidated(now.saved.invalidation, p) {
      if Invalidated(w.saved.invalidation, p) {
        ExtendsInvalidated(now.saved.invalidation, w.saved.invalidation, p);
      }
    }
    if now.saved.proof != w.saved.proof && now.saved.proof.value in carried {
      var p := now.saved.proof.value;
      if w.saved.proof != Some(p) { ExtendsInvalidated(now.saved.invalidation, w.saved.invalidation, p); }
      InvalidatedHead(now.saved.invalidation, p);
    }
  }

  lemma {:induction false} RunExtends(w: World, events: seq<Event>)
    ensures Extends(Run(w, events).saved.invalidation, w.saved.invalidation)
    decreases events
  {
    if events != [] {
      NextFollows(w, events[0]);
      RunExtends(Next(w, events[0]), events[1..]);
    }
  }

  /** Proofs never revive: once the saved chain invalidated a proof, no later observation after any run of
      observations, failed operations, damage and crashes answers it. */
  lemma NeverRevives(w: World, events: seq<Event>, later: Event, p: Proof)
    requires Invalidated(w.saved.invalidation, p) && later.call.Observe?
    ensures StepOf(Run(w, events), later).answer != Success(Some(p))
  {
    var now := Run(w, events);
    RunExtends(w, events);
    ExtendsInvalidated(now.saved.invalidation, w.saved.invalidation, p);
    AnswerNotInvalidated(now, now.saved.(outcome := later.outcome), later.call.lane, later.call.inputs,
                         later.call.explicit, later.call.settled, p);
  }

  /** The proofs the saved request carries over a run. */
  function CarriedOver(w: World, events: seq<Event>, carried: set<Proof>): set<Proof>
    decreases events
  {
    if events == [] then carried
    else CarriedOver(Next(w, events[0]), events[1..], WithCurrent(carried, Next(w, events[0]).saved))
  }

  lemma {:induction false} RunCarries(w: World, events: seq<Event>, carried: set<Proof>)
    requires Carried(w, carried)
    ensures Carried(Run(w, events), CarriedOver(w, events, carried))
    decreases events
  {
    if events != [] {
      NextFollows(w, events[0]);
      CarriedOn(w, Next(w, events[0]), carried);
      RunCarries(Next(w, events[0]), events[1..], WithCurrent(carried, Next(w, events[0]).saved));
    }
  }

  /** A replacement differs from every proof the request ever carried. */
  lemma ReplacementIsNew(w: World, events: seq<Event>, carried: set<Proof>, later: Event)
    requires Carried(w, carried)
    ensures var now := Run(w, events);
      Next(now, later).saved.proof != now.saved.proof ==>
        Next(now, later).saved.proof.Some? && Next(now, later).saved.proof.value !in CarriedOver(w, events, carried)
  {
    RunCarries(w, events, carried);
    NextFollows(Run(w, events), later);
    CarriedOn(Run(w, events), Next(Run(w, events), later), CarriedOver(w, events, carried));
  }

  lemma PutUpToTwo(w: World, ws: seq<Write>)
    ensures |ws| == 1 ==> PutAll(w, ws) == Put(w, ws[0])
    ensures |ws| == 2 ==> PutAll(w, ws) == Put(Put(w, ws[0]), ws[1])
    decreases |ws|
  {
    if |ws| == 2 {
      var rest := ws[1..];
      assert rest[0] == ws[1];
      PutUpToTwo(Put(w, ws[0]), rest);
    }
  }

  /** A failed operation that saves nothing of its own persists the invalidation and nothing else. */
  lemma InvalidationSavesOnlyItself(w: World, event: Event)
    requires event.call.FailedOperation? && !event.saves
    ensures Next(w, event).saved == w.saved.(invalidation := Next(w, event).saved.invalidation)
    ensures event.cut >= 2 && w.saved.proof.Some? ==>
              Invalidated(Next(w, event).saved.invalidation, w.saved.proof.value)
  {
    var memory := w.saved.(outcome := event.outcome);
    InvalidateDrops(w, memory, event.call.reason);
    var ws := Durable(w, event);
    var writes := Invalidate(w, memory, event.call.reason).writes;
    assert writes + [] == writes;
    PutUpToTwo(w, ws);
  }

  // ----- exactly what an observation answers -----

  /** The chain from this head is short enough and every record of it is on disk. */
  predicate Readable(w: World, head: Option<Invalidation>) {
    |Chain(head)| <= 1000 && forall x :: x in Chain(head) ==> x in w.invalidations
  }

  /** The carried proof is on disk, is about this receipt and text, and the chain above it is readable. */
  predicate Holding(w: World, memory: Request) {
    && Readable(w, memory.invalidation)
    && (memory.proof.Some? ==>
          && memory.proof.value in w.proofs && memory.proof.value.receipt == memory.receipt
          && memory.proof.value.text == memory.text)
  }

  /** The carried proof is about exactly this evidence, no invalidation came after it, and a failed turn was not proved as
      a completed one. */
  predicate StillValid(memory: Request, lane: Lane, inputs: Option<Inputs>) {
    && memory.proof.Some? && inputs == Some(memory.proof.value.inputs) && memory.proof.value.head == memory.invalidation
    && !(lane == FailedTurn && memory.proof.value.lane == CompletedTurn)
  }

  /** The head once the carried proof, if any, is invalidated: the saved head if it is readable and names the proof, and
      otherwise a new record on top of it. */
  function HeadWithout(w: World, memory: Request): Option<Invalidation> {
    if memory.proof.None? then memory.invalidation
    else if memory.invalidation.Some? && memory.invalidation.value in w.invalidations
            && memory.invalidation.value.proof == memory.proof.value
    then memory.invalidation
    else Some(Invalidation(memory.proof.value, w.saved.outcome, memory.invalidation, CHANGED))
  }

  lemma HeadWithoutIff(w: World, memory: Request)
    requires Holds(w, memory) && Readable(w, memory.invalidation) && memory.proof.Some?
    ensures var dropped := Invalidate(w, memory, CHANGED);
            && dropped.memory == memory.(invalidation := HeadWithout(w, memory))
            && (HeadOk(PutAll(w, dropped.writes), dropped.memory.invalidation)
                <==> |Chain(HeadWithout(w, memory))| <= 1000)
            && dropped.writes
               == if HeadWithout(w, memory) == memory.invalidation then []
                  else [StoreInvalidation(HeadWithout(w, memory).value),
                        Save(w.saved.(invalidation := HeadWithout(w, memory)))]
  {
    var dropped := Invalidate(w, memory, CHANGED);
    PutUpToTwo(w, dropped.writes);
    assert Chain(HeadWithout(w, memory)) == if HeadWithout(w, memory) == memory.invalidation
                                            then Chain(memory.invalidation)
                                            else [HeadWithout(w, memory).value] + Chain(memory.invalidation);
  }

  /** A proof is answered exactly where everything is settled and readable and it is either the carried one, still valid,
      or a new one of an explicit audit over known evidence, put on top of the invalidation of a carried one that is not
      valid any more. */
  lemma AnswerIff(w: World, memory: Request, lane: Lane, inputs: Option<Inputs>, explicit: bool, settled: bool, p: Proof)
    requires Holds(w, memory)
    ensures var answer := Reconcile(w, memory, lane, inputs, explicit, settled).answer;
            answer == Success(Some(p))
            <==> && settled && Holding(w, memory)
                 && if StillValid(memory, lane, inputs) then memory.proof == Some(p)
                    else && explicit && inputs.Some? && |Chain(HeadWithout(w, memory))| <= 1000
                         && p == Proof(lane, memory.receipt, memory.text, inputs.value, HeadWithout(w, memory),
                                       memory.outcome)
  {
    if Holding(w, memory) && memory.proof.Some? { HeadWithoutIff(w, memory); }
    hide HeadWithout, Invalidate, PutAll;
    assert memory.proof.None? ==> HeadWithout(w, memory) == memory.invalidation by { NoProofHead(w, memory); }
  }

  lemma NoProofHead(w: World, memory: Request)
    ensures memory.proof.None? ==> HeadWithout(w, memory) == memory.invalidation
  {
  }

  /** No proof is answered, and nothing refused, exactly where there is none, or none valid any more, and no explicit audit
      over known evidence asks for a new one; a carried one is invalidated on disk then. */
  lemma NoProofIff(w: World, memory: Request, lane: Lane, inputs: Option<Inputs>, explicit: bool, settled: bool)
    requires Holds(w, memory)
    ensures var step := Reconcile(w, memory, lane, inputs, explicit, settled);
            && (step.answer == Success(None)
                <==> && Holding(w, memory) && !StillValid(memory, lane, inputs) && !(explicit && inputs.Some?)
                     && |Chain(HeadWithout(w, memory))| <= 1000)
            && (Holding(w, memory) && !StillValid(memory, lane, inputs) && memory.proof.Some? ==>
                  (HeadWithout(w, memory) != memory.invalidation ==>
                     [StoreInvalidation(HeadWithout(w, memory).value),
                      Save(w.saved.(invalidation := HeadWithout(w, memory)))] <= step.writes))
  {
    if Holding(w, memory) && memory.proof.Some? { HeadWithoutIff(w, memory); }
    hide HeadWithout, Invalidate, PutAll;
    NoProofHead(w, memory);
  }

  /** A proof that was answered and saved is answered again by the next settled observation of the same evidence, explicit
      or not. */
  lemma AnswersAgain(w: World, event: Event, p: Proof, outcome: Option<int>, explicit: bool)
    requires event.call.Observe? && event.saves && event.cut >= 4
    requires StepOf(w, event).answer == Success(Some(p))
    ensures var again := Observe(event.call.lane, event.call.inputs, explicit, true);
            StepOf(Next(w, event), Event(again, outcome, true, 4)).answer == Success(Some(p))
  {
    var memory := w.saved.(outcome := event.outcome);
    var step := StepOf(w, event);
    AnswerIff(w, memory, event.call.lane, event.call.inputs, event.call.explicit, event.call.settled, p);
    SavedAnswer(w, memory, event, p);
    var now := Next(w, event);
    AnswerIff(now, now.saved.(outcome := outcome), event.call.lane, event.call.inputs, explicit, true, p);
  }

  /** What an answering observation leaves behind. */
  lemma SavedAnswer(w: World, memory: Request, event: Event, p: Proof)
    requires event.call.Observe? && event.saves && event.cut >= 4 && memory == w.saved.(outcome := event.outcome)
    requires StepOf(w, event).answer == Success(Some(p))
    ensures var now := Next(w, event);
            && now.saved.proof == Some(p) && now.saved.receipt == memory.receipt && now.saved.text == memory.text
            && p in now.proofs && now.saved.invalidation == p.head && Readable(now, p.head)
            && p.receipt == memory.receipt && p.text == memory.text && event.call.inputs == Some(p.inputs)
            && !(event.call.lane == FailedTurn && p.lane == CompletedTurn)
  {
    var step := StepOf(w, event);
    AnswerIff(w, memory, event.call.lane, event.call.inputs, event.call.explicit, event.call.settled, p);
    if memory.proof.Some? { HeadWithoutIff(w, memory); }
    var writes := step.writes + [Save(step.memory)];
    assert |writes| <= 4 && Durable(w, event) == writes;
    PutConcat(w, step.writes, Save(step.memory));
    AnswerWrites(w, memory, event, p);
  }

  lemma AnswerWrites(w: World, memory: Request, event: Event, p: Proof)
    requires event.call.Observe? && memory == w.saved.(outcome := event.outcome) && Holding(w, memory)
    requires StepOf(w, event).answer == Success(Some(p))
    ensures var step := StepOf(w, event);
            && step.memory.proof == Some(p) && step.memory.invalidation == p.head
            && step.memory.receipt == memory.receipt && step.memory.text == memory.text
            && p in PutAll(w, step.writes).proofs && Readable(PutAll(w, step.writes), p.head)
  {
    var call := event.call;
    AnswerIff(w, memory, call.lane, call.inputs, call.explicit, call.settled, p);
    PutUpToTwo(w, []);
    if StillValid(memory, call.lane, call.inputs) {
    } else if memory.proof.None? {
      PutConcat(w, [], StoreProof(p));
    } else {
      HeadWithoutIff(w, memory);
      var dropped := Invalidate(w, memory, CHANGED);
      PutConcat(w, dropped.writes, StoreProof(p));
      PutUpToTwo(w, dropped.writes);
    }
  }

  // ----- the lane as the calls work on it -----

  /** The record files and the saved request. A call holds its own copy of the request and answers from it. */
  class ProofLane {
    var saved: Request
    var proofs: set<Proof>
    var invalidations: set<Invalidation>

    constructor (w: World)
      ensures Contents() == w
    {
      saved, proofs, invalidations := w.saved, w.proofs, w.invalidations;
    }

    function Contents(): World
      reads this
    {
      World(saved, proofs, invalidations)
    }

    /** Persists the invalidation before the caller hears of it. */
    method Drop(memory: Request, reason: string) returns (held: Request)
      modifies this
      ensures var step := Invalidate(old(Contents()), memory, reason);
              Contents() == PutAll(old(Contents()), step.writes) && held == step.memory
    {
      ghost var w, step := Contents(), Invalidate(Contents(), memory, reason);
      held := memory;
      if saved.proof.None? { return; }
      var previous := saved.invalidation;
      if previous.Some? && previous.value in invalidations && previous.value.proof == saved.proof.value {
        held := held.(invalidation := previous);
        return;
      }
      var record := Invalidation(saved.proof.value, saved.outcome, previous, reason);
      PutUpToTwo(w, step.writes);
      invalidations := invalidations + {record};
      saved := saved.(invalidation := Some(record));
      held := held.(invalidation := Some(record));
    }

    method Load(memory: Request) returns (ok: bool)
      ensures ok <==> Loads(Contents(), memory)
    {
      if memory.proof.Some? {
        var proof := memory.proof.value;
        if proof !in proofs || proof.receipt != memory.receipt || proof.text != memory.text { return false; }
      }
      ok := InvalidationHead(Contents(), memory.invalidation);
    }

    /** Answers the carried proof, a new one, or none after storing its invalidation. */
    method ReconcileRequest(memory: Request, lane: Lane, inputs: Option<Inputs>, explicit: bool, settled: bool)
      returns (answer: Result<Option<Proof>>, held: Request)
      modifies this
      ensures var step := Reconcile(old(Contents()), memory, lane, inputs, explicit, settled);
              && Contents() == PutAll(old(Contents()), step.writes)
              && held == step.memory && answer == step.answer
    {
      ghost var w := Contents();
      var loaded := Load(memory);
      if !loaded { return Refused, memory; }
      held := memory;
      ghost var before: seq<Write> := [];
      if memory.proof.Some? {
        if !Stale(memory, lane, inputs) { return if settled then Success(memory.proof) else Refused, held; }
        before := Invalidate(w, memory, CHANGED).writes;
        held := Drop(memory, CHANGED);
        var readable := InvalidationHead(Contents(), held.invalidation);
        if !readable { return Refused, held; }
      }
      if !explicit || inputs.None? { return Success(None), held; }
      if !settled { return Refused, held; }
      var proof := Proof(lane, held.receipt, held.text, inputs.value, held.invalidation, held.outcome);
      PutConcat(w, before, StoreProof(proof));
      proofs := proofs + {proof};
      held := held.(proof := Some(proof));
      answer := Success(Some(proof));
    }
  }

  lemma {:induction false} PutConcat(w: World, ws: seq<Write>, x: Write)
    ensures PutAll(w, ws + [x]) == Put(PutAll(w, ws), x)
    decreases |ws|
  {
    if ws == [] {
      assert [] + [x] == [x];
      PutUpToTwo(w, [x]);
    } else {
      assert (ws + [x])[1..] == ws[1..] + [x];
      PutConcat(Put(w, ws[0]), ws[1..], x);
    }
  }
}
