/** New rooms in which transitions between any two admissible targets send their PATCH and commit, so the cases the run
    theorems are about are reached. */
module PatchWitness {
  import opened Values
  import opened EngineeringModel
  import opened EngineeringTransition
  import opened RoomRuns
  import opened TransitionSafety
  import opened TransitionProtocol
  import opened RoomTheorems
  import opened AttemptProgress
  import opened FreshTransition

  const ENGINEER := Binding("session", "conversation", "branch")

  function ExactPin(model: string): Pin { Pin(Exact(model), None, None) }

  function NewRoom(source: Pin, policy: Option<PolicyPointer>): Disk {
    Disk(Files(map[], map[], map[]), map[], {}, Room(None, [], Some(ENGINEER), source, [], policy, 0), multiset{})
  }

  function Idle(source: Pin, native: string): Probe {
    Probe(Observed(Settings(source.selector.Configured(), EFFORT, "", 0), "ready", "", "",
                   Owner(ENGINEER, native, "idle", "one")),
          "", "", None, 0)
  }

  /** A request for the target over what the idle room shows. */
  function RequestFor(room: Room, id: Id, source: Pin, target: Pin, native: string): Inputs {
    Inputs(id, source.selector.Configured(), target.selector.Configured(),
           InspectedEvidence(room, ENGINEER, target, Idle(source, native)), "", "", "", "", native + ".jsonl", "", "")
  }

  /** An environment in which the room stays idle until the PATCH, shows the target after it and would still be idle
      for an abandonment. */
  function Calm(source: Pin, target: Pin, native: string): Env {
    var idle := Idle(source, native);
    var shown := Shown(idle.observed, target);
    Env(true, Some(target), Some(idle), Some(idle), NO_PATCH, Some(shown), Some(idle.(observed := shown)), Some(idle), 0)
  }

  /** The target is well spelled, qualified if it is a family, and another model unless it resets its own family. */
  predicate Possible(source: Pin, target: Pin) {
    && PinOk(source) && SelectorOk(source.selector) && PinAdmitted(target)
    && (target.selector.Configured() == source.selector.Configured() ==>
          target.selector == source.selector && source.selector.Family?)
  }

  /** A settled room of this pin's selector that has bound its engineer and retains no request. */
  predicate Waiting(d: Disk, source: Pin) {
    && Good(d) && JournalOk(d, false) && !IsPending(d.room.pointer)
    && d.room.engineer == Some(ENGINEER) && d.room.requests == [] && d.room.resolutions == []
    && LastEpoch(BaseHistory(d.room)).selector == source.selector
  }

  lemma NewRoomWaits(source: Pin, policy: Option<PolicyPointer>)
    requires PinOk(source) && SelectorOk(source.selector)
    ensures Waiting(NewRoom(source, policy), source)
  {
    NewRoomInv(NewRoom(source, policy));
    SoundIsGood(NewRoom(source, policy));
  }

  lemma WaitingEpochs(d: Disk, source: Pin)
    requires Waiting(d, source)
    ensures EpochsOf(d.room) == BaseHistory(d.room) && AuditedRoom(d.room) == d.room
    ensures PendingResolution(d).None? && Distinct(RequestIds(d.room.requests))
  {
  }

  lemma WaitingAudited(d: Disk, id: Id, source: Pin, target: Pin, native: string)
    requires Possible(source, target) && Waiting(d, source)
    ensures Audited(d, RequestFor(d.room, id, source, target, native), Calm(source, target, native))
  {
    hide Good, JournalOk, BaseHistory, EpochsOf, PendingResolution, ExactId;
    WaitingEpochs(d, source);
  }

  lemma WaitingIntent(d: Disk, id: Id, source: Pin, target: Pin, native: string)
    requires Possible(source, target) && Waiting(d, source)
    ensures IntentOk(Some(ENGINEER), id,
                     IntentOf(d, RequestFor(d.room, id, source, target, native), Calm(source, target, native)))
  {
    hide Good, JournalOk, BaseHistory, EpochsOf, PendingResolution, ExactId;
    WaitingEpochs(d, source);
  }

  /** In a waiting room every possible transition under a new id is ready, and the calm environment lets it commit or be
      given up. */
  lemma WaitingReady(d: Disk, id: Id, source: Pin, target: Pin, native: string)
    requires Possible(source, target) && Waiting(d, source) && id !in d.files.requests
    ensures Ready(d, RequestFor(d.room, id, source, target, native), Calm(source, target, native))
    ensures Shows(Calm(source, target, native))
  {
    hide Good, JournalOk, BaseHistory, Audited, IntentOk;
    WaitingAudited(d, id, source, target, native);
    WaitingIntent(d, id, source, target, native);
  }

  lemma NewRoomFresh(source: Pin, target: Pin, native: string, policy: Option<PolicyPointer>)
    requires Possible(source, target)
    ensures var d := NewRoom(source, policy);
            && Fresh(d, RequestFor(d.room, "transition", source, target, native),
                     Calm(source, target, native))
            && Shows(Calm(source, target, native))
  {
    NewRoomWaits(source, policy);
    hide Waiting, Ready, Shows;
    WaitingReady(NewRoom(source, policy), "transition", source, target, native);
  }

  /** In a new room every possible transition to another model sends its PATCH. */
  lemma NewRoomSends(source: Pin, target: Pin, native: string)
    requires Possible(source, target)
    requires target.selector.Configured() != source.selector.Configured()
    ensures var d := NewRoom(source, None);
            var call := Transition(RequestFor(d.room, "transition", source, target, native), None,
                                   Calm(source, target, native));
            Run(d, [Event(call, 4)]).patched["transition"] == 1
  {
    var d := NewRoom(source, None);
    hide Fresh, Run;
    NewRoomFresh(source, target, native, None);
    NewRoomSource(source, target, native, None);
    FreshSendsOnce(d, RequestFor(d.room, "transition", source, target, native),
                   Calm(source, target, native));
  }

  lemma NewRoomSource(source: Pin, target: Pin, native: string, policy: Option<PolicyPointer>)
    requires Possible(source, target)
    ensures var d := NewRoom(source, policy);
            var x := IntentOf(d, RequestFor(d.room, "transition", source, target, native),
                              Calm(source, target, native));
            Reset(x) <==> target.selector.Configured() == source.selector.Configured()
  {
    NewRoomWaits(source, policy);
    WaitingEpochs(NewRoom(source, policy), source);
  }

  /** And carried through every possible transition commits: a second epoch of the target is opened. */
  lemma NewRoomCommits(source: Pin, target: Pin, native: string, policy: Option<PolicyPointer>,
                       precondition: Option<bool>)
    requires Possible(source, target) && (precondition.None? || precondition.value)
    ensures var d := NewRoom(source, policy);
            var inputs := RequestFor(d.room, "transition", source, target, native);
            var after := Run(d, [CommitEvent(inputs, precondition, Calm(source, target, native))]);
            |BaseHistory(after.room)| == 2 && LastEpoch(BaseHistory(after.room)).selector == target.selector
  {
    var d := NewRoom(source, policy);
    hide Fresh, Run, CommitEvent, Shows;
    NewRoomFresh(source, target, native, policy);
    FreshCommits(d, RequestFor(d.room, "transition", source, target, native), precondition,
                 Calm(source, target, native));
  }

  lemma OpusSpelled(tail: string)
    requires VersionTail(tail)
    ensures ExactId(MODEL_PREFIX + ("opus" + tail))
  {
    var rest := "opus" + tail;
    assert (MODEL_PREFIX + rest)[|MODEL_PREFIX|..] == rest;
    assert rest[1..] == "pus" + tail && ("pus" + tail)[1..] == "us" + tail;
    assert ("us" + tail)[1..] == "s" + tail && ("s" + tail)[1..] == tail;
    assert LowerRun(tail) == 0 && LowerRun("s" + tail) == 1 && LowerRun("us" + tail) == 2;
    assert LowerRun("pus" + tail) == 3 && LowerRun(rest) == 4;
    assert rest[4..] == tail;
  }

  /** There are such models, so all of this happens. */
  lemma OpusIsPossible()
    ensures Possible(ExactPin(MODEL_PREFIX + ("opus" + "-4")), ExactPin(MODEL_PREFIX + ("opus" + "-5")))
    ensures MODEL_PREFIX + ("opus" + "-4") != MODEL_PREFIX + ("opus" + "-5")
  {
    assert VersionTail("-4") && VersionTail("-5");
    OpusSpelled("-4");
    OpusSpelled("-5");
    var four, five := MODEL_PREFIX + ("opus" + "-4"), MODEL_PREFIX + ("opus" + "-5");
    assert four[|four| - 1] == '4' && five[|five| - 1] == '5';
  }
}
