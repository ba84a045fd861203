/** The policy cases the run theorems speak about do occur: a log stopped half recorded, and a run that follows. */
module PolicyWitness {
  import opened Values
  import opened EngineeringModel
  import opened EngineeringTransition
  import opened RoomRuns
  import opened TransitionSafety
  import opened TransitionProtocol
  import opened EngineeringPolicy
  import opened PolicyRuns
  import opened FreshTransition
  import opened PatchWitness

  // ----- a half-recorded log -----

  function FirstSet(family: string, cut: nat): PolicyEvent { Recording(true, None, {family}, "a", 0, cut) }

  /** In a new room of an exact member of the family the first set is accepted; stopped after its record it leaves the
      log half recorded, and only then. */
  lemma FirstSetHalves(source: string, family: string, cut: nat)
    requires SelectorOk(Exact(source)) && FamilyMember(family, source)
    ensures var s := Lane(NewRoom(ExactPin(source), None), []);
            InOrder(s) && (Halved(s, [FirstSet(family, cut)]) <==> cut == 1)
            && (Half(Steps(s, [FirstSet(family, cut)])) <==> cut == 1)
  {
    var s, e := Lane(NewRoom(ExactPin(source), None), []), FirstSet(family, cut);
    NewRoomWaits(ExactPin(source), None);
    WaitingEpochs(s.d, ExactPin(source));
    FamilyOfIff({family}, source, family);
    assert Next(s, e).Success?;
    assert [e][1..] == [] && !Halved(Step(s, e), []);
    LogInOrderIff(s, [e]);
  }

  // ----- a run that follows -----

  const FOUR := MODEL_PREFIX + ("opus" + "-4")
  const FIVE := MODEL_PREFIX + ("opus" + "-5")

  lemma Versions()
    ensures FamilyMember("opus", FOUR) && FamilyMember("opus", FIVE)
    ensures VersionTuple("opus", FOUR) == [4] && VersionTuple("opus", FIVE) == [5]
  {
    assert MODEL_PREFIX + "opus" <= FOUR && MODEL_PREFIX + "opus" <= FIVE;
    assert FOUR[|MODEL_PREFIX| + |"opus"|..] == "-4" && FIVE[|MODEL_PREFIX| + |"opus"|..] == "-5";
    assert "-4"[2..] == "" && "-5"[2..] == "";
    assert VersionTail("-4") && VersionTail("-5");
  }

  /** The first window over a new room whose policy follows the family. */
  function FirstChoice(record: PolicyRecord): Result<Choice> {
    Choose(NewRoom(ExactPin(FOUR), Some(PointerFor(record))), [record], "next", Lookup(Some(FIVE), false, Some(("", ""))))
  }

  lemma FirstFollows(record: PolicyRecord)
    requires record.active && record.family == "opus" && record.previous.None?
    ensures FirstChoice(record) == Success(Follow(FOUR, FIVE, record))
    ensures PolicyUnchanged(NewRoom(ExactPin(FOUR), Some(PointerFor(record))).room, FirstChoice(record).value)
  {
    Versions();
    FirstJournal(Some(PointerFor(record)));
    hide JournalOk, EpochsOf, FamilyMember, VersionTuple, ExactPin, FOUR, FIVE;
    FirstLog(record);
  }

  lemma FirstLog(record: PolicyRecord)
    requires record.previous.None?
    ensures LogOk([record], Some(PointerFor(record)))
  {
  }

  lemma FirstJournal(policy: Option<PolicyPointer>)
    ensures var d := NewRoom(ExactPin(FOUR), policy);
            && JournalOk(d, true) && d.room.pointer.None? && d.room.requests == [] && d.room.policy == policy
            && LastEpoch(EpochsOf(d.room)).selector == Exact(FOUR)
  {
    OpusIsPossible();
    NewRoomWaits(ExactPin(FOUR), policy);
    WaitingEpochs(NewRoom(ExactPin(FOUR), policy), ExactPin(FOUR));
  }

  /** The run that takes the first window's choice through its transition. */
  function FollowOnce(record: PolicyRecord): seq<Event> {
    var d := NewRoom(ExactPin(FOUR), Some(PointerFor(record)));
    [CommitEvent(RequestFor(d.room, "transition", ExactPin(FOUR), ExactPin(FIVE), ""), Some(true),
                 Calm(ExactPin(FOUR), ExactPin(FIVE), ""))]
  }

  /** It follows the policy, and the newer model is in force after it. */
  lemma PolicyRunMoves(record: PolicyRecord)
    requires record.active && record.family == "opus" && record.previous.None?
    ensures var d := NewRoom(ExactPin(FOUR), Some(PointerFor(record)));
            && FollowRun(d, FollowOnce(record), "opus")
            && |BaseHistory(Run(d, FollowOnce(record)).room)| == 2
            && LastEpoch(BaseHistory(Run(d, FollowOnce(record)).room)).selector == Exact(FIVE)
  {
    var d := NewRoom(ExactPin(FOUR), Some(PointerFor(record)));
    FirstFollows(record);
    ChoiceIsGenuine(d, [record], "next", Lookup(Some(FIVE), false, Some(("", ""))));
    OpusIsPossible();
    NewRoomCommits(ExactPin(FOUR), ExactPin(FIVE), "", Some(PointerFor(record)), Some(true));
    assert FollowEvent(d, FollowOnce(record)[0], "opus");
    assert FollowOnce(record)[1..] == [];
  }
}
