/** The game rule engine: classifies a played frame as a strike or a spare. */
module Rules {
  import opened Frames

  /** One knock, and it took the ten pins of a standard frame. */
  function IsStrike(s: FrameState): (r: bool)
    requires WellFormed(s)
    ensures r ==> Sum(s.knocks) == TOTAL_PINS
  {
    s.counter == 1 && s.knocks[0] == TOTAL_PINS
  }

  /** Two knocks that together took the ten pins of a standard frame; never also a strike. */
  function IsSpare(s: FrameState): (r: bool)
    requires WellFormed(s)
    ensures r ==> !IsStrike(s)
  {
    s.counter == 2 && Sum(s.knocks) == TOTAL_PINS
  }

  /** On a standard frame the classifier agrees with the pin accounting: a strike is one knock that
      leaves no pin standing, a spare two knocks that leave no pin standing. */
  lemma ClassifierMatchesStandingPins(s: FrameState)
    requires WellFormed(s) && s.total == TOTAL_PINS
    ensures IsStrike(s) <==> s.counter == 1 && s.standing == 0
    ensures IsSpare(s) <==> s.counter == 2 && s.standing == 0
  {
    if s.counter == 1 {
      assert s.knocks[1..] == [];
      assert Sum(s.knocks) == s.knocks[0];
    }
  }

  /** The classifier compares with the standard ten pins, not with the frame's own total: a frame of
      five pins knocked flat in one go is not a strike. */
  lemma ClassifierIgnoresFrameTotal()
    ensures WellFormed(FrameState(1, 5, 0, [5])) && !IsStrike(FrameState(1, 5, 0, [5]))
  {
  }
}
