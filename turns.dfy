/** A turn: the primary frame and, after a strike or a spare, one bonus frame. */
module Turns {
  import opened Outcomes
  import opened Frames

  /** The value a turn holds: its primary frame and, when one was created, its bonus frame. */
  datatype TurnState = TurnState(frame: FrameState, bonus: Option<FrameState>)

  class Turn {
    const frame: Frame
    var bonus: Frame?

    ghost predicate Valid()
      reads this, frame, bonus
    {
      frame.Valid() && (bonus != null ==> bonus != frame && bonus.Valid())
    }

    function State(): TurnState
      reads this, frame, bonus
    {
      TurnState(frame.State(), if bonus == null then None else Some(bonus.State()))
    }

    predicate AnyBonusFrame()
      reads this
    {
      bonus != null
    }

    /** A new turn has a fresh standard primary frame and no bonus frame. */
    constructor ()
      ensures Valid() && fresh(frame)
      ensures frame.State() == NewFrame(TOTAL_PINS)
      ensures !AnyBonusFrame() && State() == TurnState(NewFrame(TOTAL_PINS), None)
    {
      frame := new Frame(TOTAL_PINS);
      bonus := null;
    }

    /** Creates a fresh standard bonus frame, stores it and returns it; the primary frame is untouched.
        Called a second time it replaces the stored bonus frame. */
    method BonusFrame() returns (b: Frame)
      requires Valid()
      modifies this
      ensures Valid() && fresh(b) && bonus == b
      ensures AnyBonusFrame()
      ensures b.State() == NewFrame(TOTAL_PINS)
      ensures State() == TurnState(old(State()).frame, Some(NewFrame(TOTAL_PINS)))
    {
      b := new Frame(TOTAL_PINS);
      bonus := b;
    }
  }
}
