/** The scorer: a frame scores its knocks, a turn adds the bonus a strike or a spare earns. */
module Scoring {
  import opened Outcomes
  import opened Frames
  import opened Rules
  import opened Turns

  /** A frame scores the pins it knocked down. */
  function Score(s: FrameState): (r: int)
    ensures WellFormed(s) ==> r == s.total - s.standing
  {
    Sum(s.knocks)
  }

  /** The score of a turn. Without a bonus frame it is the primary frame's score. With one, a spare
      adds the bonus frame's first knock and its score, a strike adds the bonus frame's score twice;
      a bonus frame behind a frame that is neither has no score (None). */
  function TurnScore(t: TurnState): (r: Option<int>)
    requires WellFormed(t.frame)
    requires t.bonus.Some? && IsSpare(t.frame) ==> |t.bonus.value.knocks| >= 1
    ensures r.None? <==> t.bonus.Some? && !IsSpare(t.frame) && !IsStrike(t.frame)
    ensures t.bonus.None? ==> r == Some(Score(t.frame))
    ensures t.bonus.Some? && IsSpare(t.frame) ==>
              r == Some(TOTAL_PINS + t.bonus.value.knocks[0] + Score(t.bonus.value))
    ensures t.bonus.Some? && IsStrike(t.frame) ==> r == Some(TOTAL_PINS + 2 * Score(t.bonus.value))
  {
    var frameScore := Score(t.frame);
    match t.bonus
    case None => Some(frameScore)
    case Some(b) =>
      if IsSpare(t.frame) then Some(frameScore + b.knocks[0] + Score(b))
      else if IsStrike(t.frame) then Some(frameScore + Score(b) + Score(b))
      else None
  }

  /** The turn of the kata's tests: a strike followed by a one-knock bonus strike scores 30. */
  lemma StrikeThenStrikeScoresThirty()
    ensures TurnScore(TurnState(FrameState(1, 10, 0, [10]), Some(FrameState(1, 10, 0, [10])))) == Some(30)
  {
  }
}
