/** The player: knocks a frame once, and a second time while pins are still standing. */
module Players {
  import opened Outcomes
  import opened Frames

  /** The injected pin-count source: the value it yields on its n-th call when asked for a number of
      pins between 0 and `bound` (kata.py draws it with randint(0, bound)). */
  type Oracle = (nat, int) -> int

  /** A source that keeps to its bounds, as randint does. */
  ghost predicate Bounded(pick: Oracle)
  {
    forall n: nat, bound: int :: 0 <= bound ==> 0 <= pick(n, bound) <= bound
  }

  /** What playing a frame leaves: the frame, how many values the source has yielded so far, and the
      refusal of a knock, if one was refused. */
  datatype PlayOutcome = PlayOutcome(frame: FrameState, calls: nat, failure: Option<Error>)

  /** Playing frame `s` with a source that has already yielded `calls` values: a knock of up to ten
      pins, then, unless no pin is standing, a knock of up to the pins still standing. A refused knock
      stops the play. */
  function PlayFrame(s: FrameState, pick: Oracle, calls: nat): (o: PlayOutcome)
    requires WellFormed(s)
    ensures WellFormed(o.frame)
    ensures o.calls == calls + 1 || o.calls == calls + 2
    ensures o.failure.None? ==> |s.knocks| < |o.frame.knocks|
  {
    var first := pick(calls, TOTAL_PINS);
    KnockedKeepsWellFormed(s, first);
    match Knocked(s, first)
    case Err(e) => PlayOutcome(s, calls + 1, Some(e))
    case Ok(s1) =>
      if s1.standing != 0 then
        var second := pick(calls + 1, s1.standing);
        KnockedKeepsWellFormed(s1, second);
        match Knocked(s1, second)
        case Err(e) => PlayOutcome(s1, calls + 2, Some(e))
        case Ok(s2) => PlayOutcome(s2, calls + 2, None)
      else PlayOutcome(s1, calls + 1, None)
  }

  /** On a fresh standard frame a bounded source is never refused: the frame ends with one knock if
      that knock was ten pins and with two knocks otherwise, each from the source in turn, and no
      knock is negative. */
  lemma PlayFreshFrame(pick: Oracle, calls: nat)
    requires Bounded(pick)
    ensures var o := PlayFrame(NewFrame(TOTAL_PINS), pick, calls);
      && o.failure.None?
      && 1 <= |o.frame.knocks| <= 2
      && o.calls == calls + |o.frame.knocks|
      && o.frame.knocks[0] == pick(calls, TOTAL_PINS)
      && (|o.frame.knocks| == 1 <==> o.frame.knocks[0] == TOTAL_PINS)
      && (|o.frame.knocks| == 2 ==> o.frame.knocks[1] == pick(calls + 1, TOTAL_PINS - o.frame.knocks[0]))
      && (forall i :: 0 <= i < |o.frame.knocks| ==> 0 <= o.frame.knocks[i])
      && 0 <= o.frame.standing <= TOTAL_PINS
  {
  }

  /** The player of the kata's tests, whose source always yields 2: the frame is knocked 2 and 2 and
      scores 4. */
  lemma AlwaysTwoScenario()
    ensures var o := PlayFrame(NewFrame(TOTAL_PINS), (n: nat, bound: int) => 2, 0);
      o.failure.None? && o.frame.knocks == [2, 2] && Sum(o.frame.knocks) == 4
  {
  }

  /** randint modelled as an object: the source function and the number of values drawn so far. */
  class PinSource {
    const pick: Oracle
    var calls: nat

    constructor (pick: Oracle)
      ensures this.pick == pick && calls == 0
    {
      this.pick := pick;
      calls := 0;
    }

    /** Draws the next value for an upper bound of `bound` pins. */
    method Next(bound: int) returns (v: int)
      modifies this
      ensures v == pick(old(calls), bound) && calls == old(calls) + 1
    {
      v := pick(calls, bound);
      calls := calls + 1;
    }
  }

  class Player {
    const name: string
    const source: PinSource

    constructor (name: string, source: PinSource)
      ensures this.name == name && this.source == source
    {
      this.name := name;
      this.source := source;
    }

    /** Plays frame `f` and returns it; a refused knock is passed on, leaving the frame as the knocks
        before it left it. */
    method Play(f: Frame) returns (r: Result<Frame>)
      requires f.Valid()
      modifies f, source
      ensures f.Valid()
      ensures var o := PlayFrame(old(f.State()), source.pick, old(source.calls));
        && f.State() == o.frame
        && source.calls == o.calls
        && r == if o.failure.None? then Ok(f) else Err(o.failure.value)
    {
      var first := source.Next(TOTAL_PINS);
      var k := f.Knock(first);
      if k.Err? {
        return Err(k.error);
      }
      var remaining := k.value;
      if remaining != 0 {
        var second := source.Next(remaining);
        k := f.Knock(second);
        if k.Err? {
          return Err(k.error);
        }
      }
      return Ok(f);
    }
  }
}
