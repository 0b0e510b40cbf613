/** A frame: the knocks of one try against one set of pins. */
module Frames {
  import opened Outcomes

  /** Pins a frame starts with when no other total is given. */
  const TOTAL_PINS: int := 10

  /** Python's sum() of a list of knocks. */
  function Sum(s: seq<int>): (total: int)
  {
    if s == [] then 0 else s[0] + Sum(s[1..])
  }

  /** The value a frame holds: knock counter, total pins, standing pins and knocks in try order. */
  datatype FrameState = FrameState(counter: int, total: int, standing: int, knocks: seq<int>)

  /** The invariant every frame keeps: one knock per counted try, at most two tries, standing pins are
      what the knocks left, no knock above the total, and, once knocked, no negative count of pins. */
  ghost predicate WellFormed(s: FrameState)
  {
    && s.counter == |s.knocks| <= 2
    && s.total - s.standing == Sum(s.knocks)
    && (forall i :: 0 <= i < |s.knocks| ==> s.knocks[i] <= s.total)
    && (s.knocks != [] ==> 0 <= s.standing)
  }

  /** A frame as created: no knocks, every pin standing. */
  function NewFrame(total: int): (s: FrameState)
    ensures WellFormed(s)
  {
    FrameState(0, total, total, [])
  }

  /** One knock of `hits` pins: the guards are checked before anything changes. */
  function Knocked(s: FrameState, hits: int): (r: Result<FrameState>)
  {
    if s.counter >= 2 then Err(InvalidTry)
    else if hits > s.standing || hits > s.total then Err(InvalidHitCount)
    else Ok(FrameState(s.counter + 1, s.total, s.standing - hits, s.knocks + [hits]))
  }

  /** Appending a knock adds it to the sum. */
  lemma {:induction false} SumAppend(s: seq<int>, x: int)
    ensures Sum(s + [x]) == Sum(s) + x
  {
    if s != [] {
      assert (s + [x])[1..] == s[1..] + [x];
      SumAppend(s[1..], x);
    }
  }

  /** A knock that is accepted keeps the frame invariant. */
  lemma KnockedKeepsWellFormed(s: FrameState, hits: int)
    requires WellFormed(s)
    ensures Knocked(s, hits).Ok? ==> WellFormed(Knocked(s, hits).value)
  {
    if Knocked(s, hits).Ok? {
      SumAppend(s.knocks, hits);
    }
  }

  /** No knock of a well-formed frame took more pins than were standing when it was made: every
      prefix of the knocks sums to at most the total. */
  lemma {:induction false} KnocksNeverOverdraw(s: FrameState, k: nat)
    requires WellFormed(s)
    requires 0 < k <= |s.knocks|
    ensures Sum(s.knocks[..k]) <= s.total
  {
    if k == |s.knocks| {
      assert s.knocks[..k] == s.knocks;
    } else {
      assert k == 1 && s.knocks[..k] == [] + [s.knocks[0]];
      SumAppend([], s.knocks[0]);
    }
  }

  /** A frame that has been knocked never shows a negative count of standing pins, and its knocks
      took at most the frame's pins. */
  lemma WellFormedBounds(s: FrameState)
    requires WellFormed(s) && s.knocks != []
    ensures 0 <= s.standing && Sum(s.knocks) <= s.total
  {
  }

  /** The open-frame scenario of the kata's tests, on values: 2 then 3 gives 5, a 10 in between is
      refused, and a third knock is refused. */
  lemma OpenFrameScenario()
    ensures Knocked(NewFrame(TOTAL_PINS), 2) == Ok(FrameState(1, 10, 8, [2]))
    ensures Knocked(FrameState(1, 10, 8, [2]), 10) == Err(InvalidHitCount)
    ensures Knocked(FrameState(1, 10, 8, [2]), 3) == Ok(FrameState(2, 10, 5, [2, 3]))
    ensures Sum([2, 3]) == 5
    ensures Knocked(FrameState(2, 10, 5, [2, 3]), 5) == Err(InvalidTry)
  {
    assert [] + [2] == [2];
    assert [2] + [3] == [2, 3];
    assert [2, 3][..1] == [2];
  }

  /** The strike-frame scenario of the kata's tests: 10 scores 10 and any further pin is refused. */
  lemma StrikeFrameScenario()
    ensures Knocked(NewFrame(TOTAL_PINS), 10) == Ok(FrameState(1, 10, 0, [10]))
    ensures Sum([10]) == 10
    ensures Knocked(FrameState(1, 10, 0, [10]), 1) == Err(InvalidHitCount)
  {
    assert [] + [10] == [10];
  }

  /** The mutable frame object. */
  class Frame {
    var knockCounter: int
    const totalPins: int
    var standingPins: int
    var knocks: seq<int>

    function State(): FrameState
      reads this
    {
      FrameState(knockCounter, totalPins, standingPins, knocks)
    }

    ghost predicate Valid()
      reads this
    {
      WellFormed(State())
    }

    constructor (totalPins: int := TOTAL_PINS)
      ensures Valid() && State() == NewFrame(totalPins)
    {
      knockCounter := 0;
      this.totalPins := totalPins;
      standingPins := totalPins;
      knocks := [];
    }

    /** Records one knock and returns the pins left standing, or refuses it and changes nothing. */
    method Knock(hits: int := 0) returns (r: Result<int>)
      requires Valid()
      modifies this
      ensures Valid()
      ensures old(knockCounter) >= 2 ==> r == Err(InvalidTry)
      ensures old(knockCounter) < 2 && (hits > old(standingPins) || hits > totalPins) ==> r == Err(InvalidHitCount)
      ensures r.Err? ==> State() == old(State())
      ensures r.Ok? ==> && knockCounter == old(knockCounter) + 1
                        && knocks == old(knocks) + [hits]
                        && standingPins == old(standingPins) - hits
                        && r.value == standingPins
      ensures r.Ok? ==> 0 <= standingPins && knockCounter == |knocks| <= 2
      ensures Knocked(old(State()), hits) == if r.Ok? then Ok(State()) else Err(r.error)
    {
      if knockCounter >= 2 {
        return Err(InvalidTry);
      } else if hits > standingPins || hits > totalPins {
        return Err(InvalidHitCount);
      } else {
        knockCounter := knockCounter + 1;
      }
      KnockedKeepsWellFormed(old(State()), hits);
      var left := DoKnock(hits);
      r := Ok(left);
    }

    /** Takes `hits` pins down and appends the knock; the counter is the caller's business. */
    method DoKnock(hits: int) returns (left: int)
      modifies this
      ensures knockCounter == old(knockCounter)
      ensures standingPins == old(standingPins) - hits && knocks == old(knocks) + [hits]
      ensures left == standingPins
    {
      standingPins := standingPins - hits;
      knocks := knocks + [hits];
      left := standingPins;
    }
  }
}
