# Bowling kata scoring engine, modelled in Dafny

This project models the scoring engine of a small bowling kata. A player knocks pins in a
**frame** with at most two tries. A **turn** holds a primary frame and, after a strike or a spare,
one bonus frame. The **rule engine** classifies a frame as a strike or a spare, and the **scorer**
scores a frame and a turn. The **game** plays one turn at a time and keeps each turn with its score.

The model has two layers.

- **Values.** `FrameState` and `TurnState` are the data a frame and a turn hold.
  - `Knocked` is one knock.
  - `PlayFrame` is a player's play of a frame.
  - `PlayTurn` is one turn of the game.
  - `IsStrike`, `IsSpare`, `Score` and `TurnScore` are the rule engine and the scorer.
  - The lemmas about these functions state what the engine promises.
- **Objects.** `Frame`, `Turn`, `PinSource`, `Player` and `Game` are classes with the fields the
  objects of kata.py update in place.
  - Every public method's postcondition gives its new state and result in terms of the value layer.
  - `Frame.Knock`, `Player.Play` and `Game.Play` are each proved equal to `Knocked`, `PlayFrame`
    and `PlayTurn`.
  - The frame invariant `WellFormed` is `Frame.Valid()`, and every public method keeps it. The private
    `DoKnock` runs between the counter update and the end of `Knock`, so it does not keep it on its
    own.
  - `ScriptedSpareGame` plays the spare turn of the kata's tests (source 3, 7, 1, 4) through the
    objects and asserts that it records a score of 16 and one turn in the history.

The random pin count `randint(0, bound)` is an injected source, `Oracle = (nat, int) -> int`. It maps
the index of a call and the bound asked for to the value drawn. `PinSource` holds the source and the
number of values drawn so far, which is the random generator's own state. `Bounded(pick)` says that
every value lies in `[0, bound]`, as `randint` guarantees. `Script(s)` yields the values of `s` in order
and ignores the bound, as the mocked `randint` of the tests does.

The two `ValueError`s of `knock` are `Error.InvalidTry` (a third knock) and `Error.InvalidHitCount`
(more hits than the pins standing or than the frame's total). A refused knock leaves the frame as it
was. As in the code, a negative `hits` is not refused. The classifier compares with the constant
`TOTAL_PINS` (10), not with the frame's own total. `Rules.ClassifierIgnoresFrameTotal` shows where
the two differ.

Three behaviours of the code are kept as written:

- `turn_score` returns `None`, rather than raising, when a bonus frame follows a frame that is
  neither a strike nor a spare. `TurnScore` returns `None` there.
- Calling `bonus_frame()` a second time overwrites the stored bonus frame.
- The player's second knock is guarded by `!= 0`. That is the same as `> 0`, because an accepted
  knock never leaves a negative count of pins.

## Model

| member | source | states |
|---|---|---|
| `Frames.SumAppend` | kata.py:95-96 | appending a knock adds its pins to the frame's sum of knocks |
| `Frames.NewFrame` | kata.py:13-18 | a new frame (no knocks, every pin standing) satisfies the frame invariant |
| `Frames.KnockedKeepsWellFormed` | kata.py:20-35 | an accepted knock keeps the invariant: counter equals the number of knocks and is at most 2, total minus standing equals the sum of knocks, no count of pins is negative once knocked, no knock exceeds the total |
| `Frames.KnocksNeverOverdraw` | kata.py:24-25 | in a well-formed frame each knock took no more pins than were standing when it was made (every prefix of knocks sums to at most the total) |
| `Frames.WellFormedBounds` | kata.py:31-35 | once knocked, a frame's standing pins are non-negative and its knocks sum to at most the total |
| `Frames.OpenFrameScenario` | test_kata.py:18-26 | 2 is accepted, then 10 is refused for too many hits, 3 is accepted and the frame sums to 5, and a third knock is refused as an invalid try |
| `Frames.StrikeFrameScenario` | test_kata.py:28-32 | 10 on a fresh frame leaves 0 standing and sums to 10, and a further knock of 1 is refused |
| `Frames.Frame.constructor` | kata.py:13-18 | a new frame has counter 0, the given total, all pins standing and no knocks |
| `Frames.Frame.Knock` | kata.py:20-29 | hits defaults to 0; a third try is refused as InvalidTry, hits above the standing pins or the total are refused as InvalidHitCount, and a refusal changes nothing; otherwise the counter goes up by 1, hits is appended, standing drops by hits and the new standing count is returned; the invariant is kept and the result equals `Knocked` |
| `Frames.Frame.DoKnock` | kata.py:31-35 | standing pins drop by hits, hits is appended, the counter is untouched, the new standing count is returned |
| `Rules.IsStrike` | kata.py:106-108 | a strike (one knock of ten pins) has knocks summing to ten |
| `Rules.IsSpare` | kata.py:111-113 | a spare (two knocks summing to ten) is never also a strike |
| `Rules.ClassifierMatchesStandingPins` | kata.py:106-113 | on a ten-pin frame, strike iff one knock and no pin standing; spare iff two knocks and no pin standing |
| `Rules.ClassifierIgnoresFrameTotal` | kata.py:108 | a five-pin frame cleared by one knock is not a strike, because the classifier compares with ten |
| `Scoring.Score` | kata.py:95-96 | a well-formed frame scores the pins it knocked down (total minus standing) |
| `Scoring.TurnScore` | kata.py:80-92 | no score exactly when a bonus frame follows a frame that is neither spare nor strike; without a bonus frame the primary frame's score; after a spare 10 plus the bonus frame's first knock plus its score; after a strike 10 plus twice the bonus frame's score |
| `Scoring.StrikeThenStrikeScoresThirty` | test_kata.py:36-47 | a strike frame with a one-knock strike bonus frame scores 30 |
| `Turns.Turn.constructor` | kata.py:54-57 | a new turn has a fresh standard primary frame and no bonus frame (`AnyBonusFrame` is false) |
| `Turns.Turn.BonusFrame` | kata.py:59-61 | creates, stores and returns a fresh empty ten-pin frame; afterwards `AnyBonusFrame` holds and the primary frame is unchanged |
| `Players.PlayFrame` | kata.py:138-145 | playing keeps the frame invariant, draws one or two values, and when nothing is refused adds at least one knock |
| `Players.PlayFreshFrame` | kata.py:142-145 | with a bounded source a fresh frame is never refused: it gets one knock if that knock was ten and two otherwise, each the source's next value, all non-negative, and as many values drawn as knocks made |
| `Players.AlwaysTwoScenario` | test_kata.py:9-14 | a source that always yields 2 gives knocks 2 and 2 and a score of 4 |
| `Players.PinSource.Next` | kata.py:142-144 | a draw returns the source's value for this call index and bound, and advances the call count by one |
| `Players.Player.constructor` | kata.py:123-125 | a player keeps its name and its pin source |
| `Players.Player.Play` | kata.py:138-145 | the frame's new state, the values drawn, and the result (the same frame, or the refusal passed on) are those of `PlayFrame`; the frame invariant is kept |
| `Games.RecordedTurnIsScored` | kata.py:154-170 | a recorded turn has a bonus frame iff its primary frame is a strike or spare, and its score is the scorer's turn score |
| `Games.BoundedTurnScore` | kata.py:154-170 | with a bounded source a turn is always recorded and scores between 0 and 30 |
| `Games.OpenTurnScenario` | test_kata.py:52-59 | source 2, 7 records score 9 on a frame that is neither strike nor spare |
| `Games.SpareOneFourScenario` | test_kata.py:62-69 | source 3, 7, 1, 4 records a spare scoring 16 |
| `Games.SpareFiveFiveScenario` | test_kata.py:71-78 | source 3, 7, 5, 5 records a spare scoring 25 |
| `Games.SpareStrikeScenario` | test_kata.py:80-87 | source 3, 7, 10 records a spare scoring 30 |
| `Games.StrikeSevenOneScenario` | test_kata.py:90-97 | source 10, 7, 1 records a strike scoring 26 |
| `Games.StrikeFiveFiveScenario` | test_kata.py:99-106 | source 10, 5, 5 records a strike scoring 30 |
| `Games.StrikeStrikeScenario` | test_kata.py:108-115 | source 10, 10 records a strike scoring 30 |
| `Games.Game.constructor` | kata.py:150-152 | a new game has its player and an empty history |
| `Games.Game.Play` | kata.py:154-170 | the turn, the score and the values drawn are those of `PlayTurn`; a recorded turn satisfies `Turn.Valid()` and is appended to the history as exactly one fresh `(turn, score)` pair, and a refused knock leaves the history unchanged |

## Left out

- Console output is left out: the `print` calls in `Game.play` (kata.py:159,163) and the `KataBowlingGame` driver with its `__main__` block (kata.py:178-195), a fixed loop of five turns.
- Player identity is left out: `uuid4`, the id, `__eq__` and `__hash__` (kata.py:125,130-136). They play no part in scoring. The player keeps only its name.
- The `__str__` renderings (kata.py:45-46,72-75,127-128,172-174) are left out. They are string formatting only.
- The getters `get_knocks`, `get_knock_counter`, `get_frame` and `get_bonus_frame` are reads of the fields `knocks`, `knockCounter`, `frame` and `bonus`. `any_bonus_frame` is the predicate `Turn.AnyBonusFrame`, which has no contract of its own. Its meaning is stated in the `Turn` rows above.
- The shared default argument of `Player.play` (kata.py:138) is a Python artefact. `Player.Play` always takes its frame explicitly.
- The unused constants `STRIKE_BONUS_POINTS` and `SPARE_BONUS_POINTS` (kata.py:102-103) are left out.
- `randint` is replaced by the injected `Oracle`. `Script` yields 0 once its values are used up, where the mock would raise `StopIteration`. No modelled scenario reaches that point.
- `Games.Game.Play`: the strike branch and the spare branch of `Game.play` are merged into one branch, because they differ only in what they print.
- `Scoring.TurnScore` requires a bonus knock when the primary frame is a spare. The code indexes the bonus frame's first knock there and would raise `IndexError`. `Game.play` never calls it that way.
- `Frames.Frame.Knock` requires the frame invariant `Valid()`. Every frame has it from construction, and every public method keeps it. `DoKnock` runs only inside `Knock`, between the counter update and the end of `Knock`.
- Python's `sum` adds the knocks from left to right, and `Sum` nests from the right. For integers the two give the same value. Python integers are unbounded, so no wrap-around is modelled.
