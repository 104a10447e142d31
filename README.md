# Ladder Direction

A model of the `Direction` value of a ladder game. A ladder has vertical lines. In each row,
a rung may sit in the gap between two neighbouring lines. For one line in one row, a
`Direction` records whether a player may step to the left neighbour (`left`) and whether to
the right neighbour (`right`). A line never leads both ways. The leftmost line of a row
never leads left, and the rightmost line never leads right. A row is built from left to
right: each line takes its left flag from its left neighbour's right flag.

- `direction.dfy`, module `Ladder`: the `Direction` datatype and its operations. `Of` is the
  validating factory. It fails with `IllegalState` for the both-ways state, where the source
  throws `IllegalStateException`. `First` builds a leftmost line. `Next` builds an interior
  line and `Last` a rightmost line, each from its left neighbour. `IsLeft` and `IsRight` are
  the accessors. `LEFT`, `RIGHT` and `NEUTRAL` are the three canonical values.
- `row.dfy`, module `LadderRow`: a row builder that chains `First`, then `Next` once per
  further gap, then `Last`, over a list of rung flags. There is one flag per gap, so `n`
  flags give `n + 1` lines. The source has no such builder. It is a harness that states
  the chaining described by the Direction requirements, and it is proved against a
  reference row (`ExpectedRow`) and the row invariants (`WellFormedRow`).

Two consequences of building rows from the code's own operations:

- `BuildRow` fails with `IllegalState` exactly when two neighbouring flags are both true.
  The line between them would lead both ways, and `next` throws then, as the test at
  `DirectionTest.java:78` expects (`LadderRow.BuildRowCorrect`).
- A zero-line row cannot be expressed, because the builder takes the gap flags: `n` flags
  always give `n + 1 >= 1` lines.

## Model

| member | source | states |
|---|---|---|
| `Ladder.CanonicalValues` | src/test/java/nextstep/ladder2/DirectionTest.java:83-85 | `LEFT` is (true, false), `RIGHT` is (false, true) and `NEUTRAL` is (false, false); all three are valid and pairwise distinct |
| `Ladder.AccessorsReturnFlags` | src/test/java/nextstep/ladder2/DirectionTest.java:119-125 | `IsLeft` and `IsRight` return the stored left and right flags of any Direction, including one from the unchecked constructor |
| `Ladder.Of` | src/test/java/nextstep/ladder2/DirectionTest.java:94-105 | fails with `IllegalState` exactly when both flags are true; otherwise the result has exactly the requested left and right flags, is valid (never both ways), and is one of `LEFT`, `RIGHT`, `NEUTRAL` |
| `Ladder.First` | src/test/java/nextstep/ladder2/DirectionTest.java:107-109 | never fails; the leftmost line cannot move left, can move right exactly when asked, and is valid |
| `Ladder.Direction.Last` | src/test/java/nextstep/ladder2/DirectionTest.java:111-113 | never fails, even on the both-ways value the unchecked constructor can build; the rightmost line can move left exactly when its left neighbour can move right, cannot move right, and is valid |
| `Ladder.Direction.Next` | src/test/java/nextstep/ladder2/DirectionTest.java:115-117 | fails exactly when the left neighbour already moves right and a right move is also requested; otherwise the new line's left flag is the neighbour's right flag, its right flag is the requested one, and it is valid |
| `Ladder.OfInjective` | src/test/java/nextstep/ladder2/DirectionTest.java:26-31 | value equality of the factory's results: two successful `Of` calls give equal values exactly when their arguments are equal |
| `Ladder.OfRoundTrip` | src/test/java/nextstep/ladder2/DirectionTest.java:119-125 | `Of` applied to a Direction's own accessor values gives back that Direction exactly when it is valid, and fails with `IllegalState` otherwise |
| `Ladder.DirectionExamples` | src/test/java/nextstep/ladder2/DirectionTest.java:22-80 | each test's expectation: `of` is stable for the three valid pairs and throws for (true, true); `first` never leads left and leads right as asked; `last` never leads right and leads left as the previous line leads right; `first(false).next(true)` equals `of(false, true)`; `first(true).next(true)` fails |
| `LadderRow.Chain` | src/test/java/nextstep/ladder2/DirectionTest.java:15-19 | a successful chain from a line over `k` further flags has `k + 1` lines |
| `LadderRow.BuildRow` | src/test/java/nextstep/ladder2/DirectionTest.java:15-19 | a successful row over `n` gap flags has `n + 1` lines |
| `LadderRow.ChainCorrect` | src/test/java/nextstep/ladder2/DirectionTest.java:115-117 | by induction on the flags: chaining `Next` and `Last` from a line whose right flag is the first gap flag gives the rest of the reference row when no two neighbouring flags are true, and fails with `IllegalState` otherwise |
| `LadderRow.BuildRowCorrect` | src/test/java/nextstep/ladder2/DirectionTest.java:15-19 | the row builder succeeds exactly when no two neighbouring gaps both hold rungs; it then yields the reference row, in which line `i` leads left exactly when gap `i - 1` has a rung and right exactly when gap `i` has one; otherwise it fails with `IllegalState` |
| `LadderRow.ExpectedRowWellFormed` | src/test/java/nextstep/ladder2/DirectionTest.java:15-19 | the reference row of flags without neighbouring rungs keeps the row invariants and records exactly those flags |
| `LadderRow.WellFormedRowIsExpected` | src/test/java/nextstep/ladder2/DirectionTest.java:15-19 | a row that keeps the row invariants has no neighbouring rungs in its recorded flags and equals the reference row of those flags |
| `LadderRow.BuildRowWellFormed` | src/test/java/nextstep/ladder2/DirectionTest.java:15-19 | every row the builder produces keeps the invariants: the first line cannot move left, the last cannot move right, no line moves both ways, each line's right flag equals its successor's left flag; and the row records exactly the flags it was built from |
| `LadderRow.BuildRowComplete` | src/test/java/nextstep/ladder2/DirectionTest.java:15-19 | the converse: every row that keeps those invariants is what the builder makes of its own recorded flags |
| `LadderRow.BuildRowExamples` | src/test/java/nextstep/ladder2/DirectionTest.java:15-19 | a one-line row is `[NEUTRAL]`; flags `[true, false, true]` give `[RIGHT, LEFT, RIGHT, LEFT]`; flags `[true, true]` fail with `IllegalState` |

## Left out

- Object identity. `Direction` overrides neither `equals` nor `hashCode`, so equality in the source is identity; the tests' `isEqualTo` holds because `of` returns the shared `LEFT`, `RIGHT` and `NEUTRAL` objects. The model uses value equality. It agrees with identity on everything `of`, `first`, `next` and `last` return, but differs on values built with the unchecked constructor: in the source `new Direction(true, false)` is not equal to `of(true, false)`, while in the model `Direction(true, false) == LEFT`, and `OfRoundTrip`'s "gives back that Direction" is meant in that value sense.
- The public two-argument constructor is the datatype constructor `Direction(left, right)`. It is unchecked: it can build the both-ways value, which `Valid()` rejects and `Of` refuses. `Last` and `Next` are modelled for such values too, as the source allows.
- The JUnit and AssertJ scaffolding (`assertAll`, `assertThat`, `assertThatThrownBy`, parameterised sources). The tests' expectations are stated as lemmas instead.
- Random rung generation, ladder rendering and movement across several rows. None of them is in the modelled file.
- A zero-line row. The source does not define it, and the builder's input cannot express it.
