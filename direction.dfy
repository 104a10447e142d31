/**
 The movement state of one vertical line in one row of a ladder game: whether a
 player standing on the line may step to the line on its left, and whether to the
 line on its right. A line never opens both gaps at once, and a row is built from
 left to right, each line inheriting its left flag from its neighbour's right flag.
 */
module Ladder {

  /** The one way a Direction can fail to be built (an `IllegalStateException`). */
  datatype Error = IllegalState

  /** A value or the error that replaced it. */
  datatype Result<+T> = Ok(value: T) | Err(error: Error) {
    predicate IsFailure() {
      Err?
    }

    function PropagateFailure<U>(): Result<U>
      requires Err?
    {
      Err(error)
    }

    function Extract(): T
      requires Ok?
    {
      value
    }
  }

  /**
   The horizontal moves open from one line. The datatype constructor is the
   unchecked constructor: it can build the both-ways state, which `Of` refuses.
   */
  datatype Direction = Direction(left: bool, right: bool) {

    /** A line cannot lead both ways at once; leading nowhere is allowed. */
    predicate Valid() {
      !(left && right)
    }

    function IsLeft(): bool {
      left
    }

    function IsRight(): bool {
      right
    }

    /** The rightmost line of a row, placed right of this one. */
    function Last(): (r: Result<Direction>)
      ensures r.Ok? && r.value.Valid()
      ensures r.value.IsLeft() == IsRight() && !r.value.IsRight()
    {
      Of(right, false)
    }

    /** The interior line right of this one, whose own right gap is `rightMovable`. */
    function Next(rightMovable: bool): (r: Result<Direction>)
      ensures r.Err? <==> IsRight() && rightMovable
      ensures r.Ok? ==> r.value.Valid() && r.value.IsLeft() == IsRight() && r.value.IsRight() == rightMovable
    {
      Of(right, rightMovable)
    }
  }

  const LEFT := Direction(true, false)
  const RIGHT := Direction(false, true)
  const NEUTRAL := Direction(false, false)

  /** The validating factory: refuses the both-ways state, otherwise gives one of the three canonical values. */
  function Of(left: bool, right: bool): (r: Result<Direction>)
    ensures r.Err? <==> left && right
    ensures r.Ok? ==> r.value.IsLeft() == left && r.value.IsRight() == right && r.value.Valid()
    ensures r.Ok? ==> r.value == LEFT || r.value == RIGHT || r.value == NEUTRAL
  {
    if left && right then
      Err(IllegalState)
    else if left then
      Ok(LEFT)
    else if right then
      Ok(RIGHT)
    else
      Ok(NEUTRAL)
  }

  /** The leftmost line of a row, whose right gap is `right`. */
  function First(right: bool): (r: Result<Direction>)
    ensures r.Ok? && r.value.Valid()
    ensures !r.value.IsLeft() && r.value.IsRight() == right
  {
    Of(false, right)
  }

  /** The three canonical values are valid, pairwise distinct, and lead left, right and nowhere respectively. */
  lemma CanonicalValues()
    ensures LEFT.Valid() && LEFT.IsLeft() && !LEFT.IsRight()
    ensures RIGHT.Valid() && !RIGHT.IsLeft() && RIGHT.IsRight()
    ensures NEUTRAL.Valid() && !NEUTRAL.IsLeft() && !NEUTRAL.IsRight()
    ensures LEFT != RIGHT && RIGHT != NEUTRAL && NEUTRAL != LEFT
  {
  }

  /** The accessors give back the flags a Direction was built with, whether or not it is valid. */
  lemma AccessorsReturnFlags(left: bool, right: bool)
    ensures Direction(left, right).IsLeft() == left
    ensures Direction(left, right).IsRight() == right
  {
  }

  /** Two successful calls of `Of` give equal values exactly when their arguments are equal. */
  lemma OfInjective(l1: bool, r1: bool, l2: bool, r2: bool)
    requires Of(l1, r1).Ok? && Of(l2, r2).Ok?
    ensures Of(l1, r1) == Of(l2, r2) <==> l1 == l2 && r1 == r2
  {
  }

  /** Every valid Direction, and only a valid one, is what `Of` gives for its own flags. */
  lemma OfRoundTrip(d: Direction)
    ensures Of(d.IsLeft(), d.IsRight()) == Ok(d) <==> d.Valid()
    ensures !d.Valid() ==> Of(d.IsLeft(), d.IsRight()) == Err(IllegalState)
  {
  }

  /** The concrete expectations written down for the Direction value. */
  lemma DirectionExamples(rightMovable: bool)
    ensures Of(true, false) == Of(true, false) == Ok(LEFT)
    ensures Of(false, true) == Of(false, true) == Ok(RIGHT)
    ensures Of(false, false) == Of(false, false) == Ok(NEUTRAL)
    ensures Of(true, true) == Err(IllegalState)
    ensures !First(true).value.IsLeft()
    ensures First(rightMovable).value.IsRight() == rightMovable
    ensures !First(false).value.Last().value.IsRight()
    ensures First(rightMovable).value.Last().value.IsLeft() == First(rightMovable).value.IsRight()
    ensures First(false).value.Next(true) == Of(false, true)
    ensures First(true).value.Next(true) == Err(IllegalState)
  {
  }
}
