/**
 A whole row of a ladder, derived from the Direction operations: the leftmost
 line comes from `First`, each interior line from `Next` on its left neighbour,
 and the rightmost line from `Last`. The input is one rung flag per gap between
 adjacent lines, so a row of `n` flags has `n + 1` lines. This builder is a harness
 over the Direction operations; the chaining it performs is the one the Direction
 requirements describe.
 */
module LadderRow {
  import opened Ladder

  /** No line touches two rungs: two neighbouring gaps are never both open. */
  predicate NoAdjacentRungs(gaps: seq<bool>) {
    forall i :: 0 < i < |gaps| ==> !(gaps[i - 1] && gaps[i])
  }

  /** The row invariants: every line valid, closed ends, and neighbours agreeing on their shared gap. */
  predicate WellFormedRow(row: seq<Direction>) {
    && |row| > 0
    && !row[0].IsLeft()
    && !row[|row| - 1].IsRight()
    && (forall i :: 0 <= i < |row| ==> row[i].Valid())
    && (forall i :: 0 < i < |row| ==> row[i - 1].IsRight() == row[i].IsLeft())
  }

  /** Reference definition of line `i`: it opens exactly the gaps on either side of it that hold a rung. */
  function LineAt(gaps: seq<bool>, i: nat): Direction
    requires i <= |gaps|
  {
    Direction(0 < i && gaps[i - 1], i < |gaps| && gaps[i])
  }

  /** The reference row: line `i` of `|gaps| + 1` lines is `LineAt(gaps, i)`. */
  function ExpectedRow(gaps: seq<bool>): (row: seq<Direction>)
    ensures |row| == |gaps| + 1
  {
    seq(|gaps| + 1, i requires 0 <= i <= |gaps| => LineAt(gaps, i))
  }

  /** The rung flags a row records: the right flag of every line but the last. */
  function GapsOf(row: seq<Direction>): (gaps: seq<bool>)
    requires |row| > 0
    ensures |gaps| == |row| - 1
  {
    seq(|row| - 1, i requires 0 <= i < |row| - 1 => row[i].IsRight())
  }

  /** The lines right of `prev`: `Next` for each remaining flag, then `Last`. */
  function Chain(prev: Direction, gaps: seq<bool>): (r: Result<seq<Direction>>)
    ensures r.Ok? ==> |r.value| == |gaps| + 1
    decreases |gaps|
  {
    if gaps == [] then
      Ok([prev.Last().value])
    else
      var d :- prev.Next(gaps[0]);
      var rest :- Chain(d, gaps[1..]);
      Ok([d] + rest)
  }

  /** Builds the row for the given rung flags, one line more than there are flags. */
  function BuildRow(gaps: seq<bool>): (r: Result<seq<Direction>>)
    ensures r.Ok? ==> |r.value| == |gaps| + 1
  {
    if gaps == [] then
      Ok([First(false).value.Last().value])
    else
      var d := First(gaps[0]).value;
      var rest :- Chain(d, gaps[1..]);
      Ok([d] + rest)
  }

  /**
   `Chain` from a line whose right flag is `gaps[0]` succeeds exactly when no two
   neighbouring flags hold rungs, and then yields lines 1 to `|gaps|` of the
   reference row.
   */
  lemma {:induction false} ChainCorrect(prev: Direction, gaps: seq<bool>)
    requires |gaps| > 0 && prev.IsRight() == gaps[0]
    ensures Chain(prev, gaps[1..]).Ok? <==> NoAdjacentRungs(gaps)
    ensures NoAdjacentRungs(gaps) ==>
      forall k :: 0 <= k < |gaps| ==> Chain(prev, gaps[1..]).value[k] == LineAt(gaps, k + 1)
    decreases |gaps|
  {
    var tail := gaps[1..];
    if tail == [] {
      assert NoAdjacentRungs(gaps);
    } else if gaps[0] && tail[0] {
      assert !NoAdjacentRungs(gaps) by { assert gaps[0] && gaps[1]; }
    } else {
      var d := prev.Next(tail[0]).value;
      ChainCorrect(d, tail);
      assert tail[1..] == gaps[2..];
      NoAdjacentRungsTail(gaps);
      if NoAdjacentRungs(gaps) {
        var chain := Chain(prev, tail).value;
        forall k | 0 <= k < |gaps| ensures chain[k] == LineAt(gaps, k + 1) {
          if 0 < k {
            assert chain[k] == Chain(d, tail[1..]).value[k - 1];
            assert tail[k - 1] == gaps[k];
            assert k < |tail| ==> tail[k] == gaps[k + 1];
          }
        }
      }
    }
  }

  /** Dropping the first flag of a list whose first two flags are not both rungs keeps whether it has neighbouring rungs. */
  lemma NoAdjacentRungsTail(gaps: seq<bool>)
    requires |gaps| > 1 && !(gaps[0] && gaps[1])
    ensures NoAdjacentRungs(gaps) <==> NoAdjacentRungs(gaps[1..])
  {
    var tail := gaps[1..];
    if NoAdjacentRungs(tail) {
      forall i | 0 < i < |gaps| ensures !(gaps[i - 1] && gaps[i]) {
        if i > 1 { assert gaps[i - 1] == tail[i - 2] && gaps[i] == tail[i - 1]; }
      }
    }
    if NoAdjacentRungs(gaps) {
      forall i | 0 < i < |tail| ensures !(tail[i - 1] && tail[i]) {
        assert tail[i - 1] == gaps[i] && tail[i] == gaps[i + 1];
      }
    }
  }

  /**
   The builder succeeds exactly when no two neighbouring gaps both hold rungs,
   and then it yields the reference row; otherwise `Next` refuses the both-ways
   line and the whole row fails with `IllegalState`.
   */
  lemma BuildRowCorrect(gaps: seq<bool>)
    ensures BuildRow(gaps).Ok? <==> NoAdjacentRungs(gaps)
    ensures NoAdjacentRungs(gaps) ==> BuildRow(gaps) == Ok(ExpectedRow(gaps))
    ensures !NoAdjacentRungs(gaps) ==> BuildRow(gaps) == Err(IllegalState)
  {
    if gaps == [] {
      assert ExpectedRow(gaps) == [NEUTRAL];
    } else {
      var d := First(gaps[0]).value;
      ChainCorrect(d, gaps);
      if NoAdjacentRungs(gaps) {
        var row := BuildRow(gaps).value;
        forall i | 0 <= i < |row| ensures row[i] == ExpectedRow(gaps)[i] {
          if 0 < i {
            assert row[i] == Chain(d, gaps[1..]).value[i - 1];
          }
        }
        assert row == ExpectedRow(gaps);
      }
    }
  }

  /** The reference row of any rung flags without neighbouring rungs keeps the row invariants and records those flags. */
  lemma ExpectedRowWellFormed(gaps: seq<bool>)
    requires NoAdjacentRungs(gaps)
    ensures WellFormedRow(ExpectedRow(gaps))
    ensures GapsOf(ExpectedRow(gaps)) == gaps
  {
    var row := ExpectedRow(gaps);
    forall i | 0 <= i < |row| ensures row[i].Valid() {
      if 0 < i < |gaps| {
        assert !(gaps[i - 1] && gaps[i]);
      }
    }
  }

  /** A well-formed row is determined by its rung flags: it is the reference row of its own `GapsOf`. */
  lemma WellFormedRowIsExpected(row: seq<Direction>)
    requires WellFormedRow(row)
    ensures NoAdjacentRungs(GapsOf(row))
    ensures ExpectedRow(GapsOf(row)) == row
  {
    var gaps := GapsOf(row);
    forall i | 0 < i < |gaps| ensures !(gaps[i - 1] && gaps[i]) {
      assert row[i - 1].IsRight() == row[i].IsLeft();
      assert row[i].Valid();
    }
    forall i | 0 <= i < |row| ensures ExpectedRow(gaps)[i] == row[i] {
      if 0 < i {
        assert row[i - 1].IsRight() == row[i].IsLeft();
      }
    }
  }

  /**
   Every row the builder produces keeps the row invariants: the leftmost line
   cannot move left, the rightmost cannot move right, no line moves both ways,
   and each line's right flag is its right neighbour's left flag; the row records
   exactly the rung flags it was built from.
   */
  lemma BuildRowWellFormed(gaps: seq<bool>)
    requires BuildRow(gaps).Ok?
    ensures WellFormedRow(BuildRow(gaps).value)
    ensures GapsOf(BuildRow(gaps).value) == gaps
  {
    BuildRowCorrect(gaps);
    ExpectedRowWellFormed(gaps);
  }

  /** Conversely, every well-formed row is what the builder makes of the rung flags it records. */
  lemma BuildRowComplete(row: seq<Direction>)
    requires WellFormedRow(row)
    ensures BuildRow(GapsOf(row)) == Ok(row)
  {
    WellFormedRowIsExpected(row);
    BuildRowCorrect(GapsOf(row));
  }

  /** Small rows: one line stands alone; rungs in gaps 0 and 2 of four lines; two rungs sharing a line fail. */
  lemma BuildRowExamples()
    ensures BuildRow([]) == Ok([NEUTRAL])
    ensures BuildRow([true, false, true]) == Ok([RIGHT, LEFT, RIGHT, LEFT])
    ensures BuildRow([true, true]) == Err(IllegalState)
  {
    BuildRowCorrect([]);
    BuildRowCorrect([true, false, true]);
    assert ExpectedRow([true, false, true]) == [RIGHT, LEFT, RIGHT, LEFT];
    BuildRowCorrect([true, true]);
    assert !NoAdjacentRungs([true, true]) by { assert [true, true][0] && [true, true][1]; }
  }
}
