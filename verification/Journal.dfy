/** The knipje-logboek of one card: its card_transactions rows in the order in which they were inserted. */
module Journal {
  import opened Prelude

  datatype Reason = Issued | TostiDelivered | AvondetenMeal | ManualKnipje | EstimateAdjust | Undo | Backfill

  /** One saldowijziging. `meal` is the date of the booked meal, `reverses`/`reversedBy` are positions in the same
      journal. */
  datatype Line = Line(
    delta: int, balanceAfter: int, reason: Reason, actor: Option<nat>,
    order: Option<nat>, meal: Option<int>, reverses: Option<nat>, reversedBy: Option<nat>)
  {
    /** Neither undone nor an undo itself. */
    predicate Live() { reversedBy.None? && reason != Undo }
  }

  function Plain(delta: int, balanceAfter: int, reason: Reason, actor: Option<nat>): Line {
    Line(delta, balanceAfter, reason, actor, None, None, None, None)
  }

  function Sum(lines: seq<Line>, w: Line -> int): int {
    if lines == [] then 0 else Sum(lines[..|lines| - 1], w) + w(lines[|lines| - 1])
  }

  function Delta(l: Line): int { l.delta }
  function LiveDelta(l: Line): int { if l.Live() then l.delta else 0 }
  function PunchWeight(l: Line): int { if l.Live() && l.reason == ManualKnipje then 1 else 0 }
  function DeliveredWeight(l: Line): int { if l.Live() && l.reason == TostiDelivered then -l.delta else 0 }
  function MealWeight(l: Line): int { if l.Live() && l.reason == AvondetenMeal then 1 else 0 }

  /** Manual punches that have not been undone. */
  function LivePunches(lines: seq<Line>): int { Sum(lines, PunchWeight) }

  lemma SumAppend(lines: seq<Line>, l: Line, w: Line -> int)
    ensures Sum(lines + [l], w) == Sum(lines, w) + w(l)
  {
    assert (lines + [l])[..|lines|] == lines;
  }

  lemma {:induction false} SumCongruent(a: seq<Line>, b: seq<Line>, w: Line -> int)
    requires |a| == |b| && forall i :: 0 <= i < |a| ==> w(a[i]) == w(b[i])
    ensures Sum(a, w) == Sum(b, w)
  {
    if a != [] { SumCongruent(a[..|a| - 1], b[..|b| - 1], w); }
  }

  lemma {:induction false} SumUpdate(lines: seq<Line>, i: nat, l: Line, w: Line -> int)
    requires i < |lines|
    ensures Sum(lines[i := l], w) == Sum(lines, w) - w(lines[i]) + w(l)
  {
    var last := |lines| - 1;
    if i == last {
      assert lines[i := l][..last] == lines[..last];
    } else {
      SumUpdate(lines[..last], i, l, w);
      assert lines[i := l][..last] == lines[..last][i := l];
    }
  }

  lemma {:induction false} SumNonNegative(lines: seq<Line>, w: Line -> int)
    requires forall i :: 0 <= i < |lines| ==> w(lines[i]) >= 0
    ensures Sum(lines, w) >= 0
    ensures forall i :: 0 <= i < |lines| ==> w(lines[i]) <= Sum(lines, w)
  {
    if lines != [] { SumNonNegative(lines[..|lines| - 1], w); }
  }

  /** Line `i` records the running prefix sum of the deltas, and a balance a card may hold. */
  ghost predicate ReplaysAt(lines: seq<Line>, i: nat)
    requires i < |lines|
  {
    lines[i].balanceAfter == Sum(lines[..i + 1], Delta) && 0 <= lines[i].balanceAfter <= 10
  }

  ghost predicate Replays(lines: seq<Line>) {
    forall i :: 0 <= i < |lines| ==> ReplaysAt(lines, i)
  }

  predicate Undoable(r: Reason) { r != Issued && r != Undo && r != Backfill }

  /** `reverses` and `reversedBy` are mutually inverse; an undo negates an earlier undoable line and is never undone. */
  ghost predicate Reversals(lines: seq<Line>) {
    && (forall i :: 0 <= i < |lines| ==> (lines[i].reason == Undo <==> lines[i].reverses.Some?))
    && (forall i :: 0 <= i < |lines| && lines[i].reverses.Some? ==> IsUndoOf(lines, i, lines[i].reverses.value))
    && (forall j :: 0 <= j < |lines| && lines[j].reversedBy.Some? ==>
          j < lines[j].reversedBy.value < |lines| && lines[lines[j].reversedBy.value].reverses == Some(j))
  }

  ghost predicate IsUndoOf(lines: seq<Line>, i: nat, j: nat)
    requires i < |lines|
  {
    && j < i
    && lines[j].reversedBy == Some(i)
    && lines[i].delta == -lines[j].delta
    && lines[i].reversedBy.None?
    && lines[j].delta != 0
    && Undoable(lines[j].reason)
  }

  /** The first line, and only the first, is the issue of the card. */
  ghost predicate IssuedFirst(lines: seq<Line>) {
    && 0 < |lines| && lines[0].reason == Issued && 0 <= lines[0].delta <= 10
    && forall i :: 0 < i < |lines| ==> lines[i].reason != Issued
  }

  /** The line an undo marks: it now points at its undo, and its meal row (deleted) no longer exists. */
  function Undone(lines: seq<Line>, i: nat): Line
    requires i < |lines|
  {
    lines[i].(reversedBy := Some(|lines|), meal := None)
  }

  function UndoLine(lines: seq<Line>, i: nat, balanceAfter: int, actor: nat): Line
    requires i < |lines|
  {
    Line(-lines[i].delta, balanceAfter, Undo, Some(actor), None, None, Some(i), None)
  }

  function WithUndo(lines: seq<Line>, i: nat, balanceAfter: int, actor: nat): seq<Line>
    requires i < |lines|
  {
    lines[i := Undone(lines, i)] + [UndoLine(lines, i, balanceAfter, actor)]
  }

  lemma SumWithUndo(lines: seq<Line>, i: nat, b: int, actor: nat, w: Line -> int)
    requires i < |lines|
    ensures Sum(WithUndo(lines, i, b, actor), w)
         == Sum(lines, w) - w(lines[i]) + w(Undone(lines, i)) + w(UndoLine(lines, i, b, actor))
  {
    SumUpdate(lines, i, Undone(lines, i), w);
    SumAppend(lines[i := Undone(lines, i)], UndoLine(lines, i, b, actor), w);
  }

  lemma ReplaysAppend(lines: seq<Line>, l: Line)
    requires Replays(lines) && 0 <= l.balanceAfter <= 10 && l.balanceAfter == Sum(lines, Delta) + l.delta
    ensures Replays(lines + [l])
  {
    var more := lines + [l];
    SumAppend(lines, l, Delta);
    forall i | 0 <= i < |more| ensures ReplaysAt(more, i) {
      if i < |lines| {
        assert ReplaysAt(lines, i);
        assert more[..i + 1] == lines[..i + 1];
      } else {
        assert more[..i + 1] == more;
      }
    }
  }

  lemma ReplaysMarked(lines: seq<Line>, marked: seq<Line>)
    requires Replays(lines) && |marked| == |lines|
    requires forall i :: 0 <= i < |lines| ==>
      marked[i].delta == lines[i].delta && marked[i].balanceAfter == lines[i].balanceAfter
    ensures Replays(marked) && Sum(marked, Delta) == Sum(lines, Delta)
  {
    SumCongruent(lines, marked, Delta);
    forall i | 0 <= i < |marked| ensures ReplaysAt(marked, i) {
      assert ReplaysAt(lines, i);
      SumCongruent(lines[..i + 1], marked[..i + 1], Delta);
    }
  }
}
