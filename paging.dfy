/**
 * Paging through a table: the `Paging` trait implemented for the table widget's
 * state, which holds an optional selected row index.
 */
module Paging {
  import opened Common

  function Max(a: nat, b: nat): nat {
    if a >= b then a else b
  }

  /**
   * The selection `next(total, increment)` leaves behind: wrap from the last
   * row to the first, clamp to the last row when the step overshoots.
   */
  function NextSelection(selected: Option<nat>, total: nat, increment: nat): (r: Option<nat>)
    ensures r.None? <==> total == 0
    // from an existing selection the result is always a row of the table
    ensures total > 0 && selected.Some? ==> r.value < total
    // with nothing selected the result is max(total, increment), never a row
    ensures total > 0 && selected.None? ==> r.value >= total && r.value >= increment
  {
    if total == 0 then None
    else
      match selected
      case Some(i) =>
        if i == total - 1 then Some(0)
        else if i + increment >= total then Some(total - 1)
        else Some(i + increment)
      case None => Some(Max(total, increment))
  }

  /**
   * The selection `prev(total, increment)` leaves behind: wrap from the first
   * row to the last, clamp to the first row when the step overshoots.
   */
  function PrevSelection(selected: Option<nat>, total: nat, increment: nat): (r: Option<nat>)
    ensures r.None? <==> total == 0
    // from a selection inside the table the result stays inside the table
    ensures total > 0 && selected.Some? && selected.value < total ==> r.value < total
    ensures total > 0 && selected.None? ==> r == Some(0)
    // never moves down, except for the wrap from the first row
    ensures total > 0 && selected.Some? && selected.value > 0 ==> r.value <= selected.value
  {
    if total == 0 then None
    else
      match selected
      case Some(i) =>
        if i == 0 then Some(total - 1)
        else if i < increment then Some(0)
        else Some(i - increment)
      case None => Some(0)
  }

  /** `TableState`: the selection is changed in place by the paging methods. */
  class TableState {
    var selected: Option<nat>

    /** `TableState::default()`: nothing selected. */
    constructor ()
      ensures selected == None
    {
      selected := None;
    }

    method Select(index: Option<nat>)
      modifies this
      ensures selected == index
    {
      selected := index;
    }

    method Next(total: nat, increment: nat)
      modifies this
      ensures selected == NextSelection(old(selected), total, increment)
    {
      if total == 0 {
        Select(None);
        return;
      }
      var i: nat;
      match selected {
        case Some(s) =>
          if s == total - 1 {
            i := 0;
          } else if s + increment >= total {
            i := total - 1;
          } else {
            i := s + increment;
          }
        case None =>
          i := Max(total, increment);
      }
      Select(Some(i));
    }

    method Prev(total: nat, increment: nat)
      modifies this
      ensures selected == PrevSelection(old(selected), total, increment)
    {
      if total == 0 {
        Select(None);
        return;
      }
      var i: nat;
      match selected {
        case Some(s) =>
          if s == 0 {
            i := total - 1;
          } else if s < increment {
            i := 0;
          } else {
            i := s - increment;
          }
        case None =>
          i := 0;
      }
      Select(Some(i));
    }
  }

  /** One step forward and one step back, both by one row, return to the start. */
  lemma PrevAfterNext(i: nat, total: nat)
    requires i < total
    ensures PrevSelection(NextSelection(Some(i), total, 1), total, 1) == Some(i)
  {
  }

  /** One step back and one step forward, both by one row, return to the start. */
  lemma NextAfterPrev(i: nat, total: nat)
    requires i < total
    ensures NextSelection(PrevSelection(Some(i), total, 1), total, 1) == Some(i)
  {
  }

  /** `n` presses of the Down key. */
  function NextTimes(selected: Option<nat>, total: nat, n: nat): Option<nat>
  {
    if n == 0 then selected else NextSelection(NextTimes(selected, total, n - 1), total, 1)
  }

  /** `n` presses of the Up key. */
  function PrevTimes(selected: Option<nat>, total: nat, n: nat): Option<nat>
    decreases n
  {
    if n == 0 then selected else PrevTimes(PrevSelection(selected, total, 1), total, n - 1)
  }

  /** Paging forward from a row never leaves the table. */
  lemma {:induction false} NextTimesInRange(i: nat, total: nat, n: nat)
    requires i < total
    ensures NextTimes(Some(i), total, n).Some? && NextTimes(Some(i), total, n).value < total
  {
    if n > 0 {
      NextTimesInRange(i, total, n - 1);
    }
  }

  /**
   * Moving forward `n` rows and then back `n` rows, one row per key press,
   * returns to the starting row, whatever wrapping happened on the way.
   */
  lemma {:induction false} PrevTimesUndoesNextTimes(i: nat, total: nat, n: nat)
    requires i < total
    ensures PrevTimes(NextTimes(Some(i), total, n), total, n) == Some(i)
  {
    if n > 0 {
      NextTimesInRange(i, total, n - 1);
      var before := NextTimes(Some(i), total, n - 1);
      PrevAfterNext(before.value, total);
      calc {
        PrevTimes(NextTimes(Some(i), total, n), total, n);
        PrevTimes(PrevSelection(NextSelection(before, total, 1), total, 1), total, n - 1);
        PrevTimes(before, total, n - 1);
        { PrevTimesUndoesNextTimes(i, total, n - 1); }
        Some(i);
      }
    }
  }
}
