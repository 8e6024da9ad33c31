/**
 * The copies selector of the main tab: five checkable quick buttons labelled 1, 4, 5, 6 and 8,
 * and a drop-down whose entry 0 is "Other" and whose entry i (1..20) stands for i copies.
 */
module Copies {

  /** The quick-button labels, in button order. */
  const QuickCounts: seq<int> := [1, 4, 5, 6, 8]

  /** The last drop-down entry: the entries are "Other" and 1..20. */
  const MaxComboIndex: int := 20

  /**
   * get_copies as a function of the button states and the drop-down index, scanning the
   * buttons from position i: the first checked button gives its label; with none checked, a
   * drop-down index above 0 gives itself, and "Other" gives 1.
   */
  function SelectedFrom(buttons: seq<bool>, i: nat, comboIndex: int): (n: int)
    requires |buttons| <= |QuickCounts| && i <= |buttons|
    ensures (forall k :: i <= k < |buttons| ==> !buttons[k]) ==> n == (if comboIndex > 0 then comboIndex else 1)
    ensures i < |buttons| && buttons[i] ==> n == QuickCounts[i]
    ensures n in QuickCounts || n == (if comboIndex > 0 then comboIndex else 1)
    ensures (exists k :: i <= k < |buttons| && buttons[k]) ==> n in QuickCounts
    decreases |buttons| - i
  {
    if i == |buttons| then (if comboIndex > 0 then comboIndex else 1)
    else if buttons[i] then QuickCounts[i]
    else SelectedFrom(buttons, i + 1, comboIndex)
  }

  /**
   * get_copies: a quick label when a button is checked (the first one), otherwise the drop-down
   * value, or 1 when it shows "Other".
   */
  function Selected(buttons: seq<bool>, comboIndex: int): (n: int)
    requires |buttons| <= |QuickCounts|
    ensures (forall k :: 0 <= k < |buttons| ==> !buttons[k]) ==> n == (if comboIndex > 0 then comboIndex else 1)
    ensures (exists k :: 0 <= k < |buttons| && buttons[k]) ==> n in QuickCounts
  {
    SelectedFrom(buttons, 0, comboIndex)
  }

  /** The first checked button decides, whatever the buttons after it and the drop-down say. */
  lemma {:induction false} FirstCheckedWins(buttons: seq<bool>, i: nat, j: nat, comboIndex: int)
    requires |buttons| <= |QuickCounts| && i <= j < |buttons|
    requires buttons[j] && forall k :: i <= k < j ==> !buttons[k]
    ensures SelectedFrom(buttons, i, comboIndex) == QuickCounts[j]
    decreases j - i
  {
    if i < j {
      FirstCheckedWins(buttons, i + 1, j, comboIndex);
    }
  }

  /** The count chosen is one of the quick labels, or a drop-down value 1..20, or the default 1. */
  lemma {:induction false} SelectedInRange(buttons: seq<bool>, i: nat, comboIndex: int)
    requires |buttons| <= |QuickCounts| && i <= |buttons| && 0 <= comboIndex <= MaxComboIndex
    ensures 1 <= SelectedFrom(buttons, i, comboIndex) <= MaxComboIndex
    decreases |buttons| - i
  {
    if i < |buttons| && !buttons[i] {
      SelectedInRange(buttons, i + 1, comboIndex);
    }
  }

  class CopiesSelector {
    /** Checked state of each quick button, in button order. */
    const checked: array<bool>
    var comboIndex: int
    /** Written on every selection; get_copies, which printing uses, never reads it. */
    var currentCopies: int

    /**
     * The states the handlers reach: at most one button checked, and none while the drop-down
     * shows a number.
     */
    ghost predicate Valid()
      reads this, checked
    {
      && checked.Length == |QuickCounts|
      && 0 <= comboIndex <= MaxComboIndex
      && (forall i, j :: 0 <= i < j < checked.Length && checked[i] ==> !checked[j])
      && (comboIndex > 0 ==> forall i :: 0 <= i < checked.Length ==> !checked[i])
    }

    function Copies(): int
      reads this, checked
      requires checked.Length == |QuickCounts|
    {
      Selected(checked[..], comboIndex)
    }

    /** The initial state once settings are loaded: the first button (1 copy) checked, "Other" shown. */
    constructor ()
      ensures Valid() && fresh(checked)
      ensures checked[..] == [true, false, false, false, false]
      ensures comboIndex == 0 && currentCopies == 1
      ensures Copies() == 1
    {
      checked := new bool[5](i => i == 0);
      comboIndex := 0;
      currentCopies := 1;
      new;
      assert checked[..] == [true, false, false, false, false];
    }

    /**
     * set_copies: uncheck every button, check the first one labelled count, show "Other" and
     * record count. The count read back is count when it is a quick label, else 1.
     */
    method SetCopies(count: int)
      requires Valid()
      modifies this, checked
      ensures Valid()
      ensures forall i :: 0 <= i < checked.Length ==> (checked[i] <==> QuickCounts[i] == count)
      ensures comboIndex == 0 && currentCopies == count
      ensures Copies() == if count in QuickCounts then count else 1
    {
      var i := 0;
      while i < checked.Length
        invariant 0 <= i <= checked.Length
        invariant forall k :: 0 <= k < i ==> !checked[k]
      {
        checked[i] := false;
        i := i + 1;
      }
      i := 0;
      while i < checked.Length
        invariant 0 <= i <= checked.Length
        invariant forall k :: 0 <= k < i ==> QuickCounts[k] != count && !checked[k]
        invariant forall k :: i <= k < checked.Length ==> !checked[k]
      {
        if QuickCounts[i] == count {
          checked[i] := true;
          break;
        }
        i := i + 1;
      }
      comboIndex := 0;
      currentCopies := count;
      if count in QuickCounts {
        var j :| 0 <= j < |QuickCounts| && QuickCounts[j] == count;
        FirstCheckedWins(checked[..], 0, j, comboIndex);
      } else {
        assert forall k :: 0 <= k < checked.Length ==> !checked[..][k];
      }
    }

    /**
     * The drop-down moved to index, then on_copies_combo_changed ran: an index above 0 unchecks
     * every button and records that many copies; "Other" changes nothing else.
     */
    method SelectCombo(index: int)
      requires Valid() && 0 <= index <= MaxComboIndex
      modifies this, checked
      ensures Valid() && comboIndex == index
      ensures index > 0 ==> (forall i :: 0 <= i < checked.Length ==> !checked[i]) && currentCopies == index
      ensures index == 0 ==> checked[..] == old(checked[..]) && currentCopies == old(currentCopies)
      ensures index > 0 ==> Copies() == index
    {
      comboIndex := index;
      if index > 0 {
        var i := 0;
        while i < checked.Length
          invariant 0 <= i <= checked.Length && comboIndex == index
          invariant forall k :: 0 <= k < i ==> !checked[k]
        {
          checked[i] := false;
          i := i + 1;
        }
        currentCopies := index;
      }
    }

    /** The copies part of clear_form: back to the initial state. */
    method Reset()
      requires Valid()
      modifies this, checked
      ensures Valid() && comboIndex == 0 && currentCopies == 1
      ensures checked[..] == [true, false, false, false, false]
      ensures Copies() == 1
    {
      var i := 0;
      while i < checked.Length
        invariant 0 <= i <= checked.Length
        invariant forall k :: 0 <= k < i ==> !checked[k]
      {
        checked[i] := false;
        i := i + 1;
      }
      checked[0] := true;
      comboIndex := 0;
      currentCopies := 1;
      assert checked[..] == [true, false, false, false, false];
    }

    /** get_copies, scanning the buttons as the source does. */
    method GetCopies() returns (n: int)
      requires Valid()
      ensures n == Copies()
      ensures 1 <= n <= MaxComboIndex
      ensures (exists i :: 0 <= i < checked.Length && checked[i]) ==> n in QuickCounts
      ensures comboIndex > 0 ==> n == comboIndex
    {
      SelectedInRange(checked[..], 0, comboIndex);
      var i := 0;
      while i < checked.Length
        invariant 0 <= i <= checked.Length
        invariant forall k :: 0 <= k < i ==> !checked[k]
        invariant SelectedFrom(checked[..], i, comboIndex) == Copies()
      {
        if checked[i] {
          return QuickCounts[i];
        }
        i := i + 1;
      }
      if comboIndex > 0 {
        return comboIndex;
      }
      return 1;
    }
  }

  /**
   * Choosing a number in the drop-down and then "Other" again leaves no button checked, so the
   * count read back is 1 while the recorded count still holds the number chosen before.
   */
  method StaleAfterOther() returns (recorded: int, read: int)
    ensures recorded == 7 && read == 1
  {
    var s := new CopiesSelector();
    s.SelectCombo(7);
    s.SelectCombo(0);
    recorded := s.currentCopies;
    read := s.GetCopies();
  }
}
