/**
 * The selectable list behind the directory panel: its items, the directory
 * they were listed from, and an optional selected index moved with
 * wraparound.
 */
module Lists {
  import opened Wrappers
  import opened Fs

  /**
   * The index `next` selects. A selection equal to or past the last index
   * wraps to 0, so a stale selection is pulled back into range. The source
   * computes `len - 1` whenever something is selected, which underflows on
   * an empty list.
   */
  function NextIndex(sel: Option<nat>, len: nat): (r: nat)
    requires sel.Some? ==> len > 0
    ensures len > 0 ==> r < len
    ensures sel.None? ==> r == 0
  {
    match sel
    case None => 0
    case Some(i) => if i >= len - 1 then 0 else i + 1
  }

  /**
   * The index `previous` selects. Only from index 0 does it compute
   * `len - 1` (underflowing on an empty list); a stale selection past the
   * end merely steps down by one.
   */
  function PrevIndex(sel: Option<nat>, len: nat): (r: nat)
    requires sel == Some(0) ==> len > 0
    ensures r < len <==> (sel.None? && len > 0) || (sel.Some? && sel.value <= len)
    ensures sel.None? ==> r == 0
  {
    match sel
    case None => 0
    case Some(i) => if i == 0 then len - 1 else i - 1
  }

  /** `previous` undoes `next` on an in-range selection. */
  lemma PreviousAfterNext(i: nat, len: nat)
    requires i < len
    ensures PrevIndex(Some(NextIndex(Some(i), len)), len) == i
  {
  }

  /** `next` undoes `previous` on an in-range selection. */
  lemma NextAfterPrevious(i: nat, len: nat)
    requires i < len
    ensures NextIndex(Some(PrevIndex(Some(i), len)), len) == i
  {
  }

  /** The selection after `k` presses of `next`. */
  function Advance(sel: Option<nat>, len: nat, k: nat): Option<nat>
    requires sel.Some? ==> len > 0
    requires k > 0 ==> len > 0
  {
    if k == 0 then sel else Some(NextIndex(Advance(sel, len, k - 1), len))
  }

  /** From index `i`, `k <= len` presses of `next` reach `i + k`, wrapped once past the end. */
  lemma {:induction false} AdvanceSteps(i: nat, len: nat, k: nat)
    requires i < len && k <= len
    ensures Advance(Some(i), len, k) == Some(if i + k < len then i + k else i + k - len)
  {
    if k > 0 {
      AdvanceSteps(i, len, k - 1);
    }
  }

  /** `len` presses of `next` bring any in-range selection back to where it was. */
  lemma FullCycle(i: nat, len: nat)
    requires i < len
    ensures Advance(Some(i), len, len) == Some(i)
  {
    AdvanceSteps(i, len, len);
  }

  /** From no selection the first `next` selects 0, after which the cycle is the one from 0. */
  lemma {:induction false} AdvanceFromNone(len: nat, k: nat)
    requires len > 0
    ensures Advance(None, len, k + 1) == Advance(Some(0), len, k)
  {
    if k > 0 {
      AdvanceFromNone(len, k - 1);
    }
  }

  /**
   * `StatefulList<T>`: `items` in display order, `currDir` the directory
   * they come from, `selected` the list state's selected index.
   */
  class StatefulList<T> {
    var selected: Option<nat>
    var currDir: Path
    var items: seq<T>

    /** `with_items`: nothing is selected yet. */
    constructor WithItems(items: seq<T>, currDir: Path)
      ensures this.items == items && this.currDir == currDir && selected == None
    {
      this.items := items;
      this.currDir := currDir;
      selected := None;
    }

    /** `ListState::select`. */
    method Select(i: Option<nat>)
      modifies this
      ensures selected == i && items == old(items) && currDir == old(currDir)
    {
      selected := i;
    }

    method Next()
      requires selected.Some? ==> |items| > 0
      modifies this
      ensures items == old(items) && currDir == old(currDir)
      ensures selected == Some(NextIndex(old(selected), |items|))
      ensures |items| > 0 ==> selected.value < |items|
    {
      var i := match selected
        case Some(i) => if i >= |items| - 1 then 0 else i + 1
        case None => 0;
      Select(Some(i));
    }

    method Previous()
      requires selected == Some(0) ==> |items| > 0
      modifies this
      ensures items == old(items) && currDir == old(currDir)
      ensures selected == Some(PrevIndex(old(selected), |items|))
    {
      var i := match selected
        case Some(i) => if i == 0 then |items| - 1 else i - 1
        case None => 0;
      Select(Some(i));
    }

    method Unselect()
      modifies this
      ensures selected == None && items == old(items) && currDir == old(currDir)
    {
      Select(None);
    }
  }
}
