/**
 * The task list component: a carousel that shows one task at a time. Its
 * only state is `currentIndex`, changed by the next and previous buttons and
 * pulled back into range whenever the list it is given changes.
 */
module TaskList {

  function Min(a: int, b: int): int {
    if a < b then a else b
  }

  /** The effect run when the list changes: 0 for an empty list, otherwise
      the old index pulled down to the last position. */
  function Clamped(i: nat, len: nat): (r: nat)
    ensures len == 0 ==> r == 0
    ensures len > 0 ==> r < len
    ensures r <= i
    ensures i < len ==> r == i
  {
    if len == 0 then 0 else Min(i, len - 1)
  }

  /** `handleNext`: nothing with at most one task, otherwise one step
      forward, wrapping from the last task to the first. */
  function NextIndex(i: nat, len: nat): (r: nat)
    ensures len <= 1 ==> r == i
    ensures len > 1 ==> r < len
    ensures len > 1 && i + 1 < len ==> r == i + 1
    ensures len > 1 && i + 1 == len ==> r == 0
  {
    if len <= 1 then i else (i + 1) % len
  }

  /** `handlePrev`: nothing with at most one task, otherwise one step back,
      wrapping from the first task to the last. */
  function PrevIndex(i: nat, len: nat): (r: nat)
    ensures len <= 1 ==> r == i
    ensures len > 1 && i < len ==> r < len
    ensures len > 1 && 0 < i ==> r + 1 == i
    ensures len > 1 && i == 0 ==> r == len - 1
  {
    if len <= 1 then i else if i == 0 then len - 1 else i - 1
  }

  /** Previous undoes next on an index in range. */
  lemma NextThenPrev(i: nat, len: nat)
    requires i < len
    ensures PrevIndex(NextIndex(i, len), len) == i
  {
  }

  /** Next undoes previous on an index in range. */
  lemma PrevThenNext(i: nat, len: nat)
    requires i < len
    ensures NextIndex(PrevIndex(i, len), len) == i
  {
  }

  /** The index after `n` presses of the next button. */
  function Advance(i: nat, len: nat, n: nat): nat {
    if n == 0 then i else NextIndex(Advance(i, len, n - 1), len)
  }

  /** Pressing `a` times and then `b` times is pressing `a + b` times. */
  lemma {:induction false} AdvanceAdd(i: nat, len: nat, a: nat, b: nat)
    ensures Advance(i, len, a + b) == Advance(Advance(i, len, a), len, b)
  {
    if b > 0 {
      AdvanceAdd(i, len, a, b - 1);
    }
  }

  /** Before the wrap, `n` presses move `n` places forward. */
  lemma {:induction false} AdvanceForward(i: nat, len: nat, n: nat)
    requires 1 < len && i + n < len
    ensures Advance(i, len, n) == i + n
  {
    if n > 0 {
      AdvanceForward(i, len, n - 1);
    }
  }

  /** Fewer presses than there are tasks never come back to the start. */
  lemma NoEarlyReturn(i: nat, len: nat, n: nat)
    requires 1 < len && i < len && 0 < n < len
    ensures Advance(i, len, n) != i
  {
    if i + n < len {
      AdvanceForward(i, len, n);
    } else {
      AdvanceForward(i, len, len - i - 1);
      assert Advance(i, len, len - i) == 0;
      AdvanceAdd(i, len, len - i, n - (len - i));
      AdvanceForward(0, len, n - (len - i));
    }
  }

  /** Pressing next once per task comes back to the task one started from,
      after showing every other task once. */
  lemma FullCycleReturns(i: nat, len: nat)
    requires 1 < len && i < len
    ensures Advance(i, len, len) == i
    ensures forall n :: 0 < n < len ==> Advance(i, len, n) != i
  {
    AdvanceForward(i, len, len - i - 1);
    assert Advance(i, len, len - i) == 0;
    AdvanceAdd(i, len, len - i, i);
    AdvanceForward(0, len, i);
    forall n | 0 < n < len
      ensures Advance(i, len, n) != i
    {
      NoEarlyReturn(i, len, n);
    }
  }

  /** `safeIndex`: the position actually rendered, valid for any non-empty list. */
  function SafeIndex(i: nat, len: nat): (r: int)
    ensures len > 0 ==> 0 <= r < len
    ensures i < len ==> r == i
  {
    Min(i, len - 1)
  }

  datatype EmptyState = EmptyState(message: string, subMessage: string)

  /** What the list shows when it is given no tasks. */
  function EmptyStateFor(filter: string): (e: EmptyState)
    ensures filter == "completed" ==> e == EmptyState("No completed tasks", "")
    ensures filter == "pending" ==> e == EmptyState("No pending tasks", "")
    ensures filter != "completed" && filter != "pending" ==>
      e.message == "No tasks found" && e.subMessage != ""
  {
    if filter == "completed" then EmptyState("No completed tasks", "")
    else if filter == "pending" then EmptyState("No pending tasks", "")
    else EmptyState("No tasks found", "Create your first task to get started!")
  }

  /** The component's state: the length of the list it was last given and
      its `currentIndex`. */
  class Carousel {
    var count: nat
    var currentIndex: nat

    /** After the change effect has run, the index is a position of the list
        (or 0 when there is none). */
    ghost predicate Settled()
      reads this
    {
      if count == 0 then currentIndex == 0 else currentIndex < count
    }

    /** Mount: the index starts at 0 and the effect runs once. */
    constructor (len: nat)
      ensures count == len && currentIndex == 0 && Settled()
    {
      count, currentIndex := len, 0;
    }

    /** A new list arrives and the effect clamps the index. */
    method TasksChanged(len: nat)
      modifies this
      ensures count == len && currentIndex == Clamped(old(currentIndex), len)
      ensures Settled()
    {
      count := len;
      if len == 0 {
        currentIndex := 0;
        return;
      }
      currentIndex := Min(currentIndex, len - 1);
    }

    method HandleNext()
      requires Settled()
      modifies this`currentIndex
      ensures currentIndex == NextIndex(old(currentIndex), count) && Settled()
    {
      if count <= 1 {
        return;
      }
      currentIndex := (currentIndex + 1) % count;
    }

    method HandlePrev()
      requires Settled()
      modifies this`currentIndex
      ensures currentIndex == PrevIndex(old(currentIndex), count) && Settled()
    {
      if count <= 1 {
        return;
      }
      currentIndex := if currentIndex == 0 then count - 1 else currentIndex - 1;
    }

    /** The position rendered: the current index itself once settled. */
    function Shown(): (r: int)
      reads this
      ensures Settled() && count > 0 ==> r == currentIndex
    {
      SafeIndex(currentIndex, count)
    }
  }
}
