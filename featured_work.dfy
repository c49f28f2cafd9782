/** The CardSwap stack of the featured-work section (components/FeaturedWork.tsx):
    a front-card index advanced by a timer, and each card's place in the stack. */
module FeaturedWork {

  /** The timer's step `(prev + 1) % n`: the next card comes to the front, wrapping
      from the last card to the first. */
  function Advance(prev: nat, n: nat): (next: nat)
    requires n > 0
    ensures next < n
    ensures prev < n ==> next == if prev == n - 1 then 0 else prev + 1
  {
    (prev + 1) % n
  }

  /** `k` timer steps from `i`. */
  function AdvanceTimes(i: nat, k: nat, n: nat): (r: nat)
    requires n > 0 && i < n
    ensures r < n
  {
    if k == 0 then i else Advance(AdvanceTimes(i, k - 1, n), n)
  }

  /** Up to a full cycle, `k` steps move the front `k` places round the stack. */
  lemma {:induction false} AdvanceTimesShifts(i: nat, k: nat, n: nat)
    requires n > 0 && i < n && k <= n
    ensures AdvanceTimes(i, k, n) == if i + k < n then i + k else i + k - n
  {
    if k > 0 {
      AdvanceTimesShifts(i, k - 1, n);
    }
  }

  /** `n` steps bring the stack back to where it started. */
  lemma FullCycle(i: nat, n: nat)
    requires n > 0 && i < n
    ensures AdvanceTimes(i, n, n) == i
  {
    AdvanceTimesShifts(i, n, n);
  }

  /** `(index - currentIndex + n) % n`: how many places behind the front card
      `index` sits, that is, how many steps until it reaches the front. */
  function Offset(index: nat, current: nat, n: nat): (o: nat)
    requires index < n && current < n
    ensures o < n
    ensures o == 0 <==> index == current
    ensures o == if current <= index then index - current else index + n - current
  {
    (index - current + n) % n
  }

  /** The card that sits `k` places behind the front. */
  function CardAt(k: nat, current: nat, n: nat): (index: nat)
    requires k < n && current < n
    ensures index < n
    ensures index == if current + k < n then current + k else current + k - n
  {
    (current + k) % n
  }

  /** `CardAt` and `Offset` undo each other: the offsets of the cards are a
      permutation of `0 .. n-1`. */
  lemma OffsetCardAtInverse(index: nat, k: nat, current: nat, n: nat)
    requires index < n && k < n && current < n
    ensures Offset(CardAt(k, current, n), current, n) == k
    ensures CardAt(Offset(index, current, n), current, n) == index
  {
  }

  /** Different cards never share a place in the stack. */
  lemma OffsetsDistinct(i: nat, j: nat, current: nat, n: nat)
    requires i < n && j < n && current < n && i != j
    ensures Offset(i, current, n) != Offset(j, current, n)
  {
    OffsetCardAtInverse(i, 0, current, n);
    OffsetCardAtInverse(j, 0, current, n);
  }

  /** `zIndex: n - offset`: the front card is on top with `n`, every other card lower. */
  function ZIndex(index: nat, current: nat, n: nat): (z: int)
    requires index < n && current < n
    ensures 1 <= z <= n
    ensures z == n <==> index == current
    ensures z == if current <= index then n - (index - current) else current - index
  {
    n - Offset(index, current, n)
  }

  /** A card further behind the front sits on a lower layer: the stack order is the
      offset order, one layer per place. */
  lemma ZIndexFollowsOffset(i: nat, j: nat, current: nat, n: nat)
    requires i < n && j < n && current < n
    ensures Offset(i, current, n) < Offset(j, current, n) <==> ZIndex(i, current, n) > ZIndex(j, current, n)
    ensures ZIndex(i, current, n) + Offset(i, current, n) == n
  {
  }

  lemma ZIndexDistinct(i: nat, j: nat, current: nat, n: nat)
    requires i < n && j < n && current < n && i != j
    ensures ZIndex(i, current, n) != ZIndex(j, current, n)
  {
    OffsetsDistinct(i, j, current, n);
  }

  /** `opacity`: full for the front card, dimmed for the others. */
  function Opacity(index: nat, current: nat, n: nat): (op: real)
    requires index < n && current < n
    ensures op == 1.0 <==> index == current
    ensures op != 1.0 ==> op == 0.7
  {
    if Offset(index, current, n) == 0 then 1.0 else 0.7
  }

  /** One step moves every card one place forward, the front card to the back. */
  lemma AdvanceMovesForward(index: nat, current: nat, n: nat)
    requires index < n && current < n
    ensures var before := Offset(index, current, n);
            Offset(index, Advance(current, n), n) == if before == 0 then n - 1 else before - 1
  {
  }

  /** The component's state: the front index and the hover pause. */
  class CardSwap {
    const n: nat
    const pauseOnHover: bool
    var currentIndex: nat
    var isPaused: bool

    ghost predicate Valid()
      reads this
    {
      n > 0 && currentIndex < n
    }

    /** `childrenArray.length` is at least one for any children passed in. */
    constructor (cards: nat, pauseOnHover: bool)
      requires cards > 0
      ensures Valid() && n == cards && this.pauseOnHover == pauseOnHover
      ensures currentIndex == 0 && !isPaused
    {
      n := cards;
      this.pauseOnHover := pauseOnHover;
      currentIndex := 0;
      isPaused := false;
    }

    /** The interval exists unless the stack is paused and pausing on hover is enabled. */
    predicate Rotating()
      reads this
    {
      !(isPaused && pauseOnHover)
    }

    /** One period of the timer. */
    method Tick()
      requires Valid()
      modifies this`currentIndex
      ensures Valid()
      ensures currentIndex == if Rotating() then Advance(old(currentIndex), n) else old(currentIndex)
    {
      if !(isPaused && pauseOnHover) {
        currentIndex := (currentIndex + 1) % n;
      }
    }

    /** The pointer enters: pause, but only when pausing on hover is enabled. */
    method MouseEnter()
      requires Valid()
      modifies this`isPaused
      ensures Valid()
      ensures isPaused == (pauseOnHover || old(isPaused))
      ensures pauseOnHover ==> !Rotating()
    {
      if pauseOnHover {
        isPaused := true;
      }
    }

    /** The pointer leaves: resume, but only when pausing on hover is enabled. */
    method MouseLeave()
      requires Valid()
      modifies this`isPaused
      ensures Valid()
      ensures isPaused == (!pauseOnHover && old(isPaused))
      ensures pauseOnHover ==> Rotating()
    {
      if pauseOnHover {
        isPaused := false;
      }
    }
  }
}
