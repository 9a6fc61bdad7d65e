/**
 * The scroll-direction tracker (app/src/hooks/useScrollDirection.ts): the
 * header hides while the list is scrolled down and shows again when it is
 * scrolled up or back to the top; small movements are accumulated until they
 * pass a threshold.
 */
module ScrollDirection {

  datatype Direction = Up | Down | Idle

  const DefaultThreshold := 5

  /** The hook's state and refs after an event. */
  datatype ScrollState = ScrollState(direction: Direction, headerVisible: bool, lastScrollY: int, accumulated: int)

  function Abs(x: int): (a: int)
    ensures a >= 0 && (a == x || a == -x)
  {
    if x < 0 then -x else x
  }

  /** The state after `onScroll` with offset `y`. */
  function Step(s: ScrollState, y: int, threshold: int): ScrollState
  {
    if y <= 0 then ScrollState(Idle, true, y, 0)
    else
      var acc := s.accumulated + (y - s.lastScrollY);
      if Abs(acc) > threshold then
        var newDirection := if acc > 0 then Down else Up;
        if newDirection != s.direction then ScrollState(newDirection, newDirection == Up || y <= 0, y, 0)
        else s.(lastScrollY := y, accumulated := 0)
      else s.(lastScrollY := y, accumulated := acc)
  }

  /** The header is shown exactly when the list is not moving down; the accumulator stays within the threshold. */
  predicate Consistent(s: ScrollState, threshold: int)
  {
    s.headerVisible == (s.direction != Down) && (s.accumulated == 0 || Abs(s.accumulated) <= threshold)
  }

  /** At or above the top the tracker resets: idle, header shown, nothing accumulated. */
  lemma AtTopResets(s: ScrollState, y: int, threshold: int)
    requires y <= 0
    ensures Step(s, y, threshold) == ScrollState(Idle, true, y, 0)
  {
  }

  /** Below the threshold only the accumulator and the last offset move. */
  lemma SmallMovesAccumulate(s: ScrollState, y: int, threshold: int)
    requires y > 0 && Abs(s.accumulated + y - s.lastScrollY) <= threshold
    ensures Step(s, y, threshold) == s.(lastScrollY := y, accumulated := s.accumulated + y - s.lastScrollY)
  {
  }

  /**
   * Past the threshold the direction follows the sign of the accumulated
   * movement and the accumulator restarts; visibility changes only with the
   * direction, and then to "shown iff moving up".
   */
  lemma LargeMovesSetDirection(s: ScrollState, y: int, threshold: int)
    requires y > 0 && Abs(s.accumulated + y - s.lastScrollY) > threshold
    ensures var t := Step(s, y, threshold);
      t.direction == (if s.accumulated + y - s.lastScrollY > 0 then Down else Up) &&
      t.accumulated == 0 && t.lastScrollY == y &&
      t.headerVisible == (if t.direction != s.direction then t.direction == Up else s.headerVisible)
  {
  }

  /** Every event keeps the state consistent and records its offset as the last one. */
  lemma StepKeepsConsistent(s: ScrollState, y: int, threshold: int)
    requires Consistent(s, threshold)
    ensures Consistent(Step(s, y, threshold), threshold)
    ensures Step(s, y, threshold).lastScrollY == y
  {
  }

  /** A repeated offset changes nothing more once the accumulator is back at zero. */
  lemma RepeatedOffsetIsStable(s: ScrollState, y: int, threshold: int)
    requires y > 0 && threshold >= 0 && s.lastScrollY == y && s.accumulated == 0
    ensures Step(s, y, threshold) == s
  {
  }

  /** With the default threshold a first move of 5 changes nothing visible and a move of 6 hides the header. */
  lemma DefaultThresholdHidesAfterSix()
    ensures Step(ScrollState(Idle, true, 0, 0), 5, DefaultThreshold) == ScrollState(Idle, true, 5, 5)
    ensures Step(ScrollState(Idle, true, 0, 0), 6, DefaultThreshold) == ScrollState(Down, false, 6, 0)
  {
  }

  class ScrollTracker {
    const threshold: int
    var scrollDirection: Direction
    var isHeaderVisible: bool
    var lastScrollY: int
    var accumulatedScrollDelta: int

    function State(): ScrollState
      reads this
    {
      ScrollState(scrollDirection, isHeaderVisible, lastScrollY, accumulatedScrollDelta)
    }

    predicate Valid()
      reads this
    {
      Consistent(State(), threshold)
    }

    /** `useScrollDirection(threshold)`: idle, header shown, both refs at zero. */
    constructor (threshold: int)
      ensures this.threshold == threshold
      ensures State() == ScrollState(Idle, true, 0, 0)
      ensures Valid()
    {
      this.threshold := threshold;
      scrollDirection := Idle;
      isHeaderVisible := true;
      lastScrollY := 0;
      accumulatedScrollDelta := 0;
    }

    /** `onScroll` for the content offset `y`. */
    method OnScroll(y: int)
      requires Valid()
      modifies this
      ensures State() == Step(old(State()), y, threshold)
      ensures Valid()
    {
      StepKeepsConsistent(State(), y, threshold);
      var deltaY := y - lastScrollY;
      if y <= 0 {
        scrollDirection := Idle;
        isHeaderVisible := true;
        accumulatedScrollDelta := 0;
        lastScrollY := y;
        return;
      }
      accumulatedScrollDelta := accumulatedScrollDelta + deltaY;
      if Abs(accumulatedScrollDelta) > threshold {
        var newDirection := if accumulatedScrollDelta > 0 then Down else Up;
        if newDirection != scrollDirection {
          scrollDirection := newDirection;
          isHeaderVisible := newDirection == Up || y <= 0;
        }
        accumulatedScrollDelta := 0;
      }
      lastScrollY := y;
    }
  }
}
