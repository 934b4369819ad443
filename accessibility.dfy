/**
 * The accessibility panel's two settings: the font-size multiplier applied
 * to every element's original font size, clamped to 70%–200% in steps of
 * 0.1, and the colour filter, which cycles through four CSS filters.
 */
module Accessibility {

  const FontStep: real := 0.1
  const MaxMultiplier: real := 2.0
  const MinMultiplier: real := 0.7

  /** The colour filters in the order the toggle visits them. */
  const Filters: seq<string> := [
    "none", "grayscale(100%)", "contrast(150%) saturate(120%)", "invert(100%)"]

  function Min(a: real, b: real): real { if a <= b then a else b }
  function Max(a: real, b: real): real { if a >= b then a else b }

  predicate InRange(m: real) { MinMultiplier <= m <= MaxMultiplier }

  // ---------------------------------------------------------------------------
  // Font size
  // ---------------------------------------------------------------------------

  /** "A+": one step larger, at most 200%. */
  function Increased(m: real): (r: real)
    ensures r <= MaxMultiplier
    ensures m + FontStep <= MaxMultiplier ==> r == m + FontStep
    ensures m + FontStep > MaxMultiplier ==> r == MaxMultiplier
    ensures InRange(m) ==> InRange(r) && r >= m
  {
    Min(m + FontStep, MaxMultiplier)
  }

  /** "A-": one step smaller, at least 70%. */
  function Decreased(m: real): (r: real)
    ensures r >= MinMultiplier
    ensures m - FontStep >= MinMultiplier ==> r == m - FontStep
    ensures m - FontStep < MinMultiplier ==> r == MinMultiplier
    ensures InRange(m) ==> InRange(r) && r <= m
  {
    Max(m - FontStep, MinMultiplier)
  }

  /** The multiplier after n presses of "A+". */
  function IncreasedTimes(m: real, n: nat): real
    decreases n
  {
    if n == 0 then m else Increased(IncreasedTimes(m, n - 1))
  }

  /** The multiplier after n presses of "A-". */
  function DecreasedTimes(m: real, n: nat): real
    decreases n
  {
    if n == 0 then m else Decreased(DecreasedTimes(m, n - 1))
  }

  /** n presses of "A+" add n steps until the 200% cap, and then stay there. */
  lemma {:induction false} IncreasedTimesClamps(m: real, n: nat)
    requires m <= MaxMultiplier
    ensures IncreasedTimes(m, n) == Min(m + n as real * FontStep, MaxMultiplier)
    decreases n
  {
    if n > 0 {
      IncreasedTimesClamps(m, n - 1);
    }
  }

  /** n presses of "A-" remove n steps until the 70% floor, and then stay there. */
  lemma {:induction false} DecreasedTimesClamps(m: real, n: nat)
    requires m >= MinMultiplier
    ensures DecreasedTimes(m, n) == Max(m - n as real * FontStep, MinMultiplier)
    decreases n
  {
    if n > 0 {
      DecreasedTimesClamps(m, n - 1);
    }
  }

  /** From the initial 100%, ten presses of "A+" reach 200% and three presses
      of "A-" reach 70%. */
  lemma FontRangeFromDefault()
    ensures IncreasedTimes(1.0, 10) == MaxMultiplier
    ensures DecreasedTimes(1.0, 3) == MinMultiplier
    ensures IncreasedTimes(1.0, 9) < MaxMultiplier && DecreasedTimes(1.0, 2) > MinMultiplier
  {
    IncreasedTimesClamps(1.0, 10);
    IncreasedTimesClamps(1.0, 9);
    DecreasedTimesClamps(1.0, 3);
    DecreasedTimesClamps(1.0, 2);
  }

  /** Away from the 200% cap, "A-" undoes "A+". */
  lemma DecreaseUndoesIncrease(m: real)
    requires MinMultiplier <= m && m + FontStep <= MaxMultiplier
    ensures Decreased(Increased(m)) == m
  {
  }

  /** `applyFontSize`: an element's size is its original size times the
      multiplier, so it stays between 70% and 200% of the original. */
  function ScaledFontSize(base: real, m: real): (size: real)
    requires base >= 0.0 && InRange(m)
    ensures MinMultiplier * base <= size <= MaxMultiplier * base
  {
    base * m
  }

  // ---------------------------------------------------------------------------
  // Colour filter
  // ---------------------------------------------------------------------------

  /** The colour-blind toggle's next filter index. */
  function NextFilter(c: nat): (r: nat)
    ensures r < |Filters|
    ensures c < |Filters| - 1 ==> r == c + 1
    ensures c == |Filters| - 1 ==> r == 0
  {
    (c + 1) % |Filters|
  }

  /** The filter index after n presses. */
  function NextFilterTimes(c: nat, n: nat): nat
    decreases n
  {
    if n == 0 then c else NextFilter(NextFilterTimes(c, n - 1))
  }

  /** n presses advance the filter by n places around the cycle. */
  lemma {:induction false} FilterCycle(c: nat, n: nat)
    requires c < |Filters|
    ensures NextFilterTimes(c, n) == (c + n) % |Filters|
    decreases n
  {
    if n > 0 {
      FilterCycle(c, n - 1);
    }
  }

  /** Four presses bring back the filter in use, and fewer never do. */
  lemma FilterPeriodIsFour(c: nat)
    requires c < |Filters|
    ensures NextFilterTimes(c, |Filters|) == c
    ensures forall n :: 0 < n < |Filters| ==> NextFilterTimes(c, n) != c
  {
    FilterCycle(c, |Filters|);
    forall n | 0 < n < |Filters| ensures NextFilterTimes(c, n) != c {
      FilterCycle(c, n);
    }
  }

  // ---------------------------------------------------------------------------
  // The settings as the page keeps them
  // ---------------------------------------------------------------------------

  /** `fontSizeMultiplier` and `currentFilter`, with the CSS filter the body
      shows (none before the first press). */
  class Settings {
    var fontSizeMultiplier: real
    var currentFilter: nat
    var bodyFilter: string

    ghost predicate Valid()
      reads this
    {
      InRange(fontSizeMultiplier) && currentFilter < |Filters|
    }

    constructor ()
      ensures Valid()
      ensures fontSizeMultiplier == 1.0 && currentFilter == 0 && bodyFilter == ""
    {
      fontSizeMultiplier := 1.0;
      currentFilter := 0;
      bodyFilter := "";
    }

    method IncreaseFont()
      requires Valid()
      modifies this`fontSizeMultiplier
      ensures Valid()
      ensures fontSizeMultiplier == Increased(old(fontSizeMultiplier))
    {
      fontSizeMultiplier := Min(fontSizeMultiplier + FontStep, MaxMultiplier);
    }

    method DecreaseFont()
      requires Valid()
      modifies this`fontSizeMultiplier
      ensures Valid()
      ensures fontSizeMultiplier == Decreased(old(fontSizeMultiplier))
    {
      fontSizeMultiplier := Max(fontSizeMultiplier - FontStep, MinMultiplier);
    }

    /** The colour-blind toggle: the next filter, applied to the page body. */
    method ToggleColorFilter()
      requires Valid()
      modifies this`currentFilter, this`bodyFilter
      ensures Valid()
      ensures currentFilter == NextFilter(old(currentFilter))
      ensures bodyFilter == Filters[currentFilter]
    {
      currentFilter := (currentFilter + 1) % |Filters|;
      bodyFilter := Filters[currentFilter];
    }
  }
}
