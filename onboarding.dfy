/** The onboarding carousel of app/index.tsx. Its side effects (scrolling
    the list, writing the seen flag, replacing the route) are recorded in
    order in a log. */
module Onboarding {

  /** The carousel has three slides. */
  const SlideCount := 3

  datatype Effect =
    | ScrollToIndex(index: int)
    | StorageWrite(key: string, value: string)
    | ReplaceRoute(path: string)

  /** The effects of `handleNext`: before the last slide, a scroll request
      to the next one and nothing else; otherwise the seen flag is written,
      then the route is replaced. */
  function NextEffects(currentIndex: int): (r: seq<Effect>)
    ensures currentIndex < SlideCount - 1 ==> r == [ScrollToIndex(currentIndex + 1)]
    ensures currentIndex >= SlideCount - 1 ==>
              r == [StorageWrite("hasSeenOnboarding", "true"), ReplaceRoute("/welcome")]
  {
    if currentIndex < SlideCount - 1 then [ScrollToIndex(currentIndex + 1)]
    else [StorageWrite("hasSeenOnboarding", "true"), ReplaceRoute("/welcome")]
  }

  /** A dot is lit when its index is the current one. */
  predicate DotActive(dot: int, currentIndex: int) {
    dot == currentIndex
  }

  /** The dots that are lit. */
  function ActiveDots(currentIndex: int): (dots: set<int>)
    ensures forall d :: d in dots <==> 0 <= d < SlideCount && DotActive(d, currentIndex)
  {
    set d | 0 <= d < SlideCount && DotActive(d, currentIndex)
  }

  /** Exactly one dot is lit while the index names a slide, none otherwise. */
  lemma ExactlyOneDotActive(currentIndex: int)
    ensures 0 <= currentIndex < SlideCount ==> |ActiveDots(currentIndex)| == 1
    ensures !(0 <= currentIndex < SlideCount) ==> ActiveDots(currentIndex) == {}
  {
    if 0 <= currentIndex < SlideCount {
      assert ActiveDots(currentIndex) == {currentIndex};
    } else {
      assert forall d :: d !in ActiveDots(currentIndex);
    }
  }

  /** The button's text. */
  function ButtonLabel(currentIndex: int): (text: string)
    ensures text == "Get Started" <==> currentIndex == SlideCount - 1
    ensures text != "Get Started" ==> text == "Next"
  {
    if currentIndex == SlideCount - 1 then "Get Started" else "Next"
  }

  /** On a slide, pressing the button finishes onboarding exactly when the
      button reads "Get Started"; past the last slide it would finish while
      still reading "Next". */
  lemma FinishesIffGetStarted(currentIndex: int)
    ensures 0 <= currentIndex < SlideCount ==>
              (NextEffects(currentIndex)[|NextEffects(currentIndex)| - 1] == ReplaceRoute("/welcome")
               <==> ButtonLabel(currentIndex) == "Get Started")
    ensures currentIndex >= SlideCount ==>
              NextEffects(currentIndex)[1] == ReplaceRoute("/welcome") && ButtonLabel(currentIndex) == "Next"
  {
  }

  class OnboardingScreen {
    var currentIndex: int
    var effects: seq<Effect>

    constructor ()
      ensures currentIndex == 0 && effects == []
    {
      currentIndex := 0;
      effects := [];
    }

    /** `handleNext`: issues its effects and leaves the index alone; only
        the scroll handler changes it. */
    method HandleNext()
      modifies this`effects
      ensures effects == old(effects) + NextEffects(currentIndex)
    {
      if currentIndex < SlideCount - 1 {
        effects := effects + [ScrollToIndex(currentIndex + 1)];
      } else {
        effects := effects + [StorageWrite("hasSeenOnboarding", "true")];
        effects := effects + [ReplaceRoute("/welcome")];
      }
    }

    /** `handleSkip`: to the welcome screen, without writing the flag. */
    method HandleSkip()
      modifies this`effects
      ensures effects == old(effects) + [ReplaceRoute("/welcome")]
    {
      effects := effects + [ReplaceRoute("/welcome")];
    }

    /** `updateIndex`, with the rounded scroll position supplied. */
    method UpdateIndex(index: int)
      modifies this`currentIndex
      ensures currentIndex == index
    {
      currentIndex := index;
    }
  }
}
