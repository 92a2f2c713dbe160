/**
 * The onboarding carousel: four slides, Next and Previous buttons that move
 * between them, a Skip button, and the pagination dots.
 */
module Onboarding {
  import opened Wrappers
  import Types

  const Slides: seq<Types.OnboardingSlide> := [
    Types.OnboardingSlide(1, "Find Skilled Professionals",
      "Discover talented professionals in your area for any service you need - from home repairs to creative work.",
      "\U{1F468}\U{200D}\U{1F527}"),
    Types.OnboardingSlide(2, "Offer Your Skills",
      "Showcase your expertise and connect with people who need your services. Turn your skills into income.",
      "\U{1F4BC}"),
    Types.OnboardingSlide(3, "Secure & Reliable",
      "All transactions are secure with built-in payment protection and verified professional profiles.",
      "\U{1F512}"),
    Types.OnboardingSlide(4, "Get Started Today",
      "Join thousands of professionals and clients who trust SkillB for their service needs.",
      "\U{1F680}")
  ]

  const LastIndex := |Slides| - 1

  /** Where Next leads from slide `i`: the following slide, or `None` when Next finishes onboarding. */
  function NextIndex(i: nat): (r: Option<nat>)
    requires i < |Slides|
    ensures r == None <==> i == LastIndex
    ensures r.Some? ==> r.value == i + 1 && r.value < |Slides|
  {
    if i < |Slides| - 1 then Some(i + 1) else None
  }

  /** Where Previous leads from slide `i`: the slide before, or nowhere on the first slide. */
  function PreviousIndex(i: nat): (r: nat)
    requires i < |Slides|
    ensures i > 0 ==> r == i - 1
    ensures i == 0 ==> r == 0
  {
    if i > 0 then i - 1 else i
  }

  /** Previous undoes Next everywhere Next does not finish. */
  lemma PreviousUndoesNext(i: nat)
    requires i < LastIndex
    ensures NextIndex(i).Some? && PreviousIndex(NextIndex(i).value) == i
  {
  }

  /** The slide after `k` presses of Next from slide `i`; `None` once onboarding has finished. */
  function AfterNextPresses(i: nat, k: nat): Option<nat>
    requires i < |Slides|
    decreases k
  {
    if k == 0 then Some(i)
    else match NextIndex(i)
      case None => None
      case Some(j) => AfterNextPresses(j, k - 1)
  }

  /** From slide `i`, Next walks through every later slide and finishes on the press after the last one. */
  lemma {:induction false} NextReachesFinish(i: nat)
    requires i < |Slides|
    ensures forall k :: 0 <= k < |Slides| - i ==> AfterNextPresses(i, k) == Some(i + k)
    ensures AfterNextPresses(i, |Slides| - i) == None
    decreases |Slides| - i
  {
    if i < LastIndex {
      NextReachesFinish(i + 1);
      forall k | 0 < k < |Slides| - i
        ensures AfterNextPresses(i, k) == Some(i + k)
      {
        assert AfterNextPresses(i, k) == AfterNextPresses(i + 1, k - 1);
      }
      assert AfterNextPresses(i, |Slides| - i) == AfterNextPresses(i + 1, |Slides| - (i + 1));
    }
  }

  /** The Previous button is rendered only after the first slide. */
  predicate ShowsPrevious(i: nat) {
    i > 0
  }

  /** The caption of the Next button. */
  function NextCaption(i: nat): (caption: string)
    ensures caption == "Get Started" <==> i == LastIndex
    ensures caption == "Next" <==> i != LastIndex
  {
    if i == |Slides| - 1 then "Get Started" else "Next"
  }

  /** The pagination: one dot per slide, `true` for the active one. */
  function Dots(i: nat): (dots: seq<bool>)
    ensures |dots| == |Slides|
    ensures forall k :: 0 <= k < |dots| ==> (dots[k] <==> k == i)
  {
    seq(|Slides|, k => k == i)
  }

  function DotColor(active: bool): string {
    if active then "#FFFFFF" else "rgba(255, 255, 255, 0.3)"
  }

  function DotWidth(active: bool): (w: nat)
    ensures w == 20 || w == 8
  {
    if active then 20 else 8
  }

  /** The number of active dots. */
  function ActiveCount(dots: seq<bool>): nat {
    if dots == [] then 0 else (if dots[0] then 1 else 0) + ActiveCount(dots[1..])
  }

  /** On any slide exactly one dot is active, and it is wide and white. */
  lemma OneActiveDot(i: nat)
    requires i < |Slides|
    ensures ActiveCount(Dots(i)) == 1
    ensures DotWidth(Dots(i)[i]) == 20 && DotColor(Dots(i)[i]) == "#FFFFFF"
  {
    ActiveCountSingle(Dots(i), i);
  }

  lemma {:induction false} ActiveCountSingle(dots: seq<bool>, i: nat)
    requires i < |dots|
    requires forall k :: 0 <= k < |dots| ==> (dots[k] <==> k == i)
    ensures ActiveCount(dots) == 1
  {
    if i == 0 {
      NoneActive(dots[1..]);
    } else {
      ActiveCountSingle(dots[1..], i - 1);
    }
  }

  lemma {:induction false} NoneActive(dots: seq<bool>)
    requires forall k :: 0 <= k < |dots| ==> !dots[k]
    ensures ActiveCount(dots) == 0
  {
    if dots != [] {
      NoneActive(dots[1..]);
    }
  }

  class OnboardingScreen {
    var currentIndex: nat

    predicate Valid()
      reads this
    {
      currentIndex < |Slides|
    }

    constructor ()
      ensures Valid() && currentIndex == 0
    {
      currentIndex := 0;
    }

    /**
     * `scrollToNext`: scrolls to the following slide (the list reports it back
     * as the new index), or reports that onboarding is finished on the last one.
     */
    method ScrollToNext() returns (finished: bool)
      requires Valid()
      modifies this
      ensures Valid()
      ensures finished <==> NextIndex(old(currentIndex)) == None
      ensures currentIndex == (if finished then old(currentIndex) else NextIndex(old(currentIndex)).value)
    {
      if currentIndex < |Slides| - 1 {
        currentIndex := currentIndex + 1;
        finished := false;
      } else {
        finished := true;
      }
    }

    /** `scrollToPrevious`. */
    method ScrollToPrevious()
      requires Valid()
      modifies this
      ensures Valid()
      ensures currentIndex == PreviousIndex(old(currentIndex))
    {
      if currentIndex > 0 {
        currentIndex := currentIndex - 1;
      }
    }

    /** The Skip button finishes onboarding from any slide. */
    method Skip() returns (finished: bool)
      ensures finished
    {
      finished := true;
    }

    /** `onViewableItemsChanged`: the first visible slide becomes the current one. */
    method ViewableItemsChanged(visible: seq<nat>)
      requires Valid()
      requires forall k :: 0 <= k < |visible| ==> visible[k] < |Slides|
      modifies this
      ensures Valid()
      ensures currentIndex == if visible == [] then old(currentIndex) else visible[0]
    {
      if |visible| > 0 {
        currentIndex := visible[0];
      }
    }
  }
}
