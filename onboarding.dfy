/** The first-run stepper of components/OnboardingTutorial.tsx: a slide
    counter that Next advances and that completes the tutorial on the last
    slide, with Skip completing it from anywhere. */
module Onboarding {

  datatype Slide = Slide(id: nat, title: string)

  /** The four slides, in display order. */
  const Slides: seq<Slide> := [
    Slide(1, "Welcome to FarmAI"),
    Slide(2, "Crop Disease Detection"),
    Slide(3, "Multilingual Farm Assistant"),
    Slide(4, "Works Offline")
  ]

  /** Index of the last slide. */
  const Last: nat := |Slides| - 1

  /** The two buttons. */
  datatype Press = Next | Skip

  /** Where a press leaves the tutorial: the slide shown afterwards, and
      whether `onComplete` was called. */
  datatype Outcome = Outcome(slide: nat, completed: bool)

  /** `handleNext` and `handleSkip` on slide `current`: Next moves one slide
      on, except on the last slide where it completes and stays; Skip
      completes and stays. */
  function Step(current: nat, p: Press): (r: Outcome)
    ensures r.completed <==> p == Skip || current >= Last
    ensures r.slide == (if r.completed then current else current + 1)
    ensures current <= Last ==> r.slide <= Last
  {
    match p
    case Next => if current < Last then Outcome(current + 1, false) else Outcome(current, true)
    case Skip => Outcome(current, true)
  }

  /** The slide reached from `start` after a run of presses, with the
      component taken in isolation: presses after `onComplete` still apply
      (the app's one caller unmounts it on completion). */
  function Run(start: nat, presses: seq<Press>): nat
    decreases |presses|
  {
    if presses == [] then start else Run(Step(start, presses[0]).slide, presses[1..])
  }

  /** `slides[currentSlide]` is always in range: from a valid slide, no run of
      presses leaves the list. */
  lemma {:induction false} RunStaysInRange(start: nat, presses: seq<Press>)
    requires start <= Last
    ensures Run(start, presses) <= Last
    decreases |presses|
  {
    if presses != [] {
      RunStaysInRange(Step(start, presses[0]).slide, presses[1..]);
    }
  }

  /** The slide only moves forward, one slide per Next at most. */
  lemma {:induction false} RunMonotone(start: nat, presses: seq<Press>)
    ensures start <= Run(start, presses) <= start + |presses|
    decreases |presses|
  {
    if presses != [] {
      RunMonotone(Step(start, presses[0]).slide, presses[1..]);
    }
  }

  /** From the first slide, three Nexts reach the last slide without
      completing, and the fourth Next is the one that completes. */
  lemma FourthNextCompletes()
    ensures Run(0, [Next, Next, Next]) == Last
    ensures forall k :: 0 <= k < Last ==> !Step(k, Next).completed
    ensures Step(Last, Next).completed
  {
    assert [Next, Next, Next][1..] == [Next, Next];
    assert [Next, Next][1..] == [Next];
  }

  /** Whether the progress dot at `index` is the active one. */
  function IndicatorActive(current: nat, index: nat): bool
  {
    current == index
  }

  /** The class names of the progress dot at `index`. */
  function IndicatorClass(current: nat, index: nat): (r: string)
    ensures r == "w-6 bg-green-500" <==> IndicatorActive(current, index)
    ensures r == "w-2 bg-gray-300" <==> !IndicatorActive(current, index)
  {
    if current == index then "w-6 bg-green-500" else "w-2 bg-gray-300"
  }

  /** The active flags of the dots at indices `from` up to the last slide. */
  function Indicators(current: nat, from: nat): (r: seq<bool>)
    requires from <= |Slides|
    ensures |r| == |Slides| - from
    ensures forall i :: 0 <= i < |r| ==> r[i] == IndicatorActive(current, from + i)
    decreases |Slides| - from
  {
    if from == |Slides| then [] else [IndicatorActive(current, from)] + Indicators(current, from + 1)
  }

  /** The number of set flags. */
  function CountActive(flags: seq<bool>): nat
  {
    if flags == [] then 0 else (if flags[0] then 1 else 0) + CountActive(flags[1..])
  }

  /** A run of flags whose only possible set flag is at `k` has as many set
      flags as `k` is in range and set. */
  lemma {:induction false} CountOnlyAt(flags: seq<bool>, k: int)
    requires forall i :: 0 <= i < |flags| && i != k ==> !flags[i]
    ensures CountActive(flags) == (if 0 <= k < |flags| && flags[k] then 1 else 0)
    decreases |flags|
  {
    if flags != [] {
      CountOnlyAt(flags[1..], k - 1);
    }
  }

  /** On any slide, exactly one progress dot is active, the one at the
      current slide. */
  lemma ExactlyOneActive(current: nat)
    requires current <= Last
    ensures CountActive(Indicators(current, 0)) == 1
    ensures Indicators(current, 0)[current]
  {
    CountOnlyAt(Indicators(current, 0), current);
  }

  /** The label of the primary button. */
  function NextLabel(current: nat): (r: string)
    ensures r == "Get Started" <==> current == Last
    ensures r == "Next" <==> current != Last
  {
    if current == Last then "Get Started" else "Next"
  }

  /** The component's `currentSlide` state. */
  class Tutorial {
    var currentSlide: nat

    ghost predicate Valid()
      reads this
    {
      currentSlide <= Last
    }

    constructor ()
      ensures Valid() && currentSlide == 0
    {
      currentSlide := 0;
    }

    /** The slide on screen: in range by the invariant. */
    function Current(): (s: Slide)
      reads this
      requires Valid()
      ensures s in Slides
    {
      Slides[currentSlide]
    }

    /** `handleNext`; `completed` says whether `onComplete` was called. */
    method HandleNext() returns (completed: bool)
      requires Valid()
      modifies this
      ensures Valid()
      ensures Outcome(currentSlide, completed) == Step(old(currentSlide), Next)
    {
      if currentSlide < Last {
        currentSlide := currentSlide + 1;
        completed := false;
      } else {
        completed := true;
      }
    }

    /** `handleSkip`: complete, and leave the slide where it is. */
    method HandleSkip() returns (completed: bool)
      requires Valid()
      modifies this
      ensures Valid()
      ensures Outcome(currentSlide, completed) == Step(old(currentSlide), Skip)
    {
      completed := true;
    }
  }

  /** A fresh tutorial: the first three Nexts move through the slides without
      completing, the fourth completes on the last slide, and Skip completes
      from there as well without moving. */
  method WalkThrough() returns (completions: seq<bool>, finalSlide: nat, skipped: bool)
    ensures completions == [false, false, false, true]
    ensures finalSlide == Last && skipped
  {
    var t := new Tutorial();
    var c0 := t.HandleNext();
    var c1 := t.HandleNext();
    var c2 := t.HandleNext();
    var c3 := t.HandleNext();
    completions := [c0, c1, c2, c3];
    skipped := t.HandleSkip();
    finalSlide := t.currentSlide;
  }
}
