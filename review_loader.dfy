/** The progress animation shown while reviews load (`ReviewLoader`): a
    percentage that advances one point per timer tick up to 100, and the
    step caption it selects. A tick is one firing of the timer; its 50 ms
    period is not modelled. */
module ReviewLoader {

  /** The four step captions, in order. */
  const Steps: seq<string> := ["Collecting reviews...", "Analyzing sentiment...", "Generating insights...", "Preparing results..."]

  const Done := 100

  /** The step shown for a progress value: 0 below 25, 1 below 50, 2 below
      75, 3 from 75 on; always a valid index into the captions. */
  function StepFor(progress: int): (s: nat)
    ensures s < |Steps|
    ensures s == 0 <==> progress < 25
    ensures s == 3 <==> progress >= 75
    ensures 25 * s <= progress || s == 0
    ensures progress < 25 * (s + 1) || s == 3
  {
    if progress < 25 then 0
    else if progress < 50 then 1
    else if progress < 75 then 2
    else 3
  }

  /** The step never goes back as progress grows. */
  lemma StepMonotone(p: int, q: int)
    requires p <= q
    ensures StepFor(p) <= StepFor(q)
  {
  }

  class Loader {
    var progress: int
    var currentStep: nat

    /** Progress stays within 0..100 and the step is the one it selects. */
    predicate Valid()
      reads this
    {
      0 <= progress <= Done && currentStep == StepFor(progress)
    }

    constructor ()
      ensures Valid() && progress == 0 && currentStep == 0
    {
      progress := 0;
      currentStep := 0;
    }

    /** The caption on screen, `steps[currentStep].text`. */
    function Caption(): (c: string)
      requires Valid()
      reads this
      ensures c in Steps
    {
      Steps[currentStep]
    }

    /** One timer firing: below 100 progress advances by exactly one and the
        step follows it; at 100 nothing changes. */
    method Tick()
      requires Valid()
      modifies this
      ensures Valid()
      ensures progress == if old(progress) < Done then old(progress) + 1 else old(progress)
      ensures old(currentStep) <= currentStep
    {
      if progress < Done {
        var next := progress + 1;
        StepMonotone(progress, next);
        currentStep := StepFor(next);
        progress := next;
      }
    }

    /** The effect re-arms the timer after every change of progress: after
        `ticks` firings from any valid state the progress has advanced by
        `ticks`, capped at 100. */
    method Animate(ticks: nat)
      requires Valid()
      modifies this
      ensures Valid()
      ensures progress == if old(progress) + ticks < Done then old(progress) + ticks else Done
    {
      var fired := 0;
      while fired < ticks
        invariant 0 <= fired <= ticks
        invariant Valid()
        invariant progress == if old(progress) + fired < Done then old(progress) + fired else Done
      {
        Tick();
        fired := fired + 1;
      }
    }
  }
}
