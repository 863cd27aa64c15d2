/** The processing overlay: a cosmetic percentage that an interval steps by one
    until it has reached 100, then reports completion once; and the per-stage
    status shown in the stage list. */
module ProcessingOverlay {

  const Stages: seq<string> :=
    ["Analyzing documents", "Extracting key information", "Generating study materials", "Finalizing content"]

  /** The heading: the label of the current stage. The labels are distinct,
      so it names exactly one entry of the list, the one shown in bold. */
  function Heading(stage: nat): (r: string)
    requires stage < |Stages|
    ensures forall i :: 0 <= i < |Stages| ==> (Stages[i] == r <==> i == stage)
  {
    Stages[stage]
  }

  datatype StageStatus = Done | Current | Pending

  function StatusOf(i: nat, stage: nat, progress: nat): StageStatus
  {
    if i < stage || (i == stage && progress == 100) then Done
    else if i == stage then Current
    else Pending
  }

  /** Exactly the stages before the current one are done, the current one is
      done once progress shows 100, and at most one stage is current. */
  lemma StatusClassification(stage: nat, progress: nat)
    ensures forall i: nat :: i < stage ==> StatusOf(i, stage, progress) == Done
    ensures forall i: nat :: i > stage ==> StatusOf(i, stage, progress) == Pending
    ensures StatusOf(stage, stage, progress) == (if progress == 100 then Done else Current)
    ensures forall i: nat, j: nat :: StatusOf(i, stage, progress) == Current && StatusOf(j, stage, progress) == Current ==> i == j
  {
  }

  /** One interval callback: (new progress, whether completion fires now). */
  function Step(progress: nat): (nat, bool)
  {
    if progress >= 100 then (100, true) else (progress + 1, false)
  }

  /** Progress after `n` ticks of an interval that nobody stops. */
  function After(progress: nat, n: nat): nat
  {
    if n == 0 then progress else Step(After(progress, n - 1)).0
  }

  /** The n-th tick (counting from 1) is the one that fires completion. */
  predicate FiresOnTick(progress: nat, n: nat)
  {
    n >= 1 && Step(After(progress, n - 1)).1
  }

  /** From any progress up to 100, progress climbs by one per tick and stays at 100. */
  lemma {:induction false} AfterTicks(progress: nat, n: nat)
    requires progress <= 100
    ensures After(progress, n) == if progress + n <= 100 then progress + n else 100
  {
    if n > 0 {
      AfterTicks(progress, n - 1);
    }
  }

  /** Completion fires first on tick 101 - progress: tick 101 from 0, tick 1
      from a progress already at 100. */
  lemma FirstFiringTick(progress: nat)
    requires progress <= 100
    ensures FiresOnTick(progress, 101 - progress)
    ensures forall n :: 1 <= n < 101 - progress ==> !FiresOnTick(progress, n)
  {
    AfterTicks(progress, 100 - progress);
    forall n | 1 <= n < 101 - progress
      ensures !FiresOnTick(progress, n)
    {
      AfterTicks(progress, n - 1);
    }
  }

  /** A first run from 0 completes on tick 101. Progress is never reset: a later
      run resumes where the previous one stopped, from p it completes on tick
      101 - p (FirstFiringTick), so from 100 on its first tick. */
  lemma FirstAndSecondRun()
    ensures FiresOnTick(0, 101) && forall n :: 1 <= n < 101 ==> !FiresOnTick(0, n)
    ensures FiresOnTick(100, 1)
  {
    FirstFiringTick(0);
    FirstFiringTick(100);
  }

  class AIProcessing {
    var progress: nat
    var intervalRunning: bool

    ghost predicate Valid()
      reads this
    {
      progress <= 100
    }

    constructor ()
      ensures Valid() && progress == 0 && !intervalRunning
    {
      progress := 0;
      intervalRunning := false;
    }

    /** The effect on a change of `isProcessing`: the previous interval is
      cleared, and a new one started only while processing. Progress is kept. */
    method ProcessingChanged(isProcessing: bool)
      requires Valid()
      modifies this`intervalRunning
      ensures Valid() && intervalRunning == isProcessing && progress == old(progress)
    {
      intervalRunning := false;
      if isProcessing {
        intervalRunning := true;
      }
    }

    /** One interval callback: below 100 it adds one; at 100 it clears the
      interval and fires completion. */
    method Tick() returns (completed: bool)
      requires Valid() && intervalRunning
      modifies this
      ensures Valid()
      ensures old(progress) < 100 ==> progress == old(progress) + 1 && !completed && intervalRunning
      ensures old(progress) == 100 ==> progress == 100 && completed && !intervalRunning
    {
      var (next, fire) := Step(progress);
      progress := next;
      if fire {
        intervalRunning := false;
      }
      completed := fire;
    }
  }
}
