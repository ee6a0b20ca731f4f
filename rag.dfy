/** The retrieval-augmented generation demo (components/RAGViz.tsx): an
    eight-state animation that, once started, walks through the pipeline
    one timed step at a time until it is done.

    The effect keyed on `step` is modelled by its visible behaviour: when the
    step changes, the pending timeout (if any) is cleared and, unless the
    new step is IDLE or DONE, a new one is armed with that step's delay.
    Setting the step to its current value changes nothing, as in React. */
module Rag {
  import opened Types

  datatype RagStep = Idle | Input | Decompose | Retrieve | Rerank | Generate | Evaluate | Done

  /** The order the timer walks through. */
  const Flow: seq<RagStep> := [Input, Decompose, Retrieve, Rerank, Generate, Evaluate, Done]

  /** `Array.prototype.indexOf`: the first position of `x`, or -1. */
  function IndexOf(xs: seq<RagStep>, x: RagStep): (i: int)
    ensures -1 <= i < |xs|
    ensures i == -1 <==> x !in xs
    ensures i >= 0 ==> xs[i] == x && x !in xs[..i]
  {
    if xs == [] then -1
    else if xs[0] == x then 0
    else
      var j := IndexOf(xs[1..], x);
      assert j >= 0 ==> xs[..j + 1] == [xs[0]] + xs[1..][..j];
      if j == -1 then -1 else j + 1
  }

  /** The delay of each step's timeout, in milliseconds. */
  function Delay(s: RagStep): nat
  {
    match s
    case Input => 1500
    case Decompose => 2200
    case Retrieve => 2200
    case Rerank => 2200
    case Generate => 3000
    case Evaluate => 2200
    case Done => 0
    case Idle => 0
  }

  /** The steps that arm no timeout. */
  predicate Stable(s: RagStep)
  {
    s == Idle || s == Done
  }

  /** The step the timeout of a moving step writes: `flow[flow.indexOf(step) + 1]`. */
  function Next(s: RagStep): RagStep
    requires !Stable(s)
  {
    assert Flow[Ordinal(s) - 1] == s;
    var i := IndexOf(Flow, s);
    assert Flow[6] == Done;
    Flow[i + 1]
  }

  /** The position of a step in the order of the `Step` type. */
  function Ordinal(s: RagStep): (n: nat)
    ensures n <= 7
  {
    match s
    case Idle => 0
    case Input => 1
    case Decompose => 2
    case Retrieve => 3
    case Rerank => 4
    case Generate => 5
    case Evaluate => 6
    case Done => 7
  }

  lemma FlowPositions()
    ensures forall k :: 0 <= k < |Flow| ==> Ordinal(Flow[k]) == k + 1
  {
  }

  /** Every moving step advances to its immediate successor, and the flow
      never goes back to IDLE. */
  lemma NextIsSuccessor(s: RagStep)
    requires !Stable(s)
    ensures Ordinal(Next(s)) == Ordinal(s) + 1
    ensures Next(s) != Idle
  {
    FlowPositions();
    var i := IndexOf(Flow, s);
    assert Ordinal(Flow[i]) == i + 1;
  }

  /** The steps visited from `s` when nothing interrupts the timer. */
  function Trail(s: RagStep): (t: seq<RagStep>)
    requires s != Idle
    ensures t != [] && t[0] == s && t[|t| - 1] == Done
    ensures |t| == 8 - Ordinal(s)
    decreases 7 - Ordinal(s)
  {
    if s == Done then [s]
    else
      NextIsSuccessor(s);
      [s] + Trail(Next(s))
  }

  /** The time the uninterrupted walk from `s` to DONE takes. */
  function RemainingTime(s: RagStep): nat
    requires s != Idle
    decreases 7 - Ordinal(s)
  {
    if s == Done then 0
    else
      NextIsSuccessor(s);
      Delay(s) + RemainingTime(Next(s))
  }

  lemma {:induction false} TrailVisitsInOrder(s: RagStep)
    requires s != Idle
    ensures forall k :: 0 <= k < |Trail(s)| ==> Ordinal(Trail(s)[k]) == Ordinal(s) + k
    decreases 7 - Ordinal(s)
  {
    if s != Done {
      NextIsSuccessor(s);
      var n := Next(s);
      TrailVisitsInOrder(n);
      var t := Trail(s);
      var t' := Trail(n);
      assert t == [s] + t';
      forall k | 0 <= k < |t|
        ensures Ordinal(t[k]) == Ordinal(s) + k
      {
        if k > 0 {
          assert t[k] == t'[k - 1];
        }
      }
    }
  }

  function SumDelays(t: seq<RagStep>): nat
  {
    if t == [] then 0 else Delay(t[0]) + SumDelays(t[1..])
  }

  /** The walk's time is the sum of the delays of the steps it passes. */
  lemma {:induction false} RemainingIsSum(s: RagStep)
    requires s != Idle
    ensures RemainingTime(s) == SumDelays(Trail(s))
    decreases 7 - Ordinal(s)
  {
    if s != Done {
      NextIsSuccessor(s);
      RemainingIsSum(Next(s));
      assert Trail(s)[1..] == Trail(Next(s));
    }
  }

  /** Started from INPUT, the walk visits every step of the flow in order,
      which is six transitions ending at DONE. */
  lemma TrailFromInput()
    ensures Trail(Input) == Flow
    ensures |Trail(Input)| - 1 == 6
  {
    TrailVisitsInOrder(Input);
    FlowPositions();
    var t := Trail(Input);
    forall k | 0 <= k < |Flow|
      ensures t[k] == Flow[k]
    {
      OrdinalInjective(t[k], Flow[k]);
    }
  }

  lemma {:induction false} SumDelaysAppend(a: seq<RagStep>, b: seq<RagStep>)
    ensures SumDelays(a + b) == SumDelays(a) + SumDelays(b)
  {
    if a != [] {
      assert (a + b)[1..] == a[1..] + b;
      SumDelaysAppend(a[1..], b);
    } else {
      assert a + b == b;
    }
  }

  /** The delays of the flow add up to 13300 ms. */
  lemma FlowDelays()
    ensures SumDelays(Flow) == 13300
  {
    var a := [Input, Decompose, Retrieve];
    var b := [Rerank, Generate, Evaluate, Done];
    assert Flow == a + b;
    SumDelaysAppend(a, b);
  }

  /** Started from INPUT, the walk reaches DONE after 13300 ms. */
  lemma TimeFromInput()
    ensures RemainingTime(Input) == 13300
  {
    RemainingIsSum(Input);
    TrailFromInput();
    FlowDelays();
  }

  lemma OrdinalInjective(a: RagStep, b: RagStep)
    requires Ordinal(a) == Ordinal(b)
    ensures a == b
  {
  }

  // ---------------------------------------------------------------------
  // The pipeline nodes

  /** The six steps drawn as nodes of the pipeline. */
  predicate IsNode(n: RagStep)
  {
    !Stable(n)
  }

  predicate IsActive(node: RagStep, step: RagStep)
  {
    step == node
  }

  /** The `isDone` flag each node is drawn with. */
  predicate IsDone(node: RagStep, step: RagStep)
    requires IsNode(node)
  {
    match node
    case Input => step != Idle && step != Input
    case Decompose => step in [Retrieve, Rerank, Generate, Evaluate, Done]
    case Retrieve => step in [Rerank, Generate, Evaluate, Done]
    case Rerank => step in [Generate, Evaluate, Done]
    case Generate => step in [Evaluate, Done]
    case Evaluate => step == Done
  }

  /** A node is done iff the animation has gone past it. */
  lemma DoneIffAfter(node: RagStep, step: RagStep)
    requires IsNode(node)
    ensures IsDone(node, step) <==> Ordinal(step) > Ordinal(node)
  {
  }

  /** A node is never both active and done, at most one node is active, and
      none is while the animation rests. */
  lemma ActiveNodes(step: RagStep)
    ensures forall n :: IsNode(n) && IsActive(n, step) ==> !IsDone(n, step)
    ensures forall m, n :: IsActive(m, step) && IsActive(n, step) ==> m == n
    ensures Stable(step) ==> forall n :: IsNode(n) ==> !IsActive(n, step)
  {
    forall n | IsNode(n) && IsActive(n, step)
      ensures !IsDone(n, step)
    {
      DoneIffAfter(n, step);
    }
  }

  /** The start control is shown instead of the reset control exactly when
      no timeout is pending. */
  predicate StartOffered(step: RagStep)
  {
    step == Idle || step == Done
  }

  // ---------------------------------------------------------------------
  // The animator

  class RagAnimator {
    var step: RagStep
    /** The delay of the pending timeout, if one is armed. */
    var timer: Option<nat>

    ghost predicate Valid()
      reads this
    {
      timer == if Stable(step) then None else Some(Delay(step))
    }

    constructor ()
      ensures Valid() && step == Idle && timer == None
    {
      step := Idle;
      timer := None;
    }

    /** `setStep` and the effect it triggers. */
    method SetStep(s: RagStep)
      requires Valid()
      modifies this
      ensures Valid()
      ensures step == s
      ensures s == old(step) ==> timer == old(timer)
    {
      if s != step {
        step := s;
        timer := if Stable(s) then None else Some(Delay(s));
      }
    }

    /** startSim. */
    method Start()
      requires Valid()
      modifies this
      ensures Valid() && step == Input && timer == Some(1500)
    {
      SetStep(Input);
    }

    /** resetSim. */
    method Reset()
      requires Valid()
      modifies this
      ensures Valid() && step == Idle && timer == None
    {
      SetStep(Idle);
    }

    /** The pending timeout fires; without one nothing happens. */
    method TimerFired()
      requires Valid()
      modifies this
      ensures Valid()
      ensures Stable(old(step)) ==> step == old(step)
      ensures !Stable(old(step)) ==> step == Next(old(step)) && Ordinal(step) == Ordinal(old(step)) + 1
    {
      if timer.Some? {
        NextIsSuccessor(step);
        SetStep(Next(step));
      }
    }

    /** The start control is offered iff no timeout is pending. */
    function CanStart(): (b: bool)
      reads this
      requires Valid()
      ensures b <==> timer.None?
    {
      StartOffered(step)
    }
  }
}
