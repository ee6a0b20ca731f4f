/** The single-neuron trainer shown beside the fine-tuning lab
    (components/SingleNeuronViz.tsx): one ReLU neuron with two inputs, a
    fixed bias and a fixed target, trained by gradient descent in a loop of
    three timed phases while the lab is training.

    The chained `setTimeout`s become one pending timer, fired by
    `TimerFired`; the effect keyed on `isTraining` becomes `SetTraining`.
    Arithmetic is over `real`. */
module Neuron {
  import opened Types

  datatype Phase = Idle | Forward | Backward | Update

  /** A pair of numbers: the two weights, or the two gradient components. */
  datatype Pair = Pair(first: real, second: real)

  /** The starting weights. The inputs (0.8, 0.5), the bias 0.1, the target
      0.9 and the learning rate 0.05 are fixed, and are written into the
      arithmetic below as literals. */
  const InitialWeights := Pair(0.3, -0.2)

  /** How long each phase lasts before the next timeout fires, in ms. */
  function PhaseDelay(p: Phase): nat
  {
    match p
    case Forward => 1500
    case Backward => 1500
    case Update => 800
    case Idle => 0
  }

  /** The weighted sum of the inputs plus the bias. */
  function Sum(w: Pair): real
  {
    0.8 * w.first + 0.5 * w.second + 0.1
  }

  /** The neuron's output: the ReLU of the sum. */
  function Predict(w: Pair): (y: real)
    ensures y >= 0.0
    ensures y >= Sum(w)
    ensures y == Sum(w) || y == 0.0
  {
    if 0.0 > Sum(w) then 0.0 else Sum(w)
  }

  /** The output's distance from the target. */
  function Error(w: Pair): real
  {
    Predict(w) - 0.9
  }

  /** The displayed gradient: the error times each input. */
  function Gradient(w: Pair): (g: Pair)
    ensures g.first == 0.8 * Error(w) && g.second == 0.5 * Error(w)
  {
    Pair(Error(w) * 0.8, Error(w) * 0.5)
  }

  /** One gradient-descent step on both weights. */
  function Descend(w: Pair): (w': Pair)
    ensures w'.first == w.first - 0.05 * Gradient(w).first
    ensures w'.second == w.second - 0.05 * Gradient(w).second
  {
    var e := Error(w);
    Pair(w.first - 0.05 * e * 0.8, w.second - 0.05 * e * 0.5)
  }

  /** Weights whose sum lies between 0 and the target. */
  predicate InBasin(w: Pair)
  {
    0.0 <= Sum(w) <= 0.9
  }

  /** Within the basin a step scales the error by 0.9555, which is
      1 - 0.05 * (0.8 * 0.8 + 0.5 * 0.5), moves the output towards the
      target and stays in the basin. */
  lemma DescentShrinksError(w: Pair)
    requires InBasin(w)
    ensures InBasin(Descend(w))
    ensures Error(Descend(w)) == 0.9555 * Error(w)
    ensures Error(w) <= Error(Descend(w)) <= 0.0
  {
    var e := Error(w);
    var w' := Descend(w);
    assert Sum(w') == Sum(w) - 0.0445 * e;
  }

  lemma InitialInBasin()
    ensures InBasin(InitialWeights)
    ensures Error(InitialWeights) == -0.66
  {
  }

  function Pow(x: real, n: nat): real
  {
    if n == 0 then 1.0 else x * Pow(x, n - 1)
  }

  /** After `n` updates from the initial weights the error is the initial
      error, -0.66, scaled by 0.9555 n times. */
  function Trained(n: nat): (w: Pair)
    ensures InBasin(w)
    ensures Error(w) == -0.66 * Pow(0.9555, n)
  {
    if n == 0 then
      InitialInBasin();
      InitialWeights
    else
      var w := Trained(n - 1);
      DescentShrinksError(w);
      Descend(w)
  }

  /** The error never grows from one epoch to the next. */
  lemma {:induction false} ErrorMonotone(m: nat, n: nat)
    requires m <= n
    ensures Error(Trained(m)) <= Error(Trained(n)) <= 0.0
    decreases n - m
  {
    if m < n {
      ErrorMonotone(m, n - 1);
      DescentShrinksError(Trained(n - 1));
    } else {
      DescentShrinksError(Trained(n));
    }
  }

  class NeuronViz {
    var isTraining: bool
    var phase: Phase
    var weights: Pair
    var output: real
    var gradient: Pair
    var epoch: nat
    /** The delay of the pending timeout, if one is armed. */
    var timer: Option<nat>

    ghost predicate Valid()
      reads this
    {
      && (isTraining <==> phase != Idle)
      && timer == (if phase == Idle then None else Some(PhaseDelay(phase)))
      && weights == Trained(epoch)
      && output >= 0.0
      && (phase == Idle ==> epoch == 0 && output == 0.0 && gradient == Pair(0.0, 0.0))
      && (phase == Backward ==> output == Predict(weights) && gradient == Gradient(weights))
    }

    /** The first render: the state's initial values, then the effect. */
    constructor (training: bool)
      ensures Valid()
      ensures isTraining == training
      ensures phase == (if training then Forward else Idle)
      ensures weights == InitialWeights && output == 0.0 && epoch == 0 && gradient == Pair(0.0, 0.0)
    {
      isTraining := training;
      phase := if training then Forward else Idle;
      weights := InitialWeights;
      output := 0.0;
      gradient := Pair(0.0, 0.0);
      epoch := 0;
      timer := if training then Some(PhaseDelay(Forward)) else None;
    }

    /** The effect on `isTraining`: nothing when the prop is unchanged;
        otherwise the pending timeout is cleared and the neuron either
        resets to its initial state or starts a cycle with a forward pass. */
    method SetTraining(training: bool)
      requires Valid()
      modifies this
      ensures Valid()
      ensures isTraining == training
      ensures training == old(isTraining) ==>
        phase == old(phase) && weights == old(weights) && output == old(output)
        && gradient == old(gradient) && epoch == old(epoch) && timer == old(timer)
      ensures training != old(isTraining) && !training ==>
        phase == Idle && timer == None && weights == InitialWeights && output == 0.0
        && epoch == 0 && gradient == Pair(0.0, 0.0)
      ensures training != old(isTraining) && training ==>
        phase == Forward && timer == Some(1500) && weights == old(weights) && output == old(output)
        && gradient == old(gradient) && epoch == old(epoch)
    {
      if training != isTraining {
        isTraining := training;
        timer := None;
        if !training {
          phase := Idle;
          weights := InitialWeights;
          output := 0.0;
          epoch := 0;
          gradient := Pair(0.0, 0.0);
        } else {
          phase := Forward;
          timer := Some(PhaseDelay(Forward));
        }
      }
    }

    /** The pending timeout fires: FORWARD gives way to BACKWARD, which shows
        the output and gradient and keeps the weights; BACKWARD gives way to
        UPDATE, which takes one descent step and counts an epoch; UPDATE
        loops back to FORWARD. */
    method TimerFired()
      requires Valid()
      modifies this
      ensures Valid()
      ensures isTraining == old(isTraining)
      ensures old(phase) == Idle ==>
        phase == Idle && weights == old(weights) && output == old(output)
        && gradient == old(gradient) && epoch == old(epoch)
      ensures old(phase) == Forward ==>
        phase == Backward && weights == old(weights) && epoch == old(epoch)
        && output == Predict(old(weights)) && gradient == Gradient(old(weights))
      ensures old(phase) == Backward ==>
        phase == Update && weights == Descend(old(weights)) && epoch == old(epoch) + 1
        && output == old(output) && gradient == old(gradient)
        && Error(old(weights)) <= Error(weights) <= 0.0
      ensures old(phase) == Update ==>
        phase == Forward && weights == old(weights) && epoch == old(epoch)
        && output == old(output) && gradient == old(gradient)
    {
      match phase
      case Idle =>
      case Forward =>
        phase := Backward;
        output := Predict(weights);
        gradient := Gradient(weights);
        timer := Some(PhaseDelay(Backward));
      case Backward =>
        phase := Update;
        DescentShrinksError(weights);
        weights := Descend(weights);
        epoch := epoch + 1;
        timer := Some(PhaseDelay(Update));
      case Update =>
        phase := Forward;
        timer := Some(PhaseDelay(Forward));
    }
  }
}
