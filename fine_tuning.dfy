/** The fine-tuning lab (components/FineTuningLab.tsx): a simulated training
    run over 1000 examples, whose interval ticks advance a step counter, a
    decaying noisy loss and a chart window of the last 50 data points.

    The interval is an explicit `Tick` event. Its callback's closure holds
    the step counter and the simulated loss, and it captured the strategy and
    the step total when it was armed; the `Ticker` record is that closure
    together with the interval handle. Each `Math.random()` draw is a
    parameter in [0, 1). */
module FineTuning {
  import opened Types

  const TotalExamples: nat := 1000
  const WindowSize: nat := 50
  const StartLoss: real := 2.5
  const LossFloor: real := 0.1

  /** The options of the epochs and batch-size selectors. */
  const EpochChoices: seq<nat> := [1, 3, 5, 10]
  const BatchChoices: seq<nat> := [8, 16, 32, 64]

  /** One point of the loss chart. */
  datatype Point = Point(step: nat, loss: real, accuracy: real)

  /** The armed interval: the strategy and step total it was armed with, and
      its closure's `step` and `simulatedLoss`. */
  datatype Ticker = Ticker(strategy: TrainingMethod, total: nat, step: nat, loss: real)

  /** `Math.ceil(1000 / batchSize)`: the least number of batches covering
      every example. */
  function StepsPerEpoch(batch: nat): (r: nat)
    requires batch > 0
    ensures (r - 1) * batch < TotalExamples <= r * batch
  {
    var q := TotalExamples / batch;
    assert q * batch + TotalExamples % batch == TotalExamples;
    if TotalExamples % batch == 0 then q else q + 1
  }

  /** `epochs * stepsPerEpoch`: the number of ticks of a run. */
  function TotalSteps(epochs: nat, batch: nat): nat
    requires batch > 0
  {
    epochs * StepsPerEpoch(batch)
  }

  /** Three epochs of batches of 32 take 96 steps. */
  lemma DefaultTotalSteps()
    ensures TotalSteps(3, 32) == 96
  {
    var r := StepsPerEpoch(32);
    assert (r - 1) * 32 < 1000 <= r * 32;
  }

  /** A run sees every example `epochs` times, and wastes less than one
      batch per epoch on the last, partial batch. */
  lemma TotalStepsCover(epochs: nat, batch: nat)
    requires batch > 0
    ensures epochs * TotalExamples <= TotalSteps(epochs, batch) * batch < epochs * (TotalExamples + batch)
             || epochs == 0
  {
    var r := StepsPerEpoch(batch);
    if epochs > 0 {
      assert TotalSteps(epochs, batch) * batch == epochs * (r * batch);
      MulMonotone(epochs, TotalExamples, r * batch);
      MulStrict(epochs, r * batch, TotalExamples + batch);
    }
  }

  lemma MulMonotone(k: nat, a: int, b: int)
    requires a <= b
    ensures k * a <= k * b
  {
  }

  lemma MulStrict(k: nat, a: int, b: int)
    requires k > 0 && a < b
    ensures k * a < k * b
  {
  }

  /** Every choice of the selectors gives a run of 16 to 1250 steps. */
  lemma TotalStepsRange(epochs: nat, batch: nat)
    requires epochs in EpochChoices && batch in BatchChoices
    ensures 16 <= TotalSteps(epochs, batch) <= 1250
  {
    var r := StepsPerEpoch(batch);
    assert 16 <= r <= 125;
  }

  /** The noise drawn from `u`: full fine-tuning is noisier (width 0.15)
      than the adapter strategies (width 0.08). */
  function Noise(u: real, m: TrainingMethod): (n: real)
    requires 0.0 <= u < 1.0
    ensures -0.075 <= n < 0.075
    ensures m != Full ==> -0.04 <= n < 0.04
  {
    if m == Full then (u - 0.5) * 0.15 else (u - 0.5) * 0.08
  }

  /** The loss after the per-step decay: LoRA learns more slowly (0.97)
      than the other strategies (0.95). */
  function Decayed(loss: real, m: TrainingMethod): (d: real)
    ensures loss >= 0.0 ==> loss * 0.95 <= d <= loss * 0.97
    ensures m == LoRA ==> d == 0.97 * loss
    ensures m != LoRA ==> d == 0.95 * loss
  {
    if m == LoRA then loss * 0.97 else loss * 0.95
  }

  function Abs(x: real): real
  {
    if x < 0.0 then -x else x
  }

  /** The simulated loss after one tick: decayed, plus the absolute value of
      the noise; below the floor it is redrawn from `v` just above the
      floor. */
  function NextLoss(loss: real, m: TrainingMethod, u: real, v: real): (l: real)
    requires 0.0 <= u < 1.0 && 0.0 <= v < 1.0
    ensures l >= LossFloor
    ensures Decayed(loss, m) + Abs(Noise(u, m)) >= LossFloor ==> l == Decayed(loss, m) + Abs(Noise(u, m))
    ensures Decayed(loss, m) + Abs(Noise(u, m)) < LossFloor ==> LossFloor <= l < LossFloor + 0.05
  {
    var raw := Decayed(loss, m) + Abs(Noise(u, m));
    if raw < LossFloor then LossFloor + v * 0.05 else raw
  }

  /** The noise never outgrows the decay from the starting loss: a loss in
      [0.1, 2.5] stays in [0.1, 2.5]. */
  lemma LossStaysBounded(loss: real, m: TrainingMethod, u: real, v: real)
    requires 0.0 <= u < 1.0 && 0.0 <= v < 1.0
    requires LossFloor <= loss <= StartLoss
    ensures LossFloor <= NextLoss(loss, m, u, v) <= StartLoss
  {
  }

  /** The accuracy shown for a loss, in percent. */
  function Accuracy(loss: real): (a: real)
    ensures a <= 99.0
    ensures loss <= 3.0 ==> a >= 0.0
  {
    var x := 1.0 - loss / 3.0;
    (if x < 0.99 then x else 0.99) * 100.0
  }

  /** A lower loss never shows a lower accuracy. */
  lemma AccuracyAntitone(l1: real, l2: real)
    requires l1 <= l2
    ensures Accuracy(l2) <= Accuracy(l1)
  {
  }

  /** `[...prev, p].slice(-50)`. */
  function SlideWindow(w: seq<Point>, p: Point): (r: seq<Point>)
    ensures |r| == if |w| + 1 <= WindowSize then |w| + 1 else WindowSize
    ensures r[|r| - 1] == p
  {
    var u := w + [p];
    if |u| > WindowSize then u[|u| - WindowSize..] else u
  }

  /** The window is the newest points of the run: a suffix of the old
      window extended by the point. */
  lemma SlideIsSuffix(w: seq<Point>, p: Point)
    ensures var r := SlideWindow(w, p); r == (w + [p])[|w| + 1 - |r|..]
  {
  }

  ghost predicate Consecutive(w: seq<Point>)
  {
    forall i :: 0 <= i < |w| - 1 ==> w[i + 1].step == w[i].step + 1
  }

  ghost predicate PointOk(p: Point)
  {
    LossFloor <= p.loss <= StartLoss && p.accuracy <= 99.0
  }

  /** A chart window as the lab keeps it: at most 50 points with
      consecutive steps, each loss in [0.1, 2.5] and each accuracy at most 99. */
  ghost predicate WindowOk(w: seq<Point>)
  {
    |w| <= WindowSize && Consecutive(w) && forall i :: 0 <= i < |w| ==> PointOk(w[i])
  }

  lemma AppendKeepsConsecutive(w: seq<Point>, p: Point)
    requires Consecutive(w)
    requires w != [] ==> p.step == w[|w| - 1].step + 1
    ensures Consecutive(w + [p])
  {
    var u := w + [p];
    forall i | 0 <= i < |u| - 1
      ensures u[i + 1].step == u[i].step + 1
    {
      if i + 1 < |w| {
        assert u[i] == w[i] && u[i + 1] == w[i + 1];
      } else {
        assert u[i] == w[|w| - 1] && u[i + 1] == p;
      }
    }
  }

  lemma SuffixKeepsConsecutive(u: seq<Point>, k: nat)
    requires Consecutive(u) && k <= |u|
    ensures Consecutive(u[k..])
  {
    var r := u[k..];
    forall i | 0 <= i < |r| - 1
      ensures r[i + 1].step == r[i].step + 1
    {
      assert r[i] == u[k + i] && r[i + 1] == u[k + i + 1];
    }
  }

  /** Sliding in a point that follows the last one keeps the window in shape. */
  lemma SlideKeepsWindow(w: seq<Point>, p: Point)
    requires WindowOk(w)
    requires w != [] ==> p.step == w[|w| - 1].step + 1
    requires PointOk(p)
    ensures WindowOk(SlideWindow(w, p))
  {
    var u := w + [p];
    var r := SlideWindow(w, p);
    var k := |u| - |r|;
    SlideIsSuffix(w, p);
    AppendKeepsConsecutive(w, p);
    SuffixKeepsConsecutive(u, k);
    assert r == u[k..];
    forall i | 0 <= i < |r|
      ensures PointOk(r[i])
    {
      assert r[i] == u[k + i];
      if k + i < |w| {
        assert u[k + i] == w[k + i];
      }
    }
  }

  /** The chart point a tick of `t` appends. */
  function TickPoint(t: Ticker, u: real, v: real): (p: Point)
    requires 0.0 <= u < 1.0 && 0.0 <= v < 1.0
    ensures p.step == t.step + 1 && p.loss == NextLoss(t.loss, t.strategy, u, v) && p.accuracy == Accuracy(p.loss)
  {
    var loss := NextLoss(t.loss, t.strategy, u, v);
    Point(t.step + 1, loss, Accuracy(loss))
  }

  /** The point a tick appends follows the window's last point and keeps the
      window in shape. */
  lemma TickKeepsWindow(w: seq<Point>, t: Ticker, u: real, v: real)
    requires 0.0 <= u < 1.0 && 0.0 <= v < 1.0
    requires WindowOk(w) && LossFloor <= t.loss <= StartLoss
    requires if w == [] then t.step == 0 else w[|w| - 1].step == t.step
    ensures var p := TickPoint(t, u, v);
      var r := SlideWindow(w, p);
      && LossFloor <= p.loss <= StartLoss
      && WindowOk(r) && r != [] && r[|r| - 1].step == t.step + 1
  {
    var p := TickPoint(t, u, v);
    LossStaysBounded(t.loss, t.strategy, u, v);
    SlideKeepsWindow(w, p);
  }

  /** The training progress `step / totalSteps`, kept as its two terms. */
  datatype Fraction = Fraction(num: nat, den: nat)

  /** The value of a progress fraction: within [0, 1] while the run lasts,
      1 at its end and 0 at its start. */
  function Value(f: Fraction): (r: real)
    requires f.den > 0
    ensures f.num <= f.den ==> 0.0 <= r <= 1.0
    ensures f.num == f.den ==> r == 1.0
    ensures f.num == 0 ==> r == 0.0
  {
    var n := f.num as real;
    var d := f.den as real;
    var r := n / d;
    assert r * d == n;
    assert r > 1.0 ==> r * d > d by {
      if r > 1.0 {
        ScaleAbove(r, d);
      }
    }
    r
  }

  lemma ScaleAbove(x: real, d: real)
    requires x > 1.0 && d > 0.0
    ensures x * d > d
  {
    assert x * d - d == (x - 1.0) * d;
  }

  /** The displayed run as the lab keeps it for a strategy and a run length
      `total`: the interval is armed iff training; the progress is a
      fraction; the chart window is in shape; and an armed interval belongs
      to the strategy and length, has steps left, its step is the progress
      numerator and the last charted step, and its loss is in [0.1, 2.5]. */
  ghost predicate RunOk(strategy: TrainingMethod, total: nat, isTraining: bool, data: seq<Point>,
                        progress: Fraction, ticker: Option<Ticker>)
  {
    && (ticker.Some? <==> isTraining)
    && 0 < progress.den && progress.num <= progress.den
    && WindowOk(data)
    && (ticker.Some? ==>
          var t := ticker.value;
          && t.strategy == strategy && t.total == total
          && t.step < t.total
          && progress == Fraction(t.step, t.total)
          && LossFloor <= t.loss <= StartLoss
          && (if data == [] then t.step == 0 else data[|data| - 1].step == t.step))
  }

  /** One tick keeps the run in shape: the last tick disarms the interval
      with the progress at 1, every other one advances the step. */
  lemma TickKeepsRun(strategy: TrainingMethod, total: nat, data: seq<Point>, progress: Fraction,
                     t: Ticker, u: real, v: real)
    requires 0.0 <= u < 1.0 && 0.0 <= v < 1.0
    requires RunOk(strategy, total, true, data, progress, Some(t))
    ensures var p := TickPoint(t, u, v);
      var step := t.step + 1;
      if step >= total then RunOk(strategy, total, false, SlideWindow(data, p), Fraction(1, 1), None)
      else RunOk(strategy, total, true, SlideWindow(data, p), Fraction(step, total),
                 Some(t.(step := step, loss := p.loss)))
  {
    TickKeepsWindow(data, t, u, v);
  }

  /** The lab's state: the settings, the displayed run and the interval. */
  class Trainer {
    var strategy: TrainingMethod
    var epochs: nat
    var batchSize: nat
    var isTraining: bool
    var data: seq<Point>
    var currentLoss: Option<real>
    var progress: Fraction
    var ticker: Option<Ticker>

    ghost predicate Valid()
      reads this
    {
      && epochs in EpochChoices && batchSize in BatchChoices
      && RunOk(strategy, TotalSteps(epochs, batchSize), isTraining, data, progress, ticker)
    }

    constructor ()
      ensures Valid()
      ensures strategy == Full && epochs == 3 && batchSize == 32
      ensures !isTraining && data == [] && currentLoss == None && progress == Fraction(0, 1) && ticker == None
    {
      strategy := Full;
      epochs := 3;
      batchSize := 32;
      isTraining := false;
      data := [];
      currentLoss := None;
      progress := Fraction(0, 1);
      ticker := None;
    }

    /** startTraining: clears any armed interval and arms a fresh one at
        step 0 and loss 2.5; the displayed loss is left as it was. */
    method StartTraining()
      requires Valid()
      modifies this
      ensures Valid()
      ensures isTraining && data == [] && progress == Fraction(0, TotalSteps(epochs, batchSize))
      ensures ticker == Some(Ticker(strategy, TotalSteps(epochs, batchSize), 0, StartLoss))
      ensures strategy == old(strategy) && epochs == old(epochs) && batchSize == old(batchSize)
      ensures currentLoss == old(currentLoss)
    {
      TotalStepsRange(epochs, batchSize);
      isTraining := true;
      data := [];
      progress := Fraction(0, TotalSteps(epochs, batchSize));
      ticker := Some(Ticker(strategy, TotalSteps(epochs, batchSize), 0, StartLoss));
    }

    /** One tick of the interval; `u` draws the noise and `v` the value
        redrawn below the floor. Without an armed interval nothing happens. */
    method Tick(u: real, v: real)
      requires Valid()
      requires 0.0 <= u < 1.0 && 0.0 <= v < 1.0
      modifies this
      ensures Valid()
      ensures strategy == old(strategy) && epochs == old(epochs) && batchSize == old(batchSize)
      ensures old(ticker).None? ==>
        isTraining == old(isTraining) && data == old(data) && currentLoss == old(currentLoss)
        && progress == old(progress) && ticker == old(ticker)
      ensures old(ticker).Some? ==>
        var t := old(ticker).value;
        var step := t.step + 1;
        var p := TickPoint(t, u, v);
        && data == SlideWindow(old(data), p)
        && currentLoss == Some(p.loss)
        && (step >= t.total ==> ticker == None && !isTraining && progress == Fraction(1, 1))
        && (step < t.total ==>
              ticker == Some(t.(step := step, loss := p.loss)) && isTraining
              && progress == Fraction(step, t.total))
    {
      if ticker.Some? {
        var t := ticker.value;
        var step := t.step + 1;
        var p := TickPoint(t, u, v);
        TickKeepsRun(strategy, t.total, data, progress, t, u, v);
        data := SlideWindow(data, p);
        currentLoss := Some(p.loss);
        progress := Fraction(step, t.total);
        if step >= t.total {
          ticker := None;
          isTraining := false;
          progress := Fraction(1, 1);
        } else {
          ticker := Some(t.(step := step, loss := p.loss));
        }
      }
    }

    /** reset: from any state, clears the interval and the displayed run. */
    method Reset()
      requires Valid()
      modifies this
      ensures Valid()
      ensures !isTraining && data == [] && currentLoss == None && progress == Fraction(0, 1) && ticker == None
      ensures strategy == old(strategy) && epochs == old(epochs) && batchSize == old(batchSize)
    {
      ticker := None;
      isTraining := false;
      data := [];
      currentLoss := None;
      progress := Fraction(0, 1);
    }

    /** The strategy buttons are disabled while training. */
    method SelectMethod(m: TrainingMethod)
      requires Valid()
      modifies this
      ensures Valid()
      ensures strategy == if old(isTraining) then old(strategy) else m
      ensures epochs == old(epochs) && batchSize == old(batchSize) && isTraining == old(isTraining)
      ensures data == old(data) && currentLoss == old(currentLoss) && progress == old(progress)
      ensures ticker == old(ticker)
    {
      if !isTraining {
        strategy := m;
      }
    }

    /** The epochs selector offers 1, 3, 5 and 10 and is disabled while
        training. */
    method SelectEpochs(n: nat)
      requires Valid() && n in EpochChoices
      modifies this
      ensures Valid()
      ensures epochs == if old(isTraining) then old(epochs) else n
      ensures strategy == old(strategy) && batchSize == old(batchSize) && isTraining == old(isTraining)
      ensures data == old(data) && currentLoss == old(currentLoss) && progress == old(progress)
      ensures ticker == old(ticker)
    {
      if !isTraining {
        epochs := n;
      }
    }

    /** The batch-size selector offers 8, 16, 32 and 64 and is disabled
        while training. */
    method SelectBatchSize(n: nat)
      requires Valid() && n in BatchChoices
      modifies this
      ensures Valid()
      ensures batchSize == if old(isTraining) then old(batchSize) else n
      ensures strategy == old(strategy) && epochs == old(epochs) && isTraining == old(isTraining)
      ensures data == old(data) && currentLoss == old(currentLoss) && progress == old(progress)
      ensures ticker == old(ticker)
    {
      if !isTraining {
        batchSize := n;
      }
    }

    /** The "Calculated Steps" figure; while training it is the total the
        interval was armed with. */
    function CalculatedSteps(): (n: nat)
      reads this
      requires Valid()
      ensures ticker.Some? ==> n == ticker.value.total
      ensures 16 <= n <= 1250
    {
      TotalStepsRange(epochs, batchSize);
      TotalSteps(epochs, batchSize)
    }
  }
}
