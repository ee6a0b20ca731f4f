/** The pipeline view of the playground (components/StepVisualizer.tsx): the
    capability-dependent list of steps, which of them are highlighted, the
    focus that cycles over the tokens during attention, the lines of the
    attention diagram and the "thinking" lines shown during reasoning.

    The two `useEffect`s are modelled by what React does with them: on a
    render whose dependencies differ from the previous render's, the
    effect's interval (if any) is cleared and the effect body runs again.
    The intervals themselves are explicit tick events. */
module Steps {
  import opened Types
  import Playground

  /** One card of the pipeline: its id, title and colour. */
  datatype StepInfo = StepInfo(id: nat, title: string, color: string)

  function Ids(steps: seq<StepInfo>): (r: seq<nat>)
    ensures |r| == |steps| && forall i :: 0 <= i < |steps| ==> r[i] == steps[i].id
  {
    seq(|steps|, i requires 0 <= i < |steps| => steps[i].id)
  }

  /** getSteps: the cards pushed for a capability. */
  method GetSteps(capability: Capability) returns (steps: seq<StepInfo>)
    ensures Ids(steps) == Playground.PhaseWrites(capability)
    ensures steps[0].title == if capability == Vision then "Multimodal Input" else "Input"
    ensures steps[1].title == if capability == Vision then "Patching" else "Tokenization"
    ensures steps[2].title == if capability == Vision then "Projection" else "Embeddings"
    ensures steps[3].title == "Attention"
    ensures capability == Reasoning ==> steps[4].title == "Reasoning"
    ensures steps[|steps| - 1].title == "Prediction"
  {
    steps := [];
    steps := steps + [StepInfo(0, if capability == Vision then "Multimodal Input" else "Input", "emerald")];
    if capability == Vision {
      steps := steps + [StepInfo(1, "Patching", "blue")];
    } else {
      steps := steps + [StepInfo(1, "Tokenization", "blue")];
    }
    steps := steps + [StepInfo(2, if capability == Vision then "Projection" else "Embeddings", "purple")];
    steps := steps + [StepInfo(3, "Attention", "orange")];
    if capability == Reasoning {
      steps := steps + [StepInfo(4, "Reasoning", "amber")];
    }
    var predId := if capability == Reasoning then 5 else 5;
    steps := steps + [StepInfo(predId, "Prediction", "pink")];
  }

  /** A card is highlighted once the run has reached it. */
  predicate IsActive(currentStep: int, id: nat)
  {
    currentStep >= id
  }

  /** A card shows its spinner while the run is at it. */
  predicate IsProcessing(currentStep: int, id: nat)
  {
    currentStep == id
  }

  /** The highlighted cards are a prefix of the list, and at most one card is
      processing. */
  lemma ActivePrefix(capability: Capability, currentStep: int)
    ensures var ids := Playground.PhaseWrites(capability);
      forall i, j :: 0 <= i < j < |ids| && IsActive(currentStep, ids[j]) ==> IsActive(currentStep, ids[i])
    ensures var ids := Playground.PhaseWrites(capability);
      forall i, j :: (0 <= i < |ids| && 0 <= j < |ids| && IsProcessing(currentStep, ids[i])
                      && IsProcessing(currentStep, ids[j])) ==> i == j
  {
    Playground.PhaseWritesShape(capability);
  }

  /** `Math.min(tokens.length, 5)`: how many tokens the attention view shows. */
  function Shown(tokenCount: nat): (n: nat)
    ensures n <= 5 && n <= tokenCount
    ensures n == tokenCount || n == 5
  {
    if tokenCount < 5 then tokenCount else 5
  }

  /** renderAttentionLines: the index of the source token of each line drawn
      towards the focused token. */
  method AttentionLines(count: nat, focus: nat) returns (lines: seq<nat>)
    ensures count < 2 ==> lines == []
    ensures count >= 2 ==> forall i :: i in lines <==> 0 <= i < count && i != focus
    ensures forall a, b :: 0 <= a < b < |lines| ==> lines[a] < lines[b]
    ensures count >= 2 ==> |lines| == count - (if focus < count then 1 else 0)
  {
    lines := [];
    if count < 2 {
      return;
    }
    var i := 0;
    while i < count
      invariant 0 <= i <= count
      invariant forall k :: k in lines <==> 0 <= k < i && k != focus
      invariant forall a, b :: 0 <= a < b < |lines| ==> lines[a] < lines[b]
      invariant forall a :: 0 <= a < |lines| ==> lines[a] < i
      invariant |lines| == i - (if focus < i then 1 else 0)
    {
      if i != focus {
        lines := lines + [i];
      }
      i := i + 1;
    }
  }

  /** The mock chain of thought revealed during reasoning. */
  const Thoughts: seq<string> := [
    "Analyzing intent...",
    "Breaking down the problem...",
    "Checking knowledge base...",
    "Formulating logic...",
    "Verifying facts...",
    "Synthesizing answer..."
  ]

  /** The view's props, its two pieces of state, and its two intervals:
      the thinking interval with its closure counter `i`, and the focus
      interval with the modulus it was armed with. */
  class Visualizer {
    var currentStep: int
    var capability: Capability
    var tokenCount: nat
    var thinkingLines: seq<string>
    var focusedTokenIndex: nat
    var thinker: Option<nat>
    var focuser: Option<nat>

    ghost predicate Valid()
      reads this
    {
      && |thinkingLines| <= |Thoughts| && thinkingLines == Thoughts[..|thinkingLines|]
      && (thinker.Some? ==>
            capability == Reasoning && currentStep == 4 && thinker.value == |thinkingLines|)
      && (capability == Reasoning && currentStep == 4 && thinker.None? ==> |thinkingLines| == |Thoughts|)
      && (focuser.Some? <==> currentStep == 3 && tokenCount > 0)
      && (focuser.Some? ==> focuser.value == Shown(tokenCount))
    }

    /** The thinking effect's body. */
    method ThinkingEffect()
      modifies this
      ensures currentStep == old(currentStep) && capability == old(capability) && tokenCount == old(tokenCount)
      ensures focusedTokenIndex == old(focusedTokenIndex) && focuser == old(focuser)
      ensures capability == Reasoning && currentStep == 4 ==> thinkingLines == [] && thinker == Some(0)
      ensures !(capability == Reasoning && currentStep == 4) ==>
                thinkingLines == old(thinkingLines) && thinker == None
    {
      thinker := None;
      if capability == Reasoning && currentStep == 4 {
        thinkingLines := [];
        thinker := Some(0);
      }
    }

    /** The focus effect's body. */
    method FocusEffect()
      modifies this
      ensures currentStep == old(currentStep) && capability == old(capability) && tokenCount == old(tokenCount)
      ensures focusedTokenIndex == old(focusedTokenIndex)
      ensures thinkingLines == old(thinkingLines) && thinker == old(thinker)
      ensures focuser == if currentStep == 3 && tokenCount > 0 then Some(Shown(tokenCount)) else None
    {
      focuser := if currentStep == 3 && tokenCount > 0 then Some(Shown(tokenCount)) else None;
    }

    /** The first render: no thinking lines, focus on the first token, and
        both effects run once. */
    constructor (step: int, c: Capability, count: nat)
      ensures Valid()
      ensures currentStep == step && capability == c && tokenCount == count && focusedTokenIndex == 0
      ensures thinkingLines == []
      ensures thinker == (if c == Reasoning && step == 4 then Some(0) else None)
      ensures focuser == (if step == 3 && count > 0 then Some(Shown(count)) else None)
    {
      currentStep := step;
      capability := c;
      tokenCount := count;
      thinkingLines := [];
      focusedTokenIndex := 0;
      thinker := None;
      focuser := None;
      new;
      ThinkingEffect();
      FocusEffect();
    }

    /** A render with new props: each effect whose dependencies changed is
        cleaned up and runs again. */
    method Rerender(step: int, c: Capability, count: nat)
      requires Valid()
      modifies this
      ensures Valid()
      ensures currentStep == step && capability == c && tokenCount == count
      ensures focusedTokenIndex == old(focusedTokenIndex)
      ensures step == old(currentStep) && c == old(capability) ==>
                thinkingLines == old(thinkingLines) && thinker == old(thinker)
      ensures (step != old(currentStep) || c != old(capability)) && c == Reasoning && step == 4 ==>
                thinkingLines == [] && thinker == Some(0)
      ensures (step != old(currentStep) || c != old(capability)) && !(c == Reasoning && step == 4) ==>
                thinkingLines == old(thinkingLines) && thinker == None
      ensures step == old(currentStep) && count == old(tokenCount) ==> focuser == old(focuser)
      ensures step != old(currentStep) || count != old(tokenCount) ==>
                focuser == if step == 3 && count > 0 then Some(Shown(count)) else None
    {
      var thinkingDepsChanged := step != currentStep || c != capability;
      var focusDepsChanged := step != currentStep || count != tokenCount;
      currentStep := step;
      capability := c;
      tokenCount := count;
      if thinkingDepsChanged {
        ThinkingEffect();
      }
      if focusDepsChanged {
        FocusEffect();
      }
    }

    /** The thinking interval fires: the next thought is appended until all
        six are shown, then the interval clears itself. */
    method ThinkTick()
      requires Valid()
      modifies this
      ensures Valid()
      ensures currentStep == old(currentStep) && capability == old(capability) && tokenCount == old(tokenCount)
      ensures focusedTokenIndex == old(focusedTokenIndex) && focuser == old(focuser)
      ensures old(thinker).None? ==> thinkingLines == old(thinkingLines) && thinker == None
      ensures old(thinker).Some? && old(thinker).value < |Thoughts| ==>
                thinkingLines == old(thinkingLines) + [Thoughts[old(thinker).value]]
                && thinker == Some(old(thinker).value + 1)
      ensures old(thinker).Some? && old(thinker).value >= |Thoughts| ==>
                thinkingLines == old(thinkingLines) && thinker == None
    {
      if thinker.Some? {
        var i := thinker.value;
        if i < |Thoughts| {
          assert Thoughts[..i + 1] == Thoughts[..i] + [Thoughts[i]];
          thinkingLines := thinkingLines + [Thoughts[i]];
          thinker := Some(i + 1);
        } else {
          thinker := None;
        }
      }
    }

    /** The focus interval fires: the focus moves to the next shown token,
        wrapping around. */
    method FocusTick()
      requires Valid()
      modifies this
      ensures Valid()
      ensures currentStep == old(currentStep) && capability == old(capability) && tokenCount == old(tokenCount)
      ensures thinkingLines == old(thinkingLines) && thinker == old(thinker) && focuser == old(focuser)
      ensures focuser.None? ==> focusedTokenIndex == old(focusedTokenIndex)
      ensures focuser.Some? ==>
                focusedTokenIndex == (old(focusedTokenIndex) + 1) % Shown(tokenCount)
                && focusedTokenIndex < Shown(tokenCount)
    {
      if focuser.Some? {
        focusedTokenIndex := (focusedTokenIndex + 1) % focuser.value;
      }
    }
  }
}
