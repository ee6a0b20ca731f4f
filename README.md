# llm-explorer, modelled in Dafny

llm-explorer is a browser app that teaches how large language models work. Under
its rendering sit a handful of small state machines and structure builders, and
this project models those:

- **the inference playground** (`App.tsx`): the simulation state record,
  `runSimulation` with its guard, reset write, whitespace tokeniser and chain of
  timed phase writes, the model-size table and the "network active" predicate;
- **the generation service** (`services/geminiService.ts`): configuration by
  capability, stripping the data-URL header, assembling the parts, the fallback
  results and the mock probability bars. The Gemini SDK call is an oracle;
- **the pipeline view** (`components/StepVisualizer.tsx`): the step cards that
  depend on the capability, the highlight predicates, the focus cycling over the
  tokens, the attention lines and the "thinking" lines;
- **the network diagram** (`components/NeuralNetworkViz.tsx`): layer sizes, node
  numbering and radii, and links between adjacent layers;
- **the fine-tuning lab** (`components/FineTuningLab.tsx`): the step total, the
  training interval with its decaying noisy loss, the 50-point chart window,
  start, reset, stop on completion, and the settings locked while training;
- **the single-neuron trainer** (`components/SingleNeuronViz.tsx`): the
  FORWARD → BACKWARD → UPDATE cycle of one ReLU neuron trained by gradient
  descent;
- **the retrieval-augmented generation demo** (`components/RAGViz.tsx`): an
  eight-state animation that advances on a timer.

There is one Dafny module per source file: `Types` (types.ts, plus `Option`),
`Gemini`, `Playground`, `Steps`, `Topology`, `FineTuning`, `Neuron` and `Rag`.

Time and randomness are handled the same way throughout:

- Each `setTimeout` or `setInterval` becomes an explicit event method (`TimerFired`,
  `Tick`, `ThinkTick`, …). What a pending timer holds differs by module:
  - `Rag.RagAnimator.timer` and `Neuron.NeuronViz.timer` hold the delay the timer was armed with.
  - Each run in `Playground.App.runs` holds its next `Stage`. `Playground.TimerDelay` gives
    the delay that stage's timer was armed with. For the first four stages that delay is measured
    from the click. The 5000 ms timer and the 2000 ms one are armed when the reply arrives. The
    1500 ms timer is armed when the 5000 ms one fires. `Playground.FiresAt` turns this into a
    time after the click, given the service's latency.
  - `Steps.Visualizer.thinker` holds the interval closure's counter `i`. `Steps.Visualizer.focuser`
    holds the modulus min(tokenCount, 5) that the interval was armed with.
  - `FineTuning.Trainer.ticker` holds the interval closure's state: the captured strategy and
    total step count, and the current step and loss.
- A `useEffect` is modelled by what React does when the effect's dependencies
  change between renders: it clears the effect's timer and runs the body again.
- Each `Math.random()` draw is a parameter in [0, 1), or an oracle function.
- Arithmetic is over `real`.

The playground allows overlapping runs. `runSimulation` never clears its
timeouts, and the Enter key calls it even while the Run button is disabled.
`Playground.App` therefore keeps a sequence of runs in flight. Within one run
its events fire in the order of their increasing offsets; events of different
runs interleave in any order. The lemmas `SoloRunResolved` and `SoloRunRejected`
describe one run that nothing interrupts.

`App.tsx` uses a third view mode, `AppMode.RAG`, which is missing from the enum
in `types.ts:14-17`. The model follows the code: `Types.AppMode` has the
constructor `Rag`.

If the API key is missing, the service throws before its `try` block
(`services/geminiService.ts:28-30`). The awaiting callback in `App.tsx` then
rejects, so the final write never happens and the playground stays
processing. The model keeps this behaviour: the outcome is `Rejected` and
the run is abandoned (`Playground.SoloRunRejected`).

## Model

| member | source | states |
|---|---|---|
| Gemini.FirstField | services/geminiService.ts:14-16 | `split(c)[0]`: a prefix of the string without the separator that is either the whole string or ends at the first separator |
| Gemini.AfterFirst | services/geminiService.ts:51 | the text after the first separator is absent iff there is no separator; otherwise the string is first field, separator, rest |
| Gemini.FirstFieldOf | services/geminiService.ts:51 | for `a + c + b` with no `c` in `a`, the first field is `a` and the rest is `b` |
| Gemini.StripDataUrl | services/geminiService.ts:51 | the second comma-separated field, or the whole string when that field is empty or missing; `StripWithoutComma`, `StripDataUrlPayload` and `StripEmptyField` cover its three cases |
| Gemini.BuildParts | services/geminiService.ts:47-59 | the content parts; `BuildRequest` states their order and when the image part is present |
| Gemini.StripWithoutComma | services/geminiService.ts:51 | a string without a comma is sent unchanged |
| Gemini.StripDataUrlPayload | services/geminiService.ts:51 | `header,payload[,…]` with a non-empty payload sends exactly the payload |
| Gemini.StripEmptyField | services/geminiService.ts:51 | an empty field after the first comma sends the whole string |
| Gemini.SelectConfig | services/geminiService.ts:34-44 | Reasoning selects the pro model, budget 2048 and the extended instruction; every other capability selects the flash model, budget 0 and the base instruction; the budget is positive iff Reasoning |
| Gemini.BuildRequest | services/geminiService.ts:47-68 | model and instruction as selected; thinking config present iff Reasoning (budget 2048); the text part is always last; an image part, holding the stripped data, comes first iff a non-empty image is given and the capability is not Reasoning |
| Gemini.MockProbabilities | services/geminiService.ts:13-20 | three bars named first word (or "Next"), "maybe", "other", with values in [0.85, 0.95), [0.05, 0.1), [0.01, 0.03), strictly decreasing |
| Gemini.GenerateLLMResponse | services/geminiService.ts:22-106 | rejects with "API Key is missing" iff there is no key; an SDK failure gives the apology text with no bars; an SDK reply gives its text (or the fallback text when empty) with the three mock bars built from that text; a resolved text is never empty |
| Playground.TrimStart | App.tsx:58 | removes exactly the leading white space: the result is a suffix, starts with a non-space, and everything dropped is white space |
| Playground.TrimEnd | App.tsx:58 | removes exactly the trailing white space |
| Playground.FirstSpace | App.tsx:58 | the index of the first white-space character (or the length); everything before it is space-free |
| Playground.MakeTokens | App.tsx:58-62 | token i has text word i, id i and colour palette[i mod 4] |
| Playground.BlankInputTokens | App.tsx:58-62 | an empty or all-white-space input yields the single empty token with id 0 and the first colour |
| Playground.WordTokens | App.tsx:58-62 | any other input yields non-empty, space-free tokens whose texts concatenate to the input's non-space characters in order; each token is a maximal run of non-space characters: the trimmed input is the token texts joined by the non-empty white-space runs `Gaps` finds between them |
| Playground.SplitGaps | App.tsx:58 | split on white space, a string has one more field than white-space runs, and joining the fields with those runs gives the string back |
| Playground.GapsAreSpace | App.tsx:58 | every separating run found by `Gaps` is non-empty and all white space |
| Playground.TokenIdsAndColors | App.tsx:58-62 | there is at least one token, and token i has id i and colour palette[i mod 4] |
| Playground.TwoWordTokens | App.tsx:58-62 | two lower-case words joined by one space give exactly two tokens, ids 0 and 1, the first two colours |
| Playground.LayerCountOf | App.tsx:126-134 | Nano 2, Small 3, Medium 5, Large 8 |
| Playground.NetworkActiveSpan | App.tsx:349-351 | along the phase writes of a run, the network diagram is inactive at the first three phase writes and active from the fourth on; it is inactive in the initial state |
| Playground.NetworkStaysActive | App.tsx:349-351 | when a run starts (a prompt or an image is given) and nothing interrupts it, the network diagram is still active after the whole run, reply or error included |
| Playground.RunButtonStarts | App.tsx:296-297 | the Run button is enabled iff nothing is processing and a click would start a run |
| Playground.TimersFireInOrder | App.tsx:65-121 | with a service that settles `latency` ms after the 6500 ms call, a run's timers fire at 1000, 2500, 4000 and 6500 ms after the click; a resolution then fires two timers at 11500 + latency and 13000 + latency (Reasoning) or one at 8500 + latency; a rejection fires nothing more. Whatever the latency, each fires strictly later than the one before |
| Playground.Schedule | App.tsx:65-121 | the firing times of the timers `Drive` fires, in order; `TimersFireInOrder` gives them |
| Playground.ArmedAt | App.tsx:65-121 | when a pending timer was armed: the first four at the click, the 5000 ms and 2000 ms timers when the reply arrives, the 1500 ms timer when the 5000 ms one fires; `TimersFireInOrder` uses it |
| Playground.FiresAt | App.tsx:65-121 | a timer fires its delay after it was armed; `TimersFireInOrder` gives the times |
| Playground.Tokenize | App.tsx:58-62 | `input.trim().split(/\s+/)` mapped to tokens; `BlankInputTokens`, `WordTokens` and `TokenIdsAndColors` give its result |
| Playground.SplitWs | App.tsx:58 | `split(/\s+/)`: at least one field; `SplitGaps` shows that the fields joined with the white-space runs give the string back |
| Playground.Trim | App.tsx:58 | `trim()`: `TrimStart` and `TrimEnd` state exactly what each side removes |
| Playground.FireTimer | App.tsx:65-121 | the write and next stage of a pending timer; `DriveToReply` and `DriveFromReply` give the writes along a run |
| Playground.NetworkActive | App.tsx:351 | the diagram animates at steps 3 to 5; `NetworkActiveSpan` and `NetworkStaysActive` place that along a run |
| Playground.RunButtonEnabled | App.tsx:296 | the Run button's enabled state; `RunButtonStarts` shows it is enabled iff a click would start a run while idle |
| Playground.PhaseWrites | App.tsx:65-121 | the step indices a run writes; `PhaseWritesShape` gives their shape and `SoloRunResolved` shows a run writes exactly these |
| Playground.InitialState | App.tsx:13-24 | step index -1, not processing, empty input, output, tokens and probabilities, no image, Inference mode, Small model, Standard capability |
| Playground.PhaseWritesShape | App.tsx:65-123 | the phase writes of a run start at 0, end at 5, are strictly increasing, and include 4 iff the capability is Reasoning |
| Playground.StartRun | App.tsx:44-62 | no run and no change iff the input is empty and there is no image; otherwise the reset write (processing, step 0, empty output, probabilities and tokens) and a run holding the tokens of the captured input |
| Playground.ReceiveReply | App.tsx:93-121 | settling changes only the run's stage: a rejection abandons it; a resolution schedules the 5000 ms timer (Reasoning) or the final write (otherwise) with the response |
| Playground.DriveToReply | App.tsx:65-90 | the 1000, 2500, 4000 and 6500 ms timers write phases 1, 2, 3 and then 4 (Reasoning) or 5, the tokens are set by the first, and the run then awaits the service |
| Playground.DriveFromReply | App.tsx:93-121 | after the service settles: a rejection writes nothing more; a Reasoning resolution writes phase 5, then the final write; otherwise the final write alone |
| Playground.DriveResolved | App.tsx:44-123 | a run from its first timer with a resolving service writes exactly the phases of its capability and ends not processing and showing the response |
| Playground.DriveRejected | App.tsx:44-123 | a run from its first timer with a rejecting service writes up to the 6500 ms phase and nothing after |
| Playground.SoloRunResolved | App.tsx:44-123 | a started run that nothing interrupts writes exactly 0, 1, 2, 3, [4 iff Reasoning], 5 in order, then clears processing and shows the response and its bars; everything else but the tokens of the input is unchanged |
| Playground.SoloRunRejected | App.tsx:44-123 | with a rejecting service (no key) the run stops after the 6500 ms write and the playground stays processing with empty output |
| Playground.App.constructor | App.tsx:13-24 | the initial state and no run in flight |
| Playground.App.RunSimulation | App.tsx:44-62 | the state becomes StartRun's and its run, if any, joins the runs in flight; every run in flight is live and holds the tokens of its input |
| Playground.App.TimerFired | App.tsx:65-123 | the pending timer of run k writes its phase (or the final result) and the run advances to its next stage; a finished run leaves the runs in flight; a run awaiting the service is unaffected |
| Playground.App.ReplyArrived | App.tsx:93-121 | the service call of run k, made with the run's captured input, image and capability, settles: the state is not written; a rejection drops the run |
| Playground.App.HandleInputChange | App.tsx:29-31 | only the input changes |
| Playground.App.HandleFileChange | App.tsx:33-42 | the image becomes the data URL and the capability becomes Vision; nothing else changes |
| Playground.App.SelectCapability | App.tsx:195-229 | only the capability changes |
| Playground.App.SelectModelSize | App.tsx:178 | only the model size changes |
| Playground.App.SelectMode | App.tsx:422-436 | only the mode changes |
| Playground.App.LayerCount | App.tsx:353 | the layer count handed to the diagram is between 2 and 8 |
| Steps.GetSteps | components/StepVisualizer.tsx:56-147 | ids are those of the run's phase writes (0,1,2,3,5, or 0,1,2,3,4,5 for Reasoning); titles by capability, with step 1 "Patching" iff Vision, step 4 "Reasoning" for Reasoning and "Prediction" last |
| Steps.IsActive | components/StepVisualizer.tsx:194 | a card is highlighted once the run has reached it; `ActivePrefix` shows the highlighted cards form a prefix |
| Steps.IsProcessing | components/StepVisualizer.tsx:195 | a card spins while the run is at it; `ActivePrefix` shows at most one does |
| Steps.ActivePrefix | components/StepVisualizer.tsx:194-195 | the highlighted cards form a prefix of the list and at most one card is processing |
| Steps.Shown | components/StepVisualizer.tsx:285 | at most five tokens are shown: the token count or 5, whichever is smaller |
| Steps.AttentionLines | components/StepVisualizer.tsx:152-161 | no lines below two shown tokens; otherwise one line from every shown token except the focused one, in increasing order |
| Steps.Visualizer.ThinkingEffect | components/StepVisualizer.tsx:20-43 | entering Reasoning step 4 clears the lines and arms the interval at thought 0; otherwise the interval is cleared and the lines kept |
| Steps.Visualizer.FocusEffect | components/StepVisualizer.tsx:46-53 | the focus interval is armed, with modulus min(count, 5), iff at step 3 with tokens |
| Steps.Visualizer.constructor | components/StepVisualizer.tsx:14-53 | no lines, focus 0, and both effects run once |
| Steps.Visualizer.Rerender | components/StepVisualizer.tsx:20-53 | each effect reruns exactly when its dependencies changed; the thinking lines stay a prefix of the six thoughts |
| Steps.Visualizer.ThinkTick | components/StepVisualizer.tsx:33-40 | appends the next thought until all six are shown, then clears itself; the lines stay a prefix of the fixed list |
| Steps.Visualizer.FocusTick | components/StepVisualizer.tsx:48-50 | the focus becomes (old + 1) mod min(count, 5), which is below min(count, 5) |
| Topology.LayerTotal | components/NeuralNetworkViz.tsx:24 | 2 + min(layerCount, 6) layers, between 2 and 8 |
| Topology.HiddenSize | components/NeuralNetworkViz.tsx:28 | each hidden layer has min(2 * layerCount + 2, 8) nodes: at most either bound, and equal to one of them |
| Topology.LayerSizes | components/NeuralNetworkViz.tsx:26-30 | four inputs, the hidden layers of equal size, four outputs |
| Topology.Radius | components/NeuralNetworkViz.tsx:49 | radius 10 exactly in the first and last layer, 6 elsewhere |
| Topology.BuildNodes | components/NeuralNetworkViz.tsx:35-53 | the node at position k has id k; the nodes come layer by layer, each with its layer and radius, one per slot of the layer sizes |
| Topology.NodeTotal | components/NeuralNetworkViz.tsx:26-53 | there are 8 + (layers - 2) * hidden nodes |
| Topology.InLayer | components/NeuralNetworkViz.tsx:58 | the filter keeps exactly the nodes of the given layer |
| Topology.Kept | components/NeuralNetworkViz.tsx:62 | the draw keeps the link, or the model is small; `BuildLinks` and `SmallModelsDense` use it |
| Topology.BuildLinks | components/NeuralNetworkViz.tsx:56-68 | a link from s to t exists iff both are nodes, t is in the layer after s, and the draw keeps it or layerCount < 2; from nodes without repeats no link appears twice |
| Topology.InLayerDistinct | components/NeuralNetworkViz.tsx:58 | filtering nodes without repeats gives nodes without repeats |
| Topology.BuildTopology | components/NeuralNetworkViz.tsx:17-73 | the laid-out nodes with consecutive ids, their total count, and the links as above, each exactly once |
| Topology.LinksAdjacent | components/NeuralNetworkViz.tsx:56-68 | every link joins two nodes of adjacent layers, in increasing layer order |
| Topology.SmallModelsDense | components/NeuralNetworkViz.tsx:62 | with layerCount < 2 every pair of adjacent-layer nodes is linked, whatever the draws |
| FineTuning.StepsPerEpoch | components/FineTuningLab.tsx:26 | ceil(1000 / batch): the least number of batches covering every example |
| FineTuning.TotalSteps | components/FineTuningLab.tsx:27 | epochs times the batches per epoch; `TotalStepsCover` and `TotalStepsRange` state what it covers and its range |
| FineTuning.DefaultTotalSteps | components/FineTuningLab.tsx:25-27 | 3 epochs of batches of 32 take 96 steps |
| FineTuning.TotalStepsCover | components/FineTuningLab.tsx:25-27 | a run covers every example once per epoch and wastes less than one batch per epoch |
| FineTuning.TotalStepsRange | components/FineTuningLab.tsx:346-363 | every choice of the selectors gives a run of 16 to 1250 steps |
| FineTuning.Noise | components/FineTuningLab.tsx:44 | full fine-tuning draws noise in [-0.075, 0.075); LoRA and QLoRA draw it in [-0.04, 0.04) |
| FineTuning.Decayed | components/FineTuningLab.tsx:45-47 | LoRA multiplies the loss by 0.97, full fine-tuning and QLoRA by 0.95; so a non-negative loss shrinks to between 0.95 and 0.97 times itself |
| FineTuning.NextLoss | components/FineTuningLab.tsx:44-48 | the next loss is never below the 0.1 floor: it is the decayed loss plus the absolute noise, or, below the floor, a value in [0.1, 0.15) |
| FineTuning.LossStaysBounded | components/FineTuningLab.tsx:44-48 | a loss in [0.1, 2.5] stays in [0.1, 2.5] |
| FineTuning.Accuracy | components/FineTuningLab.tsx:53 | the accuracy is at most 99, and not negative for a loss up to 3 |
| FineTuning.AccuracyAntitone | components/FineTuningLab.tsx:53 | a lower loss never shows a lower accuracy |
| FineTuning.SlideWindow | components/FineTuningLab.tsx:58-62 | the window grows by one up to 50 entries and ends with the new point |
| FineTuning.SlideIsSuffix | components/FineTuningLab.tsx:58-62 | the window is the last entries of the old window followed by the new point |
| FineTuning.SlideKeepsWindow | components/FineTuningLab.tsx:50-62 | sliding in a point that follows the last one keeps at most 50 points with consecutive steps, losses in [0.1, 2.5] and accuracies at most 99 |
| FineTuning.TickPoint | components/FineTuningLab.tsx:39-54 | the point of a tick has the next step, the next loss and that loss's accuracy |
| FineTuning.TickKeepsWindow | components/FineTuningLab.tsx:38-62 | the tick's point keeps the loss bounded and the window in shape, and becomes its last point |
| FineTuning.Value | components/FineTuningLab.tsx:40-41 | the progress value lies in [0, 1] during a run, is 0 at its start and 1 at its end |
| FineTuning.TickKeepsRun | components/FineTuningLab.tsx:38-69 | a tick keeps the run consistent: the last tick disarms the interval with progress 1, every other advances the step by one with progress step/total |
| FineTuning.Trainer.constructor | components/FineTuningLab.tsx:10-16 | Full strategy, 3 epochs, batch 32, not training, empty chart, no loss, progress 0 |
| FineTuning.Trainer.StartTraining | components/FineTuningLab.tsx:29-36 | training, empty chart, progress 0, and one fresh interval at step 0 and loss 2.5 armed with the current strategy and step total, replacing any earlier one |
| FineTuning.Trainer.Tick | components/FineTuningLab.tsx:38-69 | the chart gains the tick's point in a 50-point window, the current loss is its loss; the step advances by one with progress step/total, and at the total the interval is cleared, training stops and progress is 1 |
| FineTuning.Trainer.Reset | components/FineTuningLab.tsx:72-78 | from any state: interval cleared, not training, empty chart, no loss, progress 0, settings kept |
| FineTuning.Trainer.SelectMethod | components/FineTuningLab.tsx:316-322 | the strategy changes only when not training |
| FineTuning.Trainer.SelectEpochs | components/FineTuningLab.tsx:346-352 | the epochs change only when not training |
| FineTuning.Trainer.SelectBatchSize | components/FineTuningLab.tsx:357-363 | the batch size changes only when not training |
| FineTuning.Trainer.CalculatedSteps | components/FineTuningLab.tsx:369 | the displayed total is 16 to 1250 and, while training, the total the interval was armed with |
| Neuron.Predict | components/SingleNeuronViz.tsx:37-38 | the ReLU output is never negative and is the weighted sum or 0 |
| Neuron.Error | components/SingleNeuronViz.tsx:39 | the prediction minus the target 0.9; `DescentShrinksError`, `Trained` and `ErrorMonotone` track it across updates |
| Neuron.PhaseDelay | components/SingleNeuronViz.tsx:73-77 | 1500 ms forward, 1500 ms backward, 800 ms update; `NeuronViz.TimerFired` arms each phase with it |
| Neuron.Gradient | components/SingleNeuronViz.tsx:42-43 | each gradient component is the error times its input |
| Neuron.Descend | components/SingleNeuronViz.tsx:56-63 | each weight moves against its gradient by the learning rate 0.05 |
| Neuron.DescentShrinksError | components/SingleNeuronViz.tsx:55-65 | with the sum between 0 and the target, a step scales the error by 0.9555, so the output moves towards the target, and the sum stays in that range |
| Neuron.InitialInBasin | components/SingleNeuronViz.tsx:12-21 | the starting weights give error -0.66 and lie in that range |
| Neuron.Trained | components/SingleNeuronViz.tsx:55-68 | after n updates the error is -0.66 * 0.9555^n |
| Neuron.ErrorMonotone | components/SingleNeuronViz.tsx:55-68 | the error never grows from one epoch to a later one and stays at most 0 |
| Neuron.NeuronViz.constructor | components/SingleNeuronViz.tsx:81-91 | initial weights, output 0, epoch 0, zero gradient; a forward pass starts iff training |
| Neuron.NeuronViz.SetTraining | components/SingleNeuronViz.tsx:81-96 | an unchanged flag changes nothing; turning off gives phase IDLE, no timer, initial weights, output 0, epoch 0, zero gradient; turning on starts FORWARD with its 1500 ms timer |
| Neuron.NeuronViz.TimerFired | components/SingleNeuronViz.tsx:26-78 | FORWARD → BACKWARD shows output and gradient with the weights unchanged; BACKWARD → UPDATE takes one descent step and counts one epoch; UPDATE → FORWARD; the weights are always those after `epoch` updates |
| Rag.IndexOf | components/RAGViz.tsx:27 | `indexOf`: -1 iff absent, otherwise the first position of the element |
| Rag.Delay | components/RAGViz.tsx:13-22 | the delay table; `FlowDelays` and `TimeFromInput` add it up along the flow |
| Rag.Next | components/RAGViz.tsx:25-29 | `flow[flow.indexOf(step) + 1]`; `NextIsSuccessor` shows it is the immediate successor |
| Rag.IsActive | components/RAGViz.tsx:220-309 | a node is active at its own step; `ActiveNodes` shows at most one is |
| Rag.IsDone | components/RAGViz.tsx:220-309 | the `isDone` table of the nodes; `DoneIffAfter` shows it means strictly after |
| Rag.NextIsSuccessor | components/RAGViz.tsx:25-29 | every moving step advances to its immediate successor in the flow, never back to IDLE |
| Rag.Trail | components/RAGViz.tsx:24-30 | the uninterrupted walk from a step starts there, ends at DONE and visits 8 - ordinal steps |
| Rag.TrailVisitsInOrder | components/RAGViz.tsx:24-30 | the walk visits the steps in flow order, one ordinal at a time |
| Rag.RemainingIsSum | components/RAGViz.tsx:13-30 | the walk's time is the sum of the delays of the steps it passes |
| Rag.TrailFromInput | components/RAGViz.tsx:26 | from INPUT the walk is the flow itself, six transitions ending at DONE |
| Rag.FlowDelays | components/RAGViz.tsx:13-22 | the delays of the flow add up to 13300 ms |
| Rag.TimeFromInput | components/RAGViz.tsx:13-29 | from INPUT, DONE is reached after 13300 ms |
| Rag.DoneIffAfter | components/RAGViz.tsx:220-309 | a node is done iff the current step is strictly after it |
| Rag.ActiveNodes | components/RAGViz.tsx:220-309 | an active node is not done, at most one node is active, and none while IDLE or DONE |
| Rag.RagAnimator.constructor | components/RAGViz.tsx:8 | IDLE with no timer |
| Rag.RagAnimator.SetStep | components/RAGViz.tsx:11-33 | the step is set; a change clears the pending timer and arms the new step's delay unless it is IDLE or DONE, so at most one transition is pending |
| Rag.RagAnimator.Start | components/RAGViz.tsx:35 | always INPUT with its 1500 ms timer |
| Rag.RagAnimator.Reset | components/RAGViz.tsx:36 | always IDLE with no timer |
| Rag.RagAnimator.TimerFired | components/RAGViz.tsx:24-30 | IDLE and DONE stay put; every other step advances to its successor |
| Rag.RagAnimator.CanStart | components/RAGViz.tsx:184 | the start control is offered iff no timer is pending, that is iff IDLE or DONE |

## Left out

- Rendering: all JSX, SVG, styling, d3 transitions and recharts charts. `components/ConceptExplainer.tsx`, `components/ProbabilityChart.tsx` and `components/AnimatedCounter.tsx` are presentation only and are not part of this model.
- Real time: timers are events, and there is no clock. Only the playground's run gets firing times, through `Playground.FiresAt`, with the service's latency as a parameter.
- Interleaving of overlapping playground runs: any order of their events is allowed. No lemma describes several runs at once, because the source does not isolate them.
- Randomness: every `Math.random()` draw is a parameter in [0, 1). For link keeping it is the oracle `keep`, asked with the ids of the link's two ends.
- Floating point: arithmetic is over `real`, so IEEE rounding is not modelled.
- FineTuning.TickPoint: the charted loss and the current loss are the unrounded simulated loss. The source rounds both with `toFixed(3)`. Accuracy uses the unrounded loss, as in the source.
- FineTuning.Trainer.Tick: the progress is kept as the fraction `step / total` (`FineTuning.Fraction`, read through `Value`), not as a floating-point number.
- The Gemini SDK, `process.env`, `FileReader` and `console.error` are foreign:
  - the SDK is the oracle `sdk`;
  - whether a key is set is the parameter `hasApiKey`;
  - a finished file read is the event `HandleFileChange`;
  - logging is dropped.
- Topology.BuildLinks: states which links exist, not their order in the array or the drawn weights.
- Topology.BuildTopology: leaves out the screen coordinates and activation values of the nodes, which only affect the drawing. It also leaves out the guard that skips the effect before the SVG element exists.
- Steps.GetSteps: keeps each card's id, title and colour. Icons, descriptions, explanations and analogies are display text.
- Steps.Visualizer.ThinkTick: the updater `prev => [...prev, thoughts[i]]` is modelled as reading `i` when it is queued, before the increment. React normally computes such an update at once, but it may defer it to the next render.
- The selected card of the pipeline view, the parameter help toggle and the LoRA drawing of the neuron are UI state that nothing in the core reads.
- React StrictMode's double invocation of effects in development.
- The `thinking` field of the service's result type, and `thinkingProcess` of the state record: nothing sets them.
- The Run button's disabled state (`Playground.RunButtonEnabled`) is not a precondition of `Playground.App.RunSimulation`, because the Enter key calls `runSimulation` regardless. `Playground.RunButtonStarts` relates the two.
