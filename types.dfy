/** Shared enums and records of the explorer (types.ts), plus the Option type
    used wherever the source has a nullable value. */
module Types {

  datatype Option<T> = None | Some(value: T)

  /** The four model sizes offered in the settings panel. */
  datatype ModelSize = Nano | Small | Medium | Large

  /** What the simulated model can do; decides the phases of a run. */
  datatype Capability = Standard | Reasoning | Vision

  /** The three top-level views. types.ts declares only the first two, while
      App.tsx switches to and renders a third one (the retrieval demo). */
  datatype AppMode = Inference | Training | Rag

  datatype TrainingMethod = Full | LoRA | QLoRA

  /** One displayed word of the input: its text, its position and its colour. */
  datatype Token = Token(text: string, id: nat, color: string)

  /** One bar of the next-word probability chart. */
  datatype Probability = Probability(name: string, value: real)

  /** What the generation service hands back to the playground. */
  datatype Response = Response(text: string, probabilities: seq<Probability>)

  /** The playground's single state record. */
  datatype SimState = SimState(
    mode: AppMode,
    isProcessing: bool,
    currentStepIndex: int,
    input: string,
    image: Option<string>,
    output: string,
    tokens: seq<Token>,
    modelSize: ModelSize,
    capability: Capability,
    probabilities: seq<Probability>)

  /** JavaScript truthiness of `string | null`: null and "" are both false. */
  predicate Truthy(s: Option<string>)
  {
    s.Some? && s.value != ""
  }
}
