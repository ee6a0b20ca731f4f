/** The inference playground (App.tsx): the state record, whitespace
    tokenisation, the scheduled phase writes of a run, the model-size table
    and the "network active" predicate.

    Every `setTimeout` of `runSimulation` becomes an event. One call of
    `runSimulation` (a run) arms its timers at offsets 1000, 2500, 4000 and
    6500 ms, so within a run they fire in that order; a run is therefore one
    chain of pending events. The source never cancels a run, so several runs
    can be in flight at once and their events interleave in any order. */
module Playground {
  import opened Types
  import Gemini

  const Palette: seq<string> := ["#60a5fa", "#34d399", "#f472b6", "#a78bfa"]

  // ---------------------------------------------------------------------
  // Tokenisation: input.trim().split(/\s+/)

  /** The characters JavaScript's `\s` and `trim` treat as white space. */
  predicate IsSpace(c: char)
  {
    var n := c as int;
    n == 0x20 || 0x09 <= n <= 0x0D || n == 0xA0 || n == 0x1680 || 0x2000 <= n <= 0x200A
    || n == 0x2028 || n == 0x2029 || n == 0x202F || n == 0x205F || n == 0x3000 || n == 0xFEFF
  }

  predicate NoSpace(s: string)
  {
    forall i :: 0 <= i < |s| ==> !IsSpace(s[i])
  }

  function TrimStart(s: string): (r: string)
    ensures |r| <= |s| && r == s[|s| - |r|..]
    ensures r == [] || !IsSpace(r[0])
    ensures forall i :: 0 <= i < |s| - |r| ==> IsSpace(s[i])
  {
    if s != [] && IsSpace(s[0]) then TrimStart(s[1..]) else s
  }

  function TrimEnd(s: string): (r: string)
    ensures |r| <= |s| && r == s[..|r|]
    ensures r == [] || !IsSpace(r[|r| - 1])
    ensures forall i :: |r| <= i < |s| ==> IsSpace(s[i])
  {
    if s != [] && IsSpace(s[|s| - 1]) then TrimEnd(s[..|s| - 1]) else s
  }

  function Trim(s: string): string
  {
    TrimEnd(TrimStart(s))
  }

  /** The index of the first white-space character, or |s|. */
  function FirstSpace(s: string): (k: nat)
    ensures k <= |s|
    ensures k < |s| ==> IsSpace(s[k])
    ensures NoSpace(s[..k])
  {
    if s == [] || IsSpace(s[0]) then 0
    else
      var k := 1 + FirstSpace(s[1..]);
      assert s[..k] == [s[0]] + s[1..][..k - 1];
      k
  }

  /** `s.split(/\s+/)`: the fields separated by maximal runs of white space. */
  function SplitWs(s: string): (ws: seq<string>)
    ensures |ws| >= 1
    decreases |s|
  {
    var k := FirstSpace(s);
    if k == |s| then [s]
    else [s[..k]] + SplitWs(TrimStart(s[k..]))
  }

  function MakeTokens(words: seq<string>): (ts: seq<Token>)
    ensures |ts| == |words|
    ensures forall i :: 0 <= i < |ts| ==> ts[i] == Token(words[i], i, Palette[i % 4])
  {
    seq(|words|, i requires 0 <= i < |words| => Token(words[i], i, Palette[i % 4]))
  }

  /** The tokens of step 1. */
  function Tokenize(input: string): seq<Token>
  {
    MakeTokens(SplitWs(Trim(input)))
  }

  /** The non-space characters of `s`, in order. */
  function NonSpace(s: string): string
  {
    if s == [] then []
    else (if IsSpace(s[0]) then [] else [s[0]]) + NonSpace(s[1..])
  }

  function Concat(ws: seq<string>): string
  {
    if ws == [] then [] else ws[0] + Concat(ws[1..])
  }

  function Texts(ts: seq<Token>): (r: seq<string>)
    ensures |r| == |ts| && forall i :: 0 <= i < |ts| ==> r[i] == ts[i].text
  {
    seq(|ts|, i requires 0 <= i < |ts| => ts[i].text)
  }

  lemma {:induction false} NonSpaceAppend(a: string, b: string)
    ensures NonSpace(a + b) == NonSpace(a) + NonSpace(b)
  {
    if a != [] {
      assert (a + b)[1..] == a[1..] + b;
      NonSpaceAppend(a[1..], b);
    } else {
      assert a + b == b;
    }
  }

  lemma {:induction false} NonSpaceOfSpaceless(s: string)
    requires NoSpace(s)
    ensures NonSpace(s) == s
  {
    if s != [] {
      NonSpaceOfSpaceless(s[1..]);
    }
  }

  lemma {:induction false} NonSpaceOfBlank(s: string)
    requires forall i :: 0 <= i < |s| ==> IsSpace(s[i])
    ensures NonSpace(s) == []
  {
    if s != [] {
      NonSpaceOfBlank(s[1..]);
    }
  }

  lemma {:induction false} NonSpaceHas(s: string, j: nat)
    requires j < |s| && !IsSpace(s[j])
    ensures NonSpace(s) != []
  {
    if j > 0 {
      NonSpaceHas(s[1..], j - 1);
    }
  }

  /** Dropping trailing white space keeps the non-space characters. */
  lemma TrimEndKeepsNonSpace(a: string)
    ensures NonSpace(TrimEnd(a)) == NonSpace(a)
  {
    var t := TrimEnd(a);
    assert a == t + a[|t|..];
    NonSpaceAppend(t, a[|t|..]);
    NonSpaceOfBlank(a[|t|..]);
  }

  /** A trimmed string neither starts nor ends with white space. */
  lemma TrimEnds(s: string)
    ensures Trim(s) == [] || (!IsSpace(Trim(s)[0]) && !IsSpace(Trim(s)[|Trim(s)| - 1]))
  {
    var a := TrimStart(s);
    var t := TrimEnd(a);
    if t != [] {
      assert t[0] == a[0];
    }
  }

  /** Trimming only removes white space. */
  lemma TrimKeepsNonSpace(s: string)
    ensures NonSpace(Trim(s)) == NonSpace(s)
    ensures Trim(s) == [] || (!IsSpace(Trim(s)[0]) && !IsSpace(Trim(s)[|Trim(s)| - 1]))
  {
    TrimStartKeepsNonSpace(s);
    TrimEndKeepsNonSpace(TrimStart(s));
    TrimEnds(s);
  }

  /** Dropping leading white space keeps the non-space characters. */
  lemma TrimStartKeepsNonSpace(t: string)
    ensures NonSpace(TrimStart(t)) == NonSpace(t)
  {
    var r := TrimStart(t);
    assert t == t[..|t| - |r|] + r;
    NonSpaceAppend(t[..|t| - |r|], r);
    NonSpaceOfBlank(t[..|t| - |r|]);
  }

  /** A space-free prefix is kept as it is. */
  lemma SpacelessPrefix(s: string, k: nat)
    requires k <= |s| && NoSpace(s[..k])
    ensures NonSpace(s) == s[..k] + NonSpace(s[k..])
  {
    assert s == s[..k] + s[k..];
    NonSpaceAppend(s[..k], s[k..]);
    NonSpaceOfSpaceless(s[..k]);
  }

  /** Every field is non-empty and free of white space. */
  ghost predicate Words(ws: seq<string>)
  {
    forall i :: 0 <= i < |ws| ==> ws[i] != "" && NoSpace(ws[i])
  }

  lemma WordsCons(h: string, t: seq<string>)
    requires h != "" && NoSpace(h) && Words(t)
    ensures Words([h] + t)
    ensures Concat([h] + t) == h + Concat(t)
  {
    assert ([h] + t)[1..] == t;
  }

  /** One field split off the front. */
  lemma SplitWsUnfold(s: string)
    requires FirstSpace(s) < |s|
    ensures SplitWs(s) == [s[..FirstSpace(s)]] + SplitWs(TrimStart(s[FirstSpace(s)..]))
  {
  }

  /** The fields of a string that neither starts nor ends with white space
      are non-empty, contain no white space and together hold exactly its
      non-space characters. */
  lemma {:induction false} SplitWsFields(s: string)
    requires s != [] && !IsSpace(s[0]) && !IsSpace(s[|s| - 1])
    ensures Words(SplitWs(s))
    ensures Concat(SplitWs(s)) == NonSpace(s)
    decreases |s|
  {
    var k := FirstSpace(s);
    if k == |s| {
      assert s[..k] == s;
      NonSpaceOfSpaceless(s);
      assert SplitWs(s) == [s];
      assert Concat([s]) == s + Concat([]);
    } else {
      var tail := s[k..];
      var rest := TrimStart(tail);
      assert rest != [] && rest[|rest| - 1] == s[|s| - 1];
      SplitWsFields(rest);
      SplitWsUnfold(s);
      WordsCons(s[..k], SplitWs(rest));
      SpacelessPrefix(s, k);
      TrimStartKeepsNonSpace(tail);
    }
  }

  ghost predicate AllSpace(s: string)
  {
    forall i :: 0 <= i < |s| ==> IsSpace(s[i])
  }

  /** The white space a trim removes from a string that starts with white
      space is a non-empty run of white space. */
  lemma LeadingGap(t: string)
    requires t != [] && IsSpace(t[0])
    ensures Gap(t) != [] && AllSpace(Gap(t))
  {
    TrimShrinks(t);
    SpacePrefix(t, |t| - |TrimStart(t)|);
  }

  /** Trimming a string that starts with white space shortens it. */
  lemma TrimShrinks(t: string)
    requires t != [] && IsSpace(t[0])
    ensures |TrimStart(t)| < |t|
  {
    assert TrimStart(t) == TrimStart(t[1..]);
  }

  /** A string is the white space a trim removes followed by the trimmed rest. */
  lemma TrimSplit(t: string)
    ensures t == Gap(t) + TrimStart(t)
  {
    var m := |t| - |TrimStart(t)|;
    Recombine(t, m);
  }

  lemma Recombine(t: string, m: nat)
    requires m <= |t|
    ensures t == t[..m] + t[m..]
  {
  }

  lemma SpacePrefix(t: string, m: nat)
    requires m <= |t| && forall i :: 0 <= i < m ==> IsSpace(t[i])
    ensures AllSpace(t[..m])
  {
    forall i | 0 <= i < m
      ensures IsSpace(t[..m][i])
    {
      assert t[..m][i] == t[i];
    }
  }

  /** The leading white space of `t`, which a trim removes. */
  function Gap(t: string): string
  {
    t[..|t| - |TrimStart(t)|]
  }

  /** The white-space runs that separate the fields of `s`, in order. */
  function Gaps(s: string): seq<string>
    decreases |s|
  {
    var k := FirstSpace(s);
    if k == |s| then []
    else
      TrimShrinks(s[k..]);
      [Gap(s[k..])] + Gaps(TrimStart(s[k..]))
  }

  /** One gap split off the front. */
  lemma GapsUnfold(s: string)
    requires FirstSpace(s) < |s|
    ensures Gaps(s) == [Gap(s[FirstSpace(s)..])] + Gaps(TrimStart(s[FirstSpace(s)..]))
  {
  }

  /** Every gap is a non-empty run of white space. */
  lemma {:induction false} GapsAreSpace(s: string)
    ensures SpaceRuns(Gaps(s))
    decreases |s|
  {
    var k := FirstSpace(s);
    if k < |s| {
      var rest := s[k..];
      var r := TrimStart(rest);
      var g := Gap(rest);
      TrimShrinks(rest);
      LeadingGap(rest);
      GapsAreSpace(r);
      GapsUnfold(s);
      ConsRun(g, Gaps(r));
    } else {
      assert Gaps(s) == [];
    }
  }

  /** Every element is a non-empty run of white space. */
  ghost predicate SpaceRuns(gs: seq<string>)
  {
    forall i :: 0 <= i < |gs| ==> gs[i] != [] && AllSpace(gs[i])
  }

  lemma ConsRun(g: string, gs: seq<string>)
    requires g != [] && AllSpace(g) && SpaceRuns(gs)
    ensures SpaceRuns([g] + gs)
  {
  }

  /** The fields `ws` joined with one gap of `gs` between each pair. */
  function Interleave(ws: seq<string>, gs: seq<string>): string
    requires |ws| == |gs| + 1
    decreases |gs|
  {
    if gs == [] then ws[0] else ws[0] + gs[0] + Interleave(ws[1..], gs[1..])
  }

  lemma InterleaveCons(w: string, g: string, ws: seq<string>, gs: seq<string>)
    requires |ws| == |gs| + 1
    ensures Interleave([w] + ws, [g] + gs) == w + g + Interleave(ws, gs)
  {
    assert ([w] + ws)[1..] == ws && ([g] + gs)[1..] == gs;
  }

  lemma SplitAt(s: string, k: nat, g: string, r: string)
    requires k <= |s| && s[k..] == g + r
    ensures s == s[..k] + g + r
  {
    assert s == s[..k] + s[k..];
  }

  /** A string is its fields joined by its white-space runs. */
  lemma {:induction false} SplitGaps(s: string)
    ensures |SplitWs(s)| == |Gaps(s)| + 1
    ensures Interleave(SplitWs(s), Gaps(s)) == s
    decreases |s|
  {
    var k := FirstSpace(s);
    if k == |s| {
      assert s[..k] == s;
    } else {
      var rest := s[k..];
      var r := TrimStart(rest);
      var g := Gap(rest);
      TrimShrinks(rest);
      TrimSplit(rest);
      SplitGaps(r);
      SplitWsUnfold(s);
      GapsUnfold(s);
      InterleaveCons(s[..k], g, SplitWs(r), Gaps(r));
      SplitAt(s, k, g, r);
    }
  }

  /** A blank input yields the single empty token. */
  lemma BlankInputTokens(input: string)
    requires forall i :: 0 <= i < |input| ==> IsSpace(input[i])
    ensures Tokenize(input) == [Token("", 0, Palette[0])]
  {
    TrimKeepsNonSpace(input);
    NonSpaceOfBlank(input);
    var t := Trim(input);
    assert t == [];
    assert SplitWs(t) == [""];
  }

  /** Any other input yields non-empty, space-free tokens that spell out
      its non-space characters in order; joined by the white-space runs of
      the trimmed input they give it back, so each token is a maximal run
      of non-space characters. */
  lemma WordTokens(input: string, j: nat)
    requires j < |input| && !IsSpace(input[j])
    ensures forall i :: 0 <= i < |Tokenize(input)| ==>
              Tokenize(input)[i].text != "" && NoSpace(Tokenize(input)[i].text)
    ensures Concat(Texts(Tokenize(input))) == NonSpace(input)
    ensures var gs := Gaps(Trim(input));
      && |Tokenize(input)| == |gs| + 1
      && (forall i :: 0 <= i < |gs| ==> gs[i] != [] && AllSpace(gs[i]))
      && Interleave(Texts(Tokenize(input)), gs) == Trim(input)
  {
    var t := Trim(input);
    SplitGaps(t);
    GapsAreSpace(t);
    assert t != [] && !IsSpace(t[0]) && !IsSpace(t[|t| - 1]) by {
      TrimKeepsNonSpace(input);
      NonSpaceHas(input, j);
    }
    SplitWsFields(t);
    TokensOfWords(SplitWs(t));
    TrimKeepsNonSpace(input);
  }

  /** The tokens of a list of words spell out the words. */
  lemma TokensOfWords(ws: seq<string>)
    requires Words(ws)
    ensures forall i :: 0 <= i < |MakeTokens(ws)| ==> MakeTokens(ws)[i].text != "" && NoSpace(MakeTokens(ws)[i].text)
    ensures Texts(MakeTokens(ws)) == ws
  {
  }

  /** Token i has id i and palette colour i mod 4, and there is always at
      least one token. */
  lemma TokenIdsAndColors(input: string)
    ensures |Tokenize(input)| >= 1
    ensures forall i :: 0 <= i < |Tokenize(input)| ==>
              Tokenize(input)[i].id == i && Tokenize(input)[i].color == Palette[i % 4]
  {
  }

  lemma {:induction false} FirstSpaceOf(a: string, b: string)
    requires NoSpace(a) && b != [] && IsSpace(b[0])
    ensures FirstSpace(a + b) == |a|
  {
    if a != [] {
      assert (a + b)[1..] == a[1..] + b;
      FirstSpaceOf(a[1..], b);
    }
  }

  lemma {:induction false} FirstSpaceWhole(a: string)
    requires NoSpace(a)
    ensures FirstSpace(a) == |a|
  {
    if a != [] {
      FirstSpaceWhole(a[1..]);
    }
  }

  lemma LowercaseNoSpace(w: string)
    requires forall i :: 0 <= i < |w| ==> 'a' <= w[i] <= 'z'
    ensures NoSpace(w)
  {
  }

  lemma TrimOfWords(s: string)
    requires s != [] && !IsSpace(s[0]) && !IsSpace(s[|s| - 1])
    ensures Trim(s) == s
  {
  }

  lemma SplitWsWhole(a: string)
    requires NoSpace(a)
    ensures SplitWs(a) == [a]
  {
    FirstSpaceWhole(a);
  }

  lemma SplitWsStep(a: string, b: string)
    requires NoSpace(a) && b != [] && IsSpace(b[0])
    ensures SplitWs(a + b) == [a] + SplitWs(TrimStart(b))
  {
    FirstSpaceOf(a, b);
    assert (a + b)[..|a|] == a;
    assert (a + b)[|a|..] == b;
  }

  lemma TrimStartOne(c: char, w: string)
    requires IsSpace(c) && w != [] && !IsSpace(w[0])
    ensures TrimStart([c] + w) == w
  {
    assert ([c] + w)[1..] == w;
  }

  lemma MakeTwoTokens(a: string, b: string)
    ensures MakeTokens([a, b]) == [Token(a, 0, Palette[0]), Token(b, 1, Palette[1])]
  {
    var ts := MakeTokens([a, b]);
    assert ts[0] == Token(a, 0, Palette[0]);
    assert ts[1] == Token(b, 1, Palette[1]);
  }

  lemma SplitTwo(h: string, b: string, w: string)
    requires NoSpace(h) && NoSpace(w) && b != [] && IsSpace(b[0]) && TrimStart(b) == w
    ensures SplitWs(h + b) == [h, w]
  {
    SplitWsStep(h, b);
    SplitWsWhole(w);
  }

  lemma JoinEnds(h: string, w: string)
    requires h != [] && w != [] && NoSpace(h) && NoSpace(w)
    ensures var s := h + ([' '] + w); s != [] && !IsSpace(s[0]) && !IsSpace(s[|s| - 1])
  {
    var s := h + ([' '] + w);
    assert s[0] == h[0] && s[|s| - 1] == w[|w| - 1];
  }

  lemma TrimJoin(h: string, w: string)
    requires h != [] && w != [] && NoSpace(h) && NoSpace(w)
    ensures Trim(h + ([' '] + w)) == h + ([' '] + w)
  {
    JoinEnds(h, w);
    TrimOfWords(h + ([' '] + w));
  }

  lemma SplitJoin(h: string, w: string)
    requires w != [] && NoSpace(h) && NoSpace(w)
    ensures SplitWs(h + ([' '] + w)) == [h, w]
  {
    TrimStartOne(' ', w);
    SplitTwo(h, [' '] + w, w);
  }

  lemma TwoWordSplit(h: string, w: string)
    requires h != [] && w != [] && NoSpace(h) && NoSpace(w)
    ensures SplitWs(Trim(h + ([' '] + w))) == [h, w]
  {
    TrimJoin(h, w);
    SplitJoin(h, w);
  }

  lemma SpacedAssoc(h: string, w: string)
    ensures h + " " + w == h + ([' '] + w)
  {
  }

  /** Two lower-case words separated by one space, as in the scenario
      "hello world": two tokens with ids 0 and 1 and the first two colours. */
  lemma TwoWordTokens(h: string, w: string)
    requires h != [] && w != []
    requires forall i :: 0 <= i < |h| ==> 'a' <= h[i] <= 'z'
    requires forall i :: 0 <= i < |w| ==> 'a' <= w[i] <= 'z'
    ensures Tokenize(h + " " + w) == [Token(h, 0, Palette[0]), Token(w, 1, Palette[1])]
  {
    LowercaseNoSpace(h);
    LowercaseNoSpace(w);
    SpacedAssoc(h, w);
    TwoWordSplit(h, w);
    MakeTwoTokens(h, w);
  }

  // ---------------------------------------------------------------------
  // Derived display facts

  /** getLayerCount: the hidden-layer count shown for each model size. */
  function LayerCountOf(size: ModelSize): (n: nat)
    ensures 2 <= n <= 8
    ensures size == Nano ==> n == 2
    ensures size == Small ==> n == 3
    ensures size == Medium ==> n == 5
    ensures size == Large ==> n == 8
  {
    match size
    case Nano => 2
    case Small => 3
    case Medium => 5
    case Large => 8
  }

  /** The network diagram animates during attention, reasoning and prediction. */
  predicate NetworkActive(step: int)
  {
    step >= 3 && step <= 5
  }

  /** The Run button is disabled while processing or with nothing to send. */
  predicate RunButtonEnabled(s: SimState)
  {
    !(s.isProcessing || (s.input == "" && !Truthy(s.image)))
  }

  /** Of the phases a run writes, the diagram animates from attention on
      (the fourth write); it is still at the initial state. */
  lemma NetworkActiveSpan(capability: Capability)
    ensures forall i :: 0 <= i < |PhaseWrites(capability)| ==>
              (NetworkActive(PhaseWrites(capability)[i]) <==> 3 <= i)
    ensures !NetworkActive(InitialState().currentStepIndex)
  {
  }

  /** The Run button is enabled exactly when nothing is processing and
      runSimulation would start a run. */
  lemma RunButtonStarts(s: SimState)
    ensures RunButtonEnabled(s) <==> !s.isProcessing && StartRun(s).run.Some?
  {
  }

  // ---------------------------------------------------------------------
  // Runs

  function InitialState(): (s: SimState)
    ensures s.currentStepIndex == -1 && !s.isProcessing
    ensures s.output == "" && s.tokens == [] && s.probabilities == []
    ensures s.input == "" && s.image == None
    ensures s.mode == Inference && s.modelSize == Small && s.capability == Standard
  {
    SimState(Inference, false, -1, "", None, "", [], Small, Standard, [])
  }

  /** The phase indices one run writes, in order. */
  function PhaseWrites(capability: Capability): seq<int>
  {
    [0, 1, 2, 3] + (if capability == Reasoning then [4] else []) + [5]
  }

  lemma PhaseWritesShape(capability: Capability)
    ensures 4 in PhaseWrites(capability) <==> capability == Reasoning
    ensures PhaseWrites(capability)[0] == 0 && PhaseWrites(capability)[|PhaseWrites(capability)| - 1] == 5
    ensures forall i, j :: 0 <= i < j < |PhaseWrites(capability)| ==>
              PhaseWrites(capability)[i] < PhaseWrites(capability)[j]
  {
  }

  /** The next pending event of a run. */
  datatype Stage =
    | TokensDue              // the 1000 ms timer
    | EmbedDue               // the 2500 ms timer
    | AttentionDue           // the 4000 ms timer
    | DispatchDue            // the 6500 ms timer, which also calls the service
    | AwaitingReply          // the service's promise has not settled
    | ReasonEndDue(response: Response)  // Reasoning only: the 5000 ms timer
    | RevealDue(response: Response)     // the 1500 ms (Reasoning) or 2000 ms timer
    | Finished
    | Abandoned              // the service rejected: the callback's promise rejects

  /** One call of runSimulation: what its closure captured, and what is next. */
  datatype Run = Run(input: string, image: Option<string>, capability: Capability,
                     tokens: seq<Token>, stage: Stage)

  predicate Live(r: Run)
  {
    !r.stage.Finished? && !r.stage.Abandoned?
  }

  predicate TimerPending(r: Run)
  {
    Live(r) && !r.stage.AwaitingReply?
  }

  /** The delay each pending timer was armed with, in milliseconds. */
  function TimerDelay(r: Run): nat
  {
    match r.stage
    case TokensDue => 1000
    case EmbedDue => 2500
    case AttentionDue => 4000
    case DispatchDue => 6500
    case ReasonEndDue(_) => 5000
    case RevealDue(_) => if r.capability == Reasoning then 1500 else 2000
    case _ => 0
  }

  datatype Started = Started(state: SimState, run: Option<Run>)
  datatype Fired = Fired(state: SimState, run: Run)
  datatype Driven = Driven(state: SimState, trace: seq<int>)

  /** runSimulation up to its first await: the guard, the reset write and
      the tokenisation of the input captured by the closure. */
  function StartRun(s: SimState): (st: Started)
    ensures st.run.None? <==> s.input == "" && !Truthy(s.image)
    ensures st.run.None? ==> st.state == s
    ensures st.run.Some? ==>
      st.state == s.(isProcessing := true, currentStepIndex := 0, output := "", probabilities := [], tokens := [])
      && st.run.value == Run(s.input, s.image, s.capability, Tokenize(s.input), TokensDue)
  {
    if s.input == "" && !Truthy(s.image) then Started(s, None)
    else
      Started(s.(isProcessing := true, currentStepIndex := 0, output := "", probabilities := [], tokens := []),
              Some(Run(s.input, s.image, s.capability, Tokenize(s.input), TokensDue)))
  }

  /** The phase index a pending timer writes, if it writes one. */
  function StepWrite(r: Run): Option<int>
  {
    match r.stage
    case TokensDue => Some(1)
    case EmbedDue => Some(2)
    case AttentionDue => Some(3)
    case DispatchDue => Some(if r.capability == Reasoning then 4 else 5)
    case ReasonEndDue(_) => Some(5)
    case _ => None
  }

  /** The state write of a run's pending timer, and the run's next stage. */
  function FireTimer(s: SimState, r: Run): (f: Fired)
    requires TimerPending(r)
  {
    match r.stage
    case TokensDue => Fired(s.(currentStepIndex := 1, tokens := r.tokens), r.(stage := EmbedDue))
    case EmbedDue => Fired(s.(currentStepIndex := 2), r.(stage := AttentionDue))
    case AttentionDue => Fired(s.(currentStepIndex := 3), r.(stage := DispatchDue))
    case DispatchDue =>
      Fired(s.(currentStepIndex := if r.capability == Reasoning then 4 else 5), r.(stage := AwaitingReply))
    case ReasonEndDue(resp) => Fired(s.(currentStepIndex := 5), r.(stage := RevealDue(resp)))
    case RevealDue(resp) =>
      Fired(s.(isProcessing := false, output := resp.text, probabilities := resp.probabilities),
            r.(stage := Finished))
  }

  /** The awaited service call settles; no state is written at this point. */
  function ReceiveReply(r: Run, o: Gemini.Outcome): (r': Run)
    requires r.stage.AwaitingReply?
    ensures r' == r.(stage := r'.stage)
    ensures o.Rejected? ==> r'.stage == Abandoned
    ensures o.Resolved? && r.capability == Reasoning ==> r'.stage == ReasonEndDue(o.response)
    ensures o.Resolved? && r.capability != Reasoning ==> r'.stage == RevealDue(o.response)
  {
    match o
    case Rejected(_) => r.(stage := Abandoned)
    case Resolved(resp) =>
      r.(stage := if r.capability == Reasoning then ReasonEndDue(resp) else RevealDue(resp))
  }

  function Rank(st: Stage): nat
  {
    match st
    case TokensDue => 7
    case EmbedDue => 6
    case AttentionDue => 5
    case DispatchDue => 4
    case AwaitingReply => 3
    case ReasonEndDue(_) => 2
    case RevealDue(_) => 1
    case _ => 0
  }

  /** A run left alone: every event fires in order, the service settling
      with `o`. The trace lists the phase indices written after the first. */
  function Drive(s: SimState, r: Run, o: Gemini.Outcome): Driven
    decreases Rank(r.stage)
  {
    if !Live(r) then Driven(s, [])
    else if r.stage.AwaitingReply? then Drive(s, ReceiveReply(r, o), o)
    else
      var f := FireTimer(s, r);
      var d := Drive(f.state, f.run, o);
      Driven(d.state, (if StepWrite(r).Some? then [StepWrite(r).value] else []) + d.trace)
  }

  /** The 1000, 2500, 4000 and 6500 ms timers, with nothing in between. */
  lemma {:induction false} DriveToReply(s: SimState, r: Run, o: Gemini.Outcome)
    requires r.stage.TokensDue?
    ensures var w := if r.capability == Reasoning then 4 else 5;
      Drive(s, r, o) == var d := Drive(s.(currentStepIndex := w, tokens := r.tokens), r.(stage := AwaitingReply), o);
                        Driven(d.state, [1, 2, 3, w] + d.trace)
  {
    var f1 := FireTimer(s, r);
    var f2 := FireTimer(f1.state, f1.run);
    var f3 := FireTimer(f2.state, f2.run);
    var f4 := FireTimer(f3.state, f3.run);
    var w := if r.capability == Reasoning then 4 else 5;
    assert f4.state == s.(currentStepIndex := w, tokens := r.tokens);
    assert f4.run == r.(stage := AwaitingReply);
    var d := Drive(f4.state, f4.run, o);
    assert Drive(f3.state, f3.run, o) == Driven(d.state, [w] + d.trace);
    assert Drive(f2.state, f2.run, o) == Driven(d.state, [3] + ([w] + d.trace));
    assert Drive(f1.state, f1.run, o) == Driven(d.state, [2] + ([3] + ([w] + d.trace)));
    assert Drive(s, r, o) == Driven(d.state, [1] + ([2] + ([3] + ([w] + d.trace))));
    ConsFour(1, 2, 3, w, d.trace);
  }

  lemma ConsFour(a: int, b: int, c: int, e: int, t: seq<int>)
    ensures [a] + ([b] + ([c] + ([e] + t))) == [a, b, c, e] + t
  {
  }

  /** From the settled service call to the end of the run. */
  lemma {:induction false} DriveFromReply(s: SimState, r: Run, o: Gemini.Outcome)
    requires r.stage.AwaitingReply?
    ensures o.Rejected? ==> Drive(s, r, o) == Driven(s, [])
    ensures o.Resolved? && r.capability == Reasoning ==>
      Drive(s, r, o) == Driven(s.(currentStepIndex := 5, isProcessing := false, output := o.response.text,
                                  probabilities := o.response.probabilities), [5])
    ensures o.Resolved? && r.capability != Reasoning ==>
      Drive(s, r, o) == Driven(s.(isProcessing := false, output := o.response.text,
                                  probabilities := o.response.probabilities), [])
  {
    var r5 := ReceiveReply(r, o);
    assert Drive(s, r, o) == Drive(s, r5, o);
    if o.Resolved? {
      var f6 := FireTimer(s, r5);
      if r.capability == Reasoning {
        var f7 := FireTimer(f6.state, f6.run);
        assert Drive(f7.state, f7.run, o) == Driven(f7.state, []);
        assert Drive(f6.state, f6.run, o) == Driven(f7.state, []);
      } else {
        assert Drive(f6.state, f6.run, o) == Driven(f6.state, []);
      }
    }
  }

  /** A freshly started run left alone, whose service call resolves. */
  lemma DriveResolved(s: SimState, r: Run, o: Gemini.Outcome)
    requires r.stage.TokensDue? && o.Resolved?
    ensures var d := Drive(s, r, o);
      && [0] + d.trace == PhaseWrites(r.capability)
      && d.state == s.(currentStepIndex := 5, tokens := r.tokens, isProcessing := false,
                       output := o.response.text, probabilities := o.response.probabilities)
  {
    var w := if r.capability == Reasoning then 4 else 5;
    var s4 := s.(currentStepIndex := w, tokens := r.tokens);
    DriveToReply(s, r, o);
    DriveFromReply(s4, r.(stage := AwaitingReply), o);
  }

  /** A freshly started run left alone, whose service call rejects. */
  lemma DriveRejected(s: SimState, r: Run, o: Gemini.Outcome)
    requires r.stage.TokensDue? && o.Rejected?
    ensures var d := Drive(s, r, o);
      && [0] + d.trace == [0, 1, 2, 3, if r.capability == Reasoning then 4 else 5]
      && d.state == s.(currentStepIndex := if r.capability == Reasoning then 4 else 5, tokens := r.tokens)
  {
    var w := if r.capability == Reasoning then 4 else 5;
    var s4 := s.(currentStepIndex := w, tokens := r.tokens);
    DriveToReply(s, r, o);
    DriveFromReply(s4, r.(stage := AwaitingReply), o);
  }

  /** A run that nothing interrupts and whose service call resolves writes
      exactly the phases of its capability in order (phase 4 iff Reasoning),
      then clears `isProcessing` and shows the response, after the last
      phase write; input, image, capability, size and view are untouched
      and the tokens are those of the input. */
  lemma SoloRunResolved(s: SimState, o: Gemini.Outcome)
    requires s.input != "" || Truthy(s.image)
    requires o.Resolved?
    ensures StartRun(s).run.Some?
    ensures var d := Drive(StartRun(s).state, StartRun(s).run.value, o);
      && [0] + d.trace == PhaseWrites(s.capability)
      && d.state == s.(isProcessing := false, currentStepIndex := 5, tokens := Tokenize(s.input),
                       output := o.response.text, probabilities := o.response.probabilities)
  {
    DriveResolved(StartRun(s).state, StartRun(s).run.value, o);
  }

  /** If the service rejects (no API key), the last write of the run is the
      6500 ms one and the playground stays processing with empty output. */
  lemma SoloRunRejected(s: SimState, o: Gemini.Outcome)
    requires s.input != "" || Truthy(s.image)
    requires o.Rejected?
    ensures StartRun(s).run.Some?
    ensures var d := Drive(StartRun(s).state, StartRun(s).run.value, o);
      && [0] + d.trace == [0, 1, 2, 3, if s.capability == Reasoning then 4 else 5]
      && d.state == s.(isProcessing := true, currentStepIndex := if s.capability == Reasoning then 4 else 5,
                       tokens := Tokenize(s.input), output := "", probabilities := [])
  {
    DriveRejected(StartRun(s).state, StartRun(s).run.value, o);
  }

  /** When the service call settles, in ms after the click: the 6500 ms
      timer makes the call, which takes `latency` ms. */
  function ReplyAt(r: Run, latency: nat): nat
  {
    TimerDelay(r.(stage := DispatchDue)) + latency
  }

  /** When the pending timer of `r` was armed, in ms after the click. The
      first four timers are armed by the click itself. The 5000 ms timer and
      the 2000 ms one are armed when the reply arrives. The 1500 ms timer is
      armed when the 5000 ms one fires. */
  function ArmedAt(r: Run, latency: nat): nat
  {
    match r.stage
    case ReasonEndDue(_) => ReplyAt(r, latency)
    case RevealDue(resp) =>
      if r.capability == Reasoning then ReplyAt(r, latency) + TimerDelay(r.(stage := ReasonEndDue(resp)))
      else ReplyAt(r, latency)
    case _ => 0
  }

  /** When the pending timer of `r` fires, in ms after the click. */
  function FiresAt(r: Run, latency: nat): nat
  {
    ArmedAt(r, latency) + TimerDelay(r)
  }

  /** The firing times of the timers a run left alone fires, in the order
      `Drive` fires them. */
  function Schedule(s: SimState, r: Run, o: Gemini.Outcome, latency: nat): seq<nat>
    decreases Rank(r.stage)
  {
    if !Live(r) then []
    else if r.stage.AwaitingReply? then Schedule(s, ReceiveReply(r, o), o, latency)
    else
      var f := FireTimer(s, r);
      [FiresAt(r, latency)] + Schedule(f.state, f.run, o, latency)
  }

  /** The timers of a run fire at 1000, 2500, 4000 and 6500 ms after the
      click; a reply `latency` ms after the call then arms the 5000 ms and
      1500 ms timers (Reasoning) or the 2000 ms one, and a rejection arms
      none. Whatever the latency, each timer fires strictly later than the
      one before it, so the chain's writes happen in chain order. */
  lemma {:induction false} TimersFireInOrder(s: SimState, r: Run, o: Gemini.Outcome, latency: nat)
    requires r.stage.TokensDue?
    ensures var t := Schedule(s, r, o, latency);
      && t == [1000, 2500, 4000, 6500] + ScheduleAfterCall(o, r.capability, latency)
      && forall i, j :: 0 <= i < j < |t| ==> t[i] < t[j]
  {
    var w := if r.capability == Reasoning then 4 else 5;
    var s4 := s.(currentStepIndex := w, tokens := r.tokens);
    ScheduleToCall(s, r, o, latency);
    TailSchedule(s4, r.(stage := AwaitingReply), o, latency);
    TimesIncrease(o, r.capability, latency);
  }

  /** The four timers armed by the click. */
  lemma {:induction false} ScheduleToCall(s: SimState, r: Run, o: Gemini.Outcome, latency: nat)
    requires r.stage.TokensDue?
    ensures var w := if r.capability == Reasoning then 4 else 5;
      Schedule(s, r, o, latency)
      == [1000, 2500, 4000, 6500] + Schedule(s.(currentStepIndex := w, tokens := r.tokens), r.(stage := AwaitingReply), o, latency)
  {
    var f1 := FireTimer(s, r);
    var f2 := FireTimer(f1.state, f1.run);
    var f3 := FireTimer(f2.state, f2.run);
    var f4 := FireTimer(f3.state, f3.run);
    var tail := Schedule(f4.state, f4.run, o, latency);
    assert Schedule(f3.state, f3.run, o, latency) == [6500] + tail;
    assert Schedule(f2.state, f2.run, o, latency) == [4000] + ([6500] + tail);
    assert Schedule(f1.state, f1.run, o, latency) == [2500] + ([4000] + ([6500] + tail));
    assert Schedule(s, r, o, latency) == [1000] + ([2500] + ([4000] + ([6500] + tail)));
    ConsFour(1000, 2500, 4000, 6500, tail);
  }

  lemma TimesIncrease(o: Gemini.Outcome, capability: Capability, latency: nat)
    ensures var t := [1000, 2500, 4000, 6500] + ScheduleAfterCall(o, capability, latency);
      forall i, j :: 0 <= i < j < |t| ==> t[i] < t[j]
  {
  }

  /** The timers fired after the service call settles. */
  lemma {:induction false} TailSchedule(s: SimState, r: Run, o: Gemini.Outcome, latency: nat)
    requires r.stage.AwaitingReply?
    ensures Schedule(s, r, o, latency) == ScheduleAfterCall(o, r.capability, latency)
  {
    var r5 := ReceiveReply(r, o);
    assert Schedule(s, r, o, latency) == Schedule(s, r5, o, latency);
    if o.Resolved? {
      var f6 := FireTimer(s, r5);
      if r.capability == Reasoning {
        var f7 := FireTimer(f6.state, f6.run);
        assert Schedule(f7.state, f7.run, o, latency) == [];
        assert Schedule(f6.state, f6.run, o, latency) == [13000 + latency];
      } else {
        assert Schedule(f6.state, f6.run, o, latency) == [];
      }
    }
  }

  /** The firing times after the call: none on a rejection. */
  function ScheduleAfterCall(o: Gemini.Outcome, capability: Capability, latency: nat): seq<nat>
  {
    if o.Rejected? then []
    else if capability == Reasoning then [11500 + latency, 13000 + latency]
    else [8500 + latency]
  }

  /** Once a run has begun the diagram animates and keeps animating after
      the run ends, whichever way the service settles: the step index stays
      at its last phase. */
  lemma NetworkStaysActive(s: SimState, o: Gemini.Outcome)
    requires s.input != "" || Truthy(s.image)
    ensures StartRun(s).run.Some?
    ensures NetworkActive(Drive(StartRun(s).state, StartRun(s).run.value, o).state.currentStepIndex)
  {
    if o.Resolved? {
      SoloRunResolved(s, o);
    } else {
      SoloRunRejected(s, o);
    }
  }

  /** A run in flight: not over, and holding the tokens of its input. */
  ghost predicate RunOk(r: Run)
  {
    Live(r) && r.tokens == Tokenize(r.input)
  }

  ghost predicate RunsOk(runs: seq<Run>)
  {
    forall k :: 0 <= k < |runs| ==> RunOk(runs[k])
  }

  /** Removing an element leaves only elements of the original. */
  lemma RemoveSubset(runs: seq<Run>, k: nat)
    requires k < |runs|
    ensures forall r :: r in runs[..k] + runs[k + 1..] ==> r in runs
  {
    assert runs == runs[..k] + runs[k..];
    assert runs[k..] == [runs[k]] + runs[k + 1..];
  }

  lemma RunsRemove(runs: seq<Run>, k: nat)
    requires RunsOk(runs) && k < |runs|
    ensures RunsOk(runs[..k] + runs[k + 1..])
  {
    var rs := runs[..k] + runs[k + 1..];
    RemoveSubset(runs, k);
    forall j | 0 <= j < |rs|
      ensures RunOk(rs[j])
    {
      assert rs[j] in runs;
    }
  }

  lemma RunsReplace(runs: seq<Run>, k: nat, r: Run)
    requires RunsOk(runs) && k < |runs| && RunOk(r)
    ensures RunsOk(runs[k := r])
  {
  }

  lemma RunsAppend(runs: seq<Run>, r: Run)
    requires RunsOk(runs) && RunOk(r)
    ensures RunsOk(runs + [r])
  {
    var rs := runs + [r];
    forall j | 0 <= j < |rs|
      ensures RunOk(rs[j])
    {
      if j < |runs| {
        assert rs[j] == runs[j];
      }
    }
  }

  /** Firing a timer changes only the run's stage. */
  lemma FireKeepsCapture(s: SimState, r: Run)
    requires TimerPending(r)
    ensures FireTimer(s, r).run == r.(stage := FireTimer(s, r).run.stage)
  {
  }

  /** The playground: the state record and the runs still in flight. */
  class App {
    var state: SimState
    var runs: seq<Run>

    ghost predicate Valid()
      reads this
    {
      RunsOk(runs)
    }

    constructor ()
      ensures Valid() && state == InitialState() && runs == []
    {
      state := InitialState();
      runs := [];
    }

    /** runSimulation: nothing without input; otherwise the reset write and a
        new run, whatever runs are still in flight. */
    method RunSimulation()
      requires Valid()
      modifies this
      ensures Valid()
      ensures state == StartRun(old(state)).state
      ensures runs == old(runs) + (if StartRun(old(state)).run.Some? then [StartRun(old(state)).run.value] else [])
    {
      var st := StartRun(state);
      state := st.state;
      if st.run.Some? {
        RunsAppend(runs, st.run.value);
        runs := runs + [st.run.value];
      }
    }

    /** The pending timer of run k fires; a run awaiting the service has none. */
    method TimerFired(k: nat)
      requires Valid() && k < |runs|
      modifies this
      ensures Valid()
      ensures old(runs[k]).stage.AwaitingReply? ==> state == old(state) && runs == old(runs)
      ensures !old(runs[k]).stage.AwaitingReply? ==>
        var f := FireTimer(old(state), old(runs[k]));
        state == f.state
        && runs == if f.run.stage.Finished? then old(runs[..k] + runs[k + 1..])
                   else old(runs[k := f.run])
    {
      var r := runs[k];
      if !r.stage.AwaitingReply? {
        var f := FireTimer(state, r);
        FireKeepsCapture(state, r);
        state := f.state;
        if f.run.stage.Finished? {
          RunsRemove(runs, k);
          runs := runs[..k] + runs[k + 1..];
        } else {
          RunsReplace(runs, k, f.run);
          runs := runs[k := f.run];
        }
      }
    }

    /** The service call of run k settles. It was made with the input, image
        and capability the run captured; the SDK is the oracle `sdk`, and
        r0, r1, r2 are the random draws of the mock probabilities. */
    method ReplyArrived(k: nat, hasApiKey: bool, sdk: Gemini.Request -> Gemini.SdkReply, r0: real, r1: real, r2: real)
      requires Valid() && k < |runs|
      requires 0.0 <= r0 < 1.0 && 0.0 <= r1 < 1.0 && 0.0 <= r2 < 1.0
      modifies this
      ensures Valid()
      ensures state == old(state)
      ensures !old(runs[k]).stage.AwaitingReply? ==> runs == old(runs)
      ensures old(runs[k]).stage.AwaitingReply? ==>
        var r := old(runs[k]);
        var r' := ReceiveReply(r, Gemini.GenerateLLMResponse(hasApiKey, r.input, r.image, r.capability, sdk, r0, r1, r2));
        runs == if r'.stage.Abandoned? then old(runs[..k] + runs[k + 1..]) else old(runs[k := r'])
    {
      var r := runs[k];
      if r.stage.AwaitingReply? {
        var o := Gemini.GenerateLLMResponse(hasApiKey, r.input, r.image, r.capability, sdk, r0, r1, r2);
        var r' := ReceiveReply(r, o);
        if r'.stage.Abandoned? {
          RunsRemove(runs, k);
          runs := runs[..k] + runs[k + 1..];
        } else {
          RunsReplace(runs, k, r');
          runs := runs[k := r'];
        }
      }
    }

    method HandleInputChange(text: string)
      modifies this
      ensures state == old(state).(input := text) && runs == old(runs)
    {
      state := state.(input := text);
    }

    /** The file reader finished: the data URL becomes the image and the
        capability switches to Vision. */
    method HandleFileChange(dataUrl: string)
      modifies this
      ensures state == old(state).(image := Some(dataUrl), capability := Vision) && runs == old(runs)
    {
      state := state.(image := Some(dataUrl), capability := Vision);
    }

    method SelectCapability(c: Capability)
      modifies this
      ensures state == old(state).(capability := c) && runs == old(runs)
    {
      state := state.(capability := c);
    }

    method SelectModelSize(m: ModelSize)
      modifies this
      ensures state == old(state).(modelSize := m) && runs == old(runs)
    {
      state := state.(modelSize := m);
    }

    method SelectMode(m: AppMode)
      modifies this
      ensures state == old(state).(mode := m) && runs == old(runs)
    {
      state := state.(mode := m);
    }

    /** getLayerCount on the current model size. */
    function LayerCount(): (n: nat)
      reads this
      ensures 2 <= n <= 8
    {
      LayerCountOf(state.modelSize)
    }
  }
}
