/**
 * The system prompt sent with every summary request (`getSystemPrompt` in
 * src/shared/api.js). The prompt is made only of fixed sentences, chosen by the
 * requested length, the requested format and six feedback toggles.
 *
 * `SystemPrompt` states the prompt as a concatenation of its parts; `GetSystemPrompt`
 * builds it the way the source does, by appending to a local string, and is proved
 * to produce exactly `SystemPrompt`.
 */
module Prompt {
  import opened Text

  /** A JavaScript value as it may appear in the `feedback` object (numbers are integers here). */
  datatype JsValue = Undefined | Null | Bool(b: bool) | Num(n: int) | Str(s: string) | Object

  /** JavaScript truthiness: what a plain `if (v)` tests. */
  predicate Truthy(v: JsValue): (r: bool)
    ensures v == Bool(true) ==> r
    ensures v == Undefined || v == Null || v == Bool(false) || v == Num(0) || v == Str("") ==> !r
  {
    match v
    case Undefined => false
    case Null => false
    case Bool(b) => b
    case Num(n) => n != 0
    case Str(s) => s != ""
    case Object => true
  }

  /** The `feedback` object: property names to values. */
  type Feedback = map<string, JsValue>

  /**
   * The `options` argument. `format` and `length` are free strings: a value the
   * prompt builder does not recognise adds no clause. A missing `feedback`
   * property is the empty object, as the destructuring default makes it.
   */
  datatype Options = Options(format: string, length: string, feedback: Feedback)

  /** The six feedback toggles, each asking for one extra analysis section. */
  datatype Toggle = ToneBias | VagueClaims | Counterpoints | Sentiment | Intent | FactContrast

  /** The order in which every pass visits the toggles. */
  const Toggles: seq<Toggle> := [ToneBias, VagueClaims, Counterpoints, Sentiment, Intent, FactContrast]

  /** The position of a toggle in the declared order. */
  function Rank(t: Toggle): nat {
    match t
    case ToneBias => 0
    case VagueClaims => 1
    case Counterpoints => 2
    case Sentiment => 3
    case Intent => 4
    case FactContrast => 5
  }

  /** `Rank` is the inverse of indexing `Toggles`: every toggle is visited, at its rank. */
  lemma RankIndexesToggles(t: Toggle)
    ensures Rank(t) < |Toggles| && Toggles[Rank(t)] == t
  {
  }

  /** The property of `feedback` that holds a toggle. */
  function Key(t: Toggle): string {
    match t
    case ToneBias => "enableToneBiasAnalysis"
    case VagueClaims => "enableHighlightVagueClaims"
    case Counterpoints => "enableCounterpoints"
    case Sentiment => "enableSentimentDetection"
    case Intent => "enableIntentSummary"
    case FactContrast => "enableFactContrast"
  }

  /** Property access: a missing property reads as `undefined`. */
  function Lookup(feedback: Feedback, key: string): JsValue {
    if key in feedback then feedback[key] else Undefined
  }

  /** A toggle is on when its property is truthy (`if (feedback.enableX)`). */
  predicate Enabled(feedback: Feedback, t: Toggle): (r: bool)
    ensures Key(t) !in feedback ==> !r
    ensures Key(t) in feedback && feedback[Key(t)] == Bool(true) ==> r
  {
    Truthy(Lookup(feedback, Key(t)))
  }

  /**
   * `Object.values(feedback).some(value => value === true)`: some property, a toggle
   * or any other, holds exactly `true`.
   */
  predicate FeedbackRequested(feedback: Feedback): (r: bool)
    ensures r <==> exists name :: name in feedback && feedback[name] == Bool(true)
  {
    Bool(true) in feedback.Values
  }

  /** The toggles a feedback object turns on. */
  function EnabledToggles(feedback: Feedback): set<Toggle> {
    set t | t in Toggles && Enabled(feedback, t)
  }

  /** A toggle is among `EnabledToggles` exactly when its property is truthy. */
  lemma EnabledTogglesMembers(feedback: Feedback, t: Toggle)
    ensures t in EnabledToggles(feedback) <==> Enabled(feedback, t)
  {
    RankIndexesToggles(t);
  }

  // ---------------------------------------------------------------------------
  // The fixed sentences

  const Preamble := "You are an AI assistant specialized in summarizing content. "
  const BriefClause := "Create a concise summary that captures the main points in about 3-5 short paragraphs. "
  const DetailedClause := "Create a comprehensive summary that covers all significant points and details in about 5-7 paragraphs. "
  const NoOpinions := "Do not include any personal opinions or subjective statements. Focus solely on the content provided. "

  const BulletsClause := "Format your response as a bulleted list of key points, with a very brief introduction. Use - as bullet points. Be direct and clear. "
  const AcademicClause := "Format your response in an academic style with formal language, clear structure, and objective analysis. Include an introduction, body paragraphs, and conclusion. "
  const ProfessionalClause := "Format your response as a professional executive summary with clear sections, factual statements, and actionable insights. Keep the tone neutral and the language precise. "
  const SimplifiedClause := "Format your response in simple, easy-to-understand language. Avoid complex terminology, use shorter sentences, and explain concepts clearly as if to someone with limited background knowledge. "

  const AnalysisHeader := "\n\nAfter providing the summary, include an \"ADDITIONAL ANALYSIS\" section using only the following plain-text headers and format:\n\n"
  const AnalysisFooter := "Use only these headers exactly as shown, no markdown, no HTML, and no combining sections. Output must remain strictly separated.\n"
  const WrapIntro := "Wrap each analysis section in plain text using this format. Only include sections requested in the feedback options:\n\n"
  const Trailer := "Use only these headers exactly as shown. Do not include headers for sections not selected. Do not include placeholder text or brackets like [Content here]. Do not include HTML or markdown formatting beyond the headers."

  /** The section the "ADDITIONAL ANALYSIS" block asks for, per toggle. */
  function AnalysisText(t: Toggle): string {
    match t
    case ToneBias => "### Tone and Bias Analysis\nProvide 1–2 paragraphs analyzing the tone (e.g. neutral, persuasive) and any evident bias.\n\n"
    case VagueClaims => "### Unsubstantiated or Vague Claims\nIdentify up to 3 vague or unsubstantiated claims. For each, provide:\n1. The quote\n2. Type of issue\n3. Confidence level\n4. Explanation\n5. Suggested improvement\n\n"
    case Counterpoints => "### Counterpoints\nList 2–3 alternate viewpoints not considered in the original content.\n\n"
    case Sentiment => "### Sentiment Detection\nList any people or entities mentioned and the sentiment expressed toward them.\n\n"
    case Intent => "### Intent Summary\nBriefly summarize the likely intent of the page (e.g. to inform, persuade).\n\n"
    case FactContrast => "### Fact Contrast\nHighlight claims that may contradict known facts or require additional verification.\n\n"
  }

  /** The one-sentence instruction per toggle. */
  function InstructionText(t: Toggle): string {
    match t
    case ToneBias => "Analyze the tone and potential bias in the content. "
    case VagueClaims => "Highlight any vague or ambiguous claims. "
    case Counterpoints => "Present potential counterpoints to the claims made. "
    case Sentiment => "Detect and summarize the sentiment expressed in the content. "
    case Intent => "Summarize the intent behind the content. "
    case FactContrast => "Contrast the content with known facts or common knowledge. "
  }

  /** The section template per toggle. */
  function TemplateText(t: Toggle): string {
    match t
    case ToneBias => "### Tone and Bias Analysis\n(Include 1–2 paragraphs of tone and bias evaluation)\n\n"
    case VagueClaims => "### Unsubstantiated or Vague Claims\n(Identify up to 3 vague claims. Include quote, type, confidence, explanation, improvement for each.)\n\n"
    case Counterpoints => "### Counterpoints\n(If applicable, list 2–3 alternative perspectives. If no counterpoints exist, omit this section entirely.)\n\n"
    case Sentiment => "### Sentiment Detection\n(List mentioned entities and note sentiment expressed toward each. If no sentiment is expressed, omit this section.)\n\n"
    case Intent => "### Intent Summary\n(1–2 sentences summarizing the content's intent. If unclear, omit.)\n\n"
    case FactContrast => "### Fact Contrast\n(List claims that could conflict with common knowledge or known facts. If none found, omit section.)\n\n"
  }

  // ---------------------------------------------------------------------------
  // The prompt as a concatenation of parts

  /** The length clause: one for "brief", one for "detailed", none for any other value. */
  function LengthClause(length: string): string {
    if length == "brief" then BriefClause
    else if length == "detailed" then DetailedClause
    else ""
  }

  /** The format clause: one of four, or none for an unrecognised format. */
  function FormatClause(format: string): string {
    if format == "bullets" then BulletsClause
    else if format == "academic" then AcademicClause
    else if format == "professional" then ProfessionalClause
    else if format == "simplified" then SimplifiedClause
    else ""
  }

  /** Every position of `ts` comes strictly later in the declared order than the one before. */
  predicate InDeclaredOrder(ts: seq<Toggle>) {
    forall i, j :: 0 <= i < j < |ts| ==> Rank(ts[i]) < Rank(ts[j])
  }

  /** The toggles of `ts` that are in `on`, in the order of `ts`. */
  function Selected(on: set<Toggle>, ts: seq<Toggle>): (r: seq<Toggle>)
    ensures forall t :: t in r <==> t in ts && t in on
    decreases |ts|
  {
    if ts == [] then []
    else
      var last := ts[|ts| - 1];
      Selected(on, ts[..|ts| - 1]) + (if last in on then [last] else [])
  }

  /** Selecting keeps the declared order: no toggle twice, none out of place. */
  lemma {:induction false} SelectedInOrder(on: set<Toggle>, ts: seq<Toggle>)
    requires InDeclaredOrder(ts)
    ensures InDeclaredOrder(Selected(on, ts))
    decreases |ts|
  {
    if ts != [] {
      var n := |ts| - 1;
      var init, last := ts[..n], ts[n];
      var front := Selected(on, init);
      assert InDeclaredOrder(init) by {
        forall i, j | 0 <= i < j < |init| ensures Rank(init[i]) < Rank(init[j]) {
          assert init[i] == ts[i] && init[j] == ts[j];
        }
      }
      SelectedInOrder(on, init);
      if last in on {
        var r := front + [last];
        forall i, j | 0 <= i < j < |r| ensures Rank(r[i]) < Rank(r[j]) {
          if j == |front| {
            assert r[i] == front[i] && front[i] in init;
            var k :| 0 <= k < |init| && init[k] == front[i];
            assert ts[k] == r[i];
          } else {
            assert r[i] == front[i] && r[j] == front[j];
          }
        }
      }
    }
  }

  /** The texts of `ts`, one after another. */
  function Blocks(text: Toggle -> string, ts: seq<Toggle>): string
    decreases |ts|
  {
    if ts == [] then "" else Blocks(text, ts[..|ts| - 1]) + text(ts[|ts| - 1])
  }

  /** What one toggle adds to a pass: its text if it is on, nothing if it is off. */
  function Piece(on: set<Toggle>, text: Toggle -> string, t: Toggle): string {
    if t in on then text(t) else ""
  }

  /** What a pass over `ts` adds: each toggle's piece, in the order of `ts`. */
  function Contributions(on: set<Toggle>, text: Toggle -> string, ts: seq<Toggle>): string
    decreases |ts|
  {
    if ts == [] then ""
    else
      var last := ts[|ts| - 1];
      Contributions(on, text, ts[..|ts| - 1]) + Piece(on, text, last)
  }

  /** What one pass adds, visiting the toggles in the declared order. */
  function PassText(feedback: Feedback, text: Toggle -> string): string {
    Contributions(EnabledToggles(feedback), text, Toggles)
  }

  /**
   * A pass is the texts of exactly the enabled toggles, one block each, in the order
   * visited: the concatenation over `Selected`.
   */
  lemma {:induction false} ContributionsAreSelectedBlocks(on: set<Toggle>, text: Toggle -> string, ts: seq<Toggle>)
    ensures Contributions(on, text, ts) == Blocks(text, Selected(on, ts))
    decreases |ts|
  {
    if ts != [] {
      var n := |ts| - 1;
      var front := Selected(on, ts[..n]);
      ContributionsAreSelectedBlocks(on, text, ts[..n]);
      if ts[n] in on {
        assert (front + [ts[n]])[..|front|] == front;
      } else {
        assert front + [] == front;
      }
    }
  }

  /** The "ADDITIONAL ANALYSIS" block, present only when some value is strictly `true`. */
  function AnalysisBlock(feedback: Feedback): string {
    if FeedbackRequested(feedback) then AnalysisHeader + PassText(feedback, AnalysisText) + AnalysisFooter
    else ""
  }

  /** The opening clauses, in this order: preamble, length, no-opinions, format. */
  function Opening(options: Options): string {
    Preamble + LengthClause(options.length) + NoOpinions + FormatClause(options.format)
  }

  /** What follows the analysis block: the instructions, the section templates, the trailer. */
  function Closing(feedback: Feedback): string {
    PassText(feedback, InstructionText) + WrapIntro + PassText(feedback, TemplateText) + Trailer
  }

  /** The whole system prompt for `options`. */
  function SystemPrompt(options: Options): (prompt: string)
    ensures Opening(options) <= prompt
    ensures EndsWith(prompt, Trailer)
  {
    var fb := options.feedback;
    PrefixOfPrefix(Opening(options), AnalysisBlock(fb), Closing(fb));
    EndsWithLast(Opening(options) + AnalysisBlock(fb),
                 PassText(fb, InstructionText) + WrapIntro + PassText(fb, TemplateText), Trailer);
    Opening(options) + AnalysisBlock(fb) + Closing(fb)
  }

  // ---------------------------------------------------------------------------
  // What the prompt promises

  /**
   * Every prompt starts with the preamble, then the length clause (if any), the
   * no-opinions sentence and the format clause (if any), in that order.
   */
  lemma PromptStartsWithOpening(options: Options)
    ensures Preamble + LengthClause(options.length) + NoOpinions + FormatClause(options.format) <= SystemPrompt(options)
    ensures Preamble <= SystemPrompt(options)
  {
    PrefixOfPrefix(Preamble, LengthClause(options.length) + NoOpinions, FormatClause(options.format));
    Regroup3(Preamble, LengthClause(options.length), NoOpinions, FormatClause(options.format));
    PrefixOfPrefix(Opening(options), AnalysisBlock(options.feedback), Closing(options.feedback));
  }

  /** The no-opinions sentence is always in the prompt. */
  lemma PromptContainsNoOpinions(options: Options)
    ensures Contains(SystemPrompt(options), NoOpinions)
  {
    var fb := options.feedback;
    ContainsMiddle(Preamble + LengthClause(options.length), NoOpinions, FormatClause(options.format));
    ContainsExtend(Opening(options), NoOpinions, AnalysisBlock(fb));
    ContainsExtend(Opening(options) + AnalysisBlock(fb), NoOpinions, Closing(fb));
  }

  /** The prompt always ends with the fixed trailing sentence. */
  lemma PromptEndsWithTrailer(options: Options)
    ensures EndsWith(SystemPrompt(options), Trailer)
  {
    var fb := options.feedback;
    EndsWithLast(Opening(options) + AnalysisBlock(fb),
                 PassText(fb, InstructionText) + WrapIntro + PassText(fb, TemplateText), Trailer);
  }

  /**
   * "brief" selects exactly the brief clause, "detailed" exactly the detailed one, and
   * every other value selects nothing.
   */
  lemma LengthClauseChoice(length: string)
    ensures LengthClause(length) == BriefClause <==> length == "brief"
    ensures LengthClause(length) == DetailedClause <==> length == "detailed"
    ensures LengthClause(length) == "" <==> length != "brief" && length != "detailed"
  {
    assert |BriefClause| != |DetailedClause|;
  }

  /** Each of the four recognised formats selects its own clause; every other value selects nothing. */
  lemma FormatClauseChoice(format: string)
    ensures FormatClause(format) == BulletsClause <==> format == "bullets"
    ensures FormatClause(format) == AcademicClause <==> format == "academic"
    ensures FormatClause(format) == ProfessionalClause <==> format == "professional"
    ensures FormatClause(format) == SimplifiedClause <==> format == "simplified"
    ensures FormatClause(format) == "" <==> format !in {"bullets", "academic", "professional", "simplified"}
  {
    assert |BulletsClause| == 132 && |AcademicClause| == 163;
    assert |ProfessionalClause| == 171 && |SimplifiedClause| == 192;
  }

  /** The toggles in the declared order are in the declared order. */
  lemma TogglesInDeclaredOrder()
    ensures InDeclaredOrder(Toggles)
  {
    forall i, j | 0 <= i < j < |Toggles| ensures Rank(Toggles[i]) < Rank(Toggles[j]) {
      assert Rank(Toggles[i]) == i && Rank(Toggles[j]) == j;
    }
  }

  /**
   * Each pass is the concatenation of one block per enabled toggle, in the declared
   * order: a toggle's block occurs exactly when the toggle is on, never twice and
   * never out of order.
   */
  lemma PassIsEnabledBlocksInOrder(feedback: Feedback, text: Toggle -> string)
    ensures var selected := Selected(EnabledToggles(feedback), Toggles);
      && PassText(feedback, text) == Blocks(text, selected)
      && (forall t :: t in selected <==> Enabled(feedback, t))
      && InDeclaredOrder(selected)
  {
    var on := EnabledToggles(feedback);
    ContributionsAreSelectedBlocks(on, text, Toggles);
    TogglesInDeclaredOrder();
    SelectedInOrder(on, Toggles);
    forall t ensures t in Selected(on, Toggles) <==> Enabled(feedback, t) {
      RankIndexesToggles(t);
      EnabledTogglesMembers(feedback, t);
    }
  }

  /**
   * The prompt is determined by the length clause, the format clause, whether some
   * value is strictly `true`, and which toggles are truthy: any two unrecognised
   * formats (or lengths) give the same prompt, and so do `true` and any other truthy
   * value for a toggle once the analysis block is decided.
   */
  lemma PromptDeterminedByClausesAndToggles(o1: Options, o2: Options)
    requires LengthClause(o1.length) == LengthClause(o2.length)
    requires FormatClause(o1.format) == FormatClause(o2.format)
    requires FeedbackRequested(o1.feedback) == FeedbackRequested(o2.feedback)
    requires forall t :: Enabled(o1.feedback, t) <==> Enabled(o2.feedback, t)
    ensures SystemPrompt(o1) == SystemPrompt(o2)
  {
    assert EnabledToggles(o1.feedback) == EnabledToggles(o2.feedback) by {
      forall t ensures t in EnabledToggles(o1.feedback) <==> t in EnabledToggles(o2.feedback) {
        EnabledTogglesMembers(o1.feedback, t);
        EnabledTogglesMembers(o2.feedback, t);
      }
    }
  }

  /**
   * The "ADDITIONAL ANALYSIS" block, from its header to its closing line, is in the
   * prompt when some value of `feedback` is strictly `true`; otherwise the block is
   * empty and the prompt is the opening followed directly by the closing part.
   */
  lemma AnalysisBlockIffStrictTrue(options: Options)
    ensures FeedbackRequested(options.feedback) ==>
      Contains(SystemPrompt(options), AnalysisHeader + PassText(options.feedback, AnalysisText) + AnalysisFooter)
    ensures !FeedbackRequested(options.feedback) <==> AnalysisBlock(options.feedback) == ""
    ensures !FeedbackRequested(options.feedback) ==>
      SystemPrompt(options) == Opening(options) + Closing(options.feedback)
  {
    var fb := options.feedback;
    if FeedbackRequested(fb) {
      ContainsMiddle(Opening(options), AnalysisBlock(fb), Closing(fb));
      assert |AnalysisBlock(fb)| >= |AnalysisHeader| > 0;
    } else {
      assert Opening(options) + "" == Opening(options);
    }
  }

  /** Different toggles are read from different properties. */
  lemma KeyInjective(t: Toggle, u: Toggle)
    ensures Key(t) == Key(u) ==> t == u
  {
    if t != u {
      if (t == Counterpoints && u == Intent) || (t == Intent && u == Counterpoints) {
        assert Key(t)[6] != Key(u)[6];
      } else {
        assert |Key(t)| != |Key(u)|;
      }
    }
  }

  /** A feedback object holding one toggle's property enables that toggle alone, when the value is truthy. */
  lemma SingleToggleFeedback(t: Toggle, v: JsValue)
    requires Truthy(v)
    ensures EnabledToggles(map[Key(t) := v]) == {t}
  {
    forall u ensures u in EnabledToggles(map[Key(t) := v]) <==> u == t {
      KeyInjective(t, u);
      EnabledTogglesMembers(map[Key(t) := v], u);
    }
  }

  /** A pass over a feedback object holding one truthy toggle is that toggle's text alone. */
  lemma SingleTogglePass(t: Toggle, v: JsValue, text: Toggle -> string)
    requires Truthy(v)
    ensures PassText(map[Key(t) := v], text) == text(t)
  {
    SingleToggleFeedback(t, v);
    TogglesInDeclaredOrder();
    RankIndexesToggles(t);
    OnlyOneToggle(t, text, Toggles);
  }

  /**
   * A toggle set to a truthy value other than `true` (a non-empty string, say) is on,
   * and so gets its instruction and its section template (`SingleTogglePass`), but the
   * "ADDITIONAL ANALYSIS" block stays out.
   */
  lemma TruthyToggleWithoutAnalysisBlock(t: Toggle, v: JsValue)
    requires Truthy(v) && v != Bool(true)
    ensures var feedback := map[Key(t) := v];
      && Enabled(feedback, t)
      && !FeedbackRequested(feedback)
      && AnalysisBlock(feedback) == ""
  {
    var feedback := map[Key(t) := v];
    assert Bool(true) !in feedback.Values by {
      forall k | k in feedback ensures feedback[k] == v { }
    }
  }

  /**
   * A `true` value under a property that is not a toggle opens the "ADDITIONAL
   * ANALYSIS" block with no section in it.
   */
  lemma StrayTrueOpensEmptyBlock(name: string)
    requires forall t :: Key(t) != name
    ensures var feedback := map[name := Bool(true)];
      && FeedbackRequested(feedback)
      && (forall t :: !Enabled(feedback, t))
      && AnalysisBlock(feedback) == AnalysisHeader + AnalysisFooter
  {
    var feedback := map[name := Bool(true)];
    assert feedback[name] == Bool(true);
    forall t ensures !Enabled(feedback, t) && t !in EnabledToggles(feedback) {
      EnabledTogglesMembers(feedback, t);
    }
    assert EnabledToggles(feedback) == {};
    NoToggleNoText(AnalysisText, Toggles);
    assert AnalysisHeader + "" == AnalysisHeader;
  }

  /** With no toggle on, a pass adds nothing. */
  lemma {:induction false} NoToggleNoText(text: Toggle -> string, ts: seq<Toggle>)
    ensures Contributions({}, text, ts) == ""
    decreases |ts|
  {
    if ts != [] {
      NoToggleNoText(text, ts[..|ts| - 1]);
    }
  }

  /** Dropping the last toggle keeps a sequence in declared order, and the last is not among the rest. */
  lemma DeclaredOrderInit(ts: seq<Toggle>)
    requires ts != [] && InDeclaredOrder(ts)
    ensures InDeclaredOrder(ts[..|ts| - 1])
    ensures ts[|ts| - 1] !in ts[..|ts| - 1]
  {
    var n := |ts| - 1;
    var init := ts[..n];
    forall i, j | 0 <= i < j < |init| ensures Rank(init[i]) < Rank(init[j]) {
      assert init[i] == ts[i] && init[j] == ts[j];
    }
    forall i | 0 <= i < n ensures init[i] != ts[n] {
      assert Rank(ts[i]) < Rank(ts[n]);
    }
  }

  /** With exactly one toggle on, a pass over distinct toggles is that toggle's text alone, or nothing. */
  lemma {:induction false} OnlyOneToggle(t: Toggle, text: Toggle -> string, ts: seq<Toggle>)
    requires InDeclaredOrder(ts)
    ensures Contributions({t}, text, ts) == if t in ts then text(t) else ""
    decreases |ts|
  {
    if ts != [] {
      var init, last := ts[..|ts| - 1], ts[|ts| - 1];
      DeclaredOrderInit(ts);
      OnlyOneToggle(t, text, init);
      InInitOrLast(ts, t);
      if last == t {
        assert Piece({t}, text, last) == text(t);
        assert Contributions({t}, text, ts) == "" + text(t);
      } else {
        assert Piece({t}, text, last) == "";
        assert Contributions({t}, text, ts) == Contributions({t}, text, init) + "";
      }
    }
  }

  /** Membership in a non-empty sequence: in all but the last position, or the last. */
  lemma InInitOrLast(ts: seq<Toggle>, x: Toggle)
    requires ts != []
    ensures x in ts <==> x in ts[..|ts| - 1] || x == ts[|ts| - 1]
  {
    assert ts == ts[..|ts| - 1] + [ts[|ts| - 1]];
  }

  // ---------------------------------------------------------------------------
  // The builder as the source writes it

  /**
   * `getSystemPrompt`: starts from the preamble and appends each clause in turn.
   * The result is exactly `SystemPrompt(options)`.
   */
  method GetSystemPrompt(options: Options) returns (prompt: string)
    ensures prompt == SystemPrompt(options)
  {
    var format, length, feedback := options.format, options.length, options.feedback;
    prompt := Preamble;
    prompt := AppendLengthClause(prompt, length);
    prompt := prompt + NoOpinions;
    prompt := AppendFormatClause(prompt, format);
    prompt := AppendAnalysisBlock(prompt, feedback);
    // `if (feedback)`: the feedback object is always truthy.
    prompt := AppendPass(prompt, feedback, InstructionText);
    prompt := prompt + WrapIntro;
    prompt := AppendPass(prompt, feedback, TemplateText);
    prompt := prompt + Trailer;
    Regroup4(Opening(options) + AnalysisBlock(feedback), PassText(feedback, InstructionText), WrapIntro,
             PassText(feedback, TemplateText), Trailer);
  }

  /** The `if (length === 'brief') … else if (length === 'detailed') …` statement. */
  method AppendLengthClause(prompt: string, length: string) returns (extended: string)
    ensures extended == prompt + LengthClause(length)
  {
    extended := prompt;
    if length == "brief" {
      extended := extended + BriefClause;
    } else if length == "detailed" {
      extended := extended + DetailedClause;
    }
  }

  /** The four-way `if (format === …)` statement. */
  method AppendFormatClause(prompt: string, format: string) returns (extended: string)
    ensures extended == prompt + FormatClause(format)
  {
    extended := prompt;
    if format == "bullets" {
      extended := extended + BulletsClause;
    } else if format == "academic" {
      extended := extended + AcademicClause;
    } else if format == "professional" {
      extended := extended + ProfessionalClause;
    } else if format == "simplified" {
      extended := extended + SimplifiedClause;
    }
  }

  /** The `if (feedbackRequested) { … }` statement: header, first pass, closing line. */
  method AppendAnalysisBlock(prompt: string, feedback: Feedback) returns (extended: string)
    ensures extended == prompt + AnalysisBlock(feedback)
  {
    extended := prompt;
    var feedbackRequested := Bool(true) in feedback.Values;
    if feedbackRequested {
      extended := extended + AnalysisHeader;
      extended := AppendPass(extended, feedback, AnalysisText);
      extended := extended + AnalysisFooter;
      Regroup3(prompt, AnalysisHeader, PassText(feedback, AnalysisText), AnalysisFooter);
    }
  }

  /** One pass of six `if (feedback.enableX) { prompt += … }` statements. */
  method AppendPass(prompt: string, feedback: Feedback, text: Toggle -> string) returns (extended: string)
    ensures extended == prompt + PassText(feedback, text)
  {
    extended := AppendIfEnabled(prompt, feedback, text, ToneBias);
    extended := AppendIfEnabled(extended, feedback, text, VagueClaims);
    extended := AppendIfEnabled(extended, feedback, text, Counterpoints);
    extended := AppendIfEnabled(extended, feedback, text, Sentiment);
    extended := AppendIfEnabled(extended, feedback, text, Intent);
    extended := AppendIfEnabled(extended, feedback, text, FactContrast);
    var on := EnabledToggles(feedback);
    PassUnrolled(on, text);
    Regroup6(prompt, Piece(on, text, ToneBias), Piece(on, text, VagueClaims), Piece(on, text, Counterpoints),
             Piece(on, text, Sentiment), Piece(on, text, Intent), Piece(on, text, FactContrast));
  }

  /** A pass over all six toggles is their six pieces in the declared order. */
  lemma PassUnrolled(on: set<Toggle>, text: Toggle -> string)
    ensures Contributions(on, text, Toggles)
         == Piece(on, text, ToneBias) + Piece(on, text, VagueClaims) + Piece(on, text, Counterpoints)
          + Piece(on, text, Sentiment) + Piece(on, text, Intent) + Piece(on, text, FactContrast)
  {
    PassPrefix5(on, text);
    ContributionsSnoc(on, text, Toggles, 5);
    assert Toggles[..6] == Toggles;
  }

  /** The first `k` pieces of a pass, for `k` from 1 to 5. */
  lemma PassPrefix1(on: set<Toggle>, text: Toggle -> string)
    ensures Contributions(on, text, Toggles[..1]) == Piece(on, text, ToneBias)
  {
    ContributionsSnoc(on, text, Toggles, 0);
    assert Toggles[..0] == [];
  }

  lemma PassPrefix2(on: set<Toggle>, text: Toggle -> string)
    ensures Contributions(on, text, Toggles[..2]) == Piece(on, text, ToneBias) + Piece(on, text, VagueClaims)
  {
    PassPrefix1(on, text);
    ContributionsSnoc(on, text, Toggles, 1);
  }

  lemma PassPrefix3(on: set<Toggle>, text: Toggle -> string)
    ensures Contributions(on, text, Toggles[..3]) == Piece(on, text, ToneBias) + Piece(on, text, VagueClaims) + Piece(on, text, Counterpoints)
  {
    PassPrefix2(on, text);
    ContributionsSnoc(on, text, Toggles, 2);
  }

  lemma PassPrefix4(on: set<Toggle>, text: Toggle -> string)
    ensures Contributions(on, text, Toggles[..4]) == Piece(on, text, ToneBias) + Piece(on, text, VagueClaims) + Piece(on, text, Counterpoints) + Piece(on, text, Sentiment)
  {
    PassPrefix3(on, text);
    ContributionsSnoc(on, text, Toggles, 3);
  }

  lemma PassPrefix5(on: set<Toggle>, text: Toggle -> string)
    ensures Contributions(on, text, Toggles[..5]) == Piece(on, text, ToneBias) + Piece(on, text, VagueClaims) + Piece(on, text, Counterpoints) + Piece(on, text, Sentiment) + Piece(on, text, Intent)
  {
    PassPrefix4(on, text);
    ContributionsSnoc(on, text, Toggles, 4);
  }

  /** Extending the visited prefix by one toggle appends that toggle's piece. */
  lemma ContributionsSnoc(on: set<Toggle>, text: Toggle -> string, ts: seq<Toggle>, k: nat)
    requires k < |ts|
    ensures Contributions(on, text, ts[..k + 1]) == Contributions(on, text, ts[..k]) + Piece(on, text, ts[k])
  {
    assert ts[..k + 1][..k] == ts[..k];
  }

  /** `if (feedback.enableX) { prompt += text }` for the property of toggle `t`. */
  method AppendIfEnabled(prompt: string, feedback: Feedback, text: Toggle -> string, t: Toggle)
    returns (extended: string)
    ensures extended == prompt + Piece(EnabledToggles(feedback), text, t)
  {
    EnabledTogglesMembers(feedback, t);
    extended := prompt;
    if Truthy(Lookup(feedback, Key(t))) {
      extended := extended + text(t);
    } else {
      assert prompt + "" == prompt;
    }
  }
}
