/**
 * The prompt enhancer of the FastAPI backend `Backend/main.py`: the keyword
 * classifier, `calculate_metrics`, the fixed fallback texts, the Gemini
 * call with the HTTP exchange as an oracle, and `enhance`, which starts from
 * the fallback and replaces it with the model's text when the call succeeds.
 */
module PromptMain {
  import opened Wrappers
  import opened Text
  import opened Keywords

  // ---------------------------------------------------------------------
  // detect_category

  const CreativeKeywords: seq<string> := ["write", "story", "poem", "character", "fiction"]
  const CodeKeywords: seq<string> := ["code", "function", "program", "algorithm", "python"]
  const BusinessKeywords: seq<string> := ["business", "email", "proposal", "report", "marketing"]
  const AcademicKeywords: seq<string> := ["research", "paper", "thesis", "study", "academic"]
  const DataKeywords: seq<string> := ["data", "analyze", "statistics", "chart", "graph"]

  /** Every keyword of the five groups, in checking order. */
  const AllKeywords: seq<string> := CreativeKeywords + CodeKeywords + BusinessKeywords + AcademicKeywords + DataKeywords

  /** `PromptEnhancer.detect_category`: the first keyword group found in the lowercased prompt names the category. */
  function DetectCategory(prompt: string): string
  {
    var lower := Lower(prompt);
    if AnyContains(lower, CreativeKeywords) then "creative_writing"
    else if AnyContains(lower, CodeKeywords) then "code_generation"
    else if AnyContains(lower, BusinessKeywords) then "business_communication"
    else if AnyContains(lower, AcademicKeywords) then "academic_research"
    else if AnyContains(lower, DataKeywords) then "data_analysis"
    else "general"
  }

  /** The classifier as a rule table, in the order the source checks it. */
  const CategoryRules: seq<Rule<string>> := [
    Rule(CreativeKeywords, "creative_writing"),
    Rule(CodeKeywords, "code_generation"),
    Rule(BusinessKeywords, "business_communication"),
    Rule(AcademicKeywords, "academic_research"),
    Rule(DataKeywords, "data_analysis")
  ]

  /** The if-chain is the first-match reading of the rule table. */
  lemma DetectCategoryFollowsRules(prompt: string)
    ensures DetectCategory(prompt) == FirstMatch(CategoryRules, Lower(prompt), "general")
  {
    var t := Lower(prompt);
    FirstFiringExists(CategoryRules, t);
    if NoneFires(CategoryRules, t) {
      FirstMatchDefault(CategoryRules, t, "general");
      assert !Fires(t, CategoryRules[0]) && !Fires(t, CategoryRules[1]) && !Fires(t, CategoryRules[2]);
      assert !Fires(t, CategoryRules[3]) && !Fires(t, CategoryRules[4]);
    } else {
      var k :| FirstFiring(CategoryRules, t, k);
      FirstMatchPicksFirstFiring(CategoryRules, t, "general", k);
      assert forall j :: 0 <= j < k ==> !Fires(t, CategoryRules[j]);
      if k == 0 {
        assert AnyContains(t, CreativeKeywords);
      } else if k == 1 {
        assert !AnyContains(t, CreativeKeywords) && AnyContains(t, CodeKeywords);
      } else if k == 2 {
        assert !Fires(t, CategoryRules[0]) && !Fires(t, CategoryRules[1]);
      } else if k == 3 {
        assert !Fires(t, CategoryRules[0]) && !Fires(t, CategoryRules[1]) && !Fires(t, CategoryRules[2]);
      } else {
        assert !Fires(t, CategoryRules[0]) && !Fires(t, CategoryRules[1]) && !Fires(t, CategoryRules[2]);
        assert !Fires(t, CategoryRules[3]);
      }
    }
  }

  /**
   * Precedence creative > code > business > academic > data: group `k`'s
   * category is returned exactly when a keyword of group `k` occurs and no
   * keyword of an earlier group does; "general" exactly when no group fires.
   */
  lemma DetectCategoryPrecedence(prompt: string, k: int)
    requires 0 <= k < |CategoryRules|
    ensures DetectCategory(prompt) == CategoryRules[k].result <==> FirstFiring(CategoryRules, Lower(prompt), k)
    ensures DetectCategory(prompt) == "general" <==> NoneFires(CategoryRules, Lower(prompt))
  {
    DetectCategoryFollowsRules(prompt);
    assert DistinctResults(CategoryRules, "general");
    FirstMatchExactly(CategoryRules, Lower(prompt), "general", k);
  }

  /** "general" exactly when no keyword of any group is a substring of the lowercased prompt. */
  lemma DetectGeneralExactly(prompt: string)
    ensures DetectCategory(prompt) == "general" <==>
            forall j :: 0 <= j < |AllKeywords| ==> !Contains(Lower(prompt), AllKeywords[j])
  {
    var t := Lower(prompt);
    AnyContainsConcat(t, CreativeKeywords, CodeKeywords);
    AnyContainsConcat(t, CreativeKeywords + CodeKeywords, BusinessKeywords);
    AnyContainsConcat(t, CreativeKeywords + CodeKeywords + BusinessKeywords, AcademicKeywords);
    AnyContainsConcat(t, CreativeKeywords + CodeKeywords + BusinessKeywords + AcademicKeywords, DataKeywords);
  }

  /** The classifier ignores letter case. */
  lemma DetectCaseInsensitive(prompt: string)
    ensures DetectCategory(prompt) == DetectCategory(Lower(prompt))
  {
    LowerIdempotent(prompt);
  }

  /** `request.category or detect_category(prompt)`: a non-empty category is used verbatim. */
  function ChosenCategory(requested: Option<string>, prompt: string): (c: string)
    ensures requested.Some? && requested.value != "" ==> c == requested.value
    ensures requested.None? || requested.value == "" ==> c == DetectCategory(prompt)
  {
    if requested.Some? && requested.value != "" then requested.value else DetectCategory(prompt)
  }

  // ---------------------------------------------------------------------
  // calculate_metrics

  /** The four criteria, each worth 25 points: more than 50 words, then three terms. */
  function Criteria(text: string): seq<bool>
  {
    var lower := Lower(text);
    [WordCount(text) > 50, Contains(lower, "specific"), Contains(lower, "format"), Contains(lower, "must")]
  }

  function CountTrue(bs: seq<bool>): (n: nat)
    ensures n <= |bs|
    ensures n == |bs| <==> forall i :: 0 <= i < |bs| ==> bs[i]
    ensures n == 0 <==> forall i :: 0 <= i < |bs| ==> !bs[i]
  {
    if bs == [] then 0
    else
      var rest := CountTrue(bs[1..]);
      assert forall i :: 1 <= i < |bs| ==> bs[i] == bs[1..][i - 1];
      (if bs[0] then 1 else 0) + rest
  }

  /** The score as the source returns it, `min(score, 100.0)`, as a whole number. */
  function QualityScore(text: string): int
  {
    var score := 25 * CountTrue(Criteria(text));
    if score <= 100 then score else 100
  }

  datatype Metrics = Metrics(wordCount: nat, tokenEstimate: nat, qualityScore: int)

  function MetricsOf(text: string): Metrics
  {
    Metrics(WordCount(text), TokenEstimate(text), QualityScore(text))
  }

  /**
   * The score is 25 points per criterion met, so one of 0, 25, 50, 75, 100;
   * the `min` never clips; 100 exactly when all four criteria hold and 0
   * exactly when none does.
   */
  lemma QualityScoreValues(text: string)
    ensures QualityScore(text) == 25 * CountTrue(Criteria(text))
    ensures QualityScore(text) in {0, 25, 50, 75, 100}
    ensures QualityScore(text) == 100 <==>
            WordCount(text) > 50 && Contains(Lower(text), "specific")
            && Contains(Lower(text), "format") && Contains(Lower(text), "must")
    ensures QualityScore(text) == 0 <==>
            WordCount(text) <= 50 && !Contains(Lower(text), "specific")
            && !Contains(Lower(text), "format") && !Contains(Lower(text), "must")
  {
    var c := Criteria(text);
    assert CountTrue(c) <= 4;
    assert CountTrue(c) == 4 <==> c[0] && c[1] && c[2] && c[3];
    assert CountTrue(c) == 0 <==> !c[0] && !c[1] && !c[2] && !c[3];
  }

  /**
   * The word criterion is strict: with none of the three terms present, the
   * score is 25 exactly when the text has more than 50 words, so a text of
   * exactly 50 words scores 0.
   */
  lemma WordCriterionIsStrict(text: string)
    requires !Contains(Lower(text), "specific") && !Contains(Lower(text), "format") && !Contains(Lower(text), "must")
    ensures QualityScore(text) == 25 <==> WordCount(text) > 50
    ensures QualityScore(text) == 0 <==> WordCount(text) <= 50
    ensures WordCount(text) == 50 ==> QualityScore(text) == 0
  {
    var c := Criteria(text);
    assert c[1..] == [false, false, false];
    assert CountTrue(c[1..]) == 0;
    assert CountTrue(c) == (if c[0] then 1 else 0);
  }

  /** `PromptEnhancer.calculate_metrics`, accumulating `score` step by step. */
  method CalculateMetrics(prompt: string) returns (m: Metrics)
    ensures m == MetricsOf(prompt)
    ensures m.wordCount == |Words(prompt)| && m.tokenEstimate == |prompt| / 4
    ensures m.qualityScore in {0, 25, 50, 75, 100}
  {
    var words := |Words(prompt)|;
    var chars := |prompt|;
    var score := 0;
    if words > 50 {
      score := score + 25;
    }
    if Contains(Lower(prompt), "specific") {
      score := score + 25;
    }
    if Contains(Lower(prompt), "format") {
      score := score + 25;
    }
    if Contains(Lower(prompt), "must") {
      score := score + 25;
    }
    CriteriaUnfold(prompt);
    QualityScoreValues(prompt);
    m := Metrics(words, chars / 4, if score <= 100 then score else 100);
  }

  /** `CountTrue` over the four criteria, one criterion at a time. */
  lemma CriteriaUnfold(text: string)
    ensures 25 * CountTrue(Criteria(text)) ==
      (if WordCount(text) > 50 then 25 else 0)
      + (if Contains(Lower(text), "specific") then 25 else 0)
      + (if Contains(Lower(text), "format") then 25 else 0)
      + (if Contains(Lower(text), "must") then 25 else 0)
  {
    var c := Criteria(text);
    var c1 := c[1..];
    var c2 := c1[1..];
    var c3 := c2[1..];
    assert CountTrue(c3) == (if c[3] then 1 else 0) by {
      assert c3[1..] == [];
    }
    assert CountTrue(c2) == (if c[2] then 1 else 0) + CountTrue(c3);
    assert CountTrue(c1) == (if c[1] then 1 else 0) + CountTrue(c2);
  }

  // ---------------------------------------------------------------------
  // _fallback_enhancement

  /** The four fallback texts of the source. */
  datatype Fallback = WritingFallback | CodingFallback | BusinessFallback | DefaultFallback

  /** `templates.get(category, default)`: the key is the category string itself. */
  function FallbackFor(category: string): Fallback
  {
    if category == "creative_writing" then WritingFallback
    else if category == "code_generation" then CodingFallback
    else if category == "business_communication" then BusinessFallback
    else DefaultFallback
  }

  /** The text before `{prompt}`. */
  function FallbackHeader(f: Fallback): string
  {
    match f
    case WritingFallback => WritingHeader
    case CodingFallback => CodingHeader
    case BusinessFallback => BusinessHeader
    case DefaultFallback => DefaultHeader
  }

  /** The text after `{prompt}`. */
  function FallbackBody(f: Fallback): string
  {
    match f
    case WritingFallback => WritingBody
    case CodingFallback => CodingBody
    case BusinessFallback => BusinessBody
    case DefaultFallback => DefaultBody
  }

  // The long texts below are `+` chains of short literals so that the verifier
  // does not evaluate each one as a single constant.

  const WritingHeader: string := "PROFESSIONAL " + "WRITING " + "PROMPT: "
  const CodingHeader: string := "PROFESSIONAL " + "CODING " + "PROMPT: "
  const BusinessHeader: string := "PROFESSIONAL " + "BUSINESS " + "PROMPT: "
  const DefaultHeader: string := "PROFESSIONAL " + "PROMPT: "

  const WritingBody: string :=
    "\n"
      + "\n"
      + "GENRE: " + "Specified " + "based " + "on " + "prompt\n"
      + "TONE: " + "Professional, " + "engaging\n"
      + "LENGTH: " + "1000-2000 " + "words\n"
      + "\n"
      + "CHARACTERS:\n"
      + "- " + "Protagonist " + "with " + "clear " + "motivation\n"
      + "- " + "Supporting " + "characters " + "with " + "distinct " + "personalities\n"
      + "- " + "Antagonist " + "with " + "believable " + "motivations\n"
      + "\n"
      + "SETTING:\n"
      + "- " + "Vivid, " + "sensory-rich " + "environment\n"
      + "- " + "Appropriate " + "time " + "period\n"
      + "- " + "Consistent " + "world-building\n"
      + "\n"
      + "PLOT " + "STRUCTURE:\n"
      + "- Clear " + "beginning, " + "middle, " + "and end\n"
      + "- " + "Rising " + "action " + "and " + "climax\n"
      + "- " + "Satisfying " + "resolution\n"
      + "\n"
      + "REQUIREMENTS:\n"
      + "- Show, " + "don't " + "tell\n"
      + "- Use " + "active " + "voice\n"
      + "- " + "Include " + "dialogue\n"
      + "- " + "Create " + "emotional " + "impact"

  const CodingBody: string :=
    "\n"
      + "\n"
      + "LANGUAGE: " + "Python " + "3.10+\n"
      + "REQUIREMENTS:\n"
      + "- " + "Clean, " + "documented " + "code\n"
      + "- Error " + "handling\n"
      + "- Type " + "hints\n"
      + "- Unit " + "tests\n"
      + "\n"
      + "FUNCTIONALITY:\n"
      + "- Clear " + "input/output " + "specification\n"
      + "- Edge " + "cases " + "handled\n"
      + "- " + "Performance " + "considerations\n"
      + "- " + "Security " + "best " + "practices\n"
      + "\n"
      + "STRUCTURE:\n"
      + "- " + "Modular " + "design\n"
      + "- " + "Appropriate " + "separation " + "of " + "concerns\n"
      + "- " + "Follows " + "PEP 8 " + "guidelines\n"
      + "\n"
      + "DELIVERABLES:\n"
      + "- " + "Working " + "code\n"
      + "- " + "Documentation\n"
      + "- Test " + "cases\n"
      + "- Usage " + "examples"

  const BusinessBody: string :=
    "\n"
      + "\n"
      + "AUDIENCE: " + "Professional " + "stakeholders\n"
      + "TONE: " + "Formal, " + "clear, " + "persuasive\n"
      + "FORMAT: " + "Structured " + "document/email\n"
      + "\n"
      + "CONTENT:\n"
      + "- Clear " + "objective " + "statement\n"
      + "- " + "Supporting " + "arguments/data\n"
      + "- Call " + "to " + "action\n"
      + "- " + "Professional " + "closing\n"
      + "\n"
      + "STRUCTURE:\n"
      + "- " + "Introduction\n"
      + "- Body " + "with " + "key " + "points\n"
      + "- " + "Conclusion\n"
      + "- Next " + "steps\n"
      + "\n"
      + "REQUIREMENTS:\n"
      + "- " + "Professional " + "language\n"
      + "- " + "Data-driven " + "arguments\n"
      + "- Clear " + "formatting\n"
      + "- " + "Proofread " + "for " + "errors"

  const DefaultBody: string :=
    "\n"
      + "\n"
      + "OBJECTIVES:\n"
      + "- " + "Clear, " + "specific " + "goals\n"
      + "- " + "Measurable " + "outcomes\n"
      + "- " + "Realistic " + "constraints\n"
      + "\n"
      + "REQUIREMENTS:\n"
      + "- " + "Detailed " + "specifications\n"
      + "- " + "Quality " + "standards\n"
      + "- " + "Delivery " + "timeline\n"
      + "\n"
      + "FORMAT:\n"
      + "- " + "Structured " + "response\n"
      + "- " + "Appropriate " + "length\n"
      + "- " + "Professional " + "tone\n"
      + "\n"
      + "EVALUATION:\n"
      + "- " + "Success " + "criteria\n"
      + "- " + "Quality " + "metrics\n"
      + "- " + "Review " + "process"

  /** `PromptEnhancer._fallback_enhancement`: the category's header, the prompt, the category's body. */
  function FallbackEnhancement(prompt: string, category: string): string
  {
    var f := FallbackFor(category);
    Concat([FallbackHeader(f), prompt, FallbackBody(f)])
  }

  /**
   * Creative writing, code generation and business communication have their
   * own text; every other category string, including the other three
   * categories, gets the default one.
   */
  lemma FallbackSelection(category: string)
    ensures FallbackFor(category) == DefaultFallback <==>
            category !in {"creative_writing", "code_generation", "business_communication"}
    ensures category == "creative_writing" <==> FallbackFor(category) == WritingFallback
    ensures category == "code_generation" <==> FallbackFor(category) == CodingFallback
    ensures category == "business_communication" <==> FallbackFor(category) == BusinessFallback
  {
  }

  /** The fallback text is the header, then the prompt itself, then the body. */
  lemma FallbackFraming(prompt: string, category: string)
    ensures var f := FallbackFor(category);
            var r := FallbackEnhancement(prompt, category);
            var h := FallbackHeader(f);
            && |r| == |h| + |prompt| + |FallbackBody(f)|
            && r[..|h|] == h
            && r[|h|..|h| + |prompt|] == prompt
            && r[|h| + |prompt|..] == FallbackBody(f)
  {
    var f := FallbackFor(category);
    ConcatThree(FallbackHeader(f), prompt, FallbackBody(f));
  }

  /** Within one category, different prompts give different fallback texts. */
  lemma FallbackInjective(p: string, q: string, category: string)
    ensures FallbackEnhancement(p, category) == FallbackEnhancement(q, category) ==> p == q
  {
    FallbackFraming(p, category);
    FallbackFraming(q, category);
  }

  // ---------------------------------------------------------------------
  // call_gemini_api

  /**
   * What the HTTP exchange with the Gemini endpoint produced: the text of
   * the first candidate, a response without candidates, or an exception
   * (network error, error status, unexpected JSON) with its message.
   */
  datatype GeminiReply = Candidates(text: string) | NoCandidates | RequestFailed(message: string)

  /** `if not self.api_key`: a missing or empty key counts as no key. */
  predicate HasKey(apiKey: Option<string>)
  {
    apiKey.Some? && apiKey.value != ""
  }

  /**
   * `PromptEnhancer.call_gemini_api`: returns the model's text, or raises
   * (here `Err` with the exception's message). `gemini` is the HTTP exchange.
   */
  function CallGemini(apiKey: Option<string>, gemini: string -> GeminiReply, prompt: string): (r: Result<string, string>)
    ensures !HasKey(apiKey) ==> r == Err("Gemini API key not configured")
    ensures HasKey(apiKey) ==> match gemini(prompt)
      case Candidates(text) => r == Ok(text)
      case NoCandidates => r == Ok("Error: No response from AI")
      case RequestFailed(message) => r == Err("API call failed: " + message)
    ensures r.Ok? <==> HasKey(apiKey) && !gemini(prompt).RequestFailed?
  {
    if !HasKey(apiKey) then Err("Gemini API key not configured")
    else match gemini(prompt)
      case Candidates(text) => Ok(text)
      case NoCandidates => Ok("Error: No response from AI")
      case RequestFailed(message) => Err("API call failed: " + message)
  }

  // ---------------------------------------------------------------------
  // enhance

  /** `PromptRequest` after validation. */
  datatype PromptRequest = PromptRequest(
    prompt: string,
    category: Option<string>,
    tone: Option<string>,
    includeExamples: Option<bool>,
    targetLength: Option<string>)

  datatype Metadata = Metadata(tone: Option<string>, includeExamples: Option<bool>, targetLength: Option<string>)

  /** `EnhancedPromptResponse` without the random `id` and the `created_at` clock reading. */
  datatype EnhancedPromptResponse = EnhancedPromptResponse(
    originalPrompt: string,
    enhancedPrompt: string,
    category: string,
    metadata: Metadata,
    wordCount: nat,
    tokenEstimate: nat,
    qualityScore: int,
    status: string)

  /** The literal parts of the `enhancement_prompt` f-string, in order. */
  const RequestOpening: string :=
    "\n"
      + "        " + "Transform " + "this " + "basic " + "prompt " + "into a " + "detailed, " + "professional " + "AI " + "prompt:\n"
      + "        \n"
      + "        " + "Original: " + "\""

  const RequestCategoryLabel: string :=
    "\"\n"
      + "        \n"
      + "        " + "Category: "

  const RequestToneLabel: string :=
    "\n"
      + "        " + "Tone: "

  const RequestClosing: string :=
    "\n"
      + "        \n"
      + "        " + "Make it " + "specific, " + "actionable, " + "and " + "ready " + "for " + "professional " + "use.\n"
      + "        " + "Include " + "clear " + "objectives, " + "requirements, " + "format " + "guidelines, " + "and " + "success " + "criteria.\n"
      + "        \n"
      + "        " + "Return " + "ONLY " + "the " + "enhanced " + "prompt, " + "no " + "additional " + "text.\n"
      + "        "

  /** The `enhancement_prompt` sent to the model. */
  function EnhancementPrompt(request: PromptRequest, category: string): string
  {
    Concat([RequestOpening, request.prompt, RequestCategoryLabel, category,
            RequestToneLabel, OptionString(request.tone), RequestClosing])
  }

  /** The model's prompt opens with the fixed preamble and the original prompt in double quotes. */
  lemma EnhancementPromptQuotesRequest(request: PromptRequest, category: string)
    ensures var r := EnhancementPrompt(request, category);
            var n := |RequestOpening + request.prompt|;
            && n < |r|
            && r[..n] == RequestOpening + request.prompt
            && r[n] == '"'
  {
    assert RequestCategoryLabel[0] == '"';
    ConcatOpening([RequestOpening, request.prompt, RequestCategoryLabel, category,
                   RequestToneLabel, OptionString(request.tone), RequestClosing]);
  }

  /**
   * The text `enhance` ends up with: the model's text when there is a key
   * and the call returns, the fallback otherwise.
   */
  function EnhancedText(apiKey: Option<string>, gemini: string -> GeminiReply, request: PromptRequest): (t: string)
    ensures var category := ChosenCategory(request.category, request.prompt);
            var reply := gemini(EnhancementPrompt(request, category));
            && (!HasKey(apiKey) ==> t == FallbackEnhancement(request.prompt, category))
            && (HasKey(apiKey) && reply.RequestFailed? ==> t == FallbackEnhancement(request.prompt, category))
            && (HasKey(apiKey) && reply.Candidates? ==> t == reply.text)
            && (HasKey(apiKey) && reply.NoCandidates? ==> t == "Error: No response from AI")
  {
    var category := ChosenCategory(request.category, request.prompt);
    var called := CallGemini(apiKey, gemini, EnhancementPrompt(request, category));
    if HasKey(apiKey) && called.Ok? then called.value else FallbackEnhancement(request.prompt, category)
  }

  /**
   * `PromptEnhancer.enhance`: `enhanced_text` starts as the fallback and is
   * replaced by the model's text when the key is set and the call does not
   * raise. The metrics are computed on that text; the response carries it
   * stripped.
   */
  method Enhance(apiKey: Option<string>, gemini: string -> GeminiReply, request: PromptRequest)
    returns (response: EnhancedPromptResponse)
    ensures var text := EnhancedText(apiKey, gemini, request);
            && response.originalPrompt == request.prompt
            && response.enhancedPrompt == Strip(text)
            && response.category == ChosenCategory(request.category, request.prompt)
            && response.metadata == Metadata(request.tone, request.includeExamples, request.targetLength)
            && response.wordCount == WordCount(text)
            && response.tokenEstimate == TokenEstimate(text)
            && response.qualityScore == QualityScore(text)
            && response.status == "success"
    ensures response.wordCount == WordCount(response.enhancedPrompt)
    ensures response.qualityScore in {0, 25, 50, 75, 100}
  {
    var category := ChosenCategory(request.category, request.prompt);
    var enhancementPrompt := EnhancementPrompt(request, category);
    var enhancedText := FallbackEnhancement(request.prompt, category);
    if HasKey(apiKey) {
      var called := CallGemini(apiKey, gemini, enhancementPrompt);
      if called.Ok? {
        enhancedText := called.value;
      }
    }
    var metrics := CalculateMetrics(enhancedText);
    WordsStrip(enhancedText);
    response := EnhancedPromptResponse(
      request.prompt,
      Strip(enhancedText),
      category,
      Metadata(request.tone, request.includeExamples, request.targetLength),
      metrics.wordCount,
      metrics.tokenEstimate,
      metrics.qualityScore,
      "success");
  }

  /**
   * The token estimate is taken before stripping: a reply with a leading
   * space reports one token where the returned text has none.
   */
  lemma TokenEstimateCountsStrippedSpaces()
    ensures var reply := " abc";
            TokenEstimate(reply) == 1 && TokenEstimate(Strip(reply)) == 0
  {
    var reply := " abc";
    assert TrimLeft(reply) == "abc" by {
      assert IsSpace(reply[0]) && reply[1..] == "abc" && !IsSpace('a');
    }
    assert TrimRight("abc") == "abc" by {
      assert !IsSpace('c');
    }
  }
}
