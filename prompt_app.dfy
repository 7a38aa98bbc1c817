/**
 * The prompt enhancer of the FastAPI backend `Backend/app.py`: the keyword
 * classifier, the quality score, the choice of enhancement template, the
 * body of the single-prompt endpoint with the Gemini model as an oracle,
 * and the per-prompt results of the batch endpoint.
 */
module PromptApp {
  import opened Wrappers
  import opened Text
  import opened Keywords

  /** `PromptCategory`, a string-valued enumeration. */
  datatype Category =
    | CreativeWriting
    | CodeGeneration
    | AcademicResearch
    | BusinessCommunication
    | DataAnalysis
    | General
  {
    /** The member's `.value`. */
    function Value(): string
    {
      match this
      case CreativeWriting => "creative_writing"
      case CodeGeneration => "code_generation"
      case AcademicResearch => "academic_research"
      case BusinessCommunication => "business_communication"
      case DataAnalysis => "data_analysis"
      case General => "general"
    }
  }

  /** `category.value.replace('_', ' ')`. */
  function SpacedName(c: Category): string
  {
    ReplaceChar(c.Value(), '_', ' ')
  }

  /** `category.value.replace('_', ' ').title()`. */
  function DisplayName(c: Category): string
  {
    Title(SpacedName(c))
  }

  // ---------------------------------------------------------------------
  // detect_category

  const CreativeKeywords: seq<string> := ["write", "story", "poem", "character", "fiction", "narrative"]
  const CodeKeywords: seq<string> := ["code", "function", "program", "algorithm", "python", "javascript"]
  const BusinessKeywords: seq<string> := ["business", "email", "proposal", "report", "presentation", "marketing"]
  const AcademicKeywords: seq<string> := ["research", "paper", "thesis", "study", "academic", "analysis"]
  const DataKeywords: seq<string> := ["data", "analyze", "statistics", "chart", "graph", "visualization"]

  /** Every keyword of the five groups, in checking order. */
  const AllKeywords: seq<string> := CreativeKeywords + CodeKeywords + BusinessKeywords + AcademicKeywords + DataKeywords

  /** `PromptEnhancer.detect_category`: the first keyword group found in the lowercased prompt wins. */
  function DetectCategory(prompt: string): Category
  {
    var lower := Lower(prompt);
    if AnyContains(lower, CreativeKeywords) then CreativeWriting
    else if AnyContains(lower, CodeKeywords) then CodeGeneration
    else if AnyContains(lower, BusinessKeywords) then BusinessCommunication
    else if AnyContains(lower, AcademicKeywords) then AcademicResearch
    else if AnyContains(lower, DataKeywords) then DataAnalysis
    else General
  }

  /** The classifier as a rule table, in the order the source checks it. */
  const CategoryRules: seq<Rule<Category>> := [
    Rule(CreativeKeywords, CreativeWriting),
    Rule(CodeKeywords, CodeGeneration),
    Rule(BusinessKeywords, BusinessCommunication),
    Rule(AcademicKeywords, AcademicResearch),
    Rule(DataKeywords, DataAnalysis)
  ]

  /** The if-chain is the first-match reading of the rule table. */
  lemma DetectCategoryFollowsRules(prompt: string)
    ensures DetectCategory(prompt) == FirstMatch(CategoryRules, Lower(prompt), General)
  {
    var t := Lower(prompt);
    FirstFiringExists(CategoryRules, t);
    if NoneFires(CategoryRules, t) {
      FirstMatchDefault(CategoryRules, t, General);
      assert !Fires(t, CategoryRules[0]) && !Fires(t, CategoryRules[1]) && !Fires(t, CategoryRules[2]);
      assert !Fires(t, CategoryRules[3]) && !Fires(t, CategoryRules[4]);
    } else {
      var k :| FirstFiring(CategoryRules, t, k);
      FirstMatchPicksFirstFiring(CategoryRules, t, General, k);
      assert forall j :: 0 <= j < k ==> !Fires(t, CategoryRules[j]);
      if k == 0 {
        assert AnyContains(t, CreativeKeywords);
      } else if k == 1 {
        assert !AnyContains(t, CreativeKeywords) && AnyContains(t, CodeKeywords);
      } else if k == 2 {
        assert !Fires(t, CategoryRules[0]) && !Fires(t, CategoryRules[1]);
      } else if k == 3 {
        assert !Fires(t, CategoryRules[0]) && !Fires(t, CategoryRules[1]) && !Fires(t, CategoryRules[2]);
      } else {
        assert !Fires(t, CategoryRules[0]) && !Fires(t, CategoryRules[1]) && !Fires(t, CategoryRules[2]);
        assert !Fires(t, CategoryRules[3]);
      }
    }
  }

  /**
   * Precedence creative > code > business > academic > data: the category of
   * group `k` is returned exactly when a keyword of group `k` occurs and no
   * keyword of an earlier group does; GENERAL exactly when no group fires.
   */
  lemma DetectCategoryPrecedence(prompt: string, k: int)
    requires 0 <= k < |CategoryRules|
    ensures DetectCategory(prompt) == CategoryRules[k].result <==> FirstFiring(CategoryRules, Lower(prompt), k)
    ensures DetectCategory(prompt) == General <==> NoneFires(CategoryRules, Lower(prompt))
  {
    DetectCategoryFollowsRules(prompt);
    assert DistinctResults(CategoryRules, General);
    FirstMatchExactly(CategoryRules, Lower(prompt), General, k);
  }

  /** Any creative keyword makes the prompt CREATIVE_WRITING, whatever else it contains. */
  lemma CreativeKeywordWins(prompt: string, j: int)
    requires 0 <= j < |CreativeKeywords| && Contains(Lower(prompt), CreativeKeywords[j])
    ensures DetectCategory(prompt) == CreativeWriting
  {
  }

  /** GENERAL exactly when no keyword of any group is a substring of the lowercased prompt. */
  lemma DetectGeneralExactly(prompt: string)
    ensures DetectCategory(prompt) == General <==>
            forall j :: 0 <= j < |AllKeywords| ==> !Contains(Lower(prompt), AllKeywords[j])
  {
    var t := Lower(prompt);
    AnyContainsConcat(t, CreativeKeywords, CodeKeywords);
    AnyContainsConcat(t, CreativeKeywords + CodeKeywords, BusinessKeywords);
    AnyContainsConcat(t, CreativeKeywords + CodeKeywords + BusinessKeywords, AcademicKeywords);
    AnyContainsConcat(t, CreativeKeywords + CodeKeywords + BusinessKeywords + AcademicKeywords, DataKeywords);
  }

  /** The classifier ignores letter case. */
  lemma DetectCaseInsensitive(prompt: string)
    ensures DetectCategory(prompt) == DetectCategory(Lower(prompt))
  {
    LowerIdempotent(prompt);
  }

  // ---------------------------------------------------------------------
  // calculate_quality_score

  const SpecificityTerms: seq<string> := ["specific", "detailed", "exact", "precise", "concrete"]
  const StructureTerms: seq<string> := ["format", "structure", "outline", "section", "include"]
  const ConstraintTerms: seq<string> := ["must", "should", "require", "constraint", "limit"]
  const ExampleTerms: seq<string> := ["example", "for instance"]
  const ToneTerms: seq<string> := ["professional", "formal", "academic", "technical"]

  /** An indicator group and the points it adds when any of its terms occurs. */
  datatype Indicator = Indicator(terms: seq<string>, points: nat)

  const Indicators: seq<Indicator> := [
    Indicator(SpecificityTerms, 20),
    Indicator(StructureTerms, 20),
    Indicator(ConstraintTerms, 15),
    Indicator(ExampleTerms, 10),
    Indicator(ToneTerms, 10)
  ]

  /** The length band: 25 for 100-500 words, 15 for 50-99 or 501-800 words, 5 otherwise. */
  function LengthPoints(words: nat): (p: nat)
    ensures p == 25 <==> 100 <= words <= 500
    ensures p == 15 <==> (50 <= words < 100 || 500 < words <= 800)
    ensures p == 5 <==> (words < 50 || 800 < words)
  {
    if 100 <= words <= 500 then 25
    else if (50 <= words < 100) || (500 < words <= 800) then 15
    else 5
  }

  /** Each group adds its points once when it fires. */
  function IndicatorPoints(text: string, groups: seq<Indicator>): nat
  {
    if groups == [] then 0
    else (if AnyContains(text, groups[0].terms) then groups[0].points else 0) + IndicatorPoints(text, groups[1..])
  }

  function MaxPoints(groups: seq<Indicator>): nat
  {
    if groups == [] then 0 else groups[0].points + MaxPoints(groups[1..])
  }

  lemma {:induction false} IndicatorPointsAtMost(text: string, groups: seq<Indicator>)
    ensures IndicatorPoints(text, groups) <= MaxPoints(groups)
  {
    if groups != [] {
      IndicatorPointsAtMost(text, groups[1..]);
    }
  }

  /** The points depend only on which groups fire, not on how many of their terms occur. */
  lemma {:induction false} IndicatorPointsByFiring(s: string, t: string, groups: seq<Indicator>)
    requires forall g :: 0 <= g < |groups| ==> (AnyContains(s, groups[g].terms) <==> AnyContains(t, groups[g].terms))
    ensures IndicatorPoints(s, groups) == IndicatorPoints(t, groups)
  {
    if groups != [] {
      assert forall g :: 0 <= g < |groups| - 1 ==> groups[1..][g] == groups[g + 1];
      IndicatorPointsByFiring(s, t, groups[1..]);
    }
  }

  /** The sum before the `min`. */
  function ScoreSum(prompt: string): nat
  {
    LengthPoints(WordCount(prompt)) + IndicatorPoints(Lower(prompt), Indicators)
  }

  /** The score as the source returns it, `min(score, 100)`. */
  function QualityScore(prompt: string): int
  {
    if ScoreSum(prompt) <= 100 then ScoreSum(prompt) else 100
  }

  /** The contributions add up to at most 100, so the `min` never clips, and the score lies in [5, 100]. */
  lemma QualityScoreBounds(prompt: string)
    ensures ScoreSum(prompt) <= 100
    ensures QualityScore(prompt) == ScoreSum(prompt)
    ensures 5 <= QualityScore(prompt) <= 100
  {
    IndicatorPointsAtMost(Lower(prompt), Indicators);
    MaxPointsOfIndicators();
  }

  /** Two prompts with the same word count and the same firing groups score the same. */
  lemma QualityScoreByFiring(p: string, q: string)
    requires WordCount(p) == WordCount(q)
    requires forall g :: 0 <= g < |Indicators| ==>
               (AnyContains(Lower(p), Indicators[g].terms) <==> AnyContains(Lower(q), Indicators[g].terms))
    ensures QualityScore(p) == QualityScore(q)
  {
    IndicatorPointsByFiring(Lower(p), Lower(q), Indicators);
  }

  /** The table seen as five single groups, so that recursion over it unfolds one step at a time. */
  lemma IndicatorsSplit()
    ensures Indicators == [Indicators[0]] + ([Indicators[1]] + ([Indicators[2]] + ([Indicators[3]] + [Indicators[4]])))
  {
  }

  lemma MaxPointsOfIndicators()
    ensures MaxPoints(Indicators) == 75
  {
    IndicatorsSplit();
    var g := Indicators;
    assert MaxPoints([g[4]]) == 10 by { assert [g[4]][1..] == []; }
    assert MaxPoints([g[3]] + [g[4]]) == 20 by { assert ([g[3]] + [g[4]])[1..] == [g[4]]; }
    assert MaxPoints([g[2]] + ([g[3]] + [g[4]])) == 35 by { assert ([g[2]] + ([g[3]] + [g[4]]))[1..] == [g[3]] + [g[4]]; }
    assert MaxPoints([g[1]] + ([g[2]] + ([g[3]] + [g[4]]))) == 55 by {
      assert ([g[1]] + ([g[2]] + ([g[3]] + [g[4]])))[1..] == [g[2]] + ([g[3]] + [g[4]]);
    }
    assert g[1..] == [g[1]] + ([g[2]] + ([g[3]] + [g[4]]));
  }

  /** One step of `IndicatorPoints`. */
  lemma IndicatorPointsCons(text: string, g: Indicator, rest: seq<Indicator>)
    ensures IndicatorPoints(text, [g] + rest) ==
            (if AnyContains(text, g.terms) then g.points else 0) + IndicatorPoints(text, rest)
  {
    assert ([g] + rest)[1..] == rest;
  }

  lemma IndicatorPointsUnfold(text: string)
    ensures IndicatorPoints(text, Indicators) ==
      (if AnyContains(text, SpecificityTerms) then 20 else 0)
      + (if AnyContains(text, StructureTerms) then 20 else 0)
      + (if AnyContains(text, ConstraintTerms) then 15 else 0)
      + (if Contains(text, "example") || Contains(text, "for instance") then 10 else 0)
      + (if AnyContains(text, ToneTerms) then 10 else 0)
  {
    IndicatorsSplit();
    var g := Indicators;
    IndicatorPointsCons(text, g[4], []);
    assert [g[4]] + [] == [g[4]];
    IndicatorPointsCons(text, g[3], [g[4]]);
    IndicatorPointsCons(text, g[2], [g[3]] + [g[4]]);
    IndicatorPointsCons(text, g[1], [g[2]] + ([g[3]] + [g[4]]));
    IndicatorPointsCons(text, g[0], [g[1]] + ([g[2]] + ([g[3]] + [g[4]])));
    assert AnyContains(text, ExampleTerms) <==> Contains(text, "example") || Contains(text, "for instance") by {
      if Contains(text, "example") { assert Contains(text, ExampleTerms[0]); }
      if Contains(text, "for instance") { assert Contains(text, ExampleTerms[1]); }
    }
  }

  /** `PromptEnhancer.calculate_quality_score`, accumulating `score` step by step. */
  method CalculateQualityScore(prompt: string) returns (score: int)
    ensures score == QualityScore(prompt)
    ensures 5 <= score <= 100
  {
    score := 0;
    var words := WordCount(prompt);
    if 100 <= words <= 500 {
      score := score + 25;
    } else if (50 <= words < 100) || (500 < words <= 800) {
      score := score + 15;
    } else {
      score := score + 5;
    }
    if AnyContains(Lower(prompt), SpecificityTerms) {
      score := score + 20;
    }
    if AnyContains(Lower(prompt), StructureTerms) {
      score := score + 20;
    }
    if AnyContains(Lower(prompt), ConstraintTerms) {
      score := score + 15;
    }
    if Contains(Lower(prompt), "example") || Contains(Lower(prompt), "for instance") {
      score := score + 10;
    }
    if AnyContains(Lower(prompt), ToneTerms) {
      score := score + 10;
    }
    IndicatorPointsUnfold(Lower(prompt));
    QualityScoreBounds(prompt);
    score := if score <= 100 then score else 100;
  }

  // ---------------------------------------------------------------------
  // Template selection in enhance_prompt

  /** The four enhancement templates of the source; `TemplateText` gives their text. */
  datatype Template = DefaultTemplate | CreativeTemplate | CodeTemplate | BusinessTemplate

  function TemplateText(t: Template): string
  {
    match t
    case DefaultTemplate => DefaultTemplateText
    case CreativeTemplate => CreativeTemplateText
    case CodeTemplate => CodeTemplateText
    case BusinessTemplate => BusinessTemplateText
  }

  // The long texts below are `+` chains of short literals so that the verifier
  // does not evaluate each one as a single constant.

  /** The fallback passed to `ENHANCEMENT_PROMPTS.get`. */
  const DefaultTemplateText: string :=
    "Transform " + "this " + "basic " + "prompt " + "into a " + "detailed, " + "professional " + "prompt " + "with:\n"
      + "            " + "1. " + "Clear " + "objectives " + "and " + "deliverables\n"
      + "            " + "2. " + "Specific " + "requirements " + "and " + "constraints\n"
      + "            " + "3. " + "Format " + "and " + "structure " + "guidelines\n"
      + "            " + "4. " + "Success " + "criteria " + "and " + "evaluation " + "metrics\n"
      + "            " + "5. " + "Appropriate " + "tone " + "and " + "style " + "for the " + "context\n"
      + "            \n"
      + "            " + "Make it " + "comprehensive, " + "actionable, " + "and " + "ready " + "for " + "professional " + "use."

  const CreativeTemplateText: string :=
    "\n"
      + "        " + "Transform " + "this " + "into a " + "professional " + "creative " + "writing " + "prompt " + "with:\n"
      + "        " + "1. " + "SPECIFIC " + "GENRE & " + "STYLE: " + "Specify " + "exact " + "genre " + "(fantasy, " + "sci-fi, " + "romance, " + "mystery, " + "etc.), " + "tone " + "(dark, " + "humorous, " + "melancholic, " + "uplifting), " + "and " + "writing " + "style\n"
      + "        " + "2. " + "CHARACTER " + "DEVELOPMENT: " + "Define " + "main " + "characters " + "with " + "specific " + "traits, " + "motivations, " + "flaws, " + "and arcs\n"
      + "        " + "3. " + "SETTING " + "DETAILS: " + "Provide " + "vivid " + "location, " + "time " + "period, " + "atmosphere, " + "and " + "sensory " + "details\n"
      + "        " + "4. PLOT " + "STRUCTURE: " + "Outline " + "beginning, " + "conflict, " + "climax, " + "and " + "resolution " + "with " + "specific " + "plot " + "points\n"
      + "        " + "5. " + "THEMES " + "& " + "SYMBOLISM: " + "Specify " + "underlying " + "themes " + "and " + "symbolic " + "elements\n"
      + "        " + "6. " + "TECHNICAL " + "REQUIREMENTS: " + "Word " + "count, " + "POV " + "(first/third " + "person), " + "tense, " + "dialogue " + "ratio\n"
      + "        " + "7. " + "CREATIVE " + "CONSTRAINTS: " + "Specific " + "challenges " + "or " + "unique " + "requirements\n"
      + "        \n"
      + "        " + "Return " + "in this " + "structure:\n"
      + "        " + "TITLE: " + "[Creative " + "Title]\n"
      + "        " + "GENRE: " + "[Specific " + "Genre]\n"
      + "        " + "TONE: " + "[Exact " + "Tone]\n"
      + "        " + "CHARACTERS: " + "[Detailed " + "Character " + "Descriptions]\n"
      + "        " + "SETTING: " + "[Vivid " + "Setting " + "Details]\n"
      + "        " + "PLOT: " + "[Structured " + "Plot " + "Outline]\n"
      + "        " + "THEMES: " + "[Key " + "Themes]\n"
      + "        " + "TECHNICAL " + "SPECS: " + "[Word " + "Count, " + "POV, " + "Tense, " + "etc.]\n"
      + "        " + "CONSTRAINTS: " + "[Creative " + "Limitations]\n"
      + "        "

  const CodeTemplateText: string :=
    "\n"
      + "        " + "Transform " + "this " + "into a " + "professional " + "coding " + "prompt " + "with:\n"
      + "        " + "1. " + "LANGUAGE " + "& " + "VERSION: " + "Specify " + "exact " + "programming " + "language " + "and " + "version\n"
      + "        " + "2. " + "FUNCTION " + "SPECIFICATION: " + "Clear " + "input " + "parameters, " + "return " + "types, " + "and " + "function " + "signature\n"
      + "        " + "3. EDGE " + "CASES: " + "Specific " + "edge " + "cases " + "and " + "error " + "conditions " + "to " + "handle\n"
      + "        " + "4. " + "PERFORMANCE: " + "Time/space " + "complexity " + "requirements " + "and " + "optimization " + "constraints\n"
      + "        " + "5. " + "STYLE " + "GUIDE: " + "Code " + "formatting " + "rules, " + "naming " + "conventions, " + "documentation " + "requirements\n"
      + "        " + "6. TEST " + "CASES: " + "Specific " + "input/output " + "examples " + "including " + "edge " + "cases\n"
      + "        " + "7. " + "DEPENDENCIES: " + "Required " + "libraries, " + "packages, " + "or " + "external " + "APIs\n"
      + "        " + "8. " + "ERROR " + "HANDLING: " + "How to " + "handle " + "exceptions " + "and " + "invalid " + "inputs\n"
      + "        \n"
      + "        " + "Return " + "in this " + "structure:\n"
      + "        " + "PROBLEM " + "STATEMENT: " + "[Clear " + "Description]\n"
      + "        " + "FUNCTION " + "SIGNATURE: " + "[Exact " + "Function " + "Definition]\n"
      + "        " + "INPUT " + "FORMAT: " + "[Input " + "Specifications]\n"
      + "        " + "OUTPUT " + "FORMAT: " + "[Output " + "Specifications]\n"
      + "        " + "CONSTRAINTS: " + "[Technical " + "Limitations]\n"
      + "        " + "EXAMPLES: " + "[Test " + "Cases " + "with " + "Input/Output]\n"
      + "        " + "NOTES: " + "[Additional " + "Requirements]\n"
      + "        "

  const BusinessTemplateText: string :=
    "\n"
      + "        " + "Transform " + "this " + "into a " + "professional " + "business " + "communication " + "prompt " + "with:\n"
      + "        " + "1. " + "AUDIENCE: " + "Specific " + "target " + "audience " + "with " + "their " + "knowledge " + "level " + "and " + "concerns\n"
      + "        " + "2. " + "PURPOSE: " + "Clear " + "objective " + "and " + "desired " + "outcome\n"
      + "        " + "3. TONE " + "& " + "STYLE: " + "Formal, " + "persuasive, " + "informative, " + "or " + "motivational " + "tone\n"
      + "        " + "4. " + "STRUCTURE: " + "Specific " + "sections " + "to " + "include " + "(executive " + "summary, " + "introduction, " + "body, " + "conclusion, " + "call-to-action)\n"
      + "        " + "5. KEY " + "POINTS: " + "Mandatory " + "points " + "to " + "cover " + "with " + "supporting " + "data\n"
      + "        " + "6. " + "FORMAT: " + "Email, " + "report, " + "proposal, " + "presentation, " + "or memo " + "format\n"
      + "        " + "7. " + "LENGTH: " + "Specific " + "word " + "count " + "or time " + "duration\n"
      + "        " + "8. " + "SUCCESS " + "METRICS: " + "How " + "effectiveness " + "will be " + "measured\n"
      + "        \n"
      + "        " + "Return " + "in this " + "structure:\n"
      + "        " + "DOCUMENT " + "TYPE: " + "[Email/Report/Proposal/etc.]\n"
      + "        " + "AUDIENCE: " + "[Target " + "Readers]\n"
      + "        " + "OBJECTIVE: " + "[Clear " + "Purpose]\n"
      + "        " + "KEY " + "MESSAGES: " + "[Main " + "Points]\n"
      + "        " + "STRUCTURE: " + "[Document " + "Outline]\n"
      + "        " + "TONE: " + "[Communication " + "Style]\n"
      + "        " + "LENGTH: " + "[Word/Page " + "Count]\n"
      + "        " + "SUCCESS " + "CRITERIA: " + "[Effectiveness " + "Metrics]\n"
      + "        "

  /** `ENHANCEMENT_PROMPTS` once the startup hook has filled it (it starts as `{}`). */
  const StartupTemplates: map<string, Template> := map[
    "creative_writing" := CreativeTemplate,
    "code_generation" := CodeTemplate,
    "business_communication" := BusinessTemplate
  ]

  /** `ENHANCEMENT_PROMPTS.get(category.value, default)`. */
  function SelectTemplate(templates: map<string, Template>, category: Category): Template
  {
    if category.Value() in templates then templates[category.Value()] else DefaultTemplate
  }

  /**
   * After startup, creative writing, code generation and business
   * communication get their own templates; academic research, data analysis
   * and general prompts get the default one.
   */
  lemma StartupTemplateSelection(category: Category)
    ensures SelectTemplate(StartupTemplates, category) == DefaultTemplate <==>
            category in {AcademicResearch, DataAnalysis, General}
    ensures category == CreativeWriting ==> SelectTemplate(StartupTemplates, category) == CreativeTemplate
    ensures category == CodeGeneration ==> SelectTemplate(StartupTemplates, category) == CodeTemplate
    ensures category == BusinessCommunication ==> SelectTemplate(StartupTemplates, category) == BusinessTemplate
  {
  }

  /** Before startup the template map is empty and every category gets the default. */
  lemma EmptyTemplatesGiveDefault(category: Category)
    ensures SelectTemplate(map[], category) == DefaultTemplate
  {
  }

  // ---------------------------------------------------------------------
  // enhance_prompt

  datatype EnhancementRequest = EnhancementRequest(
    prompt: string,
    category: Option<Category>,
    tone: Option<string>,
    includeExamples: bool,
    targetLength: Option<string>,
    customInstructions: Option<string>)

  /** What the Gemini model's `generate_content(...).text` produced, or the exception it raised. */
  datatype Generation = Generated(text: string) | Raised(message: string)

  datatype Metadata = Metadata(
    tone: Option<string>,
    includeExamples: bool,
    targetLength: Option<string>,
    templateUsed: string)

  /** `EnhancedPromptResponse` without the random `id` and the `created_at` clock reading. */
  datatype EnhancedPromptResponse = EnhancedPromptResponse(
    originalPrompt: string,
    enhancedPrompt: string,
    category: string,
    metadata: Metadata,
    wordCount: nat,
    tokenEstimate: nat,
    qualityScore: int)

  /** Why the endpoint failed; every failure leaves it as HTTP status 500. */
  datatype Fault = ServiceUnavailable | GenerationFailed(message: string)

  datatype HttpError = HttpError(status: nat, cause: Fault)

  /** `request.category or detect_category(prompt)`: an explicit category always wins. */
  function ChosenCategory(requested: Option<Category>, prompt: string): Category
  {
    if requested.Some? then requested.value else DetectCategory(prompt)
  }

  /** The literal parts of the `full_prompt` f-string, in order. */
  const FullPromptOpening: string :=
    "\n"
      + "        " + "You are " + "an " + "expert " + "prompt " + "engineer. " + "Transform " + "this " + "basic " + "user " + "request " + "into a " + "professional, " + "detailed " + "AI " + "prompt.\n"
      + "        \n"
      + "        " + "USER'S " + "BASIC " + "REQUEST: " + "\""

  const FullPromptCategoryLabel: string :=
    "\"\n"
      + "        \n"
      + "        " + "CATEGORY: "

  const FullPromptToneLabel: string :=
    "\n"
      + "        " + "TONE: "

  const FullPromptExamplesLabel: string :=
    "\n"
      + "        " + "INCLUDE " + "EXAMPLES: "

  const FullPromptGuidelinesLabel: string :=
    "\n"
      + "        \n"
      + "        " + "ENHANCEMENT " + "GUIDELINES:\n"
      + "        "

  const FullPromptClosing: string :=
    "\n"
      + "        \n"
      + "        " + "Provide " + "only " + "the " + "enhanced " + "prompt, " + "no " + "additional " + "commentary.\n"
      + "        "

  /** The `full_prompt` sent to the model, with `guidelines` the chosen template's text. */
  function FullPrompt(request: EnhancementRequest, category: Category, guidelines: string): string
  {
    Concat([FullPromptOpening, request.prompt,
            FullPromptCategoryLabel, DisplayName(category),
            FullPromptToneLabel, OptionString(request.tone),
            FullPromptExamplesLabel, BoolString(request.includeExamples),
            FullPromptGuidelinesLabel, guidelines,
            FullPromptClosing])
  }

  /** The model's prompt opens with the fixed preamble and the user's request in double quotes. */
  lemma FullPromptQuotesRequest(request: EnhancementRequest, category: Category, guidelines: string)
    ensures var r := FullPrompt(request, category, guidelines);
            var n := |FullPromptOpening + request.prompt|;
            && n < |r|
            && r[..n] == FullPromptOpening + request.prompt
            && r[n] == '"'
  {
    assert FullPromptCategoryLabel[0] == '"';
    ConcatOpening([FullPromptOpening, request.prompt,
                   FullPromptCategoryLabel, DisplayName(category),
                   FullPromptToneLabel, OptionString(request.tone),
                   FullPromptExamplesLabel, BoolString(request.includeExamples),
                   FullPromptGuidelinesLabel, guidelines,
                   FullPromptClosing]);
  }

  /**
   * The body of `enhance_prompt`. `modelReady` says whether startup created
   * the Gemini model, `templates` is `ENHANCEMENT_PROMPTS`, `generate` is the
   * model. Metrics are computed on the stripped model output.
   */
  function EnhancePrompt(
    modelReady: bool,
    templates: map<string, Template>,
    request: EnhancementRequest,
    generate: string -> Generation): (r: Result<EnhancedPromptResponse, HttpError>)
    ensures !modelReady ==> r == Err(HttpError(500, ServiceUnavailable))
    ensures r.Err? ==> r.error.status == 500
    ensures var category := ChosenCategory(request.category, request.prompt);
            var reply := generate(FullPrompt(request, category, TemplateText(SelectTemplate(templates, category))));
            && (modelReady && reply.Raised? ==> r == Err(HttpError(500, GenerationFailed(reply.message))))
            && (r.Ok? <==> modelReady && reply.Generated?)
            && (r.Ok? ==>
                  && r.value.originalPrompt == request.prompt
                  && r.value.enhancedPrompt == Strip(reply.text)
                  && r.value.category == category.Value()
                  && r.value.metadata == Metadata(request.tone, request.includeExamples, request.targetLength, category.Value())
                  && r.value.wordCount == WordCount(reply.text)
                  && r.value.tokenEstimate == TokenEstimate(r.value.enhancedPrompt)
                  && r.value.qualityScore == QualityScore(r.value.enhancedPrompt)
                  && 5 <= r.value.qualityScore <= 100)
  {
    if !modelReady then Err(HttpError(500, ServiceUnavailable))
    else
      var category := ChosenCategory(request.category, request.prompt);
      var template := SelectTemplate(templates, category);
      match generate(FullPrompt(request, category, TemplateText(template)))
      case Raised(message) => Err(HttpError(500, GenerationFailed(message)))
      case Generated(text) =>
        var enhanced := Strip(text);
        WordsStrip(text);
        QualityScoreBounds(enhanced);
        Ok(EnhancedPromptResponse(
          request.prompt,
          enhanced,
          category.Value(),
          Metadata(request.tone, request.includeExamples, request.targetLength, category.Value()),
          WordCount(enhanced),
          TokenEstimate(enhanced),
          QualityScore(enhanced)))
  }

  // ---------------------------------------------------------------------
  // batch_enhance_prompts, per-prompt results

  /** One entry of the batch `results` list. */
  datatype BatchItem = BatchItem(
    original: string,
    enhanced: string,
    category: string,
    wordCount: nat,
    tokenEstimate: nat)

  const BatchHeader: string := "Professional " + "Prompt " + "for: \""

  /** The literal parts of the batch f-string after the quoted prompt. */
  const BatchCategoryLabel: string :=
    "\"\n"
      + "\n"
      + "Category: "

  const BatchRequirements: string :=
    "\n"
      + "\n"
      + "Detailed " + "Requirements:\n"
      + "1. " + "Provide " + "specific, " + "actionable " + "instructions\n"
      + "2. " + "Include " + "clear " + "success " + "criteria\n"
      + "3. " + "Specify " + "format " + "and " + "structure " + "requirements\n"
      + "4. Add " + "relevant " + "constraints " + "and " + "limitations\n"
      + "5. " + "Define " + "the " + "target " + "audience " + "or " + "context\n"
      + "\n"
      + "Expected " + "Output:\n"
      + "- " + "Comprehensive " + "response " + "addressing " + "all " + "specified " + "requirements\n"
      + "- " + "Professional " + "tone " + "appropriate " + "for "

  const BatchConstraints: string :=
    "\n"
      + "- " + "Well-structured " + "format " + "with " + "clear " + "sections\n"
      + "\n"
      + "Constraints:\n"
      + "- Must " + "be " + "original " + "and " + "creative\n"
      + "- " + "Should " + "follow " + "best " + "practices " + "for "

  const BatchClosing: string :=
    " prompts\n"
      + "- Avoid " + "vague " + "language; " + "be " + "specific " + "and " + "detailed"

  /** The fixed text the batch endpoint produces for one prompt, without calling the model. */
  function BatchText(prompt: string, category: Category): string
  {
    Concat([BatchHeader, prompt, BatchCategoryLabel, DisplayName(category),
            BatchRequirements, SpacedName(category),
            BatchConstraints, SpacedName(category),
            BatchClosing])
  }

  /** The batch text opens with the header and the prompt in double quotes. */
  lemma BatchTextQuotesPrompt(prompt: string, category: Category)
    ensures var r := BatchText(prompt, category);
            var n := |BatchHeader + prompt|;
            && n < |r|
            && r[..n] == BatchHeader + prompt
            && r[n] == '"'
  {
    assert BatchCategoryLabel == "\"\n" + ("\n" + "Category: ");
    assert BatchCategoryLabel[0] == "\"\n"[0];
    ConcatOpening([BatchHeader, prompt, BatchCategoryLabel, DisplayName(category),
                   BatchRequirements, SpacedName(category),
                   BatchConstraints, SpacedName(category),
                   BatchClosing]);
  }

  /** One entry of `results`: the prompt, its fixed text, the category used, and the text's metrics. */
  function BatchEntry(prompt: string, requested: Option<Category>): BatchItem
  {
    var category := ChosenCategory(requested, prompt);
    var text := BatchText(prompt, category);
    BatchItem(prompt, text, category.Value(), WordCount(text), TokenEstimate(text))
  }

  /**
   * Each entry keeps its prompt, reports the requested category or else the
   * detected one, and measures its own text.
   */
  lemma BatchEntryFields(prompt: string, requested: Option<Category>)
    ensures var item := BatchEntry(prompt, requested);
            && item.original == prompt
            && (requested.Some? ==> item.category == requested.value.Value())
            && (requested.None? ==> item.category == DetectCategory(prompt).Value())
            && item.wordCount == |Words(item.enhanced)|
            && item.tokenEstimate == |item.enhanced| / 4
  {
  }

  /**
   * The loop of `batch_enhance_prompts`: it appends one entry per prompt,
   * so the list has one entry per prompt, in input order.
   */
  method BatchEnhance(prompts: seq<string>, requested: Option<Category>) returns (results: seq<BatchItem>)
    ensures |results| == |prompts|
    ensures forall k :: 0 <= k < |prompts| ==> results[k] == BatchEntry(prompts[k], requested)
  {
    results := [];
    for i := 0 to |prompts|
      invariant |results| == i
      invariant forall j :: 0 <= j < i ==> results[j] == BatchEntry(prompts[j], requested)
    {
      results := results + [BatchEntry(prompts[i], requested)];
    }
  }
}
