# Prompt enhancer and video renderer: a Dafny model

This project models three pieces of the prompt-enhancement service and its video editor back end.

- **`Backend/app.py`, `prompt_app.dfy` (module `PromptApp`).** The FastAPI service backed by the Gemini SDK. It models:
  - the keyword classifier `PromptEnhancer.detect_category`;
  - the additive quality score `calculate_quality_score`;
  - the choice of enhancement template from `ENHANCEMENT_PROMPTS`;
  - the single-prompt endpoint `enhance_prompt`, with its error mapping and metrics;
  - the per-prompt loop of `batch_enhance_prompts`.
- **`Backend/main.py`, `prompt_main.dfy` (module `PromptMain`).** The second back end, which calls Gemini over HTTP. It models:
  - its own `detect_category`;
  - `calculate_metrics`, whose score counts four criteria;
  - `_fallback_enhancement`;
  - `call_gemini_api`, with the reply as a parameter;
  - `enhance`, which starts from the fallback text and replaces it with the API's answer when a key is set and the call does not raise.
- **`backend/video_processor.py`, `video_processor.dfy` (module `VideoProcessor`).** `VideoRenderer.build_ffmpeg_command`, which turns a project's layers into an FFmpeg argument list.

Two modules are shared:
- `text.dfy`:
  - `Wrappers`: `Option` and `Result`;
  - `Text`: the Python string operations the code relies on, namely ASCII `lower()`, `in` on strings, `strip()`, `split()`, `str(n)`, `sep.join`, `.title()` and f-string formatting.
- `rules.dfy`:
  - `Keywords`: a table-driven "first keyword group that fires" reference definition.
  - Both `detect_category` if-chains are proved equal to this table.

Both sides of the network are parameters:
- the Gemini SDK call is a function `generate: string -> Generation`, whose result is either a reply text or a raised exception;
- the HTTP call is a function `gemini: string -> GeminiReply`, with candidates, no candidates, or a failed request.

Functions specify the imperative parts of the source. The loops are `method`s proved equal to those functions:
- the `score +=` code of both quality scores;
- the reassignment of `enhanced_text` in `enhance`;
- the batch loop;
- the FFmpeg builder's loop over `enumerate(layers)`.

The lemmas state what the source promises: keyword precedence, score ranges, fallback framing, and the shape and length of the FFmpeg command.

Where the code and the documentation disagree, the model follows the code:
- `main.py` computes its metrics on the unstripped reply but returns the stripped text.
- `app.py` returns the 503 "service unavailable" as a 500, because its own `except Exception` catches it.

## Model

| member | source | states |
|---|---|---|
| Text.Lower | Backend/app.py:164 | `lower()` maps every character to its lower-case form and keeps the length; ASCII only |
| Text.LowerIdempotent | Backend/app.py:164 | lower-casing twice is lower-casing once, so a pre-lowered prompt classifies the same |
| Text.AnyContainsConcat | Backend/app.py:166 | `any(word in text for word in a + b)` holds exactly when it holds for `a` or for `b` |
| Text.Strip | Backend/app.py:301 | `strip()` returns a slice `s[a..b]` of the input with only whitespace outside it, and the slice neither begins nor ends with whitespace |
| Text.StripFrame | Backend/app.py:301 | the kept slice starts after the leading whitespace and ends before the trailing whitespace; everything outside it is whitespace and its two ends are not |
| Text.StripIsTrims | Backend/app.py:301 | `strip()` is `lstrip()` followed by `rstrip()` |
| Text.LeadingCount | Backend/app.py:301 | the length of the longest prefix whose elements satisfy the predicate: all before it do, the one at it does not |
| Text.TrailingStart | Backend/app.py:301 | where the longest suffix whose elements satisfy the predicate begins: all from it on do, the one before it does not |
| Text.Words | Backend/app.py:308 | `split()` yields non-empty, whitespace-free words; which words is fixed by Text.WordsOfWord and Text.WordsSplitAtSpace |
| Text.WordsOfWord | Backend/app.py:308 | a non-empty text without whitespace splits into exactly itself |
| Text.WordsSplitAtSpace | Backend/app.py:308 | a whitespace character separates words: the words of `a + c + b` are the words of `a` followed by the words of `b` |
| Text.TakeWordAtSpace | Backend/app.py:308 | the first word ends at the first whitespace, whatever follows it |
| Text.TakeWordOfWord | Backend/app.py:308 | a text without whitespace is its own first word |
| Text.WordsStrip | Backend/app.py:308 | `len(s.strip().split()) == len(s.split())`: stripping never changes the word count |
| Text.WordsTrimLeft | Backend/app.py:308 | leading whitespace does not change `split()` |
| Text.WordsTrimRight | Backend/app.py:308 | trailing whitespace does not change `split()` |
| Text.WordsAppendSpace | Backend/app.py:308 | appending a space does not change `split()` |
| Text.TakeWordAppendSpace | Backend/app.py:308 | the first word is unaffected by an appended space |
| Text.TrimLeft | Backend/app.py:301 | the leading half of `strip()` removes a prefix made only of whitespace and leaves a non-space first character |
| Text.TrimRight | Backend/app.py:301 | the trailing half of `strip()` removes a suffix made only of whitespace and leaves a non-space last character |
| Text.TakeWord | Backend/app.py:308 | the first word is a whitespace-free prefix that ends at whitespace or the end of the text |
| Text.NatToString | backend/video_processor.py:40 | `str(i)` of an index is a non-empty string of decimal digits |
| Text.DigitChar | backend/video_processor.py:40 | a digit prints as the character with that numeric offset from '0' |
| Text.ParseNatToString | backend/video_processor.py:40 | `int(str(i)) == i` |
| Text.NatToStringInjective | backend/video_processor.py:40 | distinct indices print as distinct labels |
| Text.Join | backend/video_processor.py:57 | `';'.join` of no entries is "", of one entry is that entry, and otherwise begins with the first entry |
| Text.ConcatAppend | Backend/app.py:280-293 | formatting two runs of f-string parts in turn is formatting their concatenation |
| Text.ConcatThree | Backend/main.py:128 | an f-string of three parts is their concatenation |
| Text.ConcatOpening | Backend/app.py:350 | an f-string begins with its first two parts, followed by the first character of the third |
| Text.ReplaceChar | Backend/app.py:283 | `replace('_', ' ')` keeps the length and replaces exactly the `_` characters |
| Text.TitleFrom | Backend/app.py:283 | `.title()` on ASCII text keeps the length |
| Text.OccursAtExtend | Backend/app.py:166 | a substring occurrence survives appending text |
| Text.Contains | Backend/app.py:166 | `key in text`: some position of `text` where `key` occurs; Text.OccursAtExtend and Text.OccursAtJunction state where occurrences survive |
| Text.AnyContains | Backend/app.py:166 | `any(key in text for key in keys)`: some key of the list occurs; Text.AnyContainsConcat splits it over concatenated lists |
| Text.IsSpace | Backend/app.py:308 | the characters Python's `str.split()` and `str.strip()` treat as whitespace |
| Text.WordCount | Backend/app.py:308 | `len(text.split())`; Text.WordsStrip states it is unchanged by stripping |
| Text.TokenEstimate | Backend/app.py:309 | `len(text) // 4`; PromptMain.TokenEstimateCountsStrippedSpaces shows it differs between stripped and unstripped text |
| Text.OccursAtJunction | backend/video_processor.py:52 | the second part of a concatenation occurs right after the first |
| Keywords.FirstMatchPicksFirstFiring | Backend/app.py:166-177 | the first keyword group that fires decides the result |
| Keywords.FirstMatchDefault | Backend/app.py:177 | with no group firing the default is returned |
| Keywords.FirstFiringExists | Backend/app.py:166-177 | either no group fires or one fires first |
| Keywords.FirstMatchExactly | Backend/app.py:166-177 | with distinct results, group k's result is returned iff group k is the first to fire, and the default iff none fires |
| PromptApp.DetectCategory | Backend/app.py:163-177 | the if/elif keyword chain on the lower-cased prompt; PromptApp.DetectCategoryFollowsRules and PromptApp.DetectCategoryPrecedence state its meaning |
| PromptApp.DetectCategoryFollowsRules | Backend/app.py:163-177 | the if/elif chain equals the first-match over its five keyword groups in source order, on the lower-cased prompt |
| PromptApp.DetectCategoryPrecedence | Backend/app.py:166-177 | the category is group k's exactly when group k is the first to fire; precedence is creative, code, business, academic, data |
| PromptApp.CreativeKeywordWins | Backend/app.py:166-167 | any creative keyword (write, story, poem, character, fiction, narrative), in any case, gives CREATIVE_WRITING |
| PromptApp.DetectGeneralExactly | Backend/app.py:177 | GENERAL exactly when none of the 30 keywords occurs in the lower-cased prompt |
| PromptApp.DetectCaseInsensitive | Backend/app.py:164 | the category of a prompt and of its lower-cased form agree |
| PromptApp.LengthPoints | Backend/app.py:185-190 | 25 points exactly for 100..500 words, 15 exactly for 50..99 or 501..800, 5 exactly otherwise |
| PromptApp.IndicatorPoints | Backend/app.py:192-215 | the points of the indicator groups whose keywords occur; PromptApp.IndicatorPointsAtMost bounds them and PromptApp.IndicatorPointsUnfold unfolds them to the five tests |
| PromptApp.ScoreSum | Backend/app.py:180-215 | length points plus indicator points before the cap; PromptApp.QualityScoreBounds shows it is at most 100 |
| PromptApp.QualityScore | Backend/app.py:180-217 | `min(score, 100)`; PromptApp.QualityScoreBounds puts it in 5..100 and PromptApp.CalculateQualityScore computes it |
| PromptApp.IndicatorPointsAtMost | Backend/app.py:192-215 | each indicator group adds its points at most once, so the groups add at most their sum |
| PromptApp.IndicatorPointsByFiring | Backend/app.py:192-215 | the indicator points depend only on which groups fire |
| PromptApp.MaxPointsOfIndicators | Backend/app.py:192-215 | the five groups are worth 20 + 20 + 15 + 10 + 10 = 75 |
| PromptApp.IndicatorPointsUnfold | Backend/app.py:192-215 | the indicator points are the source's five `if any(...)` additions in order, including the `'example' or 'for instance'` test |
| PromptApp.IndicatorPointsCons | Backend/app.py:192-215 | groups are scored one after another |
| PromptApp.IndicatorsSplit | Backend/app.py:192-215 | there are exactly the five indicator groups |
| PromptApp.QualityScoreBounds | Backend/app.py:180-217 | the raw sum never exceeds 100, so `min(score, 100)` never clips, and the score lies in 5..100 |
| PromptApp.QualityScoreByFiring | Backend/app.py:180-217 | prompts with equal word counts whose lower-cased forms fire the same groups score the same |
| PromptApp.CalculateQualityScore | Backend/app.py:180-217 | the imperative `score +=` computation returns the specified score, which lies in 5..100 |
| PromptApp.SelectTemplate | Backend/app.py:268-278 | `ENHANCEMENT_PROMPTS.get(category.value, default)`; PromptApp.StartupTemplateSelection and PromptApp.EmptyTemplatesGiveDefault state which template each category gets |
| PromptApp.StartupTemplateSelection | Backend/app.py:72-137 | with the startup table, creative, code and business categories get their own templates; academic, data and general get exactly the default template at 268-278 |
| PromptApp.EmptyTemplatesGiveDefault | Backend/app.py:268-278 | before startup fills the table, `.get` returns the default template for every category |
| PromptApp.ChosenCategory | Backend/app.py:265 | `request.category or detect_category(prompt)`; PromptApp.EnhancePrompt and PromptApp.BatchEntryFields state that the requested category wins and detection is used otherwise |
| PromptApp.FullPrompt | Backend/app.py:280-293 | the `full_prompt` f-string: the request, the title-cased category, the tone, the examples flag and the template text between the fixed lines |
| PromptApp.FullPromptQuotesRequest | Backend/app.py:280-283 | the model's prompt opens with the fixed preamble, then the user's request, then a closing double quote |
| PromptApp.EnhancePrompt | Backend/app.py:257-331 | without a model the reply is a 500; a raised generation is a 500 carrying its message; success exactly when the model is ready and generation returns; then the response holds the stripped text, the requested-or-detected category, the word and token counts, a quality score in 5..100, and metadata made of the request's tone, examples flag and target length with the category's template key |
| PromptApp.BatchText | Backend/app.py:350-369 | the fixed f-string the batch endpoint returns for one prompt; PromptApp.BatchTextQuotesPrompt states how it opens |
| PromptApp.BatchEntry | Backend/app.py:347-380 | one entry of the batch results; PromptApp.BatchEntryFields states its fields |
| PromptApp.BatchTextQuotesPrompt | Backend/app.py:350 | the batch text begins with `Professional Prompt for: "`, then the prompt, then the closing quote |
| PromptApp.BatchEntryFields | Backend/app.py:347-380 | each batch result keeps the prompt, uses the requested category if given and the detected one otherwise, and carries `len(text.split())` and `len(text) // 4` |
| PromptApp.BatchEnhance | Backend/app.py:337-380 | one result per prompt, in prompt order, each being that prompt's entry |
| PromptMain.DetectCategory | Backend/main.py:59-72 | the keyword chain on the lower-cased prompt; PromptMain.DetectCategoryFollowsRules and PromptMain.DetectCategoryPrecedence state its meaning |
| PromptMain.DetectCategoryFollowsRules | Backend/main.py:59-72 | the chain equals the first-match over its five five-word groups, default "general" |
| PromptMain.DetectCategoryPrecedence | Backend/main.py:62-72 | group k's name exactly when group k fires first; "general" exactly when none fires |
| PromptMain.DetectGeneralExactly | Backend/main.py:72 | "general" exactly when none of the 25 keywords occurs |
| PromptMain.DetectCaseInsensitive | Backend/main.py:61 | classification ignores case |
| PromptMain.ChosenCategory | Backend/main.py:229 | a non-empty requested category is used verbatim; an absent or empty one falls back to detection |
| PromptMain.Criteria | Backend/main.py:112-115 | the four tests of the score: more than 50 words, and "specific", "format" and "must" in the lower-cased text; PromptMain.CriteriaUnfold states them |
| PromptMain.QualityScore | Backend/main.py:111-120 | 25 points per satisfied criterion, capped at 100; PromptMain.QualityScoreValues lists its values |
| PromptMain.MetricsOf | Backend/main.py:106-121 | the word count, `len // 4` and the quality score; PromptMain.CalculateMetrics computes it |
| PromptMain.CountTrue | Backend/main.py:111-115 | the count is at most the number of criteria; equals it iff all hold; is 0 iff none holds |
| PromptMain.QualityScoreValues | Backend/main.py:106-121 | the score is 25 per satisfied criterion, one of 0, 25, 50, 75, 100; 100 iff all four hold; 0 iff none holds |
| PromptMain.WordCriterionIsStrict | Backend/main.py:112 | the word criterion is `> 50`: a 50-word prompt with no key terms scores 0 |
| PromptMain.CriteriaUnfold | Backend/main.py:111-115 | the score is the four `+= 25` tests in order |
| PromptMain.CalculateMetrics | Backend/main.py:106-121 | the imperative computation returns the word count, `len // 4`, and the specified score |
| PromptMain.FallbackFor | Backend/main.py:127-206 | the `templates.get(category, ...)` choice among the writing, coding, business and generic templates; PromptMain.FallbackSelection states it |
| PromptMain.FallbackEnhancement | Backend/main.py:123-226 | the chosen template filled with the prompt; PromptMain.FallbackFraming and PromptMain.FallbackInjective state its shape |
| PromptMain.FallbackSelection | Backend/main.py:123-226 | writing, coding and business templates are chosen exactly for their category names; every other category gets the generic one |
| PromptMain.FallbackFraming | Backend/main.py:127-226 | the fallback is its header ("PROFESSIONAL WRITING PROMPT: " and the others), then the prompt, then the template body |
| PromptMain.FallbackInjective | Backend/main.py:123-226 | distinct prompts give distinct fallbacks under one category |
| PromptMain.CallGemini | Backend/main.py:74-104 | no key raises "Gemini API key not configured"; candidates return their text; none returns "Error: No response from AI"; a failed request raises "API call failed: ..."; it succeeds iff a key is set and the request does not fail |
| PromptMain.EnhancementPrompt | Backend/main.py:232-244 | the `enhancement_prompt` f-string: the prompt, the category and the tone between the fixed lines |
| PromptMain.EnhancementPromptQuotesRequest | Backend/main.py:232-235 | the model's prompt opens with the fixed preamble, then the original prompt, then a closing double quote |
| PromptMain.EnhancedText | Backend/main.py:246-254 | no key or a raising call leaves the fallback; otherwise the API's answer replaces it |
| PromptMain.Enhance | Backend/main.py:228-273 | the response carries the stripped text, the chosen category and the request's metadata; its metrics are computed on the unstripped text; status "success"; its word count agrees with the stripped text's and its score is in the five values |
| PromptMain.TokenEstimateCountsStrippedSpaces | Backend/main.py:257-262 | the token estimate is taken before stripping: " abc" reports 1 token though the returned text has 3 characters |
| VideoProcessor.Inputs | backend/video_processor.py:36-45 | the `inputs` list: `-i source` per video, `-loop 1 -i source` per image, in layer order; VideoProcessor.InputsLength and VideoProcessor.InputsFollowMediaLayers state it |
| VideoProcessor.Filters | backend/video_processor.py:36-49 | one filter entry per media layer under its full-list index; VideoProcessor.FiltersFollowLayers states it |
| VideoProcessor.OverlayLabels | backend/video_processor.py:53 | `''.join(f'[v{i}]' for i in range(n))`; VideoProcessor.OverlayLabelsMention states that it names every label below n |
| VideoProcessor.FilterGraph | backend/video_processor.py:51-54 | the entries followed by the overlay when there is any entry; VideoProcessor.FilterGraphEndsWithOverlay states it |
| VideoProcessor.Command | backend/video_processor.py:28-60 | the whole argument list; VideoProcessor.CommandShape and VideoProcessor.CommandLength state its shape and length |
| VideoProcessor.StreamFilter | backend/video_processor.py:40-48 | each filter entry begins with `[i:v]` and ends with `[v{i}]` for the layer's position i |
| VideoProcessor.BuildFfmpegCommand | backend/video_processor.py:28-60 | the loop builds the specified command, whose length is 11 + 2·videos + 4·images, which starts `ffmpeg -y` and ends with the output path |
| VideoProcessor.PrefixStep | backend/video_processor.py:36-49 | one loop iteration extends the inputs and filters by that layer's contribution |
| VideoProcessor.LayerContribution | backend/video_processor.py:37-49 | a video adds `-i src`, an image `-loop 1 -i src`, any other layer adds no input and no filter; a media layer's filter is labelled with its position |
| VideoProcessor.InputsAppend | backend/video_processor.py:36-49 | inputs appear in layer order: inputs of a split list are the inputs of the parts, concatenated |
| VideoProcessor.InputsLength | backend/video_processor.py:37-45 | inputs have 2 entries per video and 4 per image |
| VideoProcessor.CommandLength | backend/video_processor.py:30-58 | the command has 11 + 2·videos + 4·images entries |
| VideoProcessor.CommandShape | backend/video_processor.py:30-58 | `ffmpeg -y`, the inputs, `-filter_complex` with the joined graph, `-map [out] -c:v libx264 -preset fast`, and the output path last |
| VideoProcessor.MediaPositionsExactly | backend/video_processor.py:36-49 | the media positions are increasing and are exactly the positions of video and image layers |
| VideoProcessor.FiltersFollowLayers | backend/video_processor.py:36-49 | one filter entry per media layer, in layer order, entry k being the k-th media layer's filter under its full-list index |
| VideoProcessor.FiltersEmptyExactly | backend/video_processor.py:36-52 | no filter entries exactly when no layer is a video or an image |
| VideoProcessor.FilterArgumentEmptyExactly | backend/video_processor.py:52-57 | the `-filter_complex` argument is "" exactly when there are no media layers |
| VideoProcessor.FilterGraphEndsWithOverlay | backend/video_processor.py:52-54 | when there are entries, the graph is those entries followed by the overlay entry over all layers |
| VideoProcessor.OverlayLabelsMention | backend/video_processor.py:53 | the joined labels name `[v{i}]` for every i below the layer count |
| VideoProcessor.OverlayMentionsEveryLayer | backend/video_processor.py:53-54 | the overlay entry names `[v{i}]` for every layer position, media or not |
| VideoProcessor.StreamRefSkipsInputs | backend/video_processor.py:40 | as written: with a text layer before a video, the only filter reads `[1:v]` while the command has one input |
| VideoProcessor.OverlayReadsUndefinedLabel | backend/video_processor.py:53 | as written: with the same layers the overlay reads `[v0]`, which no filter entry produces |
| VideoProcessor.InputsFollowMediaLayers | backend/video_processor.py:36-45 | the inputs are the input options of the media layers, in layer order, so FFmpeg's input k comes from the k-th media layer |
| VideoProcessor.ArgsAtPrefix | backend/video_processor.py:36-45 | the options of positions inside a prefix do not depend on the layers after it |
| VideoProcessor.MediaInputArgs | backend/video_processor.py:37-45 | a media layer's options name exactly one input, its `source`, with `-i` just before it |
| VideoProcessor.CountMediaSplits | backend/video_processor.py:37-45 | every media layer is a video or an image and never both, so the media count is the video count plus the image count |
| VideoProcessor.CorrectedFiltersReadExistingInputs | backend/video_processor.py:36-54 | corrected: there is one entry per media layer; entry k reads `[k:v]`, which by VideoProcessor.InputsFollowMediaLayers and VideoProcessor.MediaInputArgs is the k-th media layer's own `-i source`; it keeps its layer's label; the overlay reads exactly the labels the entries produce |
| VideoProcessor.CorrectedCommandShape | backend/video_processor.py:56-58 | corrected: the command is the source's command with only the `-filter_complex` value (the argument after the inputs and the flag) replaced |
| VideoProcessor.MediaOnlyAgree | backend/video_processor.py:36-54 | on projects whose layers are all media, the media count is the layer count and the corrected entries and overlay labels are exactly the source's |

## Left out

- HTTP plumbing is not modelled. This covers: the FastAPI routes and responses for `/`, `/health` and `/api/v1/categories`; the CORS setup; the lifespan hook beyond the template table and the model's presence; the endpoints of `Backend/main.py`.
- The network is a parameter. The Gemini SDK call (`asyncio.to_thread(gemini_model.generate_content, ...)`) and the `httpx` request, with its payload, timeout and JSON decoding, are functions supplied by the caller.
- The JSON shape `data["candidates"][0]["content"]["parts"][0]["text"]` is not modelled. The reply is already one of three abstract cases, so a malformed body that raises `KeyError` is one of the failed-request cases.
- `uuid.uuid4()` ids and `datetime.now()` timestamps are left out. They are outside any contract.
- The response wrapper of `batch_enhance_prompts` is left out. That wrapper holds the batch id, the count and the timestamp; its `uuid` use at `Backend/app.py:383` raises `NameError`, because `uuid` is only imported inside `enhance_prompt`. Only the per-prompt loop is modelled.
- The `EnhancementRequest` that the batch loop builds and discards is not modelled.
- Pydantic validation is not modelled. This covers `min_length`/`max_length` on the prompt and coercion of the category to the enum.
- `Text.Lower`: models ASCII `lower()` only. Python's Unicode case mapping is not modelled.
- `PromptApp.QualityScoreBounds`: scores are integers. The source's `float` arithmetic only ever adds whole numbers, and the model does not represent floats.
- `PromptMain.QualityScoreValues`: scores are integers. The source starts from `0.0` and caps with `min(score, 100.0)`; it only ever adds whole numbers, and the model does not represent floats.
- Logging is not modelled. It has no effect on results.
- `PromptApp.EnhancePrompt`: the model always takes the 503 path into the 500 below. The source raises the 503 inside its own `try`, and the `except Exception` at `Backend/app.py:329` turns it into a 500. The model returns that 500 with the cause recorded.
- `PromptMain.Enhance`: no-key failures of `call_gemini_api` are never modelled as raising. `enhance` only calls the function when a key is set, so that raise cannot happen there; `PromptMain.CallGemini` still models it.
- The subprocess run in `VideoRenderer.render_project`, the render endpoint and the export presets of `backend/video_processor.py` are not modelled.
- Missing keys are not modelled. The model's projects always carry `project_data['layers']` and `project_data['settings']['resolution']`, and its layers always carry `type`, `source`, `start` and `duration`. Where one of them is absent, the source raises `KeyError`.
- Layer `start` and `duration` values are abstract strings, taken as the text the f-strings print. Python's `str()` of numbers is not modelled.
- `VideoProcessor.InputArgs` carries no contract of its own. Its behaviour is stated by `VideoProcessor.LayerContribution` and `VideoProcessor.InputsLength`.
- FFmpeg's own acceptance of the graph is not modelled. For example, whether one `overlay` may take more than two inputs is outside the model.

## Findings

| source | as written | input that shows it | evidently intended | confidence | as-written member | corrected member |
|---|---|---|---|---|---|---|
| backend/video_processor.py:40 | the stream reference `[{i}:v]` uses the layer's position in the full list, counting text and other non-media layers | layers `[text, video]`: the only input is number 0, but the video filter reads `[1:v]` | the k-th media layer reads input k, its own `-i` | not executed; high that FFmpeg rejects the graph | VideoProcessor.StreamRefSkipsInputs | VideoProcessor.CorrectedFiltersReadExistingInputs |
| backend/video_processor.py:53 | the overlay joins `[v{i}]` for every `i in range(len(layers))`, including non-media layers, which produce no such label | layers `[text, video]`: the overlay reads `[v0]`, but the only entry is labelled `[v1]` | the overlay reads exactly the labels of the media layers' entries | not executed; high that FFmpeg rejects the graph | VideoProcessor.OverlayReadsUndefinedLabel | VideoProcessor.CorrectedFiltersReadExistingInputs |
