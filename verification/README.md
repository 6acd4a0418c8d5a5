# AdLift Intelligence Pro — a Dafny model of the submission, request and page logic

AdLift Intelligence Pro collects an ad creative (platform, audience, objective,
copy, optional performance notes, optional inline video), sends it to a hosted
multimodal model with a fixed instruction prompt, and shows the structured
diagnosis on a dashboard. The hosted model does all the judging. This project
models the deterministic logic around that call:

- `types.dfy` (module `Types`) holds the records of `types.ts`. The enums `Platform`, `Level` and
  `PerformanceType` become datatypes. `AdInput.platform` stays a plain string, and only
  `performanceData` and `videoData` are optional.
- `text.dfy` (module `Text`) models JavaScript's `split` on a one-character separator, which is used to cut
  the base64 payload out of a data URL. `SecondSegment` is a scanning implementation of
  `split(',')[1]`, proved equal to the recursive definition.
- `ad_form.dfy` (module `AdForm`) models the form record and its events: field edits, the 20 MiB video
  guard and payload extraction, video removal, and the submit guard. The submit is
  modelled twice: as `handleSubmit` alone, and as the browser performs it, behind the
  `required` inputs and the disabled button.
- `prompt_builder.dfy` (module `PromptBuilder`) builds the instruction prompt and the `parts` list. Both the
  browser client and the endpoint use the same template literal, indented differently.
  So the builder takes the template's fixed text as data (`Template`, built by
  `MakeTemplate` from the wording, `PromptWording`, and the indentation) and proves its layout for every template.
- `gemini_service.dfy` (module `GeminiService`) models `analyzeAdCopy`. The model call and `JSON.parse` of
  its answer form an oracle, `ModelReply`, passed in as a parameter. The client reports
  the requests it issued, so "exactly one call, no retry" can be stated.
- `analyze_endpoint.dfy` (module `AnalyzeEndpoint`) models the server `handler`: the method check, the
  required-field check, the same prompt and parts, and the 200/400/405/500 mapping.
- `app.dfy` (module `App`) models the page controller. It has four state fields (`loading`, `error`, `analysis`,
  `inputData`) and four kinds of event: submit, settlement of the pending call, "Back to
  Input", and dismissing the error. Its view predicates say what is shown, and an
  invariant holds over every run from the first render.
- `dashboard.dfy` (module `Dashboard`) models the dashboard's mappings: the score colour bands, the six-point radar
  series, the brand-lift highlights and the original-source panel.

`AnalyzeAdCopy`, `Handler` and `HandlerAsWritten` apply the generic members to the
two concrete templates (`ClientTemplate`: four-space body, two-space closing line;
`ServerTemplate`: six and four, both with `PromptWording`). The prompt's layout is
proved on the generic members, which hold for any template.

In these places the code may surprise a reader; the model follows the code:

- No score-range or shape validation exists. A parsed answer is returned as it is, so a
  score of 11 reaches the dashboard and is banded emerald, like any score of 8 or more.
- "Back to Input" is only rendered on the dashboard, so a reset is possible from Success
  only. An error is cleared by dismissing the banner or by the next submit.
- After a failure the submitted input is kept in `inputData`.
- The banner and the video player test JavaScript truthiness. An empty string counts as
  absent.

## Model

| member | source | states |
|---|---|---|
| Types.PlatformEnumeration | types.ts:46-53 | The platform enum has exactly six members, each listed once, with pairwise distinct non-empty string values |
| Text.JoinSplit | components/AdForm.tsx:37 | Joining the segments of a split with the separator gives back the original string |
| Text.SplitJoin | components/AdForm.tsx:37 | Splitting a join of separator-free segments gives back exactly those segments |
| Text.SecondSegment | components/AdForm.tsx:37 | `split(',')[1]` exists iff the string has at least two segments, and is then the second segment, which contains no comma |
| AdForm.PlatformOptions | components/AdForm.tsx:77-79 | The select offers six distinct options, which are exactly the string values of the enum |
| AdForm.HandleChange | components/AdForm.tsx:21-24 | The named field takes the new value; every other field and the video are unchanged |
| AdForm.HandleVideoUpload | components/AdForm.tsx:26-49 | With no file, or a failed read, the form is unchanged. A file over 20 MiB raises the size alert and leaves the form unchanged, including a video already attached. Otherwise the form is the old one with videoData replaced by the data URL's second comma segment and the file's type |
| AdForm.SizeGuardBoundary | components/AdForm.tsx:29-32 | The guard is strict: a file of exactly 20 MiB is attached (the form with the payload and type as its video, no alert), whatever video was there before; one byte more is refused, with the alert and the form unchanged |
| AdForm.AttachedPayload | components/AdForm.tsx:35-44 | For a data URL `header,payload`, the attached data is exactly the payload and the MIME type is the file's |
| AdForm.RemoveVideo | components/AdForm.tsx:51-55 | The video becomes absent and every text field is kept |
| AdForm.RemoveUndoesUpload | components/AdForm.tsx:38-53 | Removing the video after attaching one restores the form as it was |
| AdForm.HandleSubmit | components/AdForm.tsx:57-64 | The form is handed on, unchanged, iff the copy has at least five characters or a video is attached; otherwise the user gets the "Please provide ad copy or a video" alert |
| AdForm.SubmitForm | components/AdForm.tsx:88-174 | A browser submit emits the form iff the button is enabled (not loading), audience and objective are non-empty, and the copy/video guard passes. It does nothing at all iff the button is disabled or a required input is empty; otherwise a failed guard gives the submit alert |
| AdForm.SubmitGuardCases | components/AdForm.tsx:11-59 | The initial form is refused with the submit alert; a short copy goes through once a video is attached; an empty copy without a video is always refused with the alert |
| PromptBuilder.PerformanceLine | services/geminiService.ts.ts:17 | The performance line is the notes when they are non-empty, otherwise "None provided"; it is never empty |
| PromptBuilder.VideoClause | services/geminiService.ts.ts:19 | The clause is non-empty iff a video is attached, and is then the fixed video instruction |
| PromptBuilder.PromptLayout | services/geminiService.ts.ts:8-31 | The prompt carries platform, audience, objective and copy verbatim, in that order and without overlap, then the performance line, then the video clause |
| PromptBuilder.PromptFrame | services/geminiService.ts.ts:8-31 | The prompt opens with the fixed introduction and ends with the fixed rules |
| PromptBuilder.VideoClauseInsertion | services/geminiService.ts.ts:19 | Attaching any video inserts exactly the video instruction at the clause position and changes nothing else in the prompt |
| PromptBuilder.MakeTemplate | services/geminiService.ts.ts:8-31 | The template literal assembled from its wording and indentation: the fixed text opens with the body indentation and the first intro line, the four later labels are their wording behind that indentation, the video clause starts a body line of its own, and the rules block starts on a body line and ends on a line holding only the closing indentation (client 4/2, endpoint 6/4 at api/analyze.ts:27-50) |
| PromptBuilder.TemplateLines | services/geminiService.ts.ts:8-31 | For a wording without line breaks, the opening text splits into exactly the indented intro lines, ending with the platform label, and the rules text into a blank line, every indented rule line in order, and the closing line: no line of the wording is dropped or altered |
| PromptBuilder.BuildParts | services/geminiService.ts.ts:33-42 | parts has one element without a video and two with one; parts[0] is the prompt; parts[1] carries the video's data and MIME type unchanged |
| PromptBuilder.PartsCarryVideo | services/geminiService.ts.ts:35-42 | Reading the video back from parts gives the input's video, or none |
| GeminiService.Analyze | services/geminiService.ts.ts:5-135 | Exactly one model call with the built parts. A thrown call rejects with its own error, an unparsable answer rejects with "Invalid diagnostic format received from AI.", and a parsed answer is returned unchanged |
| GeminiService.OutOfRangeScorePassesThrough | services/geminiService.ts.ts:128-130 | A parsed result with a score of 11 is returned as it is |
| AnalyzeEndpoint.HandleWith | api/analyze.ts:7-170 | Status 405 iff not POST, before the body is read. Status 400 "Missing required fields" iff a POST body lacks a truthy required field. A body read error maps to 500 with its message. The model is called only past both checks and the configuration. 200 carries the parsed answer |
| GeminiService.AnalyzeAdCopy | services/geminiService.ts.ts:5-135 | `Analyze` on the client's template: one call with the parts built from the four-space template; the outcome mapping of `Analyze` |
| AnalyzeEndpoint.HandlerAsWritten | api/analyze.ts:7-170 | `HandleAsWritten` on the route's template: 405 iff not POST, 400 iff a required field is missing, and 500 "TYPE is not defined" with no model call for every well-formed POST |
| AnalyzeEndpoint.Handler | api/analyze.ts:7-170 | `Handle` on the route's template: 405 iff not POST, 400 iff a required field is missing, one call with the parts built from the six-space template iff the POST is well-formed, and 200 with the parsed answer iff such a call is answered and parsed |
| AnalyzeEndpoint.HandleAsWritten | api/analyze.ts:63-145 | With the schema as written the model is never called and no request gets 200; every well-formed POST gets 500 "Failed to analyze ad" with details "TYPE is not defined" |
| AnalyzeEndpoint.Handle | api/analyze.ts:7-170 | With the schema corrected, each well-formed POST makes one model call. A thrown call or parse error maps to 500 with that message; a parsed answer maps to 200 with the answer as body |
| AnalyzeEndpoint.SchemaTypoRejectsValidRequest | api/analyze.ts:130-140 | For a concrete well-formed request, the as-written route answers 500 without a model call, and the corrected route answers 200 |
| AnalyzeEndpoint.EndpointMirrorsClient | api/analyze.ts:27-61 | For the same submission, the endpoint and the client send the same values in the same slots, the same video part and one call each, and they succeed on the same answers with the same result |
| AnalyzeEndpoint.EndpointStricterThanForm | api/analyze.ts:18 | Of the submissions the form lets through with a non-empty platform, the endpoint accepts exactly those with a non-empty copy; a video with an empty copy passes the form and gets 400 |
| App.Submit | App.tsx:15-18 | Submit sets loading, clears the error and stores the input, leaving the analysis untouched |
| App.Settle | App.tsx:19-28 | Success stores the result; failure shows only the fixed message; either way loading ends and the input is kept |
| App.HandleAnalyze | App.tsx:15-29 | While pending the page is loading. Once settled it is not loading and holds the input; there is an error (the fixed message) iff the call failed; a success stores the result, a failure leaves the analysis as it was, so from a state without one there is a result iff the call succeeded |
| App.HandleReset | App.tsx:31-34 | Reset discards result and input and leaves loading and error as they were |
| App.ResetIdempotent | App.tsx:31-34 | Resetting twice equals resetting once |
| App.DismissError | App.tsx:63 | Dismiss clears only the error |
| App.OneMainView | App.tsx:41-69 | Form, spinner and dashboard exclude one another, and one of them is always shown |
| App.Props | App.tsx:79-84 | The dashboard gets the analysis, the input's copy and platform (or "" without an input) and the video payload iff the input had a video |
| App.DashboardShowsSubmission | components/AnalysisDashboard.tsx:157-163 | The panel shows the submitted copy, or "No text copy provided." for an empty one, and plays the video iff its payload is non-empty |
| App.StepPreservesInv | App.tsx:15-63 | Every enabled event preserves the page invariant |
| App.RunPreservesInv | App.tsx:10-86 | Every run of enabled events preserves the page invariant |
| App.AtMostOneInFlight | App.tsx:41-47 | Along any run, calls started minus calls settled is one while loading and zero otherwise |
| App.Reachable | App.tsx:10-13 | Every state reachable from the first render satisfies the invariant, and a call is outstanding iff the spinner shows |
| App.PhaseTransitions | App.tsx:15-86 | Read as Idle/Loading/Success/Error, each enabled event makes exactly the single-flow transition (Back only from Success, dismiss only from Error) |
| App.BannerOnlyWithForm | App.tsx:41-67 | In reachable states the error banner only appears together with the form |
| Dashboard.ScoreBand | components/AnalysisDashboard.tsx:14-18 | Emerald iff score >= 8, amber iff 6 <= score < 8, rose iff score < 6 |
| Dashboard.ScoreBandMonotone | components/AnalysisDashboard.tsx:14-18 | A higher score never gets a worse band |
| Dashboard.ScoreBandThresholds | components/AnalysisDashboard.tsx:14-18 | The band changes between consecutive scores exactly at 6 and at 8 |
| Dashboard.RadarData | components/AnalysisDashboard.tsx:39-46 | Six points in the order Focus, Memorability, Branding, Emotion, Pacing, Overlays; the point named after each metric carries that metric's score, out of 10 |
| Dashboard.StrengthBand | components/AnalysisDashboard.tsx:66-73 | Recall and association are emerald iff High, amber otherwise |
| Dashboard.RiskBand | components/AnalysisDashboard.tsx:78 | Generic risk is emerald iff Low, rose otherwise |
| Dashboard.HighlightsOpposed | components/AnalysisDashboard.tsx:66-78 | No level is emerald on both a strength tile and the risk tile; Moderate is amber and rose |
| Dashboard.LiftTiles | components/AnalysisDashboard.tsx:63-87 | Four tiles in the order Recall, Association, Generic Risk, Performance, each showing its own field's value as text; recall and association are emerald iff High and amber otherwise, generic risk is emerald iff Low and rose otherwise, the performance tile has no highlight |
| Dashboard.TileHighlights | components/AnalysisDashboard.tsx:63-87 | Every tile shows text; recall and association are emerald when High and amber otherwise, generic risk is emerald when Low and rose otherwise, and the performance tile has no highlight |
| Dashboard.TilesShowBrandLift | components/AnalysisDashboard.tsx:63-87 | Two estimates show the same four tile texts iff they agree on recall, association, generic risk and performance type |
| Types.LabelsInjective | types.ts:20-23 | The string values of the three-valued scale and of the performance types are pairwise distinct |
| Dashboard.OriginalCopyText | components/AnalysisDashboard.tsx:163 | The copy verbatim when non-empty, otherwise "No text copy provided." |
| Dashboard.ShowsVideo | components/AnalysisDashboard.tsx:157-161 | The player is rendered iff a non-empty payload is passed |

## Left out

- The model SDK: constructing `GoogleGenAI`, the model names and the response-schema literals. The call and the parse of its answer are the oracle `ModelReply`.
- `req.json()` and `JSON.parse`: their results are parameters. Request fields are strings or absent; bodies that are not JSON objects, and non-string field values, are not modelled.
- The base64 encoding done by `FileReader.readAsDataURL`: the payload is an uninterpreted string.
- AdForm.HandleVideoUpload: requires that a successful read yields a string containing a comma, as a data URL with a payload does (section 3 of RFC 2397). A 0-byte file, whose result in some browsers is `data:` with no comma, is not modelled: there `split(',')[1]` is `undefined`, the attached `videoData.data` is `undefined`, and `handleSubmit` still counts the video as present.
- Asynchronous timing: a submission is two discrete events, its start and its settlement. There is no concurrency in the code.
- PromptBuilder.TemplateLines: proved for every wording whose lines hold no line break. That the lines of `PromptWording` hold none is read off the constant, not proved, because checking long string literals character by character exceeds the solver's budget.
- Side effects: `alert` (modelled only as the alert text returned by the upload and submit steps), `window.scrollTo`, `console.error`, `URL.createObjectURL` and the preview state, the file input reset, credentials from `process.env`, CORS headers and the edge runtime config.
- React lifecycle: the form is unmounted while loading, so its own state starts over on remount. The model keeps form state and page state separate.
- Presentation: markup, recharts, Tailwind classes beyond the band choice, and the static header (components/Header.tsx).
- String length: JavaScript's `length` counts UTF-16 code units, the model counts characters.
- Scores are integers. Non-integer JSON numbers are not modelled. The brand-lift fields are the declared three-valued types, although the unchecked cast does not enforce them at runtime.
- The import of `./services/geminiService` in App.tsx, whose file is named `geminiService.ts.ts`: a build concern, not logic.
- A JSON round-trip of results: the code re-serialises with `JSON.stringify`, which is opaque here.

## Findings

| source | as written | input that shows it | evidently intended | confidence | as-written member | corrected member |
|---|---|---|---|---|---|---|
| api/analyze.ts:134 | The schema of `recommendations.emotional` uses `TYPE.STRING`, but `TYPE` is not defined (the import is `Type`). Evaluating the call's configuration throws a ReferenceError inside the `try`, before `generateContent` is reached | Any POST with non-empty platform, targetAudience, objective and adCopy | `Type.STRING`: the model is called and a parsed answer is returned with 200 | high; not executed (a type-checking build would instead refuse to compile the route) | AnalyzeEndpoint.HandleAsWritten | AnalyzeEndpoint.Handle |
