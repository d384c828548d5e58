# Busan Storyteller: session controller and response post-processing

Busan Storyteller walks a visitor through a few steps. They enter a place in
Busan and an emotion. The app fetches the place's history through a
search-grounded language model. They pick a content format (documentary,
webtoon, audio drama or exhibition). The app then generates a content plan, a
social-media post and an illustration. All content comes from the remote
model. The application's own logic is:

- the controller's session state and its four handlers (`App.tsx`);
- what the service wrappers do with the model's responses and errors
  (`services/geminiService.ts`);
- the input form's guard (`components/StepInput.tsx`).

This project models that logic in Dafny and proves its properties.

- `types.dfy`, module `Types`: the step and content-type enumerations and the
  records (`HistoryData`, `ContentPlan`, `SocialPost`), plus `Option` for
  `null`/`undefined` and `Result` for a promise that resolves or rejects with a
  message.
- `step_input.dfy`, module `StepInput`: JavaScript's `trim` (ECMAScript
  whitespace and line terminators) and the form's guard `CanSubmit`.
- `gemini_service.dfy`, module `GeminiService`: the SDK response as a datatype
  (candidates, grounding chunks, content parts, all optional). It models:
  - source extraction and the summary fallback in `fetchHistory`, as a method
    whose loop is proved against `SourcesOf`;
  - the error mapping of `generateContentPlan` and `generateSocialPost`;
  - `generateImage` as a method. It builds the request (prompt kind, history
    excerpt, aspect ratio), then scans the response's parts for the first
    inline data and builds the `data:<mime>;base64,<data>` URL of section 3
    of RFC 2397.
- `controller.dfy`, module `Controller`: the session as a `Session` value, with
  one transition function per handler and the invariant `Consistent`. The
  class `App` holds the same fields, and its handler methods set them one
  after another as the component's setters do. Each method is proved to
  produce exactly the transition function's session and to keep `Consistent`.

Each remote call's outcome is a parameter: `Ok(value)` or `Err(message)`.
`generateImage` also returns the request it would send.

In three places the code's behaviour is easy to misread; the model follows the code:

- A failed type selection does not clear a plan stored earlier. When the plan
  succeeds but the post fails, the new plan is kept (`App.tsx:51-52`).
  `FailedSelectKeepsEarlierResults` states this. `ResultShowsFreshOutputs`
  shows that a session entering RESULT always shows the plan and post of the
  selection that got it there.
- A failed history fetch leaves the step as it was rather than forcing INPUT.
  Reset leaves the loading flag as it was (`App.tsx:71-81`).
- The plan and post wrappers take whatever `JSON.parse` returns as the plan
  or post, unchecked (`as ContentPlan`, `services/geminiService.ts:77-78` and
  `124-125`). An empty response becomes `{}`, not an error. Parsing is outside
  this model (see below).

## Model

| member | source | states |
|---|---|---|
| `StepInput.TrimStartCutsLeadingSpace` | components/StepInput.tsx:14 | trimming the start leaves a suffix of the input that starts with a non-whitespace character (or is empty), and every character cut off is whitespace |
| `StepInput.TrimEndCutsTrailingSpace` | components/StepInput.tsx:14 | trimming the end leaves a prefix of the input that ends with a non-whitespace character (or is empty), and every character cut off is whitespace |
| `StepInput.Trim` | components/StepInput.tsx:14 | `s.trim()` is no longer than `s` and neither starts nor ends with whitespace; `TrimEmptyIff` says when it is empty |
| `StepInput.TrimEmptyIff` | components/StepInput.tsx:14 | `s.trim()` is empty if and only if every character of `s` is whitespace or a line terminator |
| `StepInput.CanSubmit` | components/StepInput.tsx:14-16 | the form's guard; passing it implies both inputs are non-empty, and `CanSubmitIff` characterises it exactly |
| `StepInput.CanSubmitIff` | components/StepInput.tsx:14-16 | the form passes the inputs on if and only if the place and the emotion each contain a non-whitespace character |
| `GeminiService.Summary` | services/geminiService.ts:16 | the summary is never empty; it is the response text when that is truthy, and otherwise the fixed "정보를 찾을 수 없습니다." |
| `GeminiService.SourceOf` | services/geminiService.ts:24-28 | a cited chunk gives url = its `web.uri`, and title = `web.title` when truthy, otherwise "출처" |
| `GeminiService.SourcesOf` | services/geminiService.ts:19-31 | there are never more sources than chunks, and every source has a non-empty url and a non-empty title |
| `GeminiService.SourcesOfAppend` | services/geminiService.ts:23-30 | extraction keeps chunk order: the sources of a concatenation are the concatenation of the sources |
| `GeminiService.SourcesOfMembership` | services/geminiService.ts:23-30 | a source is extracted if and only if some chunk with a truthy `web.uri` yields it |
| `GeminiService.SourcesOfEmptyIff` | services/geminiService.ts:19-31 | the source list is empty if and only if no chunk has a truthy `web.uri` |
| `GeminiService.MissingChunksCiteNothing` | services/geminiService.ts:20-22 | missing candidates, first candidate, grounding metadata or chunk list give an empty source list |
| `GeminiService.HistoryOf` | services/geminiService.ts:16-36 | the history built from a response: its summary is never empty, every source has a non-empty url and title, and a missing chunk list gives no sources |
| `GeminiService.FetchHistory` | services/geminiService.ts:6-41 | a failed call gives the fixed error "역사 정보를 가져오는 중 오류가 발생했습니다."; a successful one gives the summary and the sources extracted chunk by chunk |
| `GeminiService.GenerateContentPlan` | services/geminiService.ts:77-82 | succeeds exactly when the call does, with the parsed plan unchanged; every failure becomes the fixed plan error |
| `GeminiService.GenerateSocialPost` | services/geminiService.ts:124-129 | succeeds exactly when the call does, with the parsed post unchanged; every failure becomes the fixed post error |
| `GeminiService.HistoryExcerpt` | services/geminiService.ts:144 | `history.slice(0, 500)` is a prefix of the history of at most 500 characters, the whole history when it is that short, and exactly 500 characters otherwise |
| `GeminiService.DataUrl` | services/geminiService.ts:185 | the image URL is "data:", then the media type, then ";base64,", then the data |
| `GeminiService.DataUrlRoundTrip` | services/geminiService.ts:185 | reading the data URL back with a reader that takes the media type up to the first ';' recovers the media type and the data, when the media type has no ';' |
| `GeminiService.FirstInlineDataIsFirst` | services/geminiService.ts:183-188 | the selected inline data is absent if and only if no part has inline data; otherwise it belongs to a part with no earlier inline-data part |
| `GeminiService.FirstInlineData` | services/geminiService.ts:183-187 | the chosen inline data, when present, is that of one of the parts; `FirstInlineDataIsFirst` shows it is the first such part |
| `GeminiService.ImageUrlOf` | services/geminiService.ts:183-188 | there is an image URL exactly when `FirstInlineData` finds inline data (by `FirstInlineDataIsFirst`, exactly when some part has any), and the URL starts with "data:" |
| `GeminiService.GenerateImage` | services/geminiService.ts:132-193 | the aspect ratio is "3:4" if and only if the type is WEBTOON, otherwise "4:3"; the webtoon prompt is used exactly for WEBTOON; the prompt context holds the 500-character excerpt; the result is the data URL of the first inline-data part, and null on failure |
| `Controller.ErrorText` | App.tsx:34 | the banner shows the thrown message when it is non-empty, otherwise the fallback text |
| `Controller.Submit` | App.tsx:23-38 | the session after `handleInputSubmit`: place and emotion are the inputs, loading is off, step is HISTORY exactly when the fetch succeeded or it already was, and the invariant is kept; `SubmitOutcome` gives every field |
| `Controller.SelectType` | App.tsx:41-69 | the session after `handleTypeSelect`: place, emotion and history are untouched; from a step other than RESULT it reaches RESULT exactly when a history exists and plan and post succeed; the invariant is kept |
| `Controller.Reset` | App.tsx:71-81 | the session after `handleReset` is the start-up session with the loading flag left as it was |
| `Controller.DismissError` | App.tsx:106 | the session after closing the banner has no error, the same step, and keeps the invariant |
| `Controller.ResetIsInitial` | App.tsx:71-81 | reset from any session gives the start-up session, except that the loading flag is unchanged; resetting twice is resetting once |
| `Controller.SubmitOutcome` | App.tsx:23-38 | place and emotion always become the inputs and loading ends false; success gives step HISTORY, the fetched history and no error; failure keeps step and history and shows the thrown message, or '오류가 발생했습니다.' when it is empty; no other field changes |
| `Controller.SelectWithoutHistoryIsNoop` | App.tsx:42 | choosing a type with no history changes nothing |
| `Controller.ResultIffPlanAndPost` | App.tsx:44-68 | with a history, the chosen type is stored and loading ends false. The step becomes RESULT if and only if both plan and post succeed, whatever the image outcome. On RESULT the image URL is the image outcome, which may be null. Otherwise the step is unchanged, the image URL is null, and the error is the failing call's message, or '콘텐츠 생성 중 오류가 발생했습니다.' when it is empty. Place, emotion and history are never changed |
| `Controller.FailedSelectKeepsEarlierResults` | App.tsx:51-65 | plan ok but post failed: contentPlan holds the new plan, socialPost and step are unchanged; plan failed: earlier plan, post and step are all unchanged |
| `Controller.ResultShowsFreshOutputs` | App.tsx:51-63 | a session that enters RESULT holds the type, plan, post and image of the selection that brought it there |
| `Controller.DismissOnlyClearsError` | App.tsx:106 | closing the banner sets error to null and leaves every other field, step included, as it was |
| `Controller.NextConsistent` | App.tsx:23-81 | every handler keeps the invariant: step never PLANNING; loading false after a handler; INPUT holds no results; HISTORY has a history; RESULT has history, type, plan and post |
| `Controller.RunConsistent` | App.tsx:9-81 | any sequence of handler calls from a consistent session (such as the start-up one) ends in a consistent session |
| `Controller.ServiceErrorsShownAsIs` | App.tsx:33-34 | the service's fixed error messages are non-empty, so the banner shows them as they are and never the controller's fallbacks |
| `Controller.App.constructor` | App.tsx:9-20 | the component starts in INPUT with empty inputs, no results, no error and loading off |
| `Controller.App.HandleInputSubmit` | App.tsx:23-38 | sets the fields in the handler's order and ends in exactly the `Submit` session, keeping the invariant; callable only with inputs the form accepts |
| `Controller.App.HandleTypeSelect` | App.tsx:41-69 | sets the fields in the handler's order and ends in exactly the `SelectType` session, keeping the invariant |
| `Controller.App.HandleReset` | App.tsx:71-81 | ends in exactly the `Reset` session, keeping the invariant |
| `Controller.App.HandleDismissError` | App.tsx:106 | clears the error only, keeping the invariant |
| `Controller.GamcheonWebtoonScenario` | App.tsx:23-69 | submitting "감천문화마을"/"그리움" with a fetched history, then choosing WEBTOON with plan and post generated and the image failed, reaches RESULT with that history, plan and post and no image URL |

## Left out

- The Gemini SDK calls and the network. Each call's outcome is a parameter.
- `JSON.parse` of the model's output in `generateContentPlan` and
  `generateSocialPost`. The plan or post arrives already parsed. The code's
  acceptance of `{}` for an empty response is therefore not modelled.
- `response.text` is an SDK getter. It is modelled as a field of the response.
- Prompt wording. The image prompt is modelled by its kind and the plan
  fields and context it carries. The history and plan prompts are not modelled.
- The two concurrent calls of `Promise.all`. The post and image outcomes are
  two separate parameters; the image call never rejects.
- Time inside an awaited call. Each handler is one atomic step, so the state
  while a call is in flight (loading flag on) is not observable in the model.
  Re-entrant handler calls are not modelled either.
- `HistoryExcerpt`: counts Unicode scalar values, not the UTF-16 code units of
  `slice`. The two differ only for characters outside the Basic Multilingual
  Plane.
- Logging through `console.error`.
- The JSX views, styling and the API-key configuration in `vite.config.ts`.
