# Socratis tutor front-end: a verified model of its core

Socratis is a single-page chat interface for a Socratic tutoring assistant.
Its logic is small: an input bar decides whether a send may go out, a
session controller appends the user's turn, asks a remote generative-language
service for a step plan (on the first send only) and for a reply, appends one
assistant turn, and occasionally moves the "learning journey" forward; a
gateway shapes the history into the service's `contents` list and shapes the
answers it gets back. This project models those three pieces in Dafny and
proves what they promise.

Modules, following the source files:

- `Types` (`types.ts`): `Role`, `Message`, `StepStatus`, `Step`, and
  JavaScript truthiness of an optional string (`undefined` and `""` are both
  falsy, which matters for `msg.imageUrl ? … : …` and `image || undefined`).
- `Strings`: `trim` over an explicitly declared whitespace set (the ECMAScript
  WhiteSpace and LineTerminator code points) and `split` on one character.
- `Decimal`: `Number.prototype.toString` on the non-negative integers used as
  ids (clock readings, array indices), with a parser and a round-trip proof.
- `GeminiService` (`services/geminiService.ts`): pure functions. The remote
  calls are parameters (`service`, a function from the request to what the
  call produced) and so is `JSON.parse` (`parse`, a function from text to a
  list or a failure).
- `Journey` (`App.tsx`, the step list): the label-to-step mapping, the
  `findIndex` of the current step and the advancement, specified by functions
  and implemented by methods over a loop and an array updated in place.
- `Session` (`App.tsx`): the class `ChatSession` with the fields `messages`,
  `isLoading`, `steps` and `currentTopic`, its `SendMessage` transaction and
  `SelectTopic`. A send is one atomic transition whose inputs are the text,
  the image, two clock readings, the two remote services, the parser and a
  boolean coin standing for `Math.random() > 0.6`.
- `ProblemInput` (`components/ProblemInput.tsx` and its copy
  `components/problemInput/ProblemInput.tsx`, whose logic is identical line for
  line, so it is modelled once): the class `InputBar` with the fields `input`
  and `image`; the `isLoading` prop is a parameter of each operation.
- `Scenarios`: client methods that run the session and the input bar through
  a first send, a failed reply, topic switching, a second send, a refused
  blank send, a forwarded send and image removal, using the methods'
  contracts and the functions' definitions.

Properties worth noting:

- The advancement reads the values the handler captured before the send
  (`steps.length > 0` at App.tsx:62 and `messages.length > 3` at App.tsx:67),
  so no advancement happens on the first send or before the log held four
  messages (`Journey.AdvanceIfDueGate`, `Session.FirstSendSteps`).
- The journey keeps the shape "completed steps, then optionally one current
  step followed by pending steps" (`Journey.WellFormed`), established by the
  mapping and preserved by every advancement; it implies at most one current
  step and completed steps forming a prefix, and no step ever moves back.
  `ChatSession.Valid()` carries this shape, the alternation of user and
  assistant turns, "no steps while there are no messages" and "not loading".
- Plan generation can return an empty list: an absent response text is parsed
  as `"[]"` (services/geminiService.ts:52). The integration test at
  services/geminiService.integration.test.ts:154 expects a non-empty plan from
  the live service; the model follows the code and does not promise that
  (`GeminiService.PlanMayBeEmpty`).
- The `imageUri` argument of `sendMessageToTutor` is never read; an image
  reaches the service only through a message's `imageUrl`.
- A message whose `imageUrl` is `""` is sent as text only, and an input-bar
  image equal to `""` neither enables the send button nor is forwarded.

## Model

| member | source | states |
|---|---|---|
| `Strings.TrimStart` | components/ProblemInput.tsx:16 | the result is a suffix of the text, what was cut is all whitespace, and it does not start with whitespace |
| `Strings.TrimEnd` | components/ProblemInput.tsx:16 | the result is a prefix of the text, what was cut is all whitespace, and it does not end with whitespace |
| `Strings.Trim` | components/ProblemInput.tsx:16 | `input.trim()` is no longer than the text and neither starts nor ends with whitespace (with `Strings.TrimNonEmptyIff` it is empty exactly when the text is all whitespace) |
| `Strings.TrimNonEmptyIff` | components/ProblemInput.tsx:16 | `input.trim()` is truthy exactly when the text has a non-whitespace character |
| `Strings.Split` | services/geminiService.ts:19 | a split has at least one piece and no piece contains the separator |
| `Strings.JoinSplit` | services/geminiService.ts:19 | joining the pieces with the separator gives back the original text |
| `Strings.SplitSeveralIff` | services/geminiService.ts:19 | there is a second piece exactly when the separator occurs |
| `Decimal.NatToString` | App.tsx:44 | `i.toString()` is a non-empty string of decimal digits without a leading zero |
| `Decimal.ParseNatToString` | App.tsx:44 | reading the numeral back gives the number |
| `Decimal.NatToStringInjective` | App.tsx:44 | two numbers have the same numeral exactly when they are equal |
| `GeminiService.WireRoleOf` | services/geminiService.ts:16 | `assistant` becomes `model`; `user` and `system` become `user` |
| `GeminiService.ImageData` | services/geminiService.ts:19 | `url.split(',')[1]` is undefined exactly when the URI has no comma, and a present payload holds no comma (`GeminiService.ImageDataSecondSegment` locates it in the URI) |
| `GeminiService.ImageDataSecondSegment` | services/geminiService.ts:19 | the inline data is absent exactly when the data URI has no comma, and otherwise is the text from the first comma to the next comma or the end |
| `GeminiService.FormatMessage` | services/geminiService.ts:16-20 | a request turn has the mapped role and the text part first; it has a second, `image/jpeg` inline-data part exactly when `imageUrl` is truthy |
| `GeminiService.FormatContents` | services/geminiService.ts:15-21 | the `contents` list has one turn per message, in the same order |
| `GeminiService.FormatContentsAppend` | services/geminiService.ts:15-21 | the request for a log with one more message extends the request for the shorter log by that message's turn |
| `GeminiService.ReplyText` | services/geminiService.ts:35 | a non-empty reply text is returned unchanged; an absent or empty one becomes the fixed "rephrase" sentence; the result is never empty |
| `GeminiService.SendMessageToTutor` | services/geminiService.ts:23-39 | the call fails exactly when the service failed, with the same error; on success the result is the shaped, never empty reply text |
| `GeminiService.TutorIgnoresImageUri` | services/geminiService.ts:8-21 | the result is the same whatever `imageUri` is |
| `GeminiService.TutorSingleRequest` | services/geminiService.ts:23-39 | the result depends only on the service's answer to the formatted request: any two services that agree on that request give the same result |
| `GeminiService.PlanPrompt` | services/geminiService.ts:46 | the planning prompt is the fixed instruction followed by the problem text verbatim |
| `GeminiService.PlanBody` | services/geminiService.ts:52 | the parsed text is never empty: it is the response text when that is truthy, and exactly `"[]"` when it is absent or empty |
| `GeminiService.GenerateProblemSteps` | services/geminiService.ts:42-55 | a failed planning call gives exactly the four-item fallback plan |
| `GeminiService.PlanParseFailureFallback` | services/geminiService.ts:53-55 | a parse failure gives exactly the four-item fallback plan |
| `GeminiService.PlanParsedVerbatim` | services/geminiService.ts:52 | a successful parse is returned verbatim |
| `GeminiService.PlanMayBeEmpty` | services/geminiService.ts:52 | a response whose text is absent or empty, parsed by a faithful JSON parser, gives an empty plan |
| `Journey.StepsFromLabels` | App.tsx:43-47 | the mapping gives one step per label, the first current and the rest pending (`Journey.StepsFromLabelsSpec` states the rest) |
| `Journey.StepsFromLabelsSpec` | App.tsx:43-47 | the steps keep the labels' order, the id of step `i` is `i.toString()`, the ids are distinct, and the steps form a well-formed journey with exactly one current step when there are labels and none otherwise |
| `Journey.JourneyCounts` | App.tsx:43-47 | a journey of shape k has k completed steps and one current step unless all are completed |
| `Journey.WellFormedInvariants` | App.tsx:67-73 | a well-formed journey has at most one current step and its completed steps form a prefix |
| `Journey.CurrentIndex` | App.tsx:64 | the index is -1 exactly when no step is current, and otherwise is the first current step |
| `Journey.FindCurrentIndex` | App.tsx:64 | the `findIndex` loop returns the first current step's index, or -1 |
| `Journey.Advance` | App.tsx:68-73 | the advancement keeps the length, every id and every label, and changes the list only when a step is current (`Journey.AdvanceAt` states the new statuses) |
| `Journey.AdvanceAt` | App.tsx:68-73 | the first current step becomes completed, the next step (if any) becomes current, and every other step is unchanged |
| `Journey.AdvanceWithoutCurrent` | App.tsx:67-75 | with no current step the list is unchanged |
| `Journey.AdvanceJourney` | App.tsx:67-73 | an advancement turns a journey of shape k into one of shape k+1 (a finished journey is unchanged) and undoes no progress |
| `Journey.AdvanceIfDue` | App.tsx:64-75 | the updater returns the previous steps or their advancement, nothing else (`Journey.AdvanceIfDueGate` and `Journey.AdvanceIfDueFires` say which) |
| `Journey.AdvanceIfDueGate` | App.tsx:67 | nothing moves unless the captured message count exceeds 3 and the coin is true |
| `Journey.AdvanceIfDueFires` | App.tsx:67-73 | with a current step, more than three earlier messages and the coin true, the updater advances the steps |
| `Journey.AdvanceIfDuePreserves` | App.tsx:63-76 | the heuristic keeps the journey well formed, keeps ids and labels, never returns a completed step to pending or current nor a current one to pending |
| `Journey.AdvanceSteps` | App.tsx:63-76 | the updater, copying the list into an array and updating two statuses in place, computes the heuristic's result |
| `Session.UserMessage` | App.tsx:27-33 | the user turn has role `user`, the raw text, the image as given, and the clock reading as timestamp and decimal id |
| `Session.AssistantMessage` | App.tsx:52-57 | the assistant turn has role `assistant`, the given content, no image, and id clock reading + 1 |
| `Session.AssistantContent` | App.tsx:50-86 | the assistant content is the reply on success and exactly the fixed error sentence on failure |
| `Session.AlternatingAppend` | App.tsx:35-59 | appending a user turn then an assistant turn keeps the log alternating |
| `Session.StepsAfterSend` | App.tsx:41-76 | the step count after a send is the plan's length on the first send and the old count otherwise (`Session.FirstSendSteps` and `Session.LaterSendSteps` state the steps) |
| `Session.FirstSendSteps` | App.tsx:41-48 | on the first send the steps are exactly the mapped plan, with no advancement |
| `Session.LaterSendSteps` | App.tsx:62-76 | a later send keeps the steps, or advances them, only after a reply with more than three earlier messages and the coin true; under those conditions, with a current step, it does advance them |
| `Session.StepsAfterSendWellFormed` | App.tsx:41-76 | from a valid state a send leaves a well-formed journey, and a later send undoes no progress |
| `Session.SendKeepsInvariant` | App.tsx:26-90 | a send from a state with alternating turns, a well-formed journey, no steps without messages and nothing loading ends in such a state |
| `Session.ChatSession.constructor` | App.tsx:12-15 | the session starts with no messages, not loading, no steps and no topic |
| `Session.ChatSession.SelectTopic` | App.tsx:121 | the topic becomes the clicked label; messages, steps and loading are unchanged |
| `Session.ChatSession.SendMessage` | App.tsx:26-90 | the transcript handed to the tutor is the old log plus the new user turn; loading is on during the call and off afterwards; exactly a user turn and then one assistant turn are appended; the planning service is sent the planning prompt once on the first send and nothing on a later send, and the tutor is sent exactly one request, the formatted transcript; the steps are replaced only on the first send and otherwise kept or advanced; the session invariant is kept |
| `Session.ChatSession.BeginSend` | App.tsx:27-48 | the user turn is appended and returned as the new log, loading is on, the planning prompt is requested exactly when the log was empty, and then the steps are the mapped plan; otherwise the steps and the topic are unchanged |
| `Session.ChatSession.FinishSend` | App.tsx:50-89 | given steps as the first part left them, the reply or the fixed error sentence is appended as the assistant turn, the steps become those of `Session.StepsAfterSend` for the captured values, loading is off and the topic is unchanged |
| `ProblemInput.SendAllowed` | components/ProblemInput.tsx:16 | the guard never holds while loading, and a truthy image alone satisfies it when not loading (`ProblemInput.SendAllowedIff` states it fully) |
| `ProblemInput.SendAllowedIff` | components/ProblemInput.tsx:16 | a send is allowed exactly with a non-whitespace character or a truthy image, and not loading |
| `ProblemInput.SendDisabled` | components/ProblemInput.tsx:82 | the button is disabled exactly when the send guard is false |
| `ProblemInput.UsesEnabledStyle` | components/problemInput/ProblemInput.tsx:84-86 | the enabled style is used exactly when the button is not disabled |
| `ProblemInput.DisabledWhenEmpty` | components/problemInput/ProblemInput.test.tsx:113-121 | with empty input and no image the button is disabled |
| `ProblemInput.DisabledWhileLoading` | components/problemInput/ProblemInput.test.tsx:123-134 | while loading the button is disabled and not styled enabled, whatever the text |
| `ProblemInput.EnabledWithText` | components/problemInput/ProblemInput.test.tsx:138-149 | text with a non-whitespace character alone enables the button |
| `ProblemInput.EnabledWithImage` | components/problemInput/ProblemInput.test.tsx:151-165 | an image alone enables the button |
| `ProblemInput.BlankTextIsNotText` | components/ProblemInput.tsx:16 | whitespace-only text does not enable the button |
| `ProblemInput.InputBar.constructor` | components/ProblemInput.tsx:11-12 | the bar starts with empty input and no image |
| `ProblemInput.InputBar.ShowsPreview` | components/ProblemInput.tsx:38 | the preview shows only for a present, non-empty image |
| `ProblemInput.InputBar.Edit` | components/ProblemInput.tsx:69 | typing replaces the input and keeps the image |
| `ProblemInput.InputBar.ImageLoaded` | components/ProblemInput.tsx:27-30 | a finished file read sets the image and keeps the input |
| `ProblemInput.InputBar.RemoveImage` | components/problemInput/ProblemInput.tsx:42 | removing the preview sets the image to null, hides the preview and keeps the input |
| `ProblemInput.InputBar.HandleSend` | components/ProblemInput.tsx:15-21 | a send is forwarded exactly when the guard holds, with the untrimmed input and the image or undefined, and then both fields are cleared; a refused send changes nothing |
| `ProblemInput.InputBar.KeyDown` | components/ProblemInput.tsx:70-74 | Enter without Shift prevents the default and runs the guarded send; any other key, Shift+Enter included, sends nothing and changes nothing |

## Left out

- Rendering: the JSX, the CSS and Tailwind class strings, `StepTracker`,
  `ChatMessage`, the welcome, live and loading views and the scrolling to the
  newest message; the model keeps only the predicates that decide the send
  button's disabled attribute and style, and whether the image preview shows.
- The `GoogleGenAI` client, the model names, temperature and thinking settings
  and the system instruction: the remote calls are function parameters.
- `JSON.parse`: a parameter from text to a list of strings or a failure; a
  parse that yields something other than a list of strings (which would reach
  `.map` in App.tsx) is not modelled.
- `Date.now()`: each message takes one clock reading as a parameter, used for
  both its id and its timestamp, where the source reads the clock separately
  for each; ids are not claimed unique across sends.
- `Math.random()`: a boolean parameter standing for `Math.random() > 0.6`.
- `handleFileChange` and the `FileReader`: only the final `setImage` of the
  read is modelled (`InputBar.ImageLoaded`).
- The suggestion buttons of the welcome view, which strip `$` with a regular
  expression before sending: presentation.
- Overlapping sends and React's batching of state updates: a send is one
  atomic transition from a state that is not loading. The functional updater
  of App.tsx:63 is modelled as reading the latest steps, which on a send where
  the updater can fire are the captured ones.
- Aliasing in the advancement: `[...prevSteps]` copies the array but not the
  step objects, so the source also changes the objects still held by the old
  array; the model works on step values and the copy is independent. Because
  index.tsx:16 mounts the app under `React.StrictMode`, a development build
  calls the updater of App.tsx:63 twice; the second call sees the step the
  first one promoted to current and, with a fresh `Math.random()`, can advance
  once more. The model has one call of the updater per send, so it does not
  capture this double step.
- `console.error` logging, `index.tsx` mounting, `constants.ts` (the system
  instruction, the topic list and the suggestions), `vitest.config.ts`, and
  the test files, which serve only as evidence for the properties. The fixed
  sentences and the fallback plan are written inline in the source and are
  modelled from there (App.tsx:83, services/geminiService.ts:35 and :54).
- Whitespace: `trim` is modelled over an explicitly declared set of code
  points; no Unicode property tables are involved.
- The `type` field of a message is carried but never set by the core.
- `GeminiService.TutorSingleRequest`: the gateway functions take the remote
  service as a pure function, so the number of times a function calls it cannot
  be seen; a retry of the same request would meet the same contracts. The
  single call per send (services/geminiServices.test.ts:39) is instead stated by
  the request logs of `Session.ChatSession.SendMessage`.
- `Session.ChatSession.SendMessage`: the transcript, the loading flag during
  the tutor call and the two request logs are reported through ghost
  out-parameters, which the body records beside each remote call; they are not
  observed from outside.
