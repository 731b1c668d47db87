# Nutrition app: the sequential logic under the screens

This project models in Dafny the four pieces of sequential logic of a React Native
fitness-and-nutrition app and proves properties of them. The rest of the app is screen
rendering and calls to remote services.

- **Gateway** (`api.dfy`, from `api.ts`). This is the API service, which has no fields.
  Its operations are pure functions:
  - `getAuthToken` falls back to no token when the storage read throws.
  - `request` builds the URL and the headers, and turns a response into a result or an error.
  - the backend routes.
  - `getChatResponse` builds the chat message list and reads the reply.
  - the two vision analyses.
  - `lookupBarcode` normalises an Open Food Facts reply into a nutrition record.
- **Onboarding wizard** (`onboarding.dfy`, from `onboarding.tsx`). This is a three-step
  state machine (photo, goal, activity level). It is a class with the screen's four state
  fields. Next and Previous are guarded. The goal and activity handlers each update one
  field. `handleComplete` runs the body analysis and then the profile update, and
  navigates only when both succeed.
- **Food log** (`food.dfy`, from `food.tsx`). The list of today's foods only grows. Daily
  totals are `reduce` folds over it. The photo and barcode handlers append one entry when
  their gateway call succeeds. They toggle `loading` and `showScanner`.
- **Coach chat** (`coach.dfy`, from `coach.tsx`). The message list only grows. A send with
  blank input does nothing. Any other send appends the user's message and then exactly
  one AI message.

The shared records (`index.ts`) are in `types.dfy`. Option, Result and Outcome are in
`wrappers.dfy`.

How the outside world is modelled:
- The network, the key-value store, `JSON.parse` of model output and the clock are
  inputs. A call's outcome is a `Result` whose `Err` is the JavaScript error thrown.
  `JSON.parse` is a function parameter. Ids and time strings are parameters.
- A screen handler returns an `effects` trace. It lists, in order, the gateway calls,
  the alerts, the flag changes, the appends and the navigation. Pure functions specify
  these traces, and lemmas about those functions state the ordering properties.
- JavaScript truthiness is written out:
  - a `string | null` is truthy when it is present and not empty;
  - `n || 0` on a possibly absent number gives the number when it is present, else 0.
- JavaScript numbers are Dafny `real`s.
- `String.prototype.trim` is modelled with the WhiteSpace and LineTerminator code points
  of ECMAScript.

A side effect of the code as written: when the save after an append fails, the food
screen shows the handler's own error text ("Failed to analyze food image…" or "Product
not found…"), although the entry stays in the list. The model keeps that behaviour
(`Food.AfterCallOrder`).

## Model

| member | source | states |
|---|---|---|
| `Api.GetAuthToken` | api.ts:7-14 | A storage read that throws gives no token instead of an error. Otherwise the stored value, or its absence, is returned as it is. |
| `Api.RequestHeaders` | api.ts:19-26 | The header keys are Content-Type, plus Authorization exactly when the token is truthy, plus the caller's keys. Every caller header wins. Content-Type defaults to application/json. Authorization defaults to `Bearer <token>`. |
| `Api.RequestConfig` | api.ts:19-26 | The config keeps the caller's method and body and replaces the headers with the merged headers. |
| `Api.RequestUrl` | api.ts:28 | The fetched URL is the base URL followed by the endpoint, unchanged. |
| `Api.Request` | api.ts:16-35 | The fetch goes to the base URL plus the endpoint, with the merged config. A rejected fetch propagates its error. A status outside 200-299 raises the HTTP error with that status. Otherwise the result is exactly what `response.json()` gives: the parsed body, or its rejection. The call succeeds exactly when the status is ok and the body parses. |
| `Api.HttpErrorCarriesStatus` | api.ts:30-32 | The status can be read back from the message of the HTTP error. |
| `Api.DecimalRoundTrip` | api.ts:31 | The decimal rendering of the status in that message is all digits, and it parses back to the status. |
| `Api.BackendRoute` | api.ts:206-237 | Each of the six backend operations is pinned to its endpoint and options. The profile read and the scan list have no method and no body. The daily log has no method, and its date goes at the end of the query string. The profile update is a PUT, and the food-entry and body-scan saves are POSTs. Each write carries the serialized argument as its body. No operation passes headers. |
| `Api.BackendCallHeaders` | api.ts:206-237 | Every backend call sends the JSON content type, and sends Authorization exactly when the stored token is truthy. No other header is sent. |
| `Api.ChatMessages` | api.ts:108-119 | The list has length of the context plus 2. The system prompt comes first, then every context entry at its own position, unmodified, then the user message last. |
| `Api.ChatMessagesWellFormed` | api.ts:108-119 | A chat request has a known role on every message exactly when every context entry does. |
| `Api.CompletionContent` | api.ts:124-129 | A non-ok status raises the fixed failure message. A rejected fetch propagates. The call succeeds exactly on an ok status with at least one choice, and then returns the first choice's content. |
| `Api.GetChatResponse` | api.ts:99-134 | The request names the gpt-4 model with a 500-token limit. It holds the context length plus 2 messages: the system prompt, each context entry unchanged at its own position, and the user message last. A rejected fetch propagates, and a non-ok status raises "Failed to get AI response". The call succeeds exactly on an ok status with at least one choice, and then returns the first choice's content. |
| `Api.VisionResult` | api.ts:86-91 | A vision call's result is the parse of the first choice's content, or the failure of the completion. |
| `Api.AnalyzeBodyImage` | api.ts:38-96 | The request references the image with a 1000-token limit. A rejected fetch propagates, and a non-ok status raises "Failed to analyze image". On an ok status with a choice, the result is exactly the parse of the first choice, whether it succeeds or fails. A success needs an ok status, a choice and a successful parse. |
| `Api.AnalyzeFoodImage` | api.ts:137-178 | The request references the image with a 300-token limit. A rejected fetch propagates, and a non-ok status raises "Failed to analyze food image". On an ok status with a choice, the result is exactly the parse of the first choice, whether it succeeds or fails. A success needs an ok status, a choice and a successful parse. |
| `Api.OrZero` | api.ts:190-193 | The or-zero default on a possibly absent nutrient is the nutrient when present and 0 otherwise. It is never absent. |
| `Api.NameOrUnknown` | api.ts:189 | The product name when it is truthy, else "Unknown Product". |
| `Api.BarcodeUrl` | api.ts:183 | The product URL is the Open Food Facts product prefix, then the barcode, then `.json`. The barcode can be read back from between the two. |
| `Api.LookupBarcode` | api.ts:181-203 | The fetch goes to the product URL of the barcode. A rejected fetch propagates. A status other than 1 raises "Product not found" and yields no record. A record exists exactly for a status-1 reply with a product and a nutriments object. Every record is verified. Each nutrient is the reply's value or 0. The name is the product name when truthy, else "Unknown Product". |
| `Onboarding.CanProceed` | onboarding.tsx:221-232 | Step 1 needs a photo, step 2 a goal and step 3 an activity level. Any other step gives false. |
| `Onboarding.CanProceedReadsOnlyCurrentStep` | onboarding.tsx:221-232 | Two states that agree on the current step's required field agree on `canProceed`. |
| `Onboarding.CurrentStepView` | onboarding.tsx:208-219 | Step 2 shows the goal step, step 3 the activity step, and any other value the photo step. |
| `Onboarding.StepsStayInRange` | onboarding.tsx:255-270 | From any of the three steps, Next and Previous stay within steps 1..3 and move by at most one step. |
| `Onboarding.FinalStepReachable` | onboarding.tsx:264-279 | With a photo, a goal and an activity level entered, two presses on Next reach step 3. There "Complete Setup" replaces Next and is enabled. |
| `Onboarding.IncompleteSubmitCallsNothing` | onboarding.tsx:67-71 | A submit missing the photo, the goal or the activity level makes no gateway call and never touches `loading`. |
| `Onboarding.SubmitSequence` | onboarding.tsx:72-89 | On a complete submit, `loading` is raised first and cleared last. The body analysis of the photo with the goals comes next. The profile update follows only a successful analysis, and carries the goals, the analysis result and `onboardingCompleted: true`. Navigation happens exactly when both calls succeed. |
| `Onboarding.OnboardingScreen.constructor` | onboarding.tsx:13-16 | The wizard starts on step 1 with no photo, empty goals and `loading` false. |
| `Onboarding.OnboardingScreen.PhotoPicked` | onboarding.tsx:35-37 | A picked or captured image becomes the body image. Nothing else changes. |
| `Onboarding.OnboardingScreen.Retake` | onboarding.tsx:104 | Retake clears the photo, so step 1 can no longer proceed. |
| `Onboarding.OnboardingScreen.SelectGoal` | onboarding.tsx:59-61 | Only `goalType` is set. Every other goal field and the rest of the state are preserved. |
| `Onboarding.OnboardingScreen.SelectActivityLevel` | onboarding.tsx:63-65 | Only `activityLevel` is set. Every other field is preserved. |
| `Onboarding.OnboardingScreen.PressNext` | onboarding.tsx:264-270 | Next acts only before step 3 and only when `canProceed` holds, and then raises the step by exactly 1. The step stays in 1..3. |
| `Onboarding.OnboardingScreen.PressPrevious` | onboarding.tsx:255-261 | Previous acts only after step 1 and lowers the step by exactly 1. The photo and the goals are unchanged. |
| `Onboarding.OnboardingScreen.HandleComplete` | onboarding.tsx:67-90 | The effects are those of `CompleteEffects`. Only `loading` may change: it is untouched on an incomplete form and false afterwards otherwise. The step, the photo and the goals stay as they were on every path. |
| `Food.ReduceIsSum` | food.tsx:145-148 | The `reduce` left fold from any start value equals that value plus the reference sum. |
| `Food.DailyTotalIsSum` | food.tsx:145-148 | Each daily total is the sum of its field over the list, and 0 for an empty list. |
| `Food.DailyTotalAppend` | food.tsx:145-148 | Appending one entry raises each total by exactly that entry's amount. |
| `Food.DailyTotalNonNegative` | food.tsx:145-148 | Entries with no negative amount give a total that is not negative. |
| `Food.PhotoEntry` | food.tsx:82-92 | A photo entry is verified exactly when the confidence is strictly above 0.8. It copies the analysis's name and nutrients and records the image. |
| `Food.BarcodeEntry` | food.tsx:114-118 | A barcode entry carries the lookup's name, nutrients and verified flag, and has no image. |
| `Food.BarcodeEntriesAreVerified` | food.tsx:112-118 | Every entry built from a successful lookup is verified. |
| `Food.AfterCallOrder` | food.tsx:94-101 | When the gateway call fails, only the error alert is raised and nothing is appended. When it succeeds, the entry is appended before it is saved. A failed save only changes the alert: the entry is not rolled back. |
| `Food.PhotoLoadingBrackets` | food.tsx:77-105 | `loading` is raised before the analysis call and cleared last on every path. An entry is appended exactly when the analysis succeeded. |
| `Food.BarcodeScannerClosesFirst` | food.tsx:107-129 | The barcode handler closes the scanner, then raises `loading`, then calls the lookup, and clears `loading` last. |
| `Food.LoggedKeepsEarlierEntries` | food.tsx:94 | A handler's list update keeps every earlier entry in place and adds at most one entry, at the end. Each total moves by exactly that entry's amount, or not at all. |
| `Food.FoodScreen.constructor` | food.tsx:13-36 | The screen starts with the two sample entries, and both flags are false. |
| `Food.FoodScreen.AnalyzeFoodImage` | food.tsx:77-105 | The list gains the photo entry exactly when the analysis succeeds, whatever the save does. The effects are those of `PhotoEffects`. `loading` ends false. |
| `Food.FoodScreen.HandleBarcodeScanned` | food.tsx:107-129 | The list gains the barcode entry exactly when the lookup succeeds. The scanner is closed and `loading` ends false. The effects are those of `BarcodeEffects`. |
| `Food.FoodScreen.OpenScanner` | food.tsx:136-143 | The scanner opens when permission is granted. Otherwise the permission alert is raised. |
| `Food.FoodScreen.CancelScanner` | food.tsx:168 | Cancel closes the scanner. |
| `Coach.TrimEmptyIffAllWhitespace` | coach.tsx:33 | `trim()` of the input is empty exactly when every character is JavaScript whitespace. |
| `Coach.SendButtonEnabled` | coach.tsx:190 | Send is enabled exactly when no reply is pending and the input has a character that is not whitespace. |
| `Coach.AiMessage` | coach.tsx:50-68 | The AI message carries the reply on success and the fixed apology on failure. |
| `Coach.SendKeepsAlternating` | coach.tsx:43-68 | A user message followed by an AI message keeps the list alternating, and adds exactly one message of each sender. |
| `Coach.AlternatingCounts` | coach.tsx:11-68 | An alternating list of length 2k+1 holds k user messages and k+1 AI messages. So after k accepted sends there are exactly k user messages. |
| `Coach.AsWrittenContext` | coach.tsx:48 | As written, the context is the prior messages in order, and none of its elements has a role. |
| `Coach.RoleTaggedContext` | coach.tsx:48 | The corrected context is the prior messages in order, each under the role of its sender. |
| `Coach.AsWrittenRequestLacksRoles` | coach.tsx:48 | With the records passed as they are, every chat request the screen can send has a message without a role. |
| `Coach.RoleTaggedRequestWellFormed` | coach.tsx:48 | With role-tagged context, every message of the request has a known role. The middle of the request is the prior list, message by message. |
| `Coach.CoachScreen.constructor` | coach.tsx:11-21 | The list starts with the greeting alone, the input is empty, `loading` is false and the quick questions are shown. |
| `Coach.QuickQuestionsAreSendable` | coach.tsx:24-30 | None of the five quick questions is blank, so each one can be sent. |
| `Coach.CoachScreen.HandleQuickQuestion` | coach.tsx:74-76 | Pressing a quick-question button sets the input to that question and appends nothing. The input is then not blank. |
| `Coach.CoachScreen.TypeText` | coach.tsx:180 | Typing replaces the input text. |
| `Coach.CoachScreen.HandleSendMessage` | coach.tsx:32-72 | Blank input changes nothing and sends nothing. Any other input appends exactly one user message with the input text, then exactly one AI message holding the reply or the apology. The input is cleared and `loading` ends false. The request is built from the list as it was before the send, with the text as the last message. The list stays alternating and the quick questions are hidden. |

## Left out

- Network I/O, the storage read, the image picker, the camera, the barcode-scanner
  permission prompt, `Alert`, `router` and every JSX and `StyleSheet` block. Their
  outcomes are inputs, and alerts and navigation appear as entries in the effects traces.
- The prompt texts of the two vision requests and the interpolation of the user's data
  into the body prompt. They are request text, not behaviour.
- `JSON.parse` of model output is a function parameter. No schema check is made on the
  parsed value, as in the source. A parsed object that lacks a field is not representable
  here.
- Asynchronous interleaving: a resolution after unmount, two sends while one is pending,
  and the moment of the call inside a handler. Each handler is one sequential step, and
  the `effects` trace gives the order of its actions.
- Logging: the `console.error` call in each catch block of the gateway is not modelled.
  It does not change what the call returns or throws.
- `Date.now()` ids and locale time strings are parameters. Their uniqueness is not
  modelled.
- Floating point: nutrients and totals are reals. NaN, rounding and the non-associativity
  of floating-point sums are not modelled.
- JSON keys of the spread records other than `role` and `content` (`id`, `sender`,
  `timestamp`, `type`) are not modelled on the wire.
- The dashboard, progress, profile and password-reset screens and the presentational
  components are not part of this model. They are display arithmetic over mock data, a
  static catalog and timer mocks.
- Coach.CoachScreen.HandleSendMessage: the request is built from the role-tagged context
  (see Findings), not from the raw records that the code spreads.

## Findings

| source | as written | input that shows it | evidently intended | confidence | as-written member | corrected member |
|---|---|---|---|---|---|---|
| coach.tsx:48 | The screen passes its `ChatMessage` records (`id`, `content`, `sender`, `timestamp`, `type`) as the chat context. `getChatResponse` spreads them into the `messages` array (api.ts:114), and none of them has a `role` field. | Any send. The list always holds the greeting, so the request's second message has no role. A chat-completion endpoint that requires a role on every message rejects the request, and every reply becomes the apology. | Map each message to a record of its role (`user` or `assistant`) and its content before sending. | not executed; the records certainly lack `role`; that the endpoint rejects such a request is an assumption about the remote service | `Coach.AsWrittenRequestLacksRoles` | `Coach.RoleTaggedRequestWellFormed` |
