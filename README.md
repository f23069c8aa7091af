# Blum Spa quiz: a verified model of the quiz flow and its completion endpoint

This project models the two pieces of logic in the Blum Spa treatment quiz:

- **The quiz component** (`src/components/Quiz.tsx`). It is a state machine over eight fixed questions:
  - five choice questions (goal, area, concern, experience, preference);
  - three free-text contact questions (name, e-mail, phone).

  "Continue" refuses to move on while the shown question has no non-empty answer. "Back" stops at the first question. Text answers to the contact questions are copied into a contact record. Once the last question is confirmed, the answers are posted to the completion endpoint and its recommendation is kept.

  The result screen does two things:
  - It shows a heading chosen by `resultTitle`: an ordered chain of substring tests on the lower-cased path.
  - It lets the quiz taker edit the contact record and send it. Sending is guarded: a submission already started, a lead already sent, or a record that fails the lead schema makes it do nothing.
- **The completion endpoint** (`src/app/api/quiz/complete/route.ts`).
  - It matches the goal answer exactly against six goal texts. Each gives a path and a one-line summary.
  - Any other goal, or no goal, gives the path `evaluation` and an empty summary.
  - The lead score, lead type and intent of the request are echoed unchanged.

The modules:

- `Wrappers`: `Option`.
- `Text`: ASCII `toLowerCase`, `includes` and the UTF-16 `length` over `seq<char>`, plus a scan that decides `includes` on concrete strings.
- `QuizData`: the question list, with every prompt and option as in the source; the contact record; the lead schema.
- `Titles`: the heading rules and `ResultTitle`, with the first-match characterisation.
- `TitlePaths`: the heading of each path the endpoint can return, settled on the concrete strings.
- `QuizComplete`: the endpoint. `Recommend` is a first-match lookup over the table of arms. `Post` is the handler's if-chain, proved equal to `Recommend`.
- `QuizMachine`: the class `Quiz`. Its fields are the component's state; each handler is a method whose contract gives the whole new state.
- `Consistency`: how the quiz and the endpoint fit together, and scripted runs of the class.

The code has no lead scoring, tiering or intent flags. The endpoint only passes `lead_score`, `lead_type` and `intent` through, and the quiz never sends them. The model follows the code: these values are type parameters of the request and the response, and nothing computes them.

Two facts about the code as written are proved rather than assumed:

- Only two of the seven goal options the quiz offers match an endpoint arm: the first ("Rejuvenecer mi piel …") and the sixth ("Bienestar hormonal …"). The other five are worded differently from the endpoint's texts, so they get the default path `evaluation`. The quiz then shows the heading "Recomendación: Evaluación profesional personalizada" (`Consistency.GoalOptionTitles`).
- The in-flight guard of lead submission is set before the post and never cleared. A post that fails therefore blocks every later attempt (`Consistency.RetryAfterFailedSubmission`).

## Model

| member | source | states |
|---|---|---|
| Text.Lower | src/components/Quiz.tsx:175 | lower-casing keeps the length, lowers each character in place, yields a string with no capital, and leaves a string with no capital unchanged |
| Text.LowerIdempotent | src/components/Quiz.tsx:175 | lower-casing twice is lower-casing once |
| Text.IncludesByScan | src/components/Quiz.tsx:176-182 | the character scan from index 0 answers `includes` exactly: true if and only if the substring occurs at some index |
| Text.MissingChar | src/components/Quiz.tsx:176-182 | a string lacking one of the substring's characters does not include it |
| Titles.TitleForFirstMatch | src/components/Quiz.tsx:176-183 | on a lower-cased path, the first rule (in source order) with a marker contained in the path gives the title; if no rule fires, the default title |
| Titles.ResultTitle | src/components/Quiz.tsx:173-184 | an absent or empty path gives "Recomendación personalizada"; every result is one of the eight fixed titles |
| Titles.ResultTitleFirstMatch | src/components/Quiz.tsx:173-184 | for a non-empty path, the first rule that fires on its lower-cased form gives the title, and the default title when none fires |
| Titles.ResultTitleIgnoresCase | src/components/Quiz.tsx:175 | the heading of a path equals the heading of its lower-cased form |
| Titles.EarlierRuleWins | src/components/Quiz.tsx:176-177 | "anti-facial" fires the skin rule as well, but the earlier rejuvenation rule gives its title |
| TitlePaths.TitleOfRejuvenecimiento | src/components/Quiz.tsx:176 | the path "rejuvenecimiento" gets the rejuvenation title |
| TitlePaths.TitleOfFacial | src/components/Quiz.tsx:176-177 | "facial" misses rule 0 and gets the skin title |
| TitlePaths.TitleOfArmonizacion | src/components/Quiz.tsx:176-178 | "armonizacion" misses rules 0 and 1 and gets the lips title |
| TitlePaths.TitleOfCorporal | src/components/Quiz.tsx:176-179 | "corporal" misses rules 0 to 2 and gets the body title |
| TitlePaths.TitleOfMetabolismo | src/components/Quiz.tsx:176-181 | "metabolismo" misses rules 0 to 4 and gets the weight title |
| TitlePaths.TitleOfEvaluation | src/components/Quiz.tsx:176-182 | "evaluation" misses rules 0 to 5 and gets the professional-evaluation title |
| TitlePaths.TitleOfBienestar | src/components/Quiz.tsx:176-183 | "bienestar" fires no rule and gets the default title |
| QuizData.QuestionsWellFormed | src/components/Quiz.tsx:14-86 | eight questions with distinct ids; exactly the choice questions carry options; goal first with its seven options; name, e-mail and phone last, as free text |
| Text.Utf16Length | src/components/Quiz.tsx:89-91 | a string's JavaScript length in UTF-16 code units lies between its number of characters and twice that, and is 0 exactly for the empty string |
| QuizData.PhoneLengthInCodeUnits | src/components/Quiz.tsx:88-93 | the schema counts code units: with a name and an accepted e-mail, a phone of four emoji (eight units) passes and a six-digit phone fails |
| QuizData.EmptyLeadInvalid | src/components/Quiz.tsx:88-99 | the initial contact record fails the lead schema, whatever the e-mail check |
| QuizComplete.RecommendFrom | src/app/api/quiz/complete/route.ts:8-31 | the first arm whose goal equals the goal gives its path and one-line summary; no matching arm gives "evaluation" and an empty summary; the summary has at most one line |
| QuizComplete.RouteGoalsDistinct | src/app/api/quiz/complete/route.ts:13-31 | no two arms test the same goal text |
| QuizComplete.Recommend | src/app/api/quiz/complete/route.ts:8-31 | the path is one of the seven labels and the summary has at most one line; an exact goal match gives that arm's path and line; any other goal, or none, gives "evaluation" with an empty summary |
| QuizComplete.SummaryEmptyIffDefault | src/app/api/quiz/complete/route.ts:8-31 | the summary is empty if and only if the path is "evaluation" |
| QuizComplete.OnlyGoalMatters | src/app/api/quiz/complete/route.ts:11-31 | changing or removing any answer other than the goal leaves the path and summary unchanged |
| QuizComplete.Post | src/app/api/quiz/complete/route.ts:3-40 | the handler's path and summary are those of `Recommend` on the request's goal; lead score, lead type and intent are returned unchanged |
| QuizMachine.Quiz.constructor | src/components/Quiz.tsx:96-102 | the quiz opens on question 0 with no answers, no result, an empty contact record and both flags clear |
| QuizMachine.Quiz.OnSelect | src/components/Quiz.tsx:108-110 | the shown question's answer becomes the chosen value; every other key, the step and the rest of the state are unchanged |
| QuizMachine.Quiz.OnText | src/components/Quiz.tsx:112-117 | as `OnSelect`, and the value is copied into the name, e-mail or phone of the contact record exactly when the shown question has that id; otherwise the record is unchanged |
| QuizMachine.Quiz.Next | src/components/Quiz.tsx:129-148 | with no answer, or an empty one, nothing changes; before the last question, the step grows by exactly one; on the last question, the step stays and a resolved post sets the result to the endpoint's recommendation for the answers; a result once set is kept; the answers never change and the step stays in range |
| QuizMachine.Quiz.Back | src/components/Quiz.tsx:150-152 | the step goes down by one, except at 0 where nothing changes; nothing else changes |
| QuizMachine.Quiz.EditName | src/components/Quiz.tsx:228-233 | only the contact record's name changes |
| QuizMachine.Quiz.EditEmail | src/components/Quiz.tsx:234-239 | only the contact record's e-mail changes |
| QuizMachine.Quiz.EditPhone | src/components/Quiz.tsx:240-245 | only the contact record's phone changes |
| QuizMachine.Quiz.EditConsent | src/components/Quiz.tsx:247-252 | only the contact record's consent changes |
| QuizMachine.Quiz.SubmitLead | src/components/Quiz.tsx:154-171 | with a submission started, the lead done, or a record failing the schema, nothing changes; otherwise the guard is set and the lead is marked done exactly when the post resolves; lengths in the schema count UTF-16 code units; the rest of the state is unchanged |
| Consistency.FirstGoalOptionRouted | src/components/Quiz.tsx:20 | the first goal option is matched by the rejuvenation arm |
| Consistency.SixthGoalOptionRouted | src/components/Quiz.tsx:25 | the sixth goal option is matched by the wellness arm |
| Consistency.OtherGoalOptionsUnrouted | src/components/Quiz.tsx:21-26 | the second to fifth and the seventh goal options match no arm and get "evaluation" with an empty summary |
| Consistency.PathTitles | src/app/api/quiz/complete/route.ts:8-30 | the heading of each of the seven paths the endpoint can return |
| Consistency.GoalOptionTitles | src/components/Quiz.tsx:19-27 | the heading each goal option leads to: rejuvenation for the first, the default for the sixth, professional evaluation for the other five |
| Consistency.AnswerChoices | src/components/Quiz.tsx:108-133 | answering the five choice questions and continuing reaches question 5 with the goal answer recorded and the rest of the state unchanged |
| Consistency.AnswerContacts | src/components/Quiz.tsx:112-133 | answering the contact questions reaches the last question and copies the answers into the contact record |
| Consistency.RunToResult | src/components/Quiz.tsx:108-148 | a full run reaches the result screen: last question, the rejuvenation recommendation, the contact answers in the lead, no lead sent |
| Consistency.CompleteRun | src/components/Quiz.tsx:129-148 | a full run ends on the last question with the rejuvenation recommendation and the contact answers in the lead |
| Consistency.RetryAfterFailedSubmission | src/components/Quiz.tsx:154-171 | on the result screen, after a failed post a second attempt with a valid record is refused, and the lead is never marked done |
| Consistency.InvalidLeadNotSent | src/components/Quiz.tsx:88-93 | on the result screen, a record with a six-digit phone is not sent, whatever the reply would have been |
| Consistency.EmojiPhoneSent | src/components/Quiz.tsx:88-93 | on the result screen, a phone of four emoji is eight code units long, passes the schema and is sent |

## Left out

- The HTTP and JSON layer is not modelled: `fetch`, `res.json()`, `req.json()` and `NextResponse.json`.
  - In `Next` and `SubmitLead`, whether the post's promise resolves is a boolean parameter (`resolved`). `fetch` also resolves on an error status, so `done` means that the lead's post resolved, not that it succeeded.
  - The reply to the completion post is the endpoint's own `Recommend` on the posted answers.
- The leads endpoint, which only logs, and the page wrapper are not part of this model.
- Rendering, images and styles are not modelled. The height message sent to the parent window and the progress percentage, which is a floating-point rounding used only for display, are left out too.
- The visible `submitting` flag is left out: it only disables the buttons while a post is awaited. Posts are modelled as completing within the call, so overlapping calls do not arise. Only the sequential in-flight guard (`inFlight`) is modelled.
- QuizMachine.Quiz.SubmitLead: zod's e-mail check is not modelled. It is a function parameter `emailOk`. The other three checks are modelled, with the name and phone lengths counted in UTF-16 code units as zod counts them.
- Text.Lower: models `toLowerCase` on ASCII letters only. Other characters are left unchanged. Every path the endpoint returns is ASCII lower case, so the studied paths are not affected.
- The request body always carries an `answers` record of strings. A body without `answers` makes the handler throw; this is not modelled. Non-string JSON values in the answers are not modelled either.
- The handlers are not limited by screen. In the component, `OnSelect`, `OnText`, `Next` and `Back` are offered only while there is no result. The lead fields, the consent box and `SubmitLead` are offered only once a result exists and the lead is not done. `OnSelect` is offered only for choice questions, and `OnText` only for text questions. The handlers do not check any of this themselves, and neither do the methods of `Quiz`, so the class admits call sequences the screens never offer, such as `Back` after a result. The scripted runs use only sequences the screens offer.
