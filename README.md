# ClarityWorks Studio pages: a Dafny model of the wizards and forms

This project models the parts of the ClarityWorks Studio web site that have logic:

- **AI-readiness wizard** (`pages/AIConfigurator.tsx`).
  - Steps: a profile form (step 0), six questions (steps 1–6), a signup gate (step 7) and a result dashboard (step 8).
  - It makes one attempt to have a generative model write the assessment.
  - When the call or the parse fails, it falls back to a canned assessment, so a result is always produced.
  - With a session the result is saved at once. Without one it is held, and saved when the visitor signs up.
- **Agent Studio wizard** (`pages/AgentConfigurator.tsx`).
  - Steps 1–5: identity and role, toggled capabilities, toggled integrations, the objective, then the generated specification.
  - The synthesis call has no fallback.
- **Service accordion** (`pages/ManagedIT.tsx`): four items, at most one open. The page is not mounted on the live site: App.tsx:34 routes `/managed-it` to the partners page, and App.tsx never imports ManagedIT.
- **Sign-up form** (`pages/Signup.tsx`): the password confirmation check and the rewording of an "already registered" error.
- **Sign-in form** (`pages/Login.tsx`): after sign-in, the redirect goes to a pending assessment or to the dashboard.

## How the model is built

**Files.** Each page is one module in one file:

| module | file |
|---|---|
| `ReadinessWizard` | `readiness_wizard.dfy` |
| `AgentStudio` | `agent_studio.dfy` |
| `ManagedIT` | `managed_it.dfy` |
| `SignupPage` | `signup.dfy` |
| `LoginPage` | `login.dfy` |

Two modules are shared by the pages:
- `Outcomes`: an optional value, the signed-in user, the result of an authentication request, and an e-mail/password pair.
- `Strings`: substring search, JavaScript's global `replace(/p/g, '')`, and the code-fence strip.

**State and events.** Each page's React state is a class whose fields the event methods update.
- Every control that changes the modelled state is one method. Buttons that only navigate away or do nothing have no method: the settings, bell and action buttons of the wizard's result dashboard, which have no handler (pages/AIConfigurator.tsx:383-384, 460, 471), and "View Services", which only navigates (pages/AIConfigurator.tsx:474).
- Clicking a control that is not rendered, or is disabled, changes nothing. The method's contract states this outright; it is not a precondition.
- The wizard, Agent Studio and accordion classes have a `Valid()` invariant, which every event method of that class requires and preserves. It says which steps can be reached with which inputs in place. The handlers those events call (`HandleAssessment`, `HandleFinalize`, `HandleSignup`, `SaveToDb`, `HoldReport`) state their effects without it. The sign-up and sign-in pages have no such invariant.

**What the pages send out** is kept in sequence fields: alerts, rows sent to the `audits` table, sign-up and sign-in requests, and route changes. This lets the contracts say what was sent and when.

**External answers are parameters.** Awaited calls are treated as atomic, and each one's answer is a parameter of the handler:
- `reply: Option<string>` is the generative model's reply text; `None` means the call threw.
- `parse` is `JSON.parse`. It is an arbitrary function returning `None` when parsing fails.
- `clientOk` says whether building the client succeeded.
- `roll` is the value of `Math.random()`, a real in [0, 1).
- `AuthOutcome` is the answer of the authentication service. It has three cases: a user, an error message, or an exception thrown by the call itself. The exception case covers the exported client being null when the deployment has no service configured (lib/supabase.ts:9-11).
- `pendingAudit` is the local-storage entry.

The wizard's class also carries a ghost field `origin`, which records whether the held result was generated or canned; the page itself keeps no such tag.

## Model

| member | source | states |
|---|---|---|
| ReadinessWizard.Answers.With | pages/AIConfigurator.tsx:12-17 | setting question k's answer changes that answer and leaves the other five untouched |
| ReadinessWizard.Options | pages/AIConfigurator.tsx:268-321 | question steps 1–5, and only those, offer option buttons, and no option is empty |
| ReadinessWizard.NextDisabled | pages/AIConfigurator.tsx:505-512 | the shared Next button is disabled exactly when the current step is a question step whose answer is empty |
| ReadinessWizard.CannedScore | pages/AIConfigurator.tsx:132 | the fallback score `floor(random·41 + 45)` lies in [45, 85], in exact arithmetic |
| ReadinessWizard.CannedAnalysis | pages/AIConfigurator.tsx:133 | the fallback summary mentions the industry, the data source and the goal that were answered |
| ReadinessWizard.CannedUseCases | pages/AIConfigurator.tsx:134-138 | there are exactly three fallback use cases, each with a non-empty title, impact, difficulty and ROI, and the first is named after the data source |
| ReadinessWizard.CannedAssessment | pages/AIConfigurator.tsx:131-139 | the fallback assessment has a score in [45, 85] (in exact arithmetic) and exactly three use cases |
| ReadinessWizard.Synthesize | pages/AIConfigurator.tsx:96-140 | the generated assessment is used whenever the call and the parse succeed; otherwise the result has a score in [45, 85] (in exact arithmetic) and three use cases |
| ReadinessWizard.GeneratedAssessment | pages/AIConfigurator.tsx:96-127 | a call that threw yields no generated assessment; a reply without fences is handed to the parser as it is |
| ReadinessWizard.FailedCallFallsBack | pages/AIConfigurator.tsx:128-139 | a failed call yields the canned assessment, whatever the parser would do |
| ReadinessWizard.BottleneckLabel | pages/AIConfigurator.tsx:434 | text of up to 20 characters is shown as is; longer text is shown as its first 18 characters plus "...", so at most 21 characters |
| ReadinessWizard.ScoreLabel | pages/AIConfigurator.tsx:399 | the badge reads "Ready to Scale" exactly when the score exceeds 75, and "Foundation Phase" otherwise |
| ReadinessWizard.IndicatorIndex | pages/AIConfigurator.tsx:261 | the index is `min(step-1, 6)`: it is at most both `step-1` and 6, and equal to one of them. On steps 1–6 that is the question's own bar of the six (0–5). Index 6 is no bar; it marks all six as passed |
| ReadinessWizard.AuditRow | pages/AIConfigurator.tsx:57-66 | a saved row carries the owner's id, the industry, company size and pain point answered, the result, its score, and the inputs it was computed from |
| ReadinessWizard.ProduceAssessment | pages/AIConfigurator.tsx:95-140 | the inner `try` (strip the fences, parse, otherwise the canned result) computes `Synthesize` and reports which one was used |
| ReadinessWizard.EmailOrEmpty | pages/AIConfigurator.tsx:29 | the pre-filled e-mail is empty exactly when the e-mail is missing or empty, and is the e-mail otherwise |
| ReadinessWizard.AIConfigurator.constructor | pages/AIConfigurator.tsx:9-32 | everything starts empty at step 0; with a session the profile becomes ("Member", the user's e-mail or "", "My Company") and the page starts at step 1 |
| ReadinessWizard.AIConfigurator.EditName | pages/AIConfigurator.tsx:240 | the name input changes only the profile name, and only on step 0 |
| ReadinessWizard.AIConfigurator.EditEmail | pages/AIConfigurator.tsx:241 | the e-mail input changes only the profile e-mail, and only on step 0 |
| ReadinessWizard.AIConfigurator.EditCompany | pages/AIConfigurator.tsx:242 | the company input changes only the profile company, and only on step 0 |
| ReadinessWizard.AIConfigurator.PressStart | pages/AIConfigurator.tsx:243 | step 0 is left, for step 1, exactly when both name and e-mail are filled in |
| ReadinessWizard.AIConfigurator.ChooseOption | pages/AIConfigurator.tsx:268-321 | an option of question step k (1–5) sets exactly answer k and moves to step k+1. Answer k is then non-empty, so Next would be enabled on returning to step k. Any other click changes nothing |
| ReadinessWizard.AIConfigurator.EditPainPoint | pages/AIConfigurator.tsx:336-337 | the text area sets only the sixth answer, and only on step 6 |
| ReadinessWizard.AIConfigurator.NavShown | pages/AIConfigurator.tsx:491-498 | Back and Next are drawn only while idle and after step 0; on a page in a valid state they are drawn exactly on the six question steps |
| ReadinessWizard.AIConfigurator.PressBack | pages/AIConfigurator.tsx:491-492 | Back lowers the step by one only while it is shown (idle, no result, step > 0), so the step never goes below 0 |
| ReadinessWizard.AIConfigurator.SaveToDb | pages/AIConfigurator.tsx:54-71 | with no session nothing is sent; otherwise exactly one row, for the session's user, with the current answers and profile |
| ReadinessWizard.AIConfigurator.HoldReport | pages/AIConfigurator.tsx:142-149 | the result is held; with a session it is saved and step 8 shown, without one step 7 with nothing saved |
| ReadinessWizard.AIConfigurator.HandleAssessment | pages/AIConfigurator.tsx:73-157 | when the client cannot be built, an alert and nothing else changes; otherwise the synthesized result (generated when possible, canned otherwise) is held, saved for a session user with step 8, or held with step 7 for a visitor. Loading is off afterwards and the page invariant is kept |
| ReadinessWizard.AIConfigurator.PressNext | pages/AIConfigurator.tsx:498-512 | a hidden or disabled Next changes nothing; on steps 1–5 it only increments the step; on step 6 it runs the assessment |
| ReadinessWizard.AIConfigurator.PressGenerate | pages/AIConfigurator.tsx:339 | "Generate Audit Report" runs the assessment on step 6 with a non-empty answer while idle, and does nothing otherwise |
| ReadinessWizard.AIConfigurator.HandleSignup | pages/AIConfigurator.tsx:159-185 | an auth error, or an exception from the call (caught by the same `catch`), is alerted and the step kept; on success a row is saved for the returned user only if a result is held and a user was returned, then step 8; loading is off either way |
| ReadinessWizard.AIConfigurator.SubmitSignup | pages/AIConfigurator.tsx:362-363 | the gate's form, shown on step 7 only, saves exactly the held result for the new account and moves to step 8. A success that returns no user saves nothing and still moves to step 8. An error keeps step 7 with nothing saved |
| ReadinessWizard.AnswerQuestions | pages/AIConfigurator.tsx:264-338 | answering the five option questions and the text question leads from step 1 to step 6 with Next enabled |
| ReadinessWizard.ReachSignupGate | pages/AIConfigurator.tsx:73-157 | a visitor without a session who finishes the questions reaches step 7 with the result held and nothing saved |
| ReadinessWizard.DeferredSaveScenario | pages/AIConfigurator.tsx:159-185 | signing up at the gate saves exactly one row, owned by the new user and carrying the visitor's answers; a second submit is not possible |
| ReadinessWizard.SessionScenario | pages/AIConfigurator.tsx:27-32 | with a session, a failed call still leads to step 8 with exactly one saved row, for the session's user, holding the result, whose score lies in [45, 85] (in exact arithmetic) |
| Strings.Contains | pages/Signup.tsx:33 | `includes` holds for the empty pattern and never for a pattern longer than the text; `Strings.ContainsAt` proves it equal to "occurs at some index" |
| Strings.ContainsAt | pages/Signup.tsx:33 | the recursive `includes` holds exactly when the pattern occurs at some index of the text |
| Strings.StripFences | pages/AIConfigurator.tsx:126 | the `replace` chain never lengthens the reply and leaves no "```" in it |
| Strings.RemoveAll | pages/AIConfigurator.tsx:126 | `replace(/p/g, '')` never lengthens the text and leaves text without the pattern unchanged |
| Strings.RemoveFenceLeavesNone | pages/AIConfigurator.tsx:126 | once every "```" has been removed, none is left, even where removals bring fragments together |
| Strings.StripFencesLeavesNoFence | pages/AIConfigurator.tsx:125-127 | after both replacements, the text handed to `JSON.parse` contains neither "```json" nor "```" |
| Strings.StripFencesIdempotent | pages/AIConfigurator.tsx:126 | fence-free text passes through unchanged, and stripping twice is the same as stripping once |
| AgentStudio.Without | pages/AgentConfigurator.tsx:38 | the filter drops every copy of the item, keeps every other item, and removes only those copies from the multiset |
| AgentStudio.WithoutAppend | pages/AgentConfigurator.tsx:38 | filtering a concatenation concatenates the filtered pieces, so the kept items stay in their order |
| AgentStudio.Toggle | pages/AgentConfigurator.tsx:34-50 | after a toggle the item is present exactly when it was absent; other items are unaffected; an absent item is appended at the end; a present one has every copy removed |
| AgentStudio.ToggleKeepsNoDup | pages/AgentConfigurator.tsx:34-50 | a toggle keeps a duplicate-free list duplicate-free |
| AgentStudio.ToggleTwiceAbsent | pages/AgentConfigurator.tsx:34-50 | toggling an absent item twice restores the list |
| AgentStudio.ToggleTwicePresent | pages/AgentConfigurator.tsx:34-50 | toggling a present item twice leaves the list without it, plus one copy at the end |
| AgentStudio.ToggleTwiceSameItems | pages/AgentConfigurator.tsx:34-50 | on a duplicate-free list that brings back the same items |
| AgentStudio.ToggleTwiceRestoresIffLast | pages/AgentConfigurator.tsx:34-50 | on a duplicate-free list it brings back the very same list exactly when the item was the last one |
| AgentStudio.AgentConfigurator.constructor | pages/AgentConfigurator.tsx:8-17 | step 1, an empty configuration, no result |
| AgentStudio.AgentConfigurator.EditName | pages/AgentConfigurator.tsx:259-260 | the identifier input changes only the name, and only on step 1 |
| AgentStudio.AgentConfigurator.ChooseRole | pages/AgentConfigurator.tsx:264-267 | a role card sets the role to that role's title and moves to step 2, whatever the name |
| AgentStudio.AgentConfigurator.ToggleCapability | pages/AgentConfigurator.tsx:287-290 | a capability button on step 2 toggles that capability and changes no other field |
| AgentStudio.AgentConfigurator.ToggleIntegration | pages/AgentConfigurator.tsx:315-318 | an integration button on step 3 toggles that integration and changes no other field |
| AgentStudio.AgentConfigurator.PressConfigureEcosystem | pages/AgentConfigurator.tsx:298-300 | step 2 moves to step 3 only with at least one capability |
| AgentStudio.AgentConfigurator.PressFinalizeObjectives | pages/AgentConfigurator.tsx:326-328 | step 3 moves to step 4 only with at least one integration |
| AgentStudio.AgentConfigurator.PressBackLink | pages/AgentConfigurator.tsx:280-339 | the back links go 2→1, 3→2 and 4→3 and leave the configuration alone |
| AgentStudio.AgentConfigurator.EditObjective | pages/AgentConfigurator.tsx:349-350 | the text area changes only the objective, and only on step 4 |
| AgentStudio.AgentConfigurator.HandleFinalize | pages/AgentConfigurator.tsx:52-88 | a parsed reply is stored and step 5 shown; any failure raises the alert and keeps the step and the previous result; loading is off either way |
| AgentStudio.AgentConfigurator.PressArchitect | pages/AgentConfigurator.tsx:353-355 | synthesis runs only on step 4 with a non-empty objective while idle, and does nothing otherwise |
| AgentStudio.AgentConfigurator.PressNewArchitecture | pages/AgentConfigurator.tsx:413-414 | "New Architecture" returns to step 1 and keeps the configuration and the result |
| AgentStudio.RetryScenario | pages/AgentConfigurator.tsx:82-86 | after a failed synthesis the wizard stays on step 4 with its inputs, and a retry that succeeds reaches step 5 with the result |
| ManagedIT.IsOpen | pages/ManagedIT.tsx:93 | an item is drawn open only when the index is set and names that item; `AtMostOneOpen` shows at most one is |
| ManagedIT.Clicked | pages/ManagedIT.tsx:94 | clicking an item opens it exactly when it was closed, and leaves every other item closed |
| ManagedIT.AtMostOneOpen | pages/ManagedIT.tsx:93 | at most one of the four items is open, and exactly one when the index names an item |
| ManagedIT.ClickTwice | pages/ManagedIT.tsx:94 | clicking the same item twice restores the state when that item or none was open, and closes everything when another was open |
| ManagedIT.Accordion.constructor | pages/ManagedIT.tsx:31 | the first item starts open, and only it |
| ManagedIT.Accordion.Click | pages/ManagedIT.tsx:88-94 | a click on one of the four items applies the toggle; at most one item is open afterwards |
| SignupPage.DisplayedError | pages/Signup.tsx:31-37 | a message containing "already registered" becomes "This email is already registered. Please log in."; any other message is shown as is |
| SignupPage.AdviceMentionsRegistration | pages/Signup.tsx:34 | the replacement advice itself contains "already registered" |
| SignupPage.DisplayedErrorIdempotent | pages/Signup.tsx:31-37 | rewording a displayed message changes nothing, and the rewording keeps whether the message mentions an existing registration |
| SignupPage.Signup.constructor | pages/Signup.tsx:8-12 | empty fields, not loading, no error |
| SignupPage.Signup.EditEmail | pages/Signup.tsx:72 | the e-mail input sets the e-mail |
| SignupPage.Signup.EditPassword | pages/Signup.tsx:84 | the password input sets the password |
| SignupPage.Signup.EditConfirmPassword | pages/Signup.tsx:96 | the confirmation input sets the confirmation |
| SignupPage.Signup.HandleSignup | pages/Signup.tsx:15-44 | a mismatch shows "Passwords do not match." and never calls the service. Otherwise one request with the e-mail and password is sent. An error is shown reworded and nothing else happens. Success shows no error, raises the confirmation and goes to /login. A call that throws leaves the error cleared and nothing shown. Loading is on afterwards exactly when the call threw |
| SignupPage.Signup.PressSignUp | pages/Signup.tsx:102-104 | the submit does nothing while loading, and otherwise runs the handler |
| SignupPage.LockedAfterThrow | pages/Signup.tsx:26-43 | after a sign-up call that throws, loading stays on; a second submit sends nothing and shows nothing |
| SignupPage.Signup.HandleSignupWithFinally | pages/Signup.tsx:15-44 | the handler with a `finally` has the same effects, with loading off on every path |
| SignupPage.UsableAfterThrowWithFinally | pages/Signup.tsx:15-44 | with the `finally`, the submit after a thrown call reaches the service and then the login page |
| SignupPage.Retyped | pages/Signup.tsx:20-37 | a mistyped confirmation is caught with no request sent; once corrected, a "User already registered" answer shows the advice |
| LoginPage.LoginRedirect | pages/Login.tsx:28-33 | the target is /ai-assessment exactly when a non-empty `pendingAudit` entry exists, and /dashboard otherwise |
| LoginPage.Login.constructor | pages/Login.tsx:8-11 | empty fields, not loading, no error |
| LoginPage.Login.EditEmail | pages/Login.tsx:64 | the e-mail input sets the e-mail |
| LoginPage.Login.EditPassword | pages/Login.tsx:78 | the password input sets the password |
| LoginPage.Login.HandleLogin | pages/Login.tsx:14-36 | one sign-in request is sent with the e-mail and password. An error is shown verbatim, with no navigation. Success clears the error and navigates to the redirect target. A call that throws leaves the error cleared, with no navigation. Loading is on afterwards exactly when the call threw |
| LoginPage.Login.PressSignIn | pages/Login.tsx:84-86 | the submit does nothing while loading, and otherwise runs the handler |
| LoginPage.LockedAfterThrow | pages/Login.tsx:19-35 | after a sign-in call that throws, loading stays on; a second submit sends nothing and navigates nowhere |
| LoginPage.Login.HandleLoginWithFinally | pages/Login.tsx:14-36 | the handler with a `finally` has the same effects, with loading off on every path |
| LoginPage.UsableAfterThrowWithFinally | pages/Login.tsx:14-36 | with the `finally`, the submit after a thrown call reaches the service and the chosen route |

## Left out

**Left out on purpose**
- There is no model of the request text or response schema sent to the generative model, or of which model is used. The reply is a parameter.
- There is no JSON grammar. `JSON.parse` is an arbitrary function.
- A parsed reply is not checked against its schema. The model's `Assessment` and `AgentSpec` values stand for replies of the right shape.
- The Supabase calls (`signUp`, `signInWithPassword`, `insert`) are modelled only as their outcomes: a user, an error, or an exception thrown by the call.
  - An `insert` at pages/AIConfigurator.tsx:172-177 that throws, caught by the surrounding `catch`, is not modelled; the insert is taken to succeed.
- The rotating loading message (pages/AIConfigurator.tsx:35-52) and `setLoadingMsg` are left out: they are cosmetic timers.
- The score ring's `strokeDashoffset` is floating-point drawing, so it is not modelled.
- Rendering and markup are not modelled: icons, descriptions, class names and the role card highlight.
- There is no console logging.
- Browser form validation is not modelled: `required`, `minLength={6}` and `type="email"`. The handlers are modelled for any input.
- `user` is fixed when the readiness page is opened. The authentication context is not part of this model, so a session that changes while the page is open, and a re-run of the pre-fill effect, are not modelled.
- Awaited calls are treated as atomic. No event is processed while a call is outstanding. So in the wizard and Agent Studio `loading` is false between events, and `Valid()` states that. On the sign-up and sign-in pages it stays on after a call that throws (see "## Findings").
- Text lengths count Dafny characters. JavaScript counts UTF-16 code units, so the 20- and 18-character cut of the bottleneck label differs for characters outside the Basic Multilingual Plane.

**Weaker or different on purpose**
- ReadinessWizard.Assessment: the score is an integer. A generated score that is fractional is not representable. The canned score is integral, as `Math.floor` makes it.
- ReadinessWizard.CannedScore: `Math.random()` and the float arithmetic are modelled as exact real arithmetic on a roll in [0, 1). Rounding in IEEE-754 binary64 is not modelled, and it breaks the proved band at the top. For the rolls 1 − 2^-53 and 1 − 2^-52, `r * 41 + 45` rounds to 86.0, so the page can show 86. This follows from binary64 rounding and was not executed. The bound 85 holds only in exact arithmetic, as do the score bands stated for `CannedAssessment`, `Synthesize` and `SessionScenario`.
- ReadinessWizard.AIConfigurator.HandleSignup: the sign-up request itself, with the profile's e-mail and the typed password, is not recorded; only its outcome is used.
- AgentStudio.AgentConfigurator.ToggleCapability: the button handlers are modelled only for the offered items on their own step, which are the only buttons the page draws.
- ManagedIT.Accordion.Click: a click is modelled for the four drawn items; any other index changes nothing.

## Findings

| source | as written | input that shows it | evidently intended | confidence | as-written member | corrected member |
|---|---|---|---|---|---|---|
| pages/Signup.tsx:26-43 | `signUp` is awaited outside any `try`/`finally`. When it throws, for instance because the exported client is null (lib/supabase.ts:9-11), `setLoading(false)` never runs. The submit button stays disabled and nothing is shown. | matching passwords, with the sign-up call throwing | loading reset on every path, as the readiness wizard's `try`/`finally` does (pages/AIConfigurator.tsx:162-184) | not executed | SignupPage.LockedAfterThrow | SignupPage.Signup.HandleSignupWithFinally |
| pages/Login.tsx:19-35 | `signInWithPassword` is awaited outside any `try`/`finally`. When it throws, `setLoading(false)` never runs. The submit button stays disabled and nothing is shown. | any submit, with the sign-in call throwing | loading reset on every path | not executed | LoginPage.LockedAfterThrow | LoginPage.Login.HandleLoginWithFinally |

The event methods `PressSignUp` and `PressSignIn` keep the handlers as written, so the page model shows the lock-up. The corrected handlers, and the scenarios built on them, show that one `finally` removes it.
