# Content-profile intake: a Dafny model

This project models the core of a Next.js application. The application interviews a
signed-in user through a short chat, then stores the answers as a *content profile* in
Postgres. The model covers five parts.

- **The intake catalog** (`intake_questions.dfy`, module `IntakeQuestions`). This is the
  constant list of seven questions. Each question has an id, a type (`text`, `choice`
  or `text-with-suggestions`), options or suggestions, the answer key it fills, and
  canned replies. Lemmas prove the catalog's shape: distinct ids and keys, options on
  exactly the choice steps, and keys equal to the columns the profile route reads.
- **The chat component** (`intake_chat.dfy`, module `IntakeChat`).
  - The class `Chat` holds the component's state in fields: step, answers, transcript,
    completion flag, saving flag, the text input and the stored profile id.
  - Its methods are `handleAnswer`, the two halves of `saveProfile` (before and after
    the awaited POST), the form submit handler and the option buttons.
  - Each method is proved to move the state exactly as the pure functions `AfterAnswer`
    and `AfterSave` say, and to keep the component's invariant.
  - The class follows the rendering as written: typing and submitting need the text
    form, which only a `text` step shows, and clicking needs a shown option. The
    corrected rendering of the second finding below (`OfferedIntended`, which also
    shows the form on the `text-with-suggestions` step) is a separate function. Only
    the conversation lemmas of that finding use it.
  - Lemmas prove what the functions promise: the step invariant, the answers after k
    steps, the transcript, what is posted on completion, and which control each step
    shows.
- **The database schema** (`schema.dfy`, module `Schema`). It covers the `profile`,
  `user`, `account`, `session` and `verificationToken` tables.
  - Tables are sequences of rows held by the class `Database`.
  - The model covers the not-null and `varchar` length constraints, the column
    defaults, the primary keys (including the compound ones) and the `userId` foreign
    keys with their cascading delete.
  - A `varchar(n)` column stores a longer value with its excess dropped when every
    dropped character is a space, and refuses it otherwise. Text holding the character
    U+0000 is refused in every column of `profile`.
- **The profiles route** (`profiles_route.dfy`, module `ProfilesRoute`).
  - `POST` is the method `Post` on a `Database`: authentication, field checks, the
    first-profile-is-default rule and one insert.
  - The pure function `PostOutcome` specifies `Post`.
  - `GET` is the pure function `Get`: the caller's rows, ordered by
    `(isDefault, createdAt)`.
- **Route gating** (`routing.dfy`, `auth_middleware.dfy`, `cookie_middleware.dfy`). The
  repository holds two middleware files, modelled as two alternative policies.
  - The session policy (`middleware.ts`) redirects on the login state.
  - The cookie policy (`middleware.js`) lets public prefixes through and otherwise
    checks that a session cookie is present.
  - Both sit behind the same path matcher.

`wrappers.dfy` holds `Option` and `Result`. `rows.dfy` holds a generic `Filter` and the
key-uniqueness predicate shared by the tables.

Several things outside the core become parameters of the model:
- the session lookup (the user id, or `None`)
- the request body, already parsed
- the generated row id and the clock reading of an insert
- the user's reply to the name prompt (`PromptReply`)
- the outcome of the `fetch` call (`FetchResult`)
- the `currentProfileId` entry of local storage, and whether writing it succeeds

## Behaviour worth knowing

- `handleAnswer` records every answer it receives. It does not call
  `/api/validate-answer` and does not show a personalized reply
  (components/intake-chat.tsx:51-74).
- A cancelled name prompt gives `null`, and the answers are still posted with
  `profileName: null` (components/intake-chat.tsx:78-88). The route answers 400
  (app/api/profiles/route.ts:53-54), and the component shows its error alert
  (`IntakeChat.ProfileNameFrom`, `ProfilesRoute.CancelledNameIsRefused`).
- `isComplete` is set before the save result is known (components/intake-chat.tsx:65-66).
  So the completion view ("Your profile is saved") is shown even when the save fails.
  `AfterSave` never clears it.

## Model

| member | source | states |
|---|---|---|
| IntakeQuestions.KeysBefore | lib/intake-questions.ts:9 | the answer keys recorded by the first n steps: exactly the `extractKey` of each of those steps |
| IntakeQuestions.FlowKeys | lib/intake-questions.ts:13-114 | the catalog has seven steps whose keys are, in order, projectType, niche, targetAudience, contentTypes, primaryGoal, brandVoice, language |
| IntakeQuestions.IdsAreDistinct | lib/intake-questions.ts:13-114 | the catalog has seven steps with pairwise distinct ids |
| IntakeQuestions.ExtractKeysAreDistinct | lib/intake-questions.ts:19-104 | no two steps store their answer under the same key |
| IntakeQuestions.FlowIsWellFormed | lib/intake-questions.ts:13-114 | the catalog is non-empty and its keys are distinct, which the chat lemmas assume |
| IntakeQuestions.ChoiceStepsHaveOptions | lib/intake-questions.ts:17-103 | every choice step has a non-empty options list |
| IntakeQuestions.OptionsOnlyOnChoiceSteps | lib/intake-questions.ts:13-114 | a step has options if and only if it is a choice step |
| IntakeQuestions.EveryStepHasDefaultReply | lib/intake-questions.ts:13-114 | every step's personalized replies include a `default` entry |
| IntakeQuestions.EveryOptionHasReply | lib/intake-questions.ts:13-114 | on every choice step each option has a personalized reply |
| IntakeQuestions.SuggestionsOnlyOnSuggestionStep | lib/intake-questions.ts:39-52 | a step has suggestions if and only if it is the text-with-suggestions step, which is step 2 |
| IntakeQuestions.ExtractKeysAreProfileFields | lib/intake-questions.ts:19-104 | the catalog's keys are exactly the seven answer fields the profile route reads into columns |
| IntakeChat.TrimStart | components/intake-chat.tsx:141 | the first half of `String.prototype.trim`: a suffix of the input, with only whitespace removed, that starts with a non-whitespace character when non-empty |
| IntakeChat.TrimEnd | components/intake-chat.tsx:141 | the second half of `trim`: a prefix with only whitespace removed, ending in a non-whitespace character when non-empty |
| IntakeChat.Trim | components/intake-chat.tsx:141-142 | `String.prototype.trim`: never longer than its input |
| IntakeChat.TrimIsBlankAround | components/intake-chat.tsx:141-142 | the trim is the part of the input between its leading and its trailing whitespace, and it neither starts nor ends with whitespace |
| IntakeChat.TrimEmptyIffBlank | components/intake-chat.tsx:141 | `trim` gives the empty string if and only if the input is all whitespace |
| IntakeChat.TrimIdempotent | components/intake-chat.tsx:141-142 | trimming a trimmed answer changes nothing |
| IntakeChat.FormSubmission | components/intake-chat.tsx:138-145 | the form submits nothing if and only if the input is blank; otherwise it submits exactly the trimmed input, which is non-empty and its own trim |
| IntakeChat.FormSubmitsExactlyTrimmedText | components/intake-chat.tsx:138-145 | some input submits the answer `a` if and only if `a` is non-empty and equal to its own trim |
| IntakeChat.Initial | components/intake-chat.tsx:30-49 | on mount: step 0, no answers, not complete, not saving, and the transcript holds only the first question when the catalog is non-empty |
| IntakeChat.DefaultProfileName | components/intake-chat.tsx:80 | the prompt's default is the niche answer followed by " Project", or "undefined Project" when there is none |
| IntakeChat.ProfileNameFrom | components/intake-chat.tsx:78-81 | the posted name is null if and only if the prompt is cancelled; otherwise it is the accepted default or the typed text |
| IntakeChat.AfterAnswer | components/intake-chat.tsx:51-74 | no change without a current step. Otherwise the answer is stored under the step's key and one user message is appended. Before the last step the step advances by one and the next question is appended. On the last step the step stays, and the flow becomes complete and saving |
| IntakeChat.AfterAnswerKeepsOtherAnswers | components/intake-chat.tsx:59 | every key other than the current step's keeps its presence and its value |
| IntakeChat.SaveRequestAfter | components/intake-chat.tsx:63-88 | a save is posted if and only if the answer was to the last step; it carries the updated answers and the prompt's name |
| IntakeChat.SaveSucceeded | components/intake-chat.tsx:83-95 | the save succeeds if and only if the response arrived, was ok and carried a profile id, and writing local storage did not throw |
| IntakeChat.AfterSave | components/intake-chat.tsx:89-100 | after the POST settles, `isSaving` is false on every path. The profile id is stored only when the save succeeded, with the storage write included. Nothing else changes |
| IntakeChat.InitialIsValid | components/intake-chat.tsx:30-49 | the initial state meets the invariant: the step is in range, complete only on the last step, and the answer keys are the keys of the steps answered so far |
| IntakeChat.AfterAnswerPreservesValid | components/intake-chat.tsx:51-74 | every answer keeps that invariant |
| IntakeChat.RunProgress | components/intake-chat.tsx:51-74 | after k answers the step is k, or the last index once all are answered; the flow is complete and saving exactly when all are answered |
| IntakeChat.RunAnswers | components/intake-chat.tsx:56-60 | after k answers the answer keys are exactly the first k steps' keys, and each holds its own answer |
| IntakeChat.RunTranscript | components/intake-chat.tsx:47-72 | after k answers the transcript alternates question i and answer i, followed by the next question while one remains |
| IntakeChat.CompletedRunPosts | components/intake-chat.tsx:63-88 | answering the last step posts the full answers map of the run with the prompt's name |
| IntakeChat.CompletedRunPostsEveryAnswer | components/intake-chat.tsx:63-88 | over the catalog, the posted map has exactly the seven profile keys, each holding its step's answer. The default name is the niche answer followed by " Project". A cancelled prompt posts a null name |
| IntakeChat.Offered | components/intake-chat.tsx:115-156 | the control shown: nothing once complete, the option buttons on a choice step, the text form on a text step, and nothing on a text-with-suggestions step |
| IntakeChat.ChoiceStepSubmitsOnlyOptions | components/intake-chat.tsx:127-135 | on a choice step an answer can be submitted if and only if it is one of the step's options |
| IntakeChat.SuggestionStepSubmitsNothing | components/intake-chat.tsx:126-156 | on a text-with-suggestions step no answer can be submitted |
| IntakeChat.NothingAcceptedPast | components/intake-chat.tsx:126-156 | no answer sequence whose last answer falls on a text-with-suggestions step is accepted by the rendered controls |
| IntakeChat.AsWrittenConversationStalls | components/intake-chat.tsx:126-156 | through the rendered controls no conversation gets past the first text-with-suggestions step, so it never completes |
| IntakeChat.CatalogConversationStalls | components/intake-chat.tsx:126-156 | over the catalog at most two answers are ever accepted, and the flow never completes |
| IntakeChat.OfferedIntended | components/intake-chat.tsx:136-155 | the corrected rendering shows the text form on a text-with-suggestions step that is not complete, and is otherwise `Offered` |
| IntakeChat.IntendedConversationCompletes | components/intake-chat.tsx:126-156 | with the corrected rendering every sequence of fitting answers is accepted, and the flow completes exactly when every step is answered |
| IntakeChat.Chat.constructor | components/intake-chat.tsx:30-49 | the component mounts in the initial state over the catalog and meets the invariant |
| IntakeChat.Chat.HandleAnswer | components/intake-chat.tsx:51-74 | `handleAnswer` moves the fields exactly as `AfterAnswer` and returns the save request of `SaveRequestAfter`; it keeps the invariant |
| IntakeChat.Chat.BeginSaveProfile | components/intake-chat.tsx:76-88 | sets `isSaving` and posts the given answers with the prompt's name, null when cancelled. The invariant is kept |
| IntakeChat.Chat.FinishSaveProfile | components/intake-chat.tsx:89-100 | moves the fields exactly as `AfterSave`. The error alert is shown if and only if the save failed, a throwing storage write included. The invariant is kept |
| IntakeChat.Chat.TypeText | components/intake-chat.tsx:136-153 | typing, possible only where the text form is rendered (a `text` step), changes only the input's value and keeps the invariant |
| IntakeChat.Chat.SubmitForm | components/intake-chat.tsx:136-145 | on the form a `text` step renders: a blank input changes nothing. Otherwise the trimmed text is answered as by `handleAnswer` and the input is cleared. The invariant is kept |
| IntakeChat.Chat.AnswerAndClearInput | components/intake-chat.tsx:142-143 | the two effects of a non-blank submit: the state after `handleAnswer`, with the input cleared, and the invariant kept |
| IntakeChat.Chat.ClickOption | components/intake-chat.tsx:127-133 | a click on a shown option answers that option as by `handleAnswer`, keeping the invariant |
| Schema.VarcharValue | lib/db/schema.ts:34-42 | a `varchar(n)` column stores a value that fits unchanged. A longer value is stored cut to n characters exactly when everything cut off is spaces, and is refused otherwise. What is stored is a prefix of the value, and only spaces follow it |
| Schema.PaddingPastBoundIsDropped | lib/db/schema.ts:34-42 | a value of exactly n characters padded with spaces is stored as that value |
| Schema.LanguageOf | lib/db/schema.ts:42 | the language sent is the supplied one, or the default "English" when it is left out |
| Schema.BuildProfileRow | lib/db/schema.ts:27-45 | an insert succeeds if and only if three things hold: every not-null answer column is supplied, no text holds U+0000, and every `varchar` value fits its length (255, or 50 for `language`) once trailing spaces are dropped. The row then stores each value as its column does. It has the defaults `isDefault` false and `language` "English", the generated id and the current time in both timestamps. A missing column is a not-null violation, and U+0000 in a supplied value is reported as such |
| Schema.ProfileInsert | lib/db/schema.ts:27-33 | a profile insert succeeds if and only if the row is well-formed, its id is not taken and its `userId` names an existing user; a taken id is a unique violation |
| Schema.ProfileInsertKeepsValid | lib/db/schema.ts:27-45 | a successful profile insert keeps every key, length, text and foreign-key constraint |
| Schema.DeleteUserCascade | lib/db/schema.ts:31-77 | deleting a user removes exactly that user and every profile, account and session that references it; verification tokens stay |
| Schema.DeleteUserKeepsValid | lib/db/schema.ts:15-78 | the cascade leaves no dangling reference, and every constraint still holds |
| Schema.KeyedInsert | lib/db/schema.ts:48-90 | an insert into a keyed table succeeds if and only if its key is free and its user exists |
| Schema.Database.constructor | lib/db/schema.ts:15-90 | an empty database meets every constraint |
| Schema.Database.InsertUser | lib/db/schema.ts:15-24 | appends the user unless its id is taken, keeping the constraints |
| Schema.Database.InsertProfile | lib/db/schema.ts:27-45 | appends exactly the row `ProfileInsert` returns, or nothing on failure, keeping the constraints |
| Schema.Database.InsertAccount | lib/db/schema.ts:48-70 | appends the account unless (provider, providerAccountId) is taken or its user is missing |
| Schema.Database.InsertSession | lib/db/schema.ts:72-78 | appends the session unless its token is taken or its user is missing |
| Schema.Database.InsertVerificationToken | lib/db/schema.ts:80-90 | appends the token unless (identifier, token) is taken |
| Schema.Database.DeleteUser | lib/db/schema.ts:15-78 | leaves the tables as `DeleteUserCascade` says, keeping the constraints |
| ProfilesRoute.SessionUser | app/api/profiles/route.ts:45-48 | a session user id counts only when it is present and not empty |
| ProfilesRoute.Field | app/api/profiles/route.ts:73-79 | reading an answer gives undefined exactly when its key is absent |
| ProfilesRoute.ProfileValuesFor | app/api/profiles/route.ts:69-81 | the insert carries the caller, the name and the default flag. It supplies every required column if and only if the six required answer keys are present |
| ProfilesRoute.ProfileValuesReadOnlyAnswerFields | app/api/profiles/route.ts:73-79 | the inserted values depend on the answers only through the catalog's seven answer keys |
| ProfilesRoute.CheckPost | app/api/profiles/route.ts:45-55 | no signed-in user gives 401 whatever the body. Otherwise an unparsable body gives 500, and a falsy `answers` or `profileName` gives 400. The checks pass if and only if none of these applies |
| ProfilesRoute.PostOutcome | app/api/profiles/route.ts:43-89 | every refusal and database error leaves the tables unchanged. Once the checks pass, any failure is a 500. A success appends exactly the returned row, with the caller's id and the requested name. That row is the default if and only if the caller owned no profile before. It copies the answer columns from the same-named answers, each stored as its column stores it |
| ProfilesRoute.PostKeepsValid | app/api/profiles/route.ts:66-82 | POST keeps every database constraint |
| ProfilesRoute.AppendKeepsOneDefaultPerOwner | app/api/profiles/route.ts:57-72 | appending a row that is the default exactly when its owner had none keeps exactly one default per owner |
| ProfilesRoute.PostKeepsOneDefaultPerOwner | app/api/profiles/route.ts:57-82 | the first-profile rule keeps exactly one default profile for every user who owns a profile |
| ProfilesRoute.DeleteUserKeepsOneDefaultPerOwner | lib/db/schema.ts:31-33 | the cascading delete keeps one default per remaining owner |
| ProfilesRoute.Post | app/api/profiles/route.ts:43-89 | the handler's response and new tables are those of `PostOutcome`; the constraints hold, and so does one default per owner |
| ProfilesRoute.OwnedBy | app/api/profiles/route.ts:25-28 | exactly the rows whose `userId` is the caller's |
| ProfilesRoute.InsertSorted | app/api/profiles/route.ts:29 | inserting into the order adds exactly that row |
| ProfilesRoute.SortRows | app/api/profiles/route.ts:29 | the ordering is a permutation of its input |
| ProfilesRoute.InsertSortedKeepsSorted | app/api/profiles/route.ts:29 | inserting into a sorted list keeps it sorted by `(isDefault, createdAt)` |
| ProfilesRoute.SortRowsSorted | app/api/profiles/route.ts:29 | the ordering is sorted by `(isDefault, createdAt)` |
| ProfilesRoute.ListProfiles | app/api/profiles/route.ts:18-36 | 401 if and only if no signed-in user; otherwise a list |
| ProfilesRoute.Get | app/api/profiles/route.ts:18-36 | GET as written: 401 if and only if no signed-in user, otherwise a list |
| ProfilesRoute.GetDefaultFirst | app/api/profiles/route.ts:29 | the corrected GET: 401 if and only if no signed-in user, otherwise a list |
| ProfilesRoute.ListProfilesIsCallersRowsInOrder | app/api/profiles/route.ts:25-31 | the listing holds exactly the caller's rows, each as often as in the table, sorted by the order key |
| ProfilesRoute.GetListsDefaultLast | app/api/profiles/route.ts:29 | as written, a caller with a default profile and a non-default one gets a non-default profile first and the default last |
| ProfilesRoute.GetDefaultFirstListsDefaultFirst | app/api/profiles/route.ts:29 | with the corrected order a caller who owns a default profile gets a default profile first |
| ProfilesRoute.PostStoresAnswers | app/api/profiles/route.ts:66-84 | a POST with every answer present, fitting its column and free of U+0000 creates and echoes the row holding those answers |
| ProfilesRoute.NulAnswerIsRefused | app/api/profiles/route.ts:66-88 | an answer holding U+0000 in any of the seven stored fields makes POST answer 500 and leaves the tables unchanged |
| ProfilesRoute.PostStoresConversation | app/api/profiles/route.ts:66-84 | the request a completed conversation posts, with a typed or accepted name, creates the row holding the seven answers |
| ProfilesRoute.CompletedIntakeBecomesProfile | app/api/profiles/route.ts:67-84 | a finished conversation whose name was typed or accepted creates one profile with the seven answers in their columns, provided each fits and none holds U+0000 |
| ProfilesRoute.CancelledNameIsRefused | app/api/profiles/route.ts:51-55 | a finished conversation whose name prompt was cancelled is refused with 400, and the table is unchanged |
| Routing.Matched | middleware.ts:33-35 | the matcher accepts a path if and only if it starts with `/` and with none of `/api`, `/_next/static`, `/_next/image` or `/favicon.ico` |
| Routing.MatchedByFirstCharacter | middleware.ts:33-35 | a path whose second character begins none of the exclusions reaches the middleware |
| Routing.MatcherHandlesPages | middleware.ts:33-35 | `/`, `/login` and `/intake` reach the middleware |
| AuthMiddleware.Decide | middleware.ts:7-23 | signed out and not on `/login` redirects to `/login`. Signed in on `/login` redirects to `/intake`. Every other case goes through. The decision depends only on the login state and the path, and a redirect never targets the current path |
| AuthMiddleware.Handle | middleware.ts:27-35 | a path outside the matcher always goes through; inside it the callback decides |
| AuthMiddleware.RedirectSettles | middleware.ts:12-20 | following a redirect reaches a page that goes through, so there is no loop |
| CookieMiddleware.IsPublic | middleware.js:8-15 | a path is public if and only if it starts with `/login`, `/api/auth`, `/_next` or `/favicon.ico` |
| CookieMiddleware.HasSessionCookie | middleware.js:17-19 | a session is assumed if and only if a cookie named `authjs.session-token` or `__Secure-authjs.session-token` is present |
| CookieMiddleware.Decide | middleware.js:3-27 | redirects to `/login` if and only if the path is not public and neither session cookie is present |
| CookieMiddleware.Handle | middleware.js:29-33 | a path outside the matcher always goes through; inside it `middleware` decides |
| CookieMiddleware.PublicByPrefix | middleware.js:8-15 | any path starting with a public prefix goes through, even with no cookie |
| CookieMiddleware.LoosePrefixesArePublic | middleware.js:11 | the public test is a plain prefix test: `/login/x`, `/loginx` and `/api/authfoo` are public too |
| CookieMiddleware.RedirectSettles | middleware.js:8-24 | `/login` is never redirected, so a redirect never loops |
| CookieMiddleware.OnlyCookiePresenceMatters | middleware.js:18-19 | only which of the two session cookies are present matters, never their values |
| CookieMiddleware.ApiPathsNeverHandled | middleware.js:29-33 | no `/api` path reaches the middleware, so its `/api/auth` public prefix is never consulted |
| CookieMiddleware.AgreesWithSessionPolicy | middleware.js:17-26 | on a non-public path the two policies agree when a session cookie is present exactly when the user is signed in |
| CookieMiddleware.PoliciesDifferOnLogin | middleware.js:8-15 | on `/login` with a session cookie the cookie policy lets the request through, while the session policy redirects to `/intake` |

## Left out

- Timers: the next question is appended 500 ms after the answer (components/intake-chat.tsx:70-72). The model appends it in the same step. An answer given inside that window is not modelled.
- React's batching of state updates, scrolling, the "Saving your profile..." bubble and the navigation to the dashboard are presentation only.
- The validation endpoint (an external LLM call) and the personalized replies. The component never uses either.
- Network, JSON parsing and the auth library are parameters: a session user id, a parsed body or `Unparsable`, a `FetchResult`, a generated id and a clock reading. Id collisions are not excluded; they fail as a unique violation.
- IntakeChat.Chat.FinishSaveProfile: a response that is ok but whose JSON cannot be read counts as a failure, like one without a profile id. Which exception is raised is not modelled.
- ProfilesRoute.PostBody: `answers` is a map from names to strings. Non-string answer values and non-string names are not modelled. A truthy `answers` that is not an object behaves as an empty map, and a falsy one is `None`.
- Schema.BuildProfileRow: when several constraints fail at once, which one Postgres reports is not modelled precisely. The model reports not-null violations first, then U+0000, then lengths, each in column order. The POST route answers 500 for all of them.
- Schema.KeyedInsert: the string columns of the auth adapter tables are all `text`, with no length bound. Their refusal of U+0000 is not modelled, because the auth library fills them. Their integer and timestamp columns (`user.emailVerified`, `account.expires_at`, `session.expires`, `verificationToken.expires`) are carried as unbounded integers. Their ranges are not modelled: int4 for `expires_at`, and Postgres's timestamp range for the others.
- Concurrency: POST's count-then-insert is not atomic. Requests are modelled one at a time.
- ProfilesRoute.Get: Postgres may order rows with equal keys in any order. The model picks one ordering, and every lemma about it holds for any ordering that is a sorted permutation.
- The matcher's regular expression is modelled as a literal prefix test; the unescaped `.` in `favicon.ico` is taken literally.
- A redirect's absolute URL is modelled by its path (`/login`, `/intake`).
- The NextAuth and database configuration, the UI pages and the layout are not part of this model.

## Findings

| source | as written | input that shows it | evidently intended | confidence | as-written member | corrected member |
|---|---|---|---|---|---|---|
| app/api/profiles/route.ts:29 | `orderBy(isDefault, createdAt)` sorts ascending, and `false` sorts before `true` | a user with a default profile and one more profile: GET lists the non-default profile first and the default last | the default profile first, as the comment on that line says (order by `isDefault` descending) | not executed | ProfilesRoute.GetListsDefaultLast | ProfilesRoute.GetDefaultFirstListsDefaultFirst |
| components/intake-chat.tsx:126-156 | only `choice` and `text` steps render an input; the catalog's `text-with-suggestions` step (lib/intake-questions.ts:41) renders none | answer "Blog / Content Site" and then "gardening": the third step, target-audience, shows no button and no form, so the flow can never finish and no profile is saved | the text form on that step, with the suggestions as hints | not executed | IntakeChat.CatalogConversationStalls | IntakeChat.IntendedConversationCompletes |
