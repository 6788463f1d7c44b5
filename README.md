# NoteNexus front end: a Dafny model of its state machines and decisions

NoteNexus is a React single-page app. A user pastes a video URL, the backend
returns a summary, and from that summary the app generates quizzes, flashcards
and PDF downloads. All real work happens on the backend. What the front end
decides for itself is modelled here:

- **Session container** (`AuthContext`): the user, the bearer token, the
  loading flag and the browser storage entries "token" and "user". It covers
  sign-in, registration, sign-out, the two setters and the startup restore. A
  reload is modelled as `Reloaded` (a fresh provider over the same storage).
- **Quiz page** (`QuizPage`): the fetch, answer locking, scoring, advancing,
  the Next/Finish button and the screen precedence. It also proves an
  invariant over any sequence of user actions through the enabled controls.
- **Flashcard carousel** (`FlashcardsPage`): modular Next/Previous, flipping,
  the button disable rules and "delete all".
- **Header** (`Header`): where Back leads, where the logo leads, which parts
  show for whom, and sign-out.
- **Route table and guards** (`App`): ProtectedRoute, PublicRoute and the
  table of AppRoutes. A path matches a literal route or a `prefix/:param`
  route with one non-empty segment, and the first matching route decides the
  page.
- **Saved summaries and quiz list** (`ExportPage`, `QuizzesPage`, `IdFilter`):
  the token-gated fetches, delete-by-id, and the busy ids with the buttons
  they disable. `ExportPage` also holds the download-name rule
  `[^a-zA-Z0-9] -> '_'` plus ".pdf" and the content precedence.
- **Summary workspace** (`SummariesPage`): submit and the three actions with
  their busy flags. The three buttons share one disable condition.
- **OAuth callback** (`SuccessPage`): there are three outcomes. With a
  session, it calls setToken, then setUser, then goes to "/dashboard".
  Otherwise the session is untouched and it goes to "/auth".

Every network request is a `Reply` argument of the handler that awaits it:
- `Ok(payload)`;
- `Rejected(message)`: a non-success response, whose body's `message` field
  (or "" when absent) is the message;
- `Thrown(message)`: an exception.

Each handler runs as one atomic step. Where the state during the request
matters (busy flags, disabled buttons), the handler returns it as a ghost
`pending` value. JavaScript truthiness of `string | null` is `Truthy`, and
`a || b` on strings is `Or`.

JSON.stringify, JSON.parse and decodeURIComponent belong to the browser, not
to this model. They are the three functions of a `Codec`. Where a property
needs parse to undo stringify, it says so with the hypothesis
`AuthContext.RoundTrips`.

Only `setToken` and `setUser` store a session, and `signOut` removes it;
`signIn` and `signUp` leave storage as it was, so a session survives a
reload only when it was set through the two setters
(`AuthContext.SignInNotPersisted`, `AuthContext.SettersPersist`).

The app runs the route table AppRoutes declares (`App.AsWrittenRoutes`). The
corrected table `App.Routes` adds the one route the summaries page needs; the
two agree on every other path (`App.AsWrittenAgrees`), and the lemmas about
pages and redirects are stated for both.

## Model

| member | source | states |
|---|---|---|
| `AuthContext.UseAuth` | src/contexts/AuthContext.tsx:24-30 | fails exactly when there is no provider, with the provider message; otherwise returns the context |
| `AuthContext.Fresh` | src/contexts/AuthContext.tsx:37-39 | a mounted provider has no user, no token, is not loading, over the given storage |
| `AuthContext.AuthProvider.constructor` | src/contexts/AuthContext.tsx:36-39 | the provider starts in the `Fresh` state |
| `AuthContext.FailureMessage` | src/contexts/AuthContext.tsx:52-55 | a rejected sign-in reports the server's non-empty message, else the fallback; a thrown error keeps its message |
| `AuthContext.Settled` | src/contexts/AuthContext.tsx:57-66 | after sign-in or sign-up, loading is off and storage is unchanged; success sets user and token from the response, failure keeps both |
| `AuthContext.AuthProvider.SignIn` | src/contexts/AuthContext.tsx:41-67 | loading is on while the request runs; the new state is `Settled`; the call fails with `FailureMessage(..., "Login failed")` exactly when the reply is not Ok |
| `AuthContext.AuthProvider.SignUp` | src/contexts/AuthContext.tsx:69-95 | as SignIn, with the fallback "Registration failed" |
| `AuthContext.SignedOut` | src/contexts/AuthContext.tsx:97-101 | user and token become null, "token" and "user" leave storage, every other key and value stays |
| `AuthContext.AuthProvider.SignOut` | src/contexts/AuthContext.tsx:97-103 | the new state is `SignedOut` of the old one |
| `AuthContext.WithToken` | src/contexts/AuthContext.tsx:105-108 | token and storage["token"] become the new token; user and the rest of storage stay |
| `AuthContext.AuthProvider.SetToken` | src/contexts/AuthContext.tsx:105-108 | the new state is `WithToken` of the old one |
| `AuthContext.WithUser` | src/contexts/AuthContext.tsx:110-113 | user becomes the new user and storage["user"] its serialisation; token stays |
| `AuthContext.AuthProvider.SetUser` | src/contexts/AuthContext.tsx:110-113 | the new state is `WithUser` of the old one |
| `AuthContext.Restored` | src/contexts/AuthContext.tsx:115-127 | the token is taken iff the stored token is truthy; a truthy stored user that parses becomes the user; a falsy one, or one that does not parse, leaves the user as it was |
| `AuthContext.AuthProvider.Restore` | src/contexts/AuthContext.tsx:115-127 | the new state is `Restored`; it reports the throw of an unparsable stored user |
| `AuthContext.SettersPersist` | src/contexts/AuthContext.tsx:105-127 | if parse undoes stringify, setToken(t) for a non-empty t and then setUser(u) are restored exactly by a reload, without a throw |
| `AuthContext.EmptyTokenNotRestored` | src/contexts/AuthContext.tsx:120 | an empty token is stored but not restored |
| `AuthContext.SignInNotPersisted` | src/contexts/AuthContext.tsx:57-59 | a successful sign-in leaves what a reload restores unchanged |
| `AuthContext.SignOutEndsSession` | src/contexts/AuthContext.tsx:97-101 | after sign-out a reload finds neither user nor token, and does not throw |
| `AuthContext.FailedSignInKeepsSession` | src/contexts/AuthContext.tsx:52-55 | a failed sign-in changes only the loading flag, and a rejection always carries a non-empty message |
| `AuthContext.CorruptUserKeepsToken` | src/contexts/AuthContext.tsx:120-126 | an unparsable stored user makes restore throw after the truthy token was taken |
| `QuizPage.Select` | src/pages/Quiz.tsx:63-72 | a locked answer changes nothing; otherwise the answer is stored with its correctness; the score rises by one exactly for an unlocked correct answer |
| `QuizPage.Next` | src/pages/Quiz.tsx:74-82 | below the last index: index + 1 with answer and correctness cleared; at the last: finished; the score never changes |
| `QuizPage.FinishLabelOnLastQuestion` | src/pages/Quiz.tsx:155 | the button reads "Finish Quiz" exactly on the last question, where pressing it finishes the quiz, and "Next Question" before it |
| `QuizPage.NextButtonLabel` | src/pages/Quiz.tsx:155 | "Next Question" before the last question, "Finish Quiz" on it |
| `QuizPage.Enabled` | src/pages/Quiz.tsx:142-155 | until the quiz is finished, an option can be picked while no answer is locked, and the Next button is shown only once one is |
| `QuizPage.Step` | src/pages/Quiz.tsx:141-154 | an action through the rendered controls keeps the index in range |
| `QuizPage.Run` | src/pages/Quiz.tsx:63-82 | any sequence of actions keeps the index in range |
| `QuizPage.StepKeepsConsistent` | src/pages/Quiz.tsx:63-82 | one action keeps the invariant: index in range, score at most the answered questions, finished only on the locked last question |
| `QuizPage.RunKeepsConsistent` | src/pages/Quiz.tsx:63-82 | every sequence of actions keeps that invariant |
| `QuizPage.ScoreNeverExceedsTotal` | src/pages/Quiz.tsx:166 | with non-blank correct answers, the displayed score never exceeds the number of questions |
| `QuizPage.BlankAnswerScoresTwice` | src/pages/Quiz.tsx:64 | a correct answer of "" does not lock, so it scores twice on one question |
| `QuizPage.AnsweringAllFinishes` | src/pages/Quiz.tsx:63-82 | answering each question and pressing Next finishes with the number of correct answers as score |
| `QuizPage.OneQuestionExample` | src/pages/Quiz.tsx:63-82 | on a one-question quiz the right answer ends 1/1, a wrong one 0/1 |
| `QuizPage.QuizSession.constructor` | src/pages/Quiz.tsx:27-34 | no quiz, loading, no error, index 0, nothing selected, score 0, not finished |
| `QuizPage.QuizSession.FetchQuiz` | src/pages/Quiz.tsx:36-61 | requests only with truthy id and token; then loading ends, with the quiz, "Failed to fetch quiz data." or the thrown message |
| `QuizPage.QuizSession.HandleAnswerSelect` | src/pages/Quiz.tsx:63-72 | the new progress is `Select` of the old |
| `QuizPage.QuizSession.HandleNextQuestion` | src/pages/Quiz.tsx:74-82 | the new progress is `Next` of the old |
| `QuizPage.QuizSession.Screen` | src/pages/Quiz.tsx:152-158 | while asking, a quiz is loaded and not finished, the total is its question count, and the Next button is shown exactly when an answer is locked, labelled by `NextButtonLabel` |
| `FlashcardsPage.NextIndex` | src/pages/Flashcards.tsx:74 | the next index stays below the number of cards |
| `FlashcardsPage.PrevIndex` | src/pages/Flashcards.tsx:83 | the previous index stays below the number of cards |
| `FlashcardsPage.NextIndexCases` | src/pages/Flashcards.tsx:74 | Next goes one forward and wraps from the last card to the first |
| `FlashcardsPage.PrevIndexCases` | src/pages/Flashcards.tsx:83 | Previous goes one back and wraps from the first card to the last |
| `FlashcardsPage.PrevAfterNext` | src/pages/Flashcards.tsx:71-87 | Previous undoes Next |
| `FlashcardsPage.NextAfterPrev` | src/pages/Flashcards.tsx:71-87 | Next undoes Previous |
| `FlashcardsPage.Forward` | src/pages/Flashcards.tsx:74 | k presses of Next stay in range |
| `FlashcardsPage.ForwardWithoutWrap` | src/pages/Flashcards.tsx:74 | k presses that do not pass the end move k cards forward |
| `FlashcardsPage.ForwardSplit` | src/pages/Flashcards.tsx:74 | a + b presses are a presses followed by b presses |
| `FlashcardsPage.FullCycle` | src/pages/Flashcards.tsx:74 | n presses of Next among n cards return to the starting card |
| `FlashcardsPage.ButtonsNeverWrap` | src/pages/Flashcards.tsx:170-179 | through the enabled buttons, Next moves one forward and Previous one back, never wrapping |
| `FlashcardsPage.PrevDisabled` | src/pages/Flashcards.tsx:171 | Previous is disabled on the first card or before the flashcards arrive |
| `FlashcardsPage.NextDisabled` | src/pages/Flashcards.tsx:179 | Next is disabled before the flashcards arrive or on the last card |
| `FlashcardsPage.FlashcardsView.constructor` | src/pages/Flashcards.tsx:20-24 | first card, unflipped, the route id as selected summary when truthy |
| `FlashcardsPage.FlashcardsView.Receive` | src/pages/Flashcards.tsx:26 | the query result arrives; nothing else changes |
| `FlashcardsPage.FlashcardsView.NextCard` | src/pages/Flashcards.tsx:71-78 | no cards: nothing changes; otherwise `NextIndex` and unflipped |
| `FlashcardsPage.FlashcardsView.PrevCard` | src/pages/Flashcards.tsx:80-87 | no cards: nothing changes; otherwise `PrevIndex` and unflipped |
| `FlashcardsPage.FlashcardsView.ShowAnswer` | src/pages/Flashcards.tsx:209 | the card flips; nothing else changes |
| `FlashcardsPage.FlashcardsView.DeleteAllFlashcards` | src/pages/Flashcards.tsx:55-69 | without a selected summary nothing is sent; success resets card, flip and selection; failure changes nothing |
| `Header.BackPath` | src/components/shared/Header.tsx:35-48 | a truthy backPath wins; otherwise one of four paths; signed in it never equals the current path: "/" from "/dashboard", "/dashboard" from anywhere else; signed out "/get-started" only from "/auth", else "/intro" |
| `Header.FallbackTargetRenders` | src/components/shared/Header.tsx:35-48 | in either route table, each fallback target renders for the user state that produces it |
| `Header.BackNeverRedirects` | src/components/shared/Header.tsx:35-48 | in either route table, without a backPath Back never leads to a redirect |
| `Header.BackFromIntroStays` | src/components/shared/Header.tsx:47 | signed out on "/intro", Back leads to "/intro" itself |
| `Header.LogoTarget` | src/components/shared/Header.tsx:119 | the dashboard exactly when signed in, the intro page exactly when not |
| `Header.LogoRenders` | src/components/shared/Header.tsx:119 | in either route table, the logo always leads to a page that renders for the same visitor |
| `Header.Shown` | src/components/shared/Header.tsx:131-212 | nav links, mobile menu and user menu exactly when signed in; the Sign In link exactly when not |
| `Header.MemberLinksProtected` | src/components/shared/Header.tsx:59-107 | in either route table, every member link renders signed in and redirects to "/auth" signed out |
| `Header.SignInLinkPublic` | src/components/shared/Header.tsx:207 | in either route table, the Sign In link renders the sign-in page for a signed-out visitor |
| `Header.HandleSignOut` | src/components/shared/Header.tsx:50-53 | the session becomes `SignedOut` and the target is "/intro" |
| `Header.SignOutLandsOnIntro` | src/components/shared/Header.tsx:52 | in either route table, the page reached after sign-out renders |
| `App.ProtectedRoute` | src/App.tsx:27-30 | renders iff signed in, the given page; otherwise redirects to "/auth" |
| `App.PublicRoute` | src/App.tsx:33-36 | renders iff signed out, the given page; otherwise redirects to "/dashboard" |
| `App.Lookup` | src/App.tsx:40-105 | a found route is in the table and matches; nothing found means no route matches |
| `App.Matches` | src/App.tsx:40-105 | a literal route matches its own path; a ":id" route matches its prefix followed by one non-empty segment without '/' |
| `App.Visit` | src/App.tsx:40-105 | the first matching route's guard applied to its page; NotFound, the "*" route, when none matches |
| `App.DisjointNeverBothMatch` | src/App.tsx:40-105 | two disjoint patterns never match the same path |
| `App.DisjointFromEarlier` | src/App.tsx:40-105 | every declared route shares no path with the routes before it |
| `App.AsWrittenUnambiguous` | src/App.tsx:40-105 | no path is matched by two declared routes |
| `App.FlashcardsParamIsNew` | src/pages/Summaries.tsx:150 | the added "/flashcards/:id" route shares no path with any declared route |
| `App.RoutesUnambiguous` | src/App.tsx:40-105 | the corrected table is unambiguous too |
| `App.LookupFinds` | src/App.tsx:40-105 | in an unambiguous table the route a path matches is the one found |
| `App.VisitMatched` | src/App.tsx:40-105 | a matched path is decided by its route's guard |
| `App.VisitRoute` | src/App.tsx:40-105 | the same for the declared and the corrected table |
| `App.LookupAppend` | src/App.tsx:40-105 | extending a table at its end changes no lookup that the original table answers |
| `App.AsWrittenAgrees` | src/App.tsx:40-105 | the declared and the corrected table give the same outcome on every path outside "/flashcards/:id" |
| `App.RoutesExtendAsWritten` | src/App.tsx:40-105 | the corrected table is the declared one plus one route at the end |
| `App.GuardsSplitUsers` | src/App.tsx:27-36 | a guarded route renders for exactly one user state; an unguarded one for both |
| `App.RedirectTargetsRender` | src/App.tsx:52-74 | "/auth" renders signed out and "/dashboard" signed in |
| `App.RedirectsSettle` | src/App.tsx:27-36 | any redirect lands on a path that renders for the same user: chains have length one |
| `App.UnguardedPaths` | src/App.tsx:41-105 | "/" and "/auth/success" render for everyone; in either table a path no route matches renders NotFound, as "/flashcards/abc" does in the declared one |
| `App.GuardsOfTable` | src/App.tsx:42-104 | in either table, intro, get-started, auth and password-reset are public; dashboard, profile, summaries, flashcards, quizzes, quiz and export are protected |
| `App.PageReachability` | src/App.tsx:42-104 | in either table, a routed page renders signed out exactly when public or unguarded, signed in exactly when protected or unguarded |
| `App.QuizPathSignedOut` | src/App.tsx:95-99 | in either table, every path "/quiz/" + id with a non-empty id free of '/' redirects a signed-out visitor to "/auth" and renders the quiz signed in |
| `App.EachGuardedRouteOneState` | src/App.tsx:42-104 | every guarded route renders in exactly one user state |
| `IdFilter.Without` | src/pages/Export.tsx:105 | the kept items are exactly the items with another id |
| `IdFilter.WithoutAppend` | src/pages/Export.tsx:105 | filtering commutes with concatenation, so order is kept |
| `IdFilter.WithoutAbsent` | src/pages/Quizzes.tsx:67 | a list without the id is unchanged |
| `IdFilter.WithoutIdempotent` | src/pages/Quizzes.tsx:67 | filtering twice equals filtering once |
| `IdFilter.WithoutRemovesCount` | src/pages/Export.tsx:105 | the list shrinks by exactly the number of items with the id |
| `ExportPage.Sanitize` | src/pages/Export.tsx:74 | same length; ASCII letters and digits kept; every other character becomes '_' |
| `ExportPage.DownloadName` | src/pages/Export.tsx:74 | the sanitised title followed by ".pdf", length |title| + 4, a stem of letters, digits and '_' |
| `ExportPage.SanitizeFixesExactlySafeStems` | src/pages/Export.tsx:74 | the result is a safe stem, and a title is unchanged by the rule iff it is a safe stem |
| `ExportPage.SanitizeIdempotent` | src/pages/Export.tsx:74 | sanitising a sanitised title changes nothing |
| `ExportPage.PdfExportError` | src/pages/Export.tsx:65-80 | a failed export always stores a non-empty message: "PDF generation failed." on rejection, the thrown message when it has one, "An unexpected error occurred during PDF export." when it has none |
| `ExportPage.Fetched` | src/pages/Export.tsx:28-51 | without a truthy token nothing changes; otherwise loading ends with the list, "Failed to fetch summaries." or the thrown message |
| `ExportPage.Exported` | src/pages/Export.tsx:53-84 | the exporting id is cleared; failure stores `PdfExportError`; the list and deleting id stay |
| `ExportPage.DeleteError` | src/pages/Export.tsx:100-107 | a rejected delete reports the server's message or "Failed to delete summary."; a thrown one its message |
| `ExportPage.Deleted` | src/pages/Export.tsx:100-110 | the deleting id is cleared; success filters out the id; failure keeps the list and stores the error |
| `ExportPage.ExportBlocksDeletes` | src/pages/Export.tsx:161-179 | while a summary is exporting, its export button and every delete button are disabled |
| `ExportPage.ExportDisabled` | src/pages/Export.tsx:161 | a summary's Export PDF button is disabled while it is exporting or while any delete is in flight |
| `ExportPage.DeleteDisabled` | src/pages/Export.tsx:179 | a summary's delete button is disabled while it is being deleted or while any export is in flight |
| `ExportPage.DeleteBlocksExports` | src/pages/Export.tsx:161-179 | while a summary is deleting, its delete button and every export button are disabled |
| `ExportPage.SettledFreesButtons` | src/pages/Export.tsx:81-110 | once an export or delete has settled, no button is disabled by it |
| `ExportPage.DeleteRemovesExactly` | src/pages/Export.tsx:105 | a successful delete leaves no summary with the id, removes exactly those, and a repeat removes nothing |
| `ExportPage.Shown` | src/pages/Export.tsx:135-191 | spinner while loading, then a truthy error, then the empty notice, then the list |
| `ExportPage.NoTokenKeepsLoading` | src/pages/Export.tsx:48-50 | without a token the page stays on its spinner |
| `ExportPage.SavedSummaries.constructor` | src/pages/Export.tsx:22-26 | empty list, loading, no error, nothing exporting or deleting |
| `ExportPage.SavedSummaries.FetchSummaries` | src/pages/Export.tsx:28-51 | requests iff the token is truthy; the new state is `Fetched` |
| `ExportPage.SavedSummaries.HandlePdfExport` | src/pages/Export.tsx:53-84 | the pending state carries the exporting id; the new state is `Exported`; a download named `DownloadName` exactly on success |
| `ExportPage.SavedSummaries.HandleDelete` | src/pages/Export.tsx:86-111 | declining sends nothing and changes nothing; otherwise the pending state carries the deleting id and the new state is `Deleted` |
| `QuizzesPage.ContentOf` | src/pages/Quizzes.tsx:75-110 | spinner iff loading; the error iff not loading and truthy; then the empty notice; the cards only otherwise |
| `QuizzesPage.ErrorHidesList` | src/pages/Quizzes.tsx:84-92 | once a truthy error is shown, no list is displayed whatever it holds |
| `QuizzesPage.QuizList.constructor` | src/pages/Quizzes.tsx:21-24 | empty list, loading, no error, nothing deleting |
| `QuizzesPage.QuizList.FetchQuizzes` | src/pages/Quizzes.tsx:26-51 | requests iff the token is truthy; then loading ends with the list, "Failed to fetch quizzes." or the thrown message; an error is never cleared |
| `QuizzesPage.QuizList.HandleDeleteQuiz` | src/pages/Quizzes.tsx:53-73 | the deleting id is the quiz id during the call, which disables that quiz's delete button and no other, and null after; success filters; failure stores "Failed to delete quiz." or the thrown message; an error is never cleared |
| `QuizzesPage.DeleteDisabled` | src/pages/Quizzes.tsx:131 | a quiz's delete button is disabled exactly while that quiz is being deleted |
| `QuizzesPage.DeleteRemovesExactly` | src/pages/Quizzes.tsx:67 | the filter keeps order across any split, removes exactly the quizzes with the id, and is idempotent |
| `SummariesPage.SubmitError` | src/pages/Summaries.tsx:51-57 | always non-empty: the message when there is one, else "Failed to generate summary." on rejection or "An unexpected error occurred." on a throw |
| `SummariesPage.GenerateError` | src/pages/Summaries.tsx:114-122 | a rejection reports the server's message or the fallback; a throw its message |
| `SummariesPage.Submitted` | src/pages/Summaries.tsx:33-61 | processing ends; success stores the summary with no error; failure stores `SubmitError` with no summary |
| `SummariesPage.QuizTarget` | src/pages/Summaries.tsx:120 | "/quiz/" followed by the id |
| `SummariesPage.FlashcardsTarget` | src/pages/Summaries.tsx:150 | "/flashcards/" followed by the id |
| `SummariesPage.ExportDisabled` | src/pages/Summaries.tsx:215 | Export PDF is disabled while any of the three actions is in flight |
| `SummariesPage.QuizDisabled` | src/pages/Summaries.tsx:222 | Generate Quiz is disabled while any of the three actions is in flight |
| `SummariesPage.FlashcardsDisabled` | src/pages/Summaries.tsx:229 | Generate Flashcards is disabled while any of the three actions is in flight |
| `SummariesPage.SummaryWorkspace.constructor` | src/pages/Summaries.tsx:26-31 | nothing processing, no summary, no error, no action in flight |
| `SummariesPage.SummaryWorkspace.HandleSubmit` | src/pages/Summaries.tsx:33-61 | error and summary are cleared and processing is on while pending; the new state is `Submitted` |
| `SummariesPage.SummaryWorkspace.HandlePdfExport` | src/pages/Summaries.tsx:63-96 | a no-op without a summary; otherwise the error is not cleared; while pending all three buttons (lines 215-229) are disabled; the flag is reset, and failure stores `PdfExportError` |
| `SummariesPage.SummaryWorkspace.HandleGenerateQuiz` | src/pages/Summaries.tsx:98-126 | a no-op without a summary; otherwise the error is cleared first and all three buttons (lines 215-229) are disabled while pending; success navigates to `QuizTarget`, failure stores `GenerateError`, the flag is reset |
| `SummariesPage.SummaryWorkspace.HandleGenerateFlashcards` | src/pages/Summaries.tsx:128-156 | as quiz generation, all three buttons disabled while pending, navigating to `FlashcardsTarget` |
| `SummariesPage.QuizTargetRenders` | src/pages/Summaries.tsx:120 | in either table, the quiz path renders the quiz page for a signed-in user |
| `SummariesPage.FlashcardsTargetAsWritten` | src/pages/Summaries.tsx:150 | against the declared routes, the flashcard path renders NotFound |
| `SummariesPage.FlashcardsTargetRenders` | src/pages/Summaries.tsx:150 | against the corrected routes, the flashcard path renders the flashcards page |
| `SuccessPage.Decide` | src/pages/Success.tsx:12-19 | missing params iff either is not truthy; a session only with the token param and a user that decodes and parses; malformed iff decode or parse fails |
| `SuccessPage.TargetOf` | src/pages/Success.tsx:24-40 | "/dashboard" exactly for a session, "/auth" otherwise |
| `SuccessPage.HandleCallback` | src/pages/Success.tsx:11-42 | on a session: setToken then setUser; otherwise the session is unchanged; exactly one target |
| `SuccessPage.EstablishedSessionSurvivesReload` | src/pages/Success.tsx:17-19 | if parse undoes stringify, a reload restores the session the callback established |
| `SuccessPage.TargetRenders` | src/pages/Success.tsx:24-40 | in either table, "/dashboard" renders after an established session; after a failure "/auth" renders for a signed-out visitor, and for a visitor already signed in it redirects to "/dashboard", which renders |

## Left out

- HTTP, response bodies, blobs, object URLs and the download anchor are not modelled. Each request is a `Reply` argument, and a download is only its file name.
- JSON.stringify, JSON.parse and decodeURIComponent are browser functions, modelled as a `Codec` of three opaque functions. Their round trip is a stated hypothesis, not a fact.
- AuthContext.Codec: parse yields a user or throws. A value that parses to JSON that is not a user object ("null", a number, a string) is not modelled; the source would then store that value as the user (src/contexts/AuthContext.tsx:125, src/pages/Success.tsx:19-21).
- Toasts, console logging, dates, themes, styling and the header's mobile-menu open flag are presentation only.
- React scheduling is not modelled: batching, stale closures, and interleaving of two in-flight handlers (such as sign-out during a fetch). Each handler is one atomic step.
- The react-query hooks (src/hooks) are not part of this model; the flashcard list arrives through `Receive`, and the flashcards page's generate action is a call into those hooks.
- The flashcards page's own summary fetch (src/pages/Flashcards.tsx:30-52, a direct request that sets `summary` or the error "Failed to fetch summary") is left out, and with it the page's choice between the summary-selection form (no summary loaded) and the summary with its cards; the model covers the carousel and "delete all" only.
- The static pages (intro, get-started, profile, dashboard) and the password-reset view are not part of this model.
- Route matching beyond literal paths and one trailing `:param` segment is left out: trailing slashes, case, and ranking by specificity. First match stands in for ranking, which is sound because the tables are proved unambiguous.
- Titles are sequences of chars standing for UTF-16 code units; nothing is claimed about characters outside the Basic Multilingual Plane.
- A quiz with no questions is left out, as the page does not guard it. Properties about a run assume at least one question.
- QuizPage.ScoreNeverExceedsTotal: assumes no question's correct answer is "". An empty answer does not lock, so such a question can score twice (`QuizPage.BlankAnswerScoresTwice`).
- QuizPage.QuizSession.HandleAnswerSelect: requires a loaded quiz and an index in range, as the page calls it only while a question is rendered.
- ExportPage.ExportBlocksDeletes: assumes the summary id is non-empty, since an empty busy id is not truthy and would not disable the other buttons.
- ExportPage.DeleteBlocksExports: assumes a non-empty id for the same reason.

## Findings

| source | as written | input that shows it | evidently intended | confidence | as-written member | corrected member |
|---|---|---|---|---|---|---|
| src/pages/Summaries.tsx:150 | after generating flashcards the page navigates to "/flashcards/" + id, but src/App.tsx:40-105 declares only "/flashcards" | a signed-in user generates flashcards and the reply's id is "abc": the path "/flashcards/abc" matches no route and renders NotFound | a protected "/flashcards/:id" route that renders the flashcards page (whose `id` parameter the page already reads) | high, not executed | `SummariesPage.FlashcardsTargetAsWritten` | `SummariesPage.FlashcardsTargetRenders` |
