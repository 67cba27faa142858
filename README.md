# psico-virtuale-frontend: the authentication and dashboard core in Dafny

This project models the decision logic and the small state machines of the
psico-virtuale web front end. The front end has a therapist dashboard and a
patient chat dashboard, both backed by a hosted database and an identity
provider. The model covers six parts:

- **The authentication store** (`useAuthStore`), module `Store`. A class with
  the four fields `user`, `session`, `loading` and `initialized`, and the
  mutators `setUser`, `setSession`, `clearAuth` and `initialize`. The
  asynchronous `initialize` is split into `BeginInitialize` (raise `loading`)
  and `CompleteInitialize(outcome)`. The outcome is a live session, no
  session, or a provider error. Sequences of store steps (`Run`) are used to
  prove that the last completion wins when initialisations overlap.
- **The auth provider component**, module `AuthSync`. It starts
  `initialize` on mount and opens one subscription to auth events. It
  dispatches `SIGNED_IN`/`TOKEN_REFRESHED` to a new initialisation and
  `SIGNED_OUT` to a clear plus a navigation to `/login`, and it ignores every
  other event. It unsubscribes on unmount and exposes `user`, `loading` and
  `initialized` as its context value.
- **Route decisions**, module `Routing`. These are the dashboard
  dispatcher's redirect and the guards of the two dashboards, as total
  functions of the store's state.
- **The therapist dashboard**, module `TherapistDashboard`. It covers:
  - per-patient derivation: sessions, count, last session, and 30-day activity status;
  - the search and status filter;
  - the header statistics;
  - note saving into the patient list;
  - select, edit and cancel of the note editor.

  The page is a class whose invariant ties the shown list to the filter of
  the patient list, and the header to the patient list.
- **The patient dashboard**, module `PatientDashboard`. It covers:
  - the session list and the choice of the active session;
  - role normalisation of fetched messages;
  - the send guard and the append-only message list;
  - the two phases of `sendMessage` around `isSending`;
  - new sessions, the mood-save guard and the mood captions.
- **The backend client**, module `ApiClient`. It covers:
  - the recommendations cache key and its read-back;
  - the in-flight request map with its lookup, settle and expire steps;
  - the 404/403 fallback chain over three endpoints, ending in built-in recommendations;
  - the chat endpoint choice and its development fallback;
  - the two ways the bearer token is attached.

Database queries, the identity provider, HTTP calls, the clock and browser
storage are not called. Each is a parameter carrying the outcome it produced:
`ProviderOutcome`, `ProfilesOutcome`, `Rows<T>`, `NoteLookup`, `HttpOutcome`,
`ChatOutcome`, `now`, or an optional token.

Supporting modules: `Wrappers` (`Option`), `Text` (JavaScript truthiness,
`toLowerCase`, `includes`, `trim`) and `Seqs` (`filter` and sub-sequences).

Two behaviours of the code are weaker than a reader might expect, and the
model keeps them as written:

- An `initialize` still in flight when the provider unmounts writes its
  result anyway (`AuthSync.AuthProvider.SettleInitialize` has no liveness
  check). There is also no request-sequence guard, so the last completion
  wins, not the last start.
- "No user exactly when no session" is not an invariant of the store.
  `setUser` and `setSession` each change one field alone, and
  `Store.SetUserCanUnpair` exhibits the split. The pairing is kept only by
  runs that avoid those two setters (`Store.PairedWithoutSetters`).

## Model

| member | source | states |
|---|---|---|
| Store.WithUser | psico-virtuale-frontend/src/lib/store.ts:24 | the user is replaced; session, loading and initialized are kept |
| Store.WithSession | psico-virtuale-frontend/src/lib/store.ts:25 | the session is replaced; user, loading and initialized are kept |
| Store.Cleared | psico-virtuale-frontend/src/lib/store.ts:26 | no user and no session; loading and initialized are kept |
| Store.Began | psico-virtuale-frontend/src/lib/store.ts:29 | loading is raised; user, session and initialized are kept |
| Store.Completed | psico-virtuale-frontend/src/lib/store.ts:33-52 | initialized and not loading on every outcome; a live session writes its user and itself, no session writes nulls, an error keeps user and session |
| Store.AuthStore.constructor | psico-virtuale-frontend/src/lib/store.ts:20-23 | the store starts with no user, no session, `loading` true and `initialized` false |
| Store.AuthStore.SetUser | psico-virtuale-frontend/src/lib/store.ts:24 | `user` becomes the argument; session, loading and initialized are unchanged |
| Store.AuthStore.SetSession | psico-virtuale-frontend/src/lib/store.ts:25 | `session` becomes the argument; the other three fields are unchanged |
| Store.AuthStore.ClearAuth | psico-virtuale-frontend/src/lib/store.ts:26 | user and session become null; loading and initialized are unchanged |
| Store.AuthStore.BeginInitialize | psico-virtuale-frontend/src/lib/store.ts:29-30 | before the provider is queried only `loading` is raised |
| Store.AuthStore.CompleteInitialize | psico-virtuale-frontend/src/lib/store.ts:33-52 | a live session writes its user and itself; no session writes nulls; an error keeps user and session; every path ends initialized and not loading |
| Store.CompletedSettles | psico-virtuale-frontend/src/lib/store.ts:33-52 | every completion leaves the store initialized and not loading, with the user and session each outcome prescribes, and keeps a paired state paired |
| Store.ClearIdempotent | psico-virtuale-frontend/src/lib/store.ts:26 | clearing twice equals clearing once; the readiness flags are untouched; the result is paired |
| Store.SetUserCanUnpair | psico-virtuale-frontend/src/lib/store.ts:24 | setting a user on the initial state leaves a user without a session |
| Store.RunAppend | psico-virtuale-frontend/src/lib/store.ts:24-53 | running two step sequences one after the other is running their concatenation |
| Store.RunBegins | psico-virtuale-frontend/src/lib/store.ts:29 | any number of further starts only raises `loading` |
| Store.LastCompletionWins | psico-virtuale-frontend/src/lib/store.ts:27-53 | after a completion followed only by new starts, user and session are those that completion wrote, and the store stays initialized |
| Store.OverlappingInitializations | psico-virtuale-frontend/src/lib/store.ts:27-53 | with two overlapping initialisations, the one completing last decides the user, whatever the other returned |
| Store.OnlyCompletionInitializes | psico-virtuale-frontend/src/lib/store.ts:24-53 | steps without a completion never change `initialized` |
| Store.InitializedStays | psico-virtuale-frontend/src/lib/store.ts:24-53 | once initialized, every later sequence of steps keeps the store initialized |
| Store.PairedWithoutSetters | psico-virtuale-frontend/src/lib/store.ts:26-52 | clears, starts and completions keep user and session paired (the user being the session's) |
| Routing.Path | psico-virtuale-frontend/src/app/dashboard/page.tsx:17-23 | every destination is an absolute path, and only the login page is `/login` |
| Routing.PathInjective | psico-virtuale-frontend/src/app/dashboard/page.tsx:17-23 | the three destinations push three different paths |
| Routing.DashboardRedirect | psico-virtuale-frontend/src/app/dashboard/page.tsx:14-25 | no redirect while loading or not initialized; when ready, login iff no user, therapist dashboard iff role `therapist`, patient dashboard iff any other or missing role |
| Routing.DashboardRedirectExhaustive | psico-virtuale-frontend/src/app/dashboard/page.tsx:14-25 | when ready, exactly one of the three destinations is chosen |
| Routing.TherapistGuard | psico-virtuale-frontend/src/app/therapist-dashboard/page.tsx:88-100 | waits iff loading; then login iff no user, patient dashboard iff not a therapist, and the patient fetch iff a therapist |
| Routing.PatientGuard | psico-virtuale-frontend/src/app/patient-dashboard/page.tsx:61-75 | at most one redirect: login iff ready without a user, therapist dashboard iff ready with a therapist; data is loaded iff there is a user, whatever the redirect |
| Routing.DispatchAgreesWithGuards | psico-virtuale-frontend/src/app/dashboard/page.tsx:14-25 | a dashboard the dispatcher chooses is one its guard does not redirect away from; both guards send a user-less visitor to login |
| AuthSync.React | psico-virtuale-frontend/src/components/providers/auth-provider.tsx:41-48 | re-initialise iff `SIGNED_IN` or `TOKEN_REFRESHED`; clear and go to login iff `SIGNED_OUT`; ignore any other event |
| AuthSync.ReactIgnoresPayload | psico-virtuale-frontend/src/components/providers/auth-provider.tsx:38-48 | the event's session payload never changes the reaction |
| AuthSync.ContextOf | psico-virtuale-frontend/src/components/providers/auth-provider.tsx:59-63 | the context value carries exactly the store's user, loading and initialized |
| AuthSync.DefaultMatchesInitialStore | psico-virtuale-frontend/src/components/providers/auth-provider.tsx:15-19 | the default context value (no user, loading, not initialized) equals what a provider exposes for the initial store |
| AuthSync.AuthProvider.constructor | psico-virtuale-frontend/src/components/providers/auth-provider.tsx:24-30 | a new provider is bound to the store, not subscribed, with no navigations |
| AuthSync.AuthProvider.Context | psico-virtuale-frontend/src/components/providers/auth-provider.tsx:59-63 | the exposed value is the store's current user, loading and initialized |
| AuthSync.AuthProvider.Mount | psico-virtuale-frontend/src/components/providers/auth-provider.tsx:32-37 | mount starts `initialize` once and opens exactly one subscription; no navigation |
| AuthSync.AuthProvider.Deliver | psico-virtuale-frontend/src/components/providers/auth-provider.tsx:38-48 | while subscribed, the store and the navigation log follow `React`; sign-out clears and pushes exactly one `/login`; after unsubscribing nothing changes |
| AuthSync.AuthProvider.SettleInitialize | psico-virtuale-frontend/src/lib/store.ts:30-52 | a pending initialisation writes its completion whether or not the provider is still mounted |
| AuthSync.AuthProvider.Unmount | psico-virtuale-frontend/src/components/providers/auth-provider.tsx:53-55 | the subscription is released; nothing else changes |
| AuthSync.SignOutScenario | psico-virtuale-frontend/src/components/providers/auth-provider.tsx:32-55 | mount, sign-in completion, sign-out, unmount, then more events: exactly one navigation (to login), and the cleared store stays cleared |
| TherapistDashboard.LastSession | psico-virtuale-frontend/src/app/therapist-dashboard/page.tsx:157 | no last session iff there are no sessions; otherwise the first (most recent) session's update time |
| TherapistDashboard.StatusAt | psico-virtuale-frontend/src/app/therapist-dashboard/page.tsx:159-162 | active iff a last session exists and `now` minus it is strictly below thirty days in milliseconds |
| TherapistDashboard.DerivePatient | psico-virtuale-frontend/src/app/therapist-dashboard/page.tsx:156-171 | the profile's fields are kept; sessions are empty on a query error; the count is their number; the last session is the first one's time; the status follows the first session; the note defaults to empty |
| TherapistDashboard.DerivePatients | psico-virtuale-frontend/src/app/therapist-dashboard/page.tsx:141-173 | one record per profile, in the profiles' order |
| TherapistDashboard.ActivityIsMonotone | psico-virtuale-frontend/src/app/therapist-dashboard/page.tsx:160-162 | a patient active at `now` was active at every earlier time since the last session |
| Text.ToLower | psico-virtuale-frontend/src/app/therapist-dashboard/page.tsx:113-117 | lower-casing keeps the length and maps each character on its own |
| Text.ToLowerIdempotent | psico-virtuale-frontend/src/app/therapist-dashboard/page.tsx:113-117 | lower-casing a lower-cased text changes nothing |
| TherapistDashboard.QueryGuardIsNeutral | psico-virtuale-frontend/src/app/therapist-dashboard/page.tsx:112-119 | the `if (searchQuery)` guard is behaviour-neutral: a patient is listed iff it matches the query (the empty query matches everyone) and the status |
| TherapistDashboard.FilterPatients | psico-virtuale-frontend/src/app/therapist-dashboard/page.tsx:108-127 | never longer than the patient list, and every shown patient is one of the patients and matches the query and the status |
| TherapistDashboard.FilterPatientsStep | psico-virtuale-frontend/src/app/therapist-dashboard/page.tsx:108-127 | the first patient is shown exactly when it matches the query (if any) and the status, and the rest is filtered alike |
| TherapistDashboard.FilterPatientsSubsequence | psico-virtuale-frontend/src/app/therapist-dashboard/page.tsx:108-127 | the shown list is an order-preserving sub-sequence of the patients: nothing is added or reordered |
| TherapistDashboard.FilterPatientsMembership | psico-virtuale-frontend/src/app/therapist-dashboard/page.tsx:108-127 | a patient is shown iff it is in the list, matches the non-empty query in first name, last name or email (lower-cased, missing names never match), and has the selected status |
| TherapistDashboard.NoFilterShowsAll | psico-virtuale-frontend/src/app/therapist-dashboard/page.tsx:112-124 | an empty query with status `all` shows every patient, in order |
| TherapistDashboard.WithNote | psico-virtuale-frontend/src/app/therapist-dashboard/page.tsx:277-279 | same length; patients with the id get the new note; only the note changes; every other patient is unchanged |
| TherapistDashboard.FilterPatientsAfterNote | psico-virtuale-frontend/src/app/therapist-dashboard/page.tsx:102-127 | saving a note never changes which patients are shown |
| TherapistDashboard.CountActive | psico-virtuale-frontend/src/app/therapist-dashboard/page.tsx:177 | there are never more active patients than patients |
| TherapistDashboard.SumSessions | psico-virtuale-frontend/src/app/therapist-dashboard/page.tsx:178 | the sessions total is zero iff every patient has no sessions |
| TherapistDashboard.RoundHalfUp | psico-virtuale-frontend/src/app/therapist-dashboard/page.tsx:182 | the result is the nearest integer to `n / d`, with halves rounded up |
| TherapistDashboard.PercentAtMostHundred | psico-virtuale-frontend/src/app/therapist-dashboard/page.tsx:182 | the rounded percentage is at most 100; it is 100 when all are active and 0 when none is |
| TherapistDashboard.ComputeStats | psico-virtuale-frontend/src/app/therapist-dashboard/page.tsx:176-185 | the total is the number of patients, the sessions total is the sum of counts, and the percentage is in 0..100: 0 with no patients or none active, 100 with all active |
| TherapistDashboard.ActiveAtMostSessions | psico-virtuale-frontend/src/app/therapist-dashboard/page.tsx:156-178 | for derived records, active patients never outnumber sessions |
| TherapistDashboard.StatsIgnoreNotes | psico-virtuale-frontend/src/app/therapist-dashboard/page.tsx:176-185 | saving a note leaves the header statistics as they were |
| TherapistDashboard.CountAndSumIgnoreNotes | psico-virtuale-frontend/src/app/therapist-dashboard/page.tsx:177-178 | the active count and the sessions total ignore notes |
| TherapistDashboard.Page.constructor | psico-virtuale-frontend/src/app/therapist-dashboard/page.tsx:63-86 | empty lists, empty query, status `all`, nothing selected, not editing; the invariant holds |
| TherapistDashboard.Page.RefilterEffect | psico-virtuale-frontend/src/app/therapist-dashboard/page.tsx:102-106 | the shown list is re-filtered only when there are patients |
| TherapistDashboard.Page.SetSearchQuery | psico-virtuale-frontend/src/app/therapist-dashboard/page.tsx:102-127 | a new query re-filters the list; everything else is unchanged; the invariant is kept |
| TherapistDashboard.Page.SetStatusFilter | psico-virtuale-frontend/src/app/therapist-dashboard/page.tsx:102-127 | a new status re-filters the list; everything else is unchanged; the invariant is kept |
| TherapistDashboard.Page.BeginFetchPatients | psico-virtuale-frontend/src/app/therapist-dashboard/page.tsx:130 | only the loading flag is raised |
| TherapistDashboard.Page.CompleteFetchPatients | psico-virtuale-frontend/src/app/therapist-dashboard/page.tsx:129-195 | on success the list becomes the derived records and the header and shown list follow; on failure list and header are kept; loading is lowered on every path |
| TherapistDashboard.Page.SelectPatient | psico-virtuale-frontend/src/app/therapist-dashboard/page.tsx:244-249 | the patient is selected, the draft becomes its note, editing ends and the session is cleared; the lists are unchanged |
| TherapistDashboard.Page.StartEditing | psico-virtuale-frontend/src/app/therapist-dashboard/page.tsx:519 | edit mode begins |
| TherapistDashboard.Page.EditDraft | psico-virtuale-frontend/src/app/therapist-dashboard/page.tsx:551 | the draft becomes the typed text |
| TherapistDashboard.Page.CancelEditing | psico-virtuale-frontend/src/app/therapist-dashboard/page.tsx:528-531 | edit mode ends and the draft is restored from the selected patient |
| TherapistDashboard.Page.SaveNote | psico-virtuale-frontend/src/app/therapist-dashboard/page.tsx:251-289 | nothing without a selection or on a failed lookup; otherwise an update if a row exists, else an insert, and the draft replaces the note of every patient with the selected id; editing ends; the same patients are shown, now with the new note; the header is unchanged |
| PatientDashboard.NormaliseRole | psico-virtuale-frontend/src/app/patient-dashboard/page.tsx:120 | a stored role is the assistant iff it is `assistant`; anything else is the user |
| PatientDashboard.NormaliseRoleName | psico-virtuale-frontend/src/app/patient-dashboard/page.tsx:119-122 | the role names the page writes read back as the same role |
| PatientDashboard.FormatMessages | psico-virtuale-frontend/src/app/patient-dashboard/page.tsx:119-122 | one message per row, same order, same content, assistant iff the row says `assistant` |
| PatientDashboard.FormatMessagesRoundTrip | psico-virtuale-frontend/src/app/patient-dashboard/page.tsx:119-122 | messages stored by the page come back unchanged |
| PatientDashboard.MayLogMood | psico-virtuale-frontend/src/app/patient-dashboard/page.tsx:307 | a save needs a user, a mood and an active session; no user, no mood, a mood of zero, or a missing or empty session each block it |
| PatientDashboard.MoodLabel | psico-virtuale-frontend/src/app/patient-dashboard/page.tsx:820-824 | the default prompt is shown iff the mood is not one of 1..5 |
| PatientDashboard.MoodLabelsDistinct | psico-virtuale-frontend/src/app/patient-dashboard/page.tsx:820-824 | the five moods have five different captions |
| PatientDashboard.Page.constructor | psico-virtuale-frontend/src/app/patient-dashboard/page.tsx:47-55 | no sessions, no active session, no messages, empty input, not sending, no mood |
| PatientDashboard.Page.FetchSessions | psico-virtuale-frontend/src/app/patient-dashboard/page.tsx:78-104 | nothing without a user or on a failed query; otherwise the list is replaced, and if it is non-empty and no session is active, the first session becomes active and its messages are requested |
| PatientDashboard.Page.SelectSession | psico-virtuale-frontend/src/app/patient-dashboard/page.tsx:475-477 | the clicked session becomes active and its messages are requested (the returned id is the clicked one) |
| PatientDashboard.Page.FetchMessages | psico-virtuale-frontend/src/app/patient-dashboard/page.tsx:107-132 | nothing for an empty id or a failed query; otherwise the messages become the formatted rows |
| PatientDashboard.Page.CreateNewSession | psico-virtuale-frontend/src/app/patient-dashboard/page.tsx:183-211 | the list is re-fetched iff there is a user and the insert succeeded; a returned row becomes the active session with no messages; otherwise nothing changes |
| PatientDashboard.Page.SetInput | psico-virtuale-frontend/src/app/patient-dashboard/page.tsx:660 | the input becomes the typed text |
| PatientDashboard.Page.SetMood | psico-virtuale-frontend/src/app/patient-dashboard/page.tsx:809 | the mood becomes the selected value |
| PatientDashboard.Page.BeginSend | psico-virtuale-frontend/src/app/patient-dashboard/page.tsx:214-240 | no-op with blank input or no active session; otherwise the user message is appended after the earlier ones, the input is cleared, `isSending` is raised and the old input is the text sent |
| PatientDashboard.Page.CompleteSend | psico-virtuale-frontend/src/app/patient-dashboard/page.tsx:240-271 | a reply is appended after everything shown; `isSending` is false on every path |
| PatientDashboard.Page.SaveMood | psico-virtuale-frontend/src/app/patient-dashboard/page.tsx:306-316 | a mood row is written iff there is a user, a non-zero mood and an active session, with the patient id, the score and the session in the notes |
| PatientDashboard.SendExchange | psico-virtuale-frontend/src/app/patient-dashboard/page.tsx:214-271 | a full exchange appends the user's message and then the reply, keeping every earlier message, and ends not sending with an empty input |
| ApiClient.CacheKey | psico-virtuale-frontend/src/lib/apiClient.ts:229 | the key is the patient id, then a colon, then the session part |
| ApiClient.SessionPart | psico-virtuale-frontend/src/lib/apiClient.ts:229 | the session half of the key is the session id when truthy, else `none`, and is never empty |
| ApiClient.SplitKey | psico-virtuale-frontend/src/lib/apiClient.ts:229 | a key splits at its first colon into a colon-free prefix and the rest, whose join is the key |
| ApiClient.KeyRoundTrip | psico-virtuale-frontend/src/lib/apiClient.ts:229 | for a patient id without a colon, the key reads back as the patient id and the session part |
| ApiClient.KeyDeterminesRequest | psico-virtuale-frontend/src/lib/apiClient.ts:229-235 | for colon-free patient ids, equal keys mean the same patient and the same session part |
| ApiClient.KeyCollisions | psico-virtuale-frontend/src/lib/apiClient.ts:229 | no session, an empty session and a session named `none` share a key, and so do `a:b` without session and `a` with session `b:none` |
| ApiClient.RecommendationsCache.constructor | psico-virtuale-frontend/src/lib/apiClient.ts:111 | the cache starts empty |
| ApiClient.RecommendationsCache.Request | psico-virtuale-frontend/src/lib/apiClient.ts:228-296 | a key already cached returns its request and changes nothing; a miss starts a new request and inserts exactly that key; no other key changes |
| ApiClient.RecommendationsCache.Settle | psico-virtuale-frontend/src/lib/apiClient.ts:280-286 | a settled request keeps its entry; nothing else changes |
| ApiClient.RecommendationsCache.Expire | psico-virtuale-frontend/src/lib/apiClient.ts:286-290 | the timer removes exactly that key |
| ApiClient.DeduplicationScenario | psico-virtuale-frontend/src/lib/apiClient.ts:228-296 | two lookups before the expiry share one request, even after it settled; a lookup after the expiry starts a different one |
| ApiClient.RecommendationChain | psico-virtuale-frontend/src/lib/apiClient.ts:244-285 | the endpoints are tried in order; the alternative iff the first answered 404 or 403; the public one iff the alternative also failed; every endpoint before the last failed; the last one's body is returned, or the built-in list if it failed; it never rejects |
| ApiClient.FallbackOnlyWhenAllTriedFail | psico-virtuale-frontend/src/lib/apiClient.ts:247-285 | the built-in list is used iff every endpoint tried failed |
| ApiClient.OtherErrorsSkipAlternatives | psico-virtuale-frontend/src/lib/apiClient.ts:251-285 | any other status or no response on the first endpoint skips both alternatives and yields the built-in list |
| ApiClient.PrimaryQuery | psico-virtuale-frontend/src/lib/apiClient.ts:242 | the first endpoint gets the session id as query iff it is truthy |
| ApiClient.ChatEndpoint | psico-virtuale-frontend/src/lib/apiClient.ts:147 | `/api/patient-chat` iff the patient-chat flag is set, else `/api/chat` |
| ApiClient.SendMessageResult | psico-virtuale-frontend/src/lib/apiClient.ts:145-181 | an answer is passed through; a failure resolves to the fallback answer in development and rejects iff not in development |
| ApiClient.InterceptorAuthorization | psico-virtuale-frontend/src/lib/apiClient.ts:99-108 | a `Bearer` header is added iff the stored token is truthy |
| ApiClient.ChatAuthorization | psico-virtuale-frontend/src/lib/apiClient.ts:153 | the chat request always carries a `Bearer` header whose token is the stored one, or the text `null` when none is stored |
| ApiClient.BearerToken | psico-virtuale-frontend/src/lib/apiClient.ts:153 | a header has a token iff it starts with `Bearer `, and prefix plus token rebuild it |
| ApiClient.InterceptorRoundTrip | psico-virtuale-frontend/src/lib/apiClient.ts:103-105 | the token the interceptor attaches reads back unchanged |
| ApiClient.ChatHeaderWithoutToken | psico-virtuale-frontend/src/lib/apiClient.ts:153 | without a stored token the interceptor adds nothing, but the chat request sends the token text `null` |

## Left out

- Rendering, styling, toasts, console logging, audio playback and the simulated recording timer: presentation only.
- The persistence of the store in browser storage (`auth-storage`), and reading the token from it. The token is a parameter.
- `signOut`: the pages take it from the store, but the store never defines it, so it has no behaviour.
- Concurrency. The per-patient queries of `fetchPatients` run as `Promise.all` and are modelled as one sequential map. The other awaits inside `savePatientNote`, `fetchSessions`, `createNewSession` and `sendMessage` are single steps or two phases (`BeginSend`/`CompleteSend`), so other handlers cannot interleave inside them.
- PatientDashboard.Page.CreateNewSession: the source's `createNewSession` calls the `fetchSessions` of its own render, whose `!activeSession` test reads the active session from before the insert. When no session was active before, that fetch makes the first fetched row active and loads its messages after the new row was made active and the messages emptied. The model's `refetch` is followed by a `FetchSessions` that reads the current active session, which is the new row, so it changes nothing. The two agree when the first fetched row is the new one, the usual case under the `last_updated` descending order, but not otherwise; that stale read is not modelled.
- PatientDashboard.Page.BeginSend: the user's message is appended, the input cleared and `isSending` raised in one step. In the source the message-insert `await` comes between the append and the clearing, so pressing send again in that window appends and sends the same text twice; the model does not show that double send.
- The two-second cache timer: it is the explicit `Expire` step, not time.
- The database writes of `sendMessage` (the user's and the assistant's rows) and the result of the note update or insert: the source ignores their errors, so they change no page state.
- The recommendations fetched after messages load or after a reply (`fetchResources`), the mood history (`fetchMoodData`), `audio_url`, and the therapist's session analyses (summary, mood, pathology). These are display data outside the modelled state.
- `getMessages`, `getResources`, `addResource`, the mock data contents, and every `USE_MOCK_DATA` branch: the flag is constantly false.
- The request bodies and the error message text of `sendMessage`; a rejection is `Rejected` without its message.
- Date parsing and locale formatting: timestamps are integers of milliseconds and `now` is a parameter.
- The floating-point average of sessions per patient.
- TherapistDashboard.RoundHalfUp: exact rational rounding of the active-patient percentage; the source rounds a floating-point product, which can differ at exact halves.
- Text.ToLower: only ASCII and Latin-1 upper-case letters are folded. Other Unicode case mappings are not modelled.
- TherapistDashboard.DerivePatient: a last-session timestamp is always a number. The source's `|| null` for an empty or falsy timestamp is not modelled.
- `isLoading.saveNote`: it only disables the save button while a note is written.
- `isLoadingSessions`: while a session fetch runs the whole session list is replaced by a loading caption, so its entries cannot be seen or clicked in that window; the model's `FetchSessions` is one step, so that window does not exist in it.
