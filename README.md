# Lesson progression and login flow of a farmers' learning app

This project models, in Dafny, the client-side logic of a mobile learning app
for farmers, and proves properties of that model.

- **Lessons** (`lessons.dfy`) models the lesson list screen.
  - Lessons are fetched in the user's language with a two-tier fallback.
    Tier 1 asks for the default-language and localized columns. Tier 2 asks for
    the default-language columns only.
  - Each title and description is resolved: the localized text, else the
    default-language text, else a fixed placeholder.
  - Each lesson is labelled `completed`, `current` or `locked` from the user's
    completed lessons and the *frontier*. The frontier is the highest
    completed sequence number.
  - The screen groups the lessons into sections, sums the total score and
    sorts the completed lessons by descending sequence.
- **Login** (`login.dfy`) models the login screen.
  - The six-slot one-time-password overlay: slot entry, focus movement,
    completeness and the confirm button.
  - The resend countdown and the resend guard.
  - The guards that the login screen puts around sending and confirming the
    password.
- **Wrappers** (`wrappers.dfy`) holds `Option` and the store request
  `Outcome` (`Ok(value) | Err`).

How the model is built:

- The remote store is a value: the lessons table's columns (`schema`), its
  rows, and the completion table. A `Connectivity` value says whether each
  request of one fetch reaches the store. A request fails when it does not
  reach the store or names a column that the table lacks.
- `determineStatus`, `fetchLessonsAndProgress` and the in-place sort are
  methods with loops. Each is proved equal to a pure reference function
  (`Annotate`/`Frontier`, `Fetch`) or proved to sort.
- The properties are lemmas about those reference functions.
- Each overlay and login-screen handler that awaits the authentication
  service is split at its `await`. The start is one method. The continuation
  is another, and it takes the service's answer as a parameter. The countdown
  interval is an explicit `Tick()`.

Behaviour of the code that the model keeps as written:

- If both query tiers fail, the code returns an empty list with
  `lastCompletedId` 0 (and shows an alert). It does not return a distinct
  "unavailable" failure.
- `determineStatus` labels a lesson `completed` whenever its id is in the
  completed set, even for a guest. Guests see no completed lessons only
  because the fetch passes them an empty set (`FetchGuest`).
- Sequence numbers are not checked to be positive or unique. The model takes
  any integers, so the frontier is `Math.max` over whatever completed
  sequences exist. Uniqueness or contiguity is a hypothesis of the lemmas that
  need it.
- "Has a user" is JavaScript truthiness of the session's user id: present and
  non-empty (`HasUser`).

## Model

| member | source | states |
|---|---|---|
| Lessons.SeqMax | app/lessons.tsx:47 | `Math.max` of a non-empty list is an element of the list and is at least every element |
| Lessons.CompletedSequencesMembers | app/lessons.tsx:42-44 | a value is among the filtered sequences exactly when some lesson with a completed id has that sequence |
| Lessons.Frontier | app/lessons.tsx:39-49 | the frontier is non-zero only with a user, and then it is the sequence of a lesson whose id is completed |
| Lessons.HighestCompletedSequence | app/lessons.tsx:41-49 | the loop computes the maximum completed sequence, or 0 when no listed lesson is completed |
| Lessons.FrontierIsMaxCompleted | app/lessons.tsx:39-49 | the frontier is 0 without a user or without completed lessons; with a user it is at least the sequence of every completed lesson and equals the sequence of one of them |
| Lessons.StatusFor | app/lessons.tsx:51-63 | `completed` exactly when the id is completed; `current` exactly when it is not completed and its sequence is frontier + 1, so the `frontier == 0 && sequence == 1` branch adds nothing |
| Lessons.Annotate | app/lessons.tsx:51-64 | the labelled list has the input's length and order, each entry keeps its lesson data unchanged and adds only the status rule's status |
| Lessons.DetermineStatus | app/lessons.tsx:38-65 | the method's result is the input labelled with the status rule under the frontier of the completed lessons |
| Lessons.AtMostOneCurrent | app/lessons.tsx:55-61 | with distinct sequences, no two lessons are both `current` |
| Lessons.ContiguousProgression | app/lessons.tsx:51-61 | for sequences 1..N with exactly the first k completed (k < N): lessons 1..k are `completed`, lesson k+1 is `current`, the rest are `locked`; with k = 0 lesson 1 is current, for guests too |
| Lessons.ColumnInjective | app/lessons.tsx:75-78 | the column name `${field}_${lang}` determines the language |
| Lessons.SelectFields | app/lessons.tsx:84-95 | the tier-1 projection starts with the six base columns (with the default-language title and description), always covers the requested language's columns, and has two extra columns exactly when the language is not the default |
| Lessons.SafeFieldsAreDefaultOnly | app/lessons.tsx:113-115 | the tier-2 projection holds no title or description column of a non-default language, and tier 1 does request them |
| Lessons.LoadRows | app/lessons.tsx:97-129 | loaded rows are one per stored lesson; their language is the requested one or the default; each row holds only columns of the tier-1 projection for that language |
| Lessons.TierTwoSafety | app/lessons.tsx:110-128 | when the default-language query can run, a failing localized query still yields every stored lesson |
| Lessons.ResolveField | app/lessons.tsx:148-149 | the resolved text is never empty, and it is the placeholder or a stored localized or default-language value |
| Lessons.DefaultTextFallback | app/lessons.tsx:148-149 | a lesson whose only non-empty text is in the default language shows that text verbatim in every other language |
| Lessons.CleanRow | app/lessons.tsx:138-150 | a cleaned lesson keeps the row's id, sequence, points and theme, and its title and description are never empty |
| Lessons.CleanProjected | app/lessons.tsx:137-151 | projecting a row onto columns that include the ones resolution reads does not change the cleaned lesson |
| Lessons.AnnotatePreservesCompleted | app/lessons.tsx:155-160 | the sequences of the lessons labelled `completed` are the sequences of the lessons whose id is completed |
| Lessons.HighestCompletedStatusSequence | app/lessons.tsx:155-165 | the loop computes the maximum sequence among the lessons labelled `completed`, or 0 |
| Lessons.Fetch | app/lessons.tsx:70-168 | the fetch yields one lesson per stored row or, when both tiers fail, an empty list with 0; no lesson has an empty title or description |
| Lessons.FetchLessonsAndProgress | app/lessons.tsx:70-168 | the imperative fetch returns exactly the reference result `Fetch` |
| Lessons.FetchTiers | app/lessons.tsx:97-151 | both tiers fail: empty list and 0; otherwise one lesson per stored row, with the row's id, sequence, points and theme, and text resolved in the requested language after tier 1 or in the default language after tier 2 |
| Lessons.FetchGuest | app/lessons.tsx:132-165 | a guest, and a user whose completion request fails, get no `completed` lesson and `lastCompletedId` 0 |
| Lessons.FetchLastCompletedIsFrontier | app/lessons.tsx:153-167 | the returned `lastCompletedId` is the frontier that the labelling used; with a user it is the highest sequence among `completed` lessons, or 0 |
| Lessons.FindCurrent | app/lessons.tsx:244 | `find` returns the first `current` lesson, and nothing exactly when none is current |
| Lessons.WithStatus | app/lessons.tsx:245-246 | a status filter is no longer than the list and every lesson in it has that status |
| Lessons.WithStatusMembers | app/lessons.tsx:245-246 | a lesson is in a status filter exactly when it is in the list with that status |
| Lessons.WithStatusAppend | app/lessons.tsx:245-246 | the filters keep input order: the filter of a concatenation is the concatenation of the filters |
| Lessons.StatusesPartition | app/lessons.tsx:244-246 | the completed, current and locked filters together have as many lessons as the list |
| Lessons.SumPoints | app/lessons.tsx:247 | the points sum of lessons with non-negative points is non-negative |
| Lessons.TotalScoreIsCompletedPoints | app/lessons.tsx:245-247 | on a labelled list the total score is the sum of points of the lessons whose id is completed |
| Lessons.TotalScoreBounds | app/lessons.tsx:247 | with non-negative points the total score is between 0 and the sum of all points |
| Lessons.SortByDescendingSequence | app/lessons.tsx:299 | the in-place sort leaves the completed lessons ordered by descending sequence and is a permutation of them |
| Lessons.SinkStep | app/lessons.tsx:299 | one swap exchanges the out-of-place lesson with its predecessor, leaves every other entry in place and moves the unsorted gap one place left |
| Lessons.SinkLast | app/lessons.tsx:299 | one insertion step extends the sorted prefix by one element, permutes the array and leaves the entries after the prefix unchanged |
| Login.LastChar | app/login.tsx:111 | `slice(-1)` has at most one character, is empty only for empty input, and is the input's last character |
| Login.Join | app/login.tsx:130 | the joined code is empty exactly when every slot is empty |
| Login.JoinOfSingleChars | app/login.tsx:130 | joining six one-character slots gives a code of length six whose characters are the slots in order |
| Login.TicksSaturate | app/login.tsx:62-65 | after n ticks from t the timer reads t - n, or 0 once n >= t |
| Login.ResendCooldown | app/login.tsx:62-90 | after a resend restarts the timer at 30, it still runs (resend disabled) for 29 ticks and reads 0 (resend enabled) from the 30th tick on |
| Login.OtpOverlay.constructor | app/login.tsx:55-57 | six empty slots, timer 30, no resend in flight, focus on the first slot |
| Login.OtpOverlay.HandleOtpChange | app/login.tsx:69-78 | the buffer stays six long, slot i becomes the text and no other slot changes; focus moves to i+1 only for a one-character text with i < 5 |
| Login.OtpOverlay.OnChangeText | app/login.tsx:111 | typing writes only the last character, so a buffer whose slots hold at most one character keeps that property |
| Login.OtpOverlay.OnKeyPress | app/login.tsx:115-119 | backspace on an empty slot i > 0 moves the focus to slot i-1; anything else leaves the focus |
| Login.OtpOverlay.PressConfirm | app/login.tsx:124-130 | nothing is submitted unless the code is complete; then the submitted code has six characters, slot by slot |
| Login.OtpOverlay.Tick | app/login.tsx:63-65 | the timer steps down saturating at 0 and stays within 0..30 |
| Login.OtpOverlay.HandleResendOtp | app/login.tsx:80-83 | the handler acts exactly when resend is enabled, and then marks a resend in flight |
| Login.OtpOverlay.ResendReturned | app/login.tsx:84-85 | after the resend the in-flight flag is cleared, the timer restarts at 30, and resend is disabled again |
| Login.LoginScreen.constructor | app/login.tsx:152-156 | the form starts empty, with no overlay and nothing loading |
| Login.LoginScreen.SetMobileNo | app/login.tsx:263 | the number field takes the typed text |
| Login.LoginScreen.HandleSendOtp | app/login.tsx:161-178 | a send starts exactly when the send button's guard holds, sends `+91` and the number (13 characters), and sets loading; otherwise nothing changes |
| Login.LoginScreen.SendOtpReturned | app/login.tsx:169-175 | loading is cleared, and the overlay opens when the password was sent |
| Login.LoginScreen.HandleOtpConfirmation | app/login.tsx:182-190 | while loading it returns at once and changes nothing; otherwise it sets loading and asks to verify the code for `+91` and the number |
| Login.LoginScreen.VerifyReturned | app/login.tsx:192-218 | a sign-in returns the profile from the form to upsert and keeps loading; a verification error or a missing session clears loading; the overlay does not change |
| Login.LoginScreen.UpsertReturned | app/login.tsx:200-208 | once the upsert returns, whatever its result, loading is cleared and the overlay closes |
| Login.LoginScreen.CloseOverlay | app/login.tsx:306 | the overlay's close button hides the overlay |

## Left out

- The calls to the authentication service and the database (`getSession`, `select`, `signInWithOtp`, `verifyOtp`, the profile upsert) are foreign SDK calls. Their results are parameters: the session user id, the `Store` with its `Connectivity` flags, `sent`, and the `VerifyOutcome`.
- The database sorts lesson rows (`.order('sequence')`). The model takes the stored rows to be in that order already.
- Alerts, console logging, navigation (`router.push`/`replace`), styles, SVG components and rendering are user interface only.
- The `setInterval` countdown and the `useEffect`/`useCallback` reload triggers are scheduling. Time is the explicit `Tick()`. Reloads are separate calls of the fetch. The `if (!language) return` guard of the reload is not modelled.
- `handleResendOTPFromOverlay` only sends the password again and shows an alert. The overlay's resend needs nothing from it.
- Completing a lesson and paying out its reward (the completion insert and the coin and XP updates) live in app/lesson/[id].tsx:120-146. The reward screen app/reward/[id].tsx only shows the reward and navigates. Neither file is part of this model.
- The translation table and the language screen hold static data and do I/O. Only `DEFAULT_LANGUAGE = 'en'` (constants/translations.ts:252) is used.
- JavaScript numbers are modelled as unbounded integers. Floating-point values, `NaN` and non-numeric column values are not modelled.
- The full name and AgriStack id fields are only stored and passed to the profile upsert (`VerifyReturned`). Their setters are not modelled.
- The overlay is mounted afresh each time `showOtpOverlay` becomes true (app/login.tsx:303-310), and unmounting clears its interval (app/login.tsx:66). `Login.OtpOverlay.constructor` stands for each mount. The two classes are not linked: the code that `PressConfirm` submits is passed to `HandleOtpConfirmation` by the caller.
- Login.LoginScreen.SetMobileNo: accepts any text. The number field's `maxLength={10}` (app/login.tsx:261) caps it at 10 characters, which is not modelled; `HandleSendOtp` checks the length either way.
- The race of a second tap before React re-renders the guards is not modelled. The `isResending` and `isLoading` handlers read the current state.
- SortByDescendingSequence: proves sortedness and permutation but not the stability of JavaScript's `sort`. Stability only matters for equal sequences.
- Login.LoginScreen.HandleSendOtp: the guard checks only the length, as the code does. Whether the characters are digits is left to the numeric keyboard, which is not modelled.
- Login.LoginScreen.HandleSendOtp: JavaScript's `length` counts UTF-16 code units, while a Dafny string counts characters. The two agree on the digits the numeric keyboard produces (one code unit each); a number typed with characters outside the Basic Multilingual Plane is not modelled.
- Login.LastChar: `slice(-1)` takes the last UTF-16 code unit, while the model takes the last character. They agree on digits and other characters of the Basic Multilingual Plane; half of a surrogate pair is not modelled.
