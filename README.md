# HoopScoop client core, modelled in Dafny

HoopScoop is a React single-page client for a basketball blog with live NBA scores. Almost
everything it does goes through `fetch` to an external API; this project models the
deterministic logic around those calls and proves what it promises:

- the live-score ticker (`LiveScores.jsx`): the clock label, the scroll-duration clamp, the
  live → final → upcoming concatenation, and the polling state machine with its abort
  controller, interval timer, visibility handling and unmount cleanup;
- the date-scoped scores page (`Scores.jsx`): date keys (`YYYY-MM-DD`) and calendar
  stepping, the Today / Yesterday / Tomorrow label, the winner flags of a game card, what
  the page shows, and its fetch cycle and date navigation;
- the client-side state rules: the session kept by the auth context (cookie rehydration
  against the token's `exp` claim, login, logout), the route guards and the route table,
  the admin dashboard's list updates and counts, the home feed search, the sign-up and
  e-mail verification forms, the comment box, the post page's like and comment updates,
  and the edit page's ownership check.

Each component whose state changes step by step is a `class` whose fields are its state
cells; its methods are the event handlers, split at each `await` into a method that starts
the request and one that receives its outcome. The outcome of a request is the datatype
`Response` (`Ok(data)`, `HttpError(message)`, `TransportError`, `Aborted`). The live-score
poller is additionally stated as a pure transition function `StepWith` over a `Poller`
value, taking as a flag whether `startInterval` runs as written or corrected (it clears
the interval it replaces), so that its invariants and its properties over event sequences
can be proved as lemmas for either form; the class methods are proved to perform exactly
those steps for the form the instance was created with.

Modules: `Common` (optional values, responses, digits, strings), `Games` (the score
snapshot shared by both score views), `LiveScores`, `DateKeys`, `ScoresPage`,
`AuthContext`, `AppRoutes`, `AdminDashboard`, `Home`, `Signup`, `VerifyEmail`, `Comments`,
`PostDetail`, `EditPost`.

## Model

| member | source | states |
|---|---|---|
| Common.OrDefault | src/pages/Signup.jsx:48 | `m \|\| d` on an optional string: the message when it is truthy, the default otherwise |
| Common.NatToString | src/pages/Scores.jsx:7-9 | `String(n)`: at least one character, all digits, no leading zero, one digit exactly below 10 |
| Common.DigitsValueOfNatToString | src/pages/Scores.jsx:7-9 | reading back the decimal text of `n` gives `n` |
| Common.NatToStringOfDigitsValue | src/pages/Scores.jsx:7-9 | a digit string without leading zero is the decimal text of its value |
| Common.NatToStringInjective | src/pages/Scores.jsx:7-9 | different numbers print differently |
| Common.IntToStringInjective | src/context/components/LiveScores.jsx:77 | different integers, signs included, print differently |
| Common.ToLower | src/pages/Home.jsx:39-40 | same length; each ASCII capital becomes its small letter, every other character is kept |
| Common.ContainsIffWindow | src/pages/Home.jsx:39-40 | `hay.includes(needle)` holds exactly when some window of `hay` equals `needle` |
| Common.ToLowerIdempotent | src/pages/Home.jsx:39-40 | lower-casing twice is lower-casing once |
| Common.SubsequenceLength | src/pages/Home.jsx:38-41 | a subsequence is never longer than the sequence |
| Common.SubsequenceSkip | src/pages/AdminDashboard.jsx:86 | dropping an element of the longer sequence keeps the subsequence relation |
| Games.FormatClock | src/context/components/LiveScores.jsx:75-79 | empty exactly for a falsy period; begins `Q` exactly for periods up to 4 and `O` (overtime) above |
| Games.FormatClockRoundTrip | src/context/components/LiveScores.jsx:75-79 | the label parses back to its period and to the clock if and only if the clock was truthy, so `Q<p>`, `OT<p-4>` and ` · <clock>` are as specified and no two inputs collide |
| Games.ParseIntOfIntToString | src/context/components/LiveScores.jsx:77 | the period text parses back to the period |
| Games.AllGames | src/context/components/LiveScores.jsx:216-218 | empty without a snapshot; otherwise live, final and upcoming in that order, a missing list counting as empty, each block in its own order, length the sum |
| Games.AllGamesOrderedByStatus | src/pages/Scores.jsx:205-207 | when each list holds its own status, the concatenation is ordered live before final before upcoming |
| LiveScores.ScrollDuration | src/context/components/LiveScores.jsx:100-103 | always within 20000..80000; equals `n*8000` exactly for 3 ≤ n ≤ 10; the minimum for n ≤ 2, the maximum for n ≥ 10 |
| LiveScores.ScrollDurationMonotone | src/context/components/LiveScores.jsx:100-103 | more chips never scroll faster |
| LiveScores.Ticker | src/context/components/LiveScores.jsx:219-269 | loading text while loading, empty text when there are no games, otherwise the games twice over with the duration of one copy's count |
| LiveScores.InitialValid | src/context/components/LiveScores.jsx:183-205 | the freshly created component satisfies both the request and the timer invariant |
| LiveScores.StepKeepsRequests | src/context/components/LiveScores.jsx:160-212 | as written and corrected, every event keeps the request invariant: requests and aborts only of created controllers, every earlier controller aborted, nothing before mount, no snapshot while loading |
| LiveScores.RunKeepsRequests | src/context/components/LiveScores.jsx:160-212 | as written and corrected, the request invariant holds after any sequence of events |
| LiveScores.StepPreservesValid | src/context/components/LiveScores.jsx:160-212 | with the corrected startInterval, every event keeps the full invariant: every earlier controller aborted, at most one interval scheduled and it is the one `intervalRef` holds, nothing scheduled after unmount |
| LiveScores.RunPreservesValid | src/context/components/LiveScores.jsx:160-212 | with the corrected startInterval, the full invariant holds after any sequence of events |
| LiveScores.AtMostOneLiveRequest | src/context/components/LiveScores.jsx:162-164 | in any state meeting the request invariant, at most one request is outstanding and not aborted, and it is the latest |
| LiveScores.ReachableAtMostOneLiveRequest | src/context/components/LiveScores.jsx:162-164 | in every state reached from mount by any events, as written or corrected, at most one request is live and it is the latest |
| LiveScores.OnlyLatestRequestStores | src/context/components/LiveScores.jsx:162-175 | as written and corrected, the completion of any request but the latest leaves the snapshot unchanged |
| LiveScores.SupersededCompletionIgnored | src/context/components/LiveScores.jsx:162-175 | as written and corrected, once a tick starts a new fetch no earlier request's completion changes the snapshot |
| LiveScores.LatestSuccessStores | src/context/components/LiveScores.jsx:171-178 | as written and corrected, the latest request's success while mounted stores its data and ends loading |
| LiveScores.FailedFetchKeepsScores | src/context/components/LiveScores.jsx:171-179 | as written and corrected, an HTTP error, transport error or abort keeps the previous snapshot; a completion while mounted ends loading |
| LiveScores.MountFetchesOnce | src/context/components/LiveScores.jsx:183-205 | as written and corrected, mounting issues exactly one request and schedules exactly one interval |
| LiveScores.HidingStopsPolling | src/context/components/LiveScores.jsx:190-197 | as written and corrected, going hidden clears the interval `intervalRef` holds and nulls the ref without a request; from a state meeting the full invariant nothing remains scheduled and no tick fetches |
| LiveScores.ShowingFetchesOnceAndResumes | src/context/components/LiveScores.jsx:198-201 | becoming visible issues exactly one request and schedules one new interval held by `intervalRef`; as written the earlier intervals stay scheduled beside it, corrected it is the only one |
| LiveScores.UnmountQuiesces | src/context/components/LiveScores.jsx:207-212 | as written and corrected, after unmount no event changes scores, loading or the scheduled intervals, and with none scheduled no event issues a request |
| LiveScores.CorrectedUnmountQuiesces | src/context/components/LiveScores.jsx:207-212 | with the corrected startInterval, unmount leaves nothing scheduled and no later event issues a request |
| LiveScores.LeakedIntervalAsWritten | src/context/components/LiveScores.jsx:183-212 | as written, mount while hidden then show leaves two intervals; hiding again leaves the first firing, and after unmount it is still scheduled and its tick still fetches |
| LiveScores.NoLeakCorrected | src/context/components/LiveScores.jsx:186-212 | with `startInterval` clearing first, the same events leave nothing scheduled |
| LiveScores.LiveScoresTicker.constructor | src/context/components/LiveScores.jsx:154-157 | the initial state cells and refs, with the chosen form of startInterval |
| LiveScores.LiveScoresTicker.FetchScores | src/context/components/LiveScores.jsx:160-165 | aborts the previous controller, creates the next, and issues its request |
| LiveScores.LiveScoresTicker.StopTimer | src/context/components/LiveScores.jsx:190-193 | cancels the interval `intervalRef` holds and nulls the ref |
| LiveScores.LiveScoresTicker.StartTimer | src/context/components/LiveScores.jsx:186-188 | as written schedules a fresh interval and overwrites the ref; corrected it clears the held one first |
| LiveScores.LiveScoresTicker.OnMount | src/context/components/LiveScores.jsx:183-205 | performs the mount step of the chosen form |
| LiveScores.LiveScoresTicker.OnTick | src/context/components/LiveScores.jsx:187 | a scheduled interval's tick fetches; others do nothing |
| LiveScores.LiveScoresTicker.OnVisibilityChange | src/context/components/LiveScores.jsx:195-202 | performs the visibility step of the chosen form |
| LiveScores.LiveScoresTicker.OnComplete | src/context/components/LiveScores.jsx:166-179 | performs the completion step: store on success unless aborted, always end loading |
| LiveScores.LiveScoresTicker.OnUnmount | src/context/components/LiveScores.jsx:207-212 | stops the held interval and aborts the pending request |
| DateKeys.DaysInMonth | src/pages/Scores.jsx:20-24 | every month has 28 to 31 days in the proleptic Gregorian calendar |
| DateKeys.PadStart2 | src/pages/Scores.jsx:8-9 | `padStart(2, '0')`: a string of two or more is kept, a shorter one is left-filled with zeros to two |
| DateKeys.TwoDigits | src/pages/Scores.jsx:8-9 | month or day as exactly two digits whose value is the number |
| DateKeys.ToDateStr | src/pages/Scores.jsx:6-11 | the year's text, `-`, the 1-based month in two digits, `-`, the day in two digits |
| DateKeys.ToDateStrInjective | src/pages/Scores.jsx:6-11 | distinct days have distinct keys |
| DateKeys.ParseToDateStr | src/pages/Scores.jsx:6-24 | a four-digit-year key parses back to its date |
| DateKeys.ToDateStrOfParse | src/pages/Scores.jsx:21-23 | every key that parses prints back to itself |
| DateKeys.NextDay | src/pages/Scores.jsx:22 | a valid later day; the last day of a month rolls to day 1, 31 December to 1 January of the next year |
| DateKeys.PrevDay | src/pages/Scores.jsx:22 | a valid earlier day; day 1 rolls back to the previous month's last day, 1 January to 31 December |
| DateKeys.NextDayIsSuccessor | src/pages/Scores.jsx:22 | no valid day lies strictly between a day and the next |
| DateKeys.PrevDayIsPredecessor | src/pages/Scores.jsx:22 | no valid day lies strictly between the previous day and a day |
| DateKeys.PrevNextInverse | src/pages/Scores.jsx:22 | one day forward and back (and back and forward) is the identity |
| DateKeys.Shift | src/pages/Scores.jsx:22 | `setDate(getDate() + n)` lands on a valid day |
| DateKeys.ShiftAdd | src/pages/Scores.jsx:22 | shifting by a then by b is shifting by a + b |
| DateKeys.AddDaysZero | src/pages/Scores.jsx:20-24 | `addDays(s, 0) == s` |
| DateKeys.AddDaysRoundTrip | src/pages/Scores.jsx:20-24 | `addDays(addDays(s, n), -n) == s` |
| DateKeys.AddDaysOneChanges | src/pages/Scores.jsx:20-24 | one day forward, one day back and the key itself are three different keys |
| ScoresPage.FriendlyDate | src/pages/Scores.jsx:26-35 | Today, Yesterday, Tomorrow exactly when the key is today's, then `addDays(today, ±1)`, tested in that order; any other key is formatted |
| ScoresPage.FriendlyDateCalendar | src/pages/Scores.jsx:26-32 | Yesterday exactly for the previous calendar day's key and Tomorrow exactly for the next day's |
| ScoresPage.Winners | src/pages/Scores.jsx:60-61 | a flag is only ever set on a final game, never both, neither on a tie, and on a decided final exactly the leader's |
| ScoresPage.SectionFor | src/pages/Scores.jsx:361-391 | a section exists exactly for a non-empty list and counts its games |
| ScoresPage.View | src/pages/Scores.jsx:336-402 | skeletons while loading, the empty state exactly when not loading with all lists empty, the sections otherwise; "Back to Today" exactly when away from today |
| ScoresPage.ScoresPage.constructor | src/pages/Scores.jsx:182-203 | starts on today's key, loading, with one request for today |
| ScoresPage.ScoresPage.FetchScores | src/pages/Scores.jsx:187-191 | clears the scores and sets loading before each request |
| ScoresPage.ScoresPage.OnResponse | src/pages/Scores.jsx:192-198 | stores the body only on a 2xx and always ends loading |
| ScoresPage.ScoresPage.SetDate | src/pages/Scores.jsx:201-203 | a changed key triggers exactly one refetch; the same key changes nothing |
| ScoresPage.ScoresPage.Prev | src/pages/Scores.jsx:255 | moves the key one day back and refetches |
| ScoresPage.ScoresPage.Next | src/pages/Scores.jsx:293 | moves the key one day forward and refetches |
| ScoresPage.ScoresPage.BackToToday | src/pages/Scores.jsx:313-316 | offered only away from today; returns to today's key and refetches |
| ScoresPage.NextFromTodayMoves | src/pages/Scores.jsx:290-293 | from today's key (any four-digit year), "Next" lands on a different key, so the date effect refetches |
| ScoresPage.FailedFetchShowsNoGames | src/pages/Scores.jsx:187-199 | after a successful day, a failed fetch of the next day shows the empty state, not the earlier games |
| AuthContext.UserFromClaims | src/context/AuthContext.jsx:30 | the session user is the claims' id, email and role |
| AuthContext.Rehydrate | src/context/AuthContext.jsx:22-39 | no saved token leaves everything; a saved token is accepted exactly when it decodes and `exp*1000 > now`, and discarded otherwise |
| AuthContext.ExpiryIsStrict | src/context/AuthContext.jsx:27 | a token exactly at its expiry instant is rejected |
| AuthContext.InitialSession | src/context/AuthContext.jsx:17-19 | no user, no token, loading, the browser's cookies |
| AuthContext.RehydrateStep | src/context/AuthContext.jsx:22-41 | loading ends on every branch; acceptance sets token and user to the accepted ones and keeps the cookies; rejection removes the cookie and sets neither; no saved token changes only loading |
| AuthContext.LoginStep | src/context/AuthContext.jsx:44-49 | the cookie holds the token; when it decodes, token and user are set from it; when decoding throws, the cookie is already written and the state cells are untouched |
| AuthContext.LogoutStep | src/context/AuthContext.jsx:51-55 | the cookie is removed and token and user are null; every other cookie and the loading flag are kept |
| AuthContext.LogoutIdempotent | src/context/AuthContext.jsx:51-55 | logging out twice is logging out once |
| AuthContext.LoginThenRehydrate | src/context/AuthContext.jsx:22-49 | a reload after login, before expiry, restores the same user and token |
| AuthContext.AuthProvider.constructor | src/context/AuthContext.jsx:16-19 | starts in the initial session, where user is present exactly when token is |
| AuthContext.AuthProvider.OnMount | src/context/AuthContext.jsx:22-41 | performs the rehydration step and keeps user present exactly when token is |
| AuthContext.AuthProvider.Login | src/context/AuthContext.jsx:44-49 | performs the login step; reports whether decoding succeeded |
| AuthContext.AuthProvider.Logout | src/context/AuthContext.jsx:51-55 | performs the logout step |
| AppRoutes.ProtectedRoute | src/App.jsx:16-23 | nothing while loading, a redirect to `/login` without a user, the children with one |
| AppRoutes.AdminRoute | src/App.jsx:25-35 | nothing while loading, `/login` without a user, `/` for a non-admin, the children exactly for an admin |
| AppRoutes.AdminImpliesProtected | src/App.jsx:16-35 | whenever the admin guard shows its children, the protected guard would too |
| AppRoutes.GuardsDifferOnlyOnRole | src/App.jsx:16-35 | the two guards differ exactly on a signed-in non-admin |
| AppRoutes.PublicHome | src/App.jsx:37-41 | nothing while loading, the feed with a user, the landing page without |
| AppRoutes.Lookup | src/App.jsx:57-110 | a found route is in the table with that pattern; none found means no route has it |
| AppRoutes.Render | src/App.jsx:57-110 | a pattern renders something exactly when the table has it, and then what its route's guard decides |
| AppRoutes.LookupEachRoute | src/App.jsx:57-110 | every route of the table is found by its own pattern |
| AppRoutes.ProtectedRoutes | src/App.jsx:59-101 | `/home`, `/post/:id`, `/create`, `/my-posts`, `/edit/:id` are protected |
| AppRoutes.OtherRoutes | src/App.jsx:57-110 | `/admin/dashboard` is admin-only, `/login`, `/signup`, `/verify-email` are open, `/` chooses its page itself |
| AppRoutes.AllRoutesFit | src/App.jsx:57-110 | every route's guard fits its page |
| AppRoutes.FittingRouteNeedsSession | src/App.jsx:16-41 | through a guard that fits its page, a members' page shows only with a session user and the dashboard only for an admin |
| AppRoutes.GuardedPagesNeedSession | src/App.jsx:16-110 | no members' page renders without a session user, and the dashboard only for an admin |
| AdminDashboard.RemoveById | src/pages/AdminDashboard.jsx:86-144 | keeps exactly the posts whose `_id` and `id` both differ from the target, in their original order |
| AdminDashboard.RemoveByIdCount | src/pages/AdminDashboard.jsx:86-144 | kept and removed posts add up to the whole list |
| AdminDashboard.RemoveByIdIdempotent | src/pages/AdminDashboard.jsx:86-144 | removing the same id twice removes nothing more |
| AdminDashboard.RemoveByIdNoMatch | src/pages/AdminDashboard.jsx:86-144 | a list without the id is left as it was |
| AdminDashboard.ToggleRole | src/pages/AdminDashboard.jsx:159 | ADMIN becomes USER, any other role becomes ADMIN |
| AdminDashboard.ToggleRoleTwice | src/pages/AdminDashboard.jsx:159 | on ADMIN and USER, toggling twice is the identity |
| AdminDashboard.SetRole | src/pages/AdminDashboard.jsx:183-187 | same length and order; exactly the rows with the target `_id` change, and only in their role |
| AdminDashboard.AdminCount | src/pages/AdminDashboard.jsx:199 | the number of ADMIN rows, at most the number of users |
| AdminDashboard.VerifiedCount | src/pages/AdminDashboard.jsx:200 | the number of verified rows, at most the number of users |
| AdminDashboard.CountsAppend | src/pages/AdminDashboard.jsx:199-200 | both counts add up over any split of the user list |
| AdminDashboard.PromoteCount | src/pages/AdminDashboard.jsx:183-199 | a promotion raises the admin count by exactly the rows it promoted |
| AdminDashboard.SetRoleKeepsVerified | src/pages/AdminDashboard.jsx:183-200 | a role change never changes the verified count |
| AdminDashboard.RoleChangeEffect | src/pages/AdminDashboard.jsx:159-187 | after a role change the target's rows show the toggled role and the verified count is unchanged |
| AdminDashboard.SessionUserProp | src/context/AuthContext.jsx:30 | the session user object has `id`, `email` and `role`; `_id` reads undefined |
| AdminDashboard.SelfDemotionGuardIneffective | src/pages/AdminDashboard.jsx:361-365 | as written, every row not being updated is enabled, the administrator's own included |
| AdminDashboard.OwnRowEnabledAsWritten | src/pages/AdminDashboard.jsx:361-365 | as written, an administrator can demote themself |
| AdminDashboard.RoleButtonDisabled | src/pages/AdminDashboard.jsx:361-365 | corrected: disabled exactly on the row being updated and on the signed-in administrator's own row |
| AdminDashboard.PostButtonsDisabled | src/pages/AdminDashboard.jsx:296-310 | never while idle; disabled exactly while an action on the same `_id` is in flight |
| AdminDashboard.PageRedirects | src/pages/AdminDashboard.jsx:18-20 | the page renders only for a signed-in administrator |
| AdminDashboard.StatCards | src/pages/AdminDashboard.jsx:199-224 | "…" exactly while the list loads; otherwise the post count, the user count, the admin count and the verified count, the last two at most the user count |
| AdminDashboard.Dashboard.constructor | src/pages/AdminDashboard.jsx:11-16 | empty lists, both loading, nothing processing |
| AdminDashboard.Dashboard.OnMount | src/pages/AdminDashboard.jsx:60-65 | both lists are fetched exactly when a token is present, each raising its loading flag |
| AdminDashboard.Dashboard.OnPendingPosts | src/pages/AdminDashboard.jsx:23-38 | a 2xx stores the list; loading ends on every path; nothing else changes |
| AdminDashboard.Dashboard.OnUsers | src/pages/AdminDashboard.jsx:43-58 | a 2xx stores the users; loading ends on every path; nothing else changes |
| AdminDashboard.Dashboard.StartPostAction | src/pages/AdminDashboard.jsx:70-132 | approve and reject always send, delete only when confirmed; a send marks the clicked `_id` as processing, a declined delete changes nothing |
| AdminDashboard.Dashboard.FinishPostAction | src/pages/AdminDashboard.jsx:84-151 | success removes the target from the list, failure keeps it; processing is cleared whatever the outcome |
| AdminDashboard.Dashboard.StartRoleChange | src/pages/AdminDashboard.jsx:158-167 | a confirmed change marks the row as updating, a declined one changes nothing |
| AdminDashboard.Dashboard.FinishRoleChange | src/pages/AdminDashboard.jsx:181-194 | success gives the target's rows the toggled role; the updating mark is cleared on every path |
| Home.FilterPosts | src/pages/Home.jsx:38-41 | a post is kept exactly when its title or summary includes the term ignoring case, in order, with every copy of a matching post kept and none of another |
| Home.EmptyTermKeepsAll | src/pages/Home.jsx:38-41 | an empty search term keeps every post |
| Home.FilterIgnoresTermCase | src/pages/Home.jsx:38-41 | lower-casing the term first changes nothing |
| Home.FilterIdempotent | src/pages/Home.jsx:38-41 | filtering twice by a term is filtering once |
| Home.View | src/pages/Home.jsx:65-80 | skeletons while loading, the filtered cards when any match, the no-match text with the term otherwise |
| Home.HomePage.constructor | src/pages/Home.jsx:9-11 | no posts, loading, empty search |
| Home.HomePage.OnToken | src/pages/Home.jsx:14-35 | a request exactly when a token is present; without one, loading ends and posts stay as they are |
| Home.HomePage.OnResponse | src/pages/Home.jsx:22-31 | a 2xx stores the posts, an error keeps them; loading ends |
| Home.HomePage.Search | src/pages/Home.jsx:11-47 | the search bar sets the term only |
| Signup.HandleChange | src/pages/Signup.jsx:12-14 | only the named field changes |
| Signup.Validate | src/pages/Signup.jsx:20-28 | no error exactly for matching passwords of at least six characters; a mismatch reports the mismatch first, length only for a matching pair |
| Signup.StartSubmit | src/pages/Signup.jsx:20-37 | a request exactly when validation passes, carrying only the email and password |
| Signup.OnRegistered | src/pages/Signup.jsx:42-56 | a 2xx goes to the verification page with the email; an HTTP error shows its message or "Registration failed"; a failure shows the generic text |
| Signup.ValidFormSendsTypedPassword | src/pages/Signup.jsx:20-37 | a valid form sends the password typed in both fields |
| Signup.TypingBothFieldsValidates | src/pages/Signup.jsx:12-28 | typing the same six-or-more-character password into both fields makes any form valid |
| Signup.SignupPage.constructor | src/pages/Signup.jsx:7-8 | an empty form and no error |
| Signup.SignupPage.Change | src/pages/Signup.jsx:12-14 | applies `HandleChange` to the form |
| Signup.SignupPage.Submit | src/pages/Signup.jsx:16-37 | clears the error, then either shows the validation error or sends the body |
| Signup.SignupPage.OnResponse | src/pages/Signup.jsx:42-56 | navigates on success, sets the error text otherwise |
| VerifyEmail.StripNonDigits | src/pages/VerifyEmail.jsx:163 | all digits; exactly the digits of the input, in order |
| VerifyEmail.StripKeepsDigits | src/pages/VerifyEmail.jsx:163 | an all-digit input passes unchanged |
| VerifyEmail.StripIdempotent | src/pages/VerifyEmail.jsx:163 | stripping twice is stripping once |
| VerifyEmail.OnVerified | src/pages/VerifyEmail.jsx:35-56 | `login` only with a truthy token; the feed only when that login succeeds; a 2xx without token neither logs in nor navigates; an HTTP error shows its message or "Verification failed"; a throwing login shows the generic text |
| VerifyEmail.VerifyEmailPage.constructor | src/pages/VerifyEmail.jsx:9-13 | the email from the navigation state or empty; empty code, not loading |
| VerifyEmail.VerifyEmailPage.ChangeOtp | src/pages/VerifyEmail.jsx:163 | the stored code is always all digits |
| VerifyEmail.VerifyEmailPage.Submit | src/pages/VerifyEmail.jsx:15-31 | a code of any length but six sets "OTP must be 6 digits", ends loading and sends nothing; six sends the email and code |
| VerifyEmail.VerifyEmailPage.OnVerifyResponse | src/pages/VerifyEmail.jsx:33-57 | performs the login step exactly when `OnVerified` hands over a token; loading is false on every path |
| VerifyEmail.VerifyEmailPage.Resend | src/pages/VerifyEmail.jsx:59-70 | a request exactly when the email is not empty |
| VerifyEmail.VerifyEmailPage.OnResendResponse | src/pages/VerifyEmail.jsx:74-77 | success clears the code and the error; failure changes nothing |
| Comments.TrimStart | src/context/components/Comments.jsx:12 | removes exactly the leading JavaScript whitespace |
| Comments.TrimEnd | src/context/components/Comments.jsx:12 | removes exactly the trailing JavaScript whitespace |
| Comments.BlankIffAllWhitespace | src/context/components/Comments.jsx:12 | the trimmed text is empty exactly when every character is whitespace |
| Comments.AuthorLabel | src/context/components/Comments.jsx:77 | the author's email, or "Anonymous" |
| Comments.Reverse | src/context/components/Comments.jsx:71 | same length, element i is the input's element from the end |
| Comments.ReverseTwice | src/context/components/Comments.jsx:71 | reversing twice is the identity |
| Comments.AppendedShownFirst | src/context/components/Comments.jsx:71 | an appended comment is shown first, the rest in the previous display order |
| Comments.View | src/context/components/Comments.jsx:5-71 | the heading counts the comments, the notice shows exactly for none, the list is reversed; no prop means no comments |
| Comments.CommentBox.constructor | src/context/components/Comments.jsx:7-8 | empty text, not submitting |
| Comments.CommentBox.Change | src/context/components/Comments.jsx:48 | sets the text |
| Comments.CommentBox.Submit | src/context/components/Comments.jsx:12-24 | blank text sends nothing and changes nothing; otherwise sets submitting and sends the text untrimmed |
| Comments.CommentBox.OnResponse | src/context/components/Comments.jsx:25-37 | success passes the comment to the parent and clears the text, failure keeps it; submitting ends |
| PostDetail.ReplaceLikes | src/pages/PostDetail.jsx:44 | only `likes` changes; a null post spreads to an empty one |
| PostDetail.AppendComment | src/pages/PostDetail.jsx:52-57 | the comment is appended at the end of the loaded post's list, to an empty list if there was none; every other field is unchanged |
| PostDetail.LikeCount | src/pages/PostDetail.jsx:134 | the likes, or 0 when absent |
| PostDetail.AuthorLabel | src/pages/PostDetail.jsx:116 | the author's email, or "HoopScoop Admin" |
| PostDetail.AddedCommentShownFirst | src/pages/PostDetail.jsx:52-161 | an added comment is shown first and the heading counts one more |
| PostDetail.LikesAndCommentsIndependent | src/pages/PostDetail.jsx:44-57 | a like and a comment commute, and a comment leaves the like count alone |
| PostDetail.PostDetailPage.constructor | src/pages/PostDetail.jsx:11 | no post yet |
| PostDetail.PostDetailPage.OnLoad | src/pages/PostDetail.jsx:19-27 | a 401 or 403 redirects to `/login` and keeps the post; a non-null body is stored |
| PostDetail.PostDetailPage.OnLikeResponse | src/pages/PostDetail.jsx:38-44 | a 401 or 403 redirects and keeps the post; a body replaces the likes |
| PostDetail.PostDetailPage.OnCommentAdded | src/pages/PostDetail.jsx:52-57 | appends the comment |
| EditPost.OnLoaded | src/pages/EditPost.jsx:28-50 | the form is filled exactly when the load succeeds and the user is the author or an administrator, with exactly the post's five fields; every other path leaves for `/my-posts` |
| EditPost.HandleChange | src/pages/EditPost.jsx:58-60 | only the named field changes |
| EditPost.SuccessMessage | src/pages/EditPost.jsx:75-77 | "Post updated successfully!" exactly for an administrator, the approval message for anyone else |
| EditPost.AuthorCanEdit | src/pages/EditPost.jsx:30 | the author can always edit their post |
| EditPost.OrphanPostAdminOnly | src/pages/EditPost.jsx:30 | a post without an author id is editable by administrators only |
| EditPost.EditPostPage.constructor | src/pages/EditPost.jsx:10-17 | loading, blank form |
| EditPost.EditPostPage.OnMount | src/pages/EditPost.jsx:55 | a fetch exactly when both token and route id are truthy |
| EditPost.EditPostPage.OnLoad | src/pages/EditPost.jsx:28-52 | fills the form or leaves for `/my-posts`; loading ends after any completed fetch |
| EditPost.EditPostPage.Change | src/pages/EditPost.jsx:58-60 | applies `HandleChange` to the form |
| EditPost.EditPostPage.Submit | src/pages/EditPost.jsx:62-71 | the request body is the whole form |
| EditPost.EditPostPage.OnUpdated | src/pages/EditPost.jsx:73-80 | a 2xx shows the role's message and returns to `/my-posts`; anything else stays |

## Left out

- HTTP, JSON and status codes: each request's result is an abstract `Response` (or, for the post page, its 401/403 distinction); what the server does is not modelled.
- Time: the poll interval's 60 s is a constant only; ticks and completions are explicit events in one sequence, so real concurrency and timing are not modelled.
- The wall clock and time zone: `todayET` is replaced by a `now` date parameter; `Date.now()` in the session check by a `now` parameter.
- Locale formatting (`toLocaleDateString`, `toLocaleTimeString`): the formatted day label is kept as its key; `formatKickoff` and `formatLastUpdated` are not modelled, and the kickoff text is shown raw.
- `jwtDecode` is a parameter, a partial function from token to claims; the cookie store is a map; the cookie's `maxAge` and its other options are not modelled.
- `window.confirm` is a boolean input; toasts and console output are not modelled, except the edit page's success message.
- React scheduling: setters apply at once, and an effect's work is the method that the event calls. A state update after unmount is a no-op only for the live-score poller.
- ScoresPage.ScoresPage.OnResponse: the page has no cancellation, so which date's response arrives last decides what is shown; the model makes no latest-request claim for this page.
- Stale responses on the other pages (home feed, post page, edit page) are not ordered either: each completion is applied when it arrives.
- StepPreservesValid: the timer half of the invariant (one interval, the one `intervalRef` holds, none after unmount) holds only with the corrected `startInterval`; as written, mounting hidden and then showing schedules two intervals. The request half holds as written too (StepKeepsRequests).
- RunPreservesValid: for the same reason, only for the corrected form; RunKeepsRequests is the as-written counterpart for the request half.
- HidingStopsPolling: "nothing remains scheduled and no tick fetches" is proved only from the corrected-form invariant; as written an interval leaked by an earlier show keeps firing while hidden (LeakedIntervalAsWritten).
- ShowingFetchesOnceAndResumes: that the new interval is the only one scheduled holds only for the corrected form; as written the lemma states that the earlier intervals remain.
- CorrectedUnmountQuiesces: only for the corrected form; as written a leaked interval keeps issuing requests after unmount (LeakedIntervalAsWritten).
- AuthContext.Claims: the `id`, `email` and `role` claims are always strings and `exp` an integer; a token missing a claim (whose `user.id` is then `undefined`, which makes the edit page's ownership test pass for a non-administrator on a post without `authorId`) and a fractional NumericDate are not modelled.
- PostDetail.AppendComment: requires a loaded post; with a null post the updater would throw, which cannot happen because the comment box is rendered only once the post is loaded.
- DateKeys.ParseDateKey accepts only four-digit years; the engine's lenient date parsing of other strings is not modelled, and every key it rejects prints as `NaN-NaN-NaN`. The key round trips hold for years 1000 to 9999.
- Common.ToLower lower-cases ASCII letters only; JavaScript's full Unicode case mapping is not modelled.
- String lengths are counted in Unicode scalar values, not UTF-16 code units, for the password length and code length checks.
- The `maxLength` and `pattern` attributes of inputs are browser behaviour and are not modelled.
- Missing fields in a post fetched for editing are not modelled; the five form fields are always strings.
- AdminDashboard.Dashboard: the tab switch and the rendering of the lists are not modelled; the hooks placed after the early redirect are not modelled either.
- Presentation-only components (Navbar, StatusBadge, SkeletonCard, Hero, Landing, BlogCard, SearchBar), inline styles and animations are not modelled.
- `CreatePost.jsx`, `MyPosts.jsx` and `Login.jsx` are not part of this model; their logic repeats patterns modelled in the sign-up, edit and verification pages.

## Findings

| source | as written | input that shows it | evidently intended | confidence | as-written member | corrected member |
|---|---|---|---|---|---|---|
| src/context/components/LiveScores.jsx:186-188 | `startInterval` assigns a new interval to `intervalRef` without clearing the one it holds; the mount effect starts one even when the page is hidden | mount while the tab is hidden, the tab becomes visible, then unmount: the first interval is never cleared and keeps fetching after unmount (hiding the tab again also leaves it fetching) | clear any running interval before starting another, so at most one exists and cleanup stops it | not executed | LiveScores.LeakedIntervalAsWritten | LiveScores.NoLeakCorrected |
| src/pages/AdminDashboard.jsx:361-365 | the role button's self-demotion guard, and the "(you)" badge at line 346, compare `u._id === user._id`, but the session user is `{ id, email, role }` (src/context/AuthContext.jsx:30) | an administrator with id `u1` views their own row `u1`: the guard is false and the Demote button is enabled | compare with `user.id`, disabling the administrator's own row | not executed | AdminDashboard.OwnRowEnabledAsWritten | AdminDashboard.RoleButtonDisabled |
