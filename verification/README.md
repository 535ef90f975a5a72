# Tenkei registration: its concurrent protocols and its phone rule

A Dafny 4.11 model of the parts of the tenkei-register server where correctness depends on several
requests racing over shared tables, and of the one rule that is written twice, in Go and in SQL.

| files | subject |
|---|---|
| `Totp`, `AuthDb`, `AuthHandlers`, `AuthInvariant`, `AuthTheorems`, `AuthGuarantees`, `AuthProvenance`, `AuthLimits`, `AuthSolo`, `AuthMeaning`, `AuthSteps`, `AuthServer` | login, the pending session, TOTP verification, enrolment, session rotation and revocation |
| `ResetDb`, `ResetInvariant`, `ResetTheorems`, `ResetLimits`, `ResetSteps`, `ResetInterference`, `ResetStore` | password-reset tokens: the supersede loop and the single-use consume |
| `Roles`, `RolesProofs`, `RoleSteps`, `RoleStore` | role changes under the advisory lock, member verification, scoped edits |
| `Patterns`, `Phone`, `PhoneBackfill` | the E.164 normaliser and the migration that must agree with it |
| `Profile`, `ProfileRuns`, `ProfileSteps` | the category rule, the profile merge, and writes from stale loads |
| `Listing` | the admin member list: clamping, scope, order, pages |
| `Outcomes`, `Ids` | shared types |

## How the protocols are modelled

Four state machines (`AuthHandlers`, `ResetDb`, `Roles`, `ProfileRuns`) hold the tables and any number of
requests. A request is a handler with a program counter and local variables. One action runs one
statement of one request, lets a request arrive, lets the clock advance, or does something else the rest
of the server may do at any time (registration, account erasure, a sign-out, a rollback). An action that is not
possible changes nothing, so a schedule is any sequence of actions, and a theorem about `Run` or about
every `Reachable` state is a theorem about all interleavings.

For the auth machine each call is also characterised when it runs alone, with any failures of the statements in
`AuthSolo.Faults`: all those the code survives, and those of session creation (`AuthSolo.CallAlone`), and the class
`AuthServer.Server`, written like the Go code, has exactly those effects (`AuthServer.Server.Serve`, `AuthServer.ServerIsMachine`). `ResetStore.Store` and `RoleStore.Store` are the
imperative forms of the other two; the reset store lets other requests run between any two of its statements, within a contract
that `ResetInterference` proves of the reset machine.

Each machine is also read row by row: `AuthMeaning`, `AuthSteps`, `ResetSteps`, `RoleSteps` and `ProfileSteps` say, in the columns
and numbers of the tables and without the functions the machines are made of, what a call, a statement, a failure and an answer come to.

Assumptions:

- One SQL statement is one atomic step on the latest committed state. `setRole` and the admin edit are transactions: their
  writes become visible at commit, the advisory lock and row locks are held until commit or rollback.
- One clock, which never goes back. It is read by a separate step wherever the Go code calls `time.Now()`, and within the
  statement wherever the SQL says `NOW()`.
- `generateSessionID` never repeats a value, and nobody presents a value before it is stored. `hashSessionID` is injective, so a token stands for its hash.
- The HOTP value is an arbitrary function of secret and counter: several steps may share a code.
- A password hash check is equality of passwords; a sealed TOTP secret is either intact, and decrypts to what was sealed, or does not decrypt.
- Any statement may fail without effect, and any request may die. In the auth and reset machines that is an action, after which the request
  goes on as the code does: it ends with an error, or carries on where the code only logs the failure. Role transactions roll back. In
  the profile machine such a request is one that is never stepped again.
- The fields `issued`, `birth`, `presented`, `used`, `ever` and `log` of the tables are history. They are written, but
  decide nothing except that drawn tokens are new.

## Where the code and its comments differ

The model follows the code in each case.

- `internal/admin/role.go:76-83` says demotions revoke sessions. A target read as `new` and set to `new` can be verified to
  `user` in between; the commit then lowers a `user` and revokes nothing. `RolesProofs.RevokesExactlyOnDemotion` shows that
  this is the only exception, and `RolesProofs.LoweredWithoutRevoking` that it happens.
- `internal/auth/reset.go:111-115` says the last request wins. What wins is exactly the last successful insert, unless a DELETE
  came after it (`ResetTheorems.SurvivesExactly`, `ResetTheorems.LastInsertSurvives`). A request that begins after every other one has
  returned does win, also when those failed (`ResetTheorems.LastRequestWins`); without that an earlier call can outlive a later one
  (`ResetLimits.EarlierCallCanSupersede`).
- `internal/auth/reset.go:118-119` says a failure between DELETE and INSERT leaves the user with no valid token. When that DELETE is the last one,
  it does if and only if nobody has inserted since (`ResetTheorems.NothingLeftExactly`), and it happens (`ResetLimits.FailureLeavesNone`); that the next request
  heals it is part of `ResetTheorems.LastRequestWins`.
- `internal/types/parse.go:34-36` says the normaliser and the backfill agree. They do on every value but one kind: a value made only
  of separators is normalised to the empty string and left as typed by the backfill (`PhoneBackfill.BackfillAgrees`).
- `internal/auth/model.go:122` allows five attempts per pending session. With m verify requests at once, and f lockout DELETEs that
  fail (`internal/auth/twofactor.go:129-137` logs that and answers as usual), the limit is 4 + m + f. It is reached for every m and f
  (`AuthLimits.FailuresReached`), so five holds if and only if requests come one at a time and no lockout DELETE fails
  (`AuthLimits.FiveAttemptsExactly`).
- `internal/auth/twofactor.go:224-226` verifies the first code against the stored secret before arming it. The code accepted belongs to
  the secret then armed if and only if that secret is the one the confirm loaded (`AuthGuarantees.ConfirmedExactly`); when another
  enrolment comes in between it need not be (`AuthLimits.InterleavedEnrolments`).
- `internal/auth/database.go:36-39` explains why a profile write cannot clobber a role change, which is proved. Within the whitelist a stale
  write does revert other columns: `ProfileRuns.WriteIsAtomicExactly` says exactly when, `ProfileRuns.LostUpdate` gives a family of runs.
- `internal/admin/handler.go:36` says the response shows the effective page. Beyond the last allowed page it echoes the page
  asked for (`Listing.EchoedPage`).

## Model

| member | source | states |
|---|---|---|
| Totp.VerifyCode | internal/totp/verify.go:38-63 | For every clock value from 1970 on, the result is c if and only if c is the largest counter whose thirty seconds are at most one step from the clock's, whose HOTP value is this code of six characters, for a secret that decodes; and nothing exactly when there is none. For any clock value it is the largest such counter of the three-step window |
| Totp.VerdictInSeconds | internal/totp/verify.go:39-61 | The same of the verdict that the login machine uses |
| Totp.Verdict | internal/totp/verify.go:42-61 | The verdict other members use is that largest candidate |
| Totp.Resubmission | internal/totp/verify.go:19-37 | An accepted code presented again gets past a guard that still holds only at a strictly later step and through a counter beyond the first use's whole window |
| AuthInvariant.RunKeeps | internal/auth/twofactor.go:31-141 | The inductive invariant of the login machine survives every schedule of requests |
| AuthTheorems.ReplayGuard | internal/auth/database.go:192-202 | In every interleaving the counters accepted between two resets of a user's guard strictly increase, and an enabled second factor has a stored secret |
| AuthTheorems.ResubmissionInAnyRun | internal/auth/twofactor.go:64-81 | Of two acceptances of one code without a reset between them, the second happened at a later step and through a counter outside the first window |
| AuthTheorems.ResubmissionRefused | internal/auth/database.go:188-202 | The compare-and-advance of a resubmitted code, at the step of its acceptance or before, matches no row and changes nothing |
| AuthTheorems.MintPaidFor | internal/auth/twofactor.go:83-99 | Each session minted by a 2FA verify is backed by a counter that same request had accepted for the same user, and by a pending session of that user whose row is gone |
| AuthTheorems.MintsAreInjective | internal/auth/session.go:148-180 | No accepted counter, pending session or new token backs two mints |
| AuthTheorems.VerifiedMeansMinted | internal/auth/twofactor.go:101-108 | A verify request answered with a session did perform such a rotation |
| AuthTheorems.AttemptBudget | internal/auth/session.go:182-200 | While a pending row exists, the failure counts handed out are 1..n, each once and to a different request, and at least n-4 requests have recorded their failure without having deleted the row |
| AuthTheorems.FailuresPerSession | internal/auth/twofactor.go:110-141 | With at most m verify requests at work at once and f lockout DELETEs that failed, a pending session absorbs at most 4+m+f failures in its whole life, and none if nobody is ever at work |
| AuthLimits.FailuresReached | internal/auth/twofactor.go:113-138 | For every m of at least one and every f some run from a fresh database, with at most m at once and f failed lockout DELETEs, records exactly 4+m+f failures on one pending session |
| AuthLimits.BudgetExactly | internal/auth/twofactor.go:110-141 | A number is a limit for all runs with at most m at once and at most f failed lockout DELETEs if and only if it is at least that budget |
| AuthLimits.FiveAttemptsExactly | internal/auth/model.go:119-122 | The limit of five holds in every run with at most m verify requests at once and at most f failed lockout DELETEs if and only if nobody is ever at work, or m is one and f is zero |
| AuthTheorems.FiveFailuresEndTheSession | internal/auth/twofactor.go:129-138 | After five failures, with no request on its way to the lockout DELETE and none whose lockout DELETE failed, the session is gone for good: no later rotation uses it and no failure is added |
| AuthTheorems.RevocationIsFinal | internal/auth/session.go:106-112 | After InvalidateAll no earlier token of that user is admitted again by either check in any continuation |
| AuthTheorems.InFlightVerifyCannotMint | internal/auth/handler.go:174-193 | A verify that had passed the pending check when the sessions were wiped never ends with a session |
| AuthTheorems.OneClassPerToken | internal/auth/session.go:124-146 | A token admitted now and admitted later is admitted by the same one of the two checks and for the same user |
| AuthTheorems.AdmittedWithinLifetime | internal/auth/session.go:114-122 | A token is admitted only within five minutes (pending) or twelve hours (verified) of its insertion |
| AuthGuarantees.OthersUntouched | internal/auth/session.go:148-180 | In any run in which no request works for a user, that user's account is unchanged and their sessions are neither changed, opened nor ended before they expire; in particular a rotation never spends another owner's pending session |
| AuthGuarantees.GuardFallsOnlyByReset | internal/auth/database.go:188-202 | In every run a user's guard has not fallen and the stored secret is unchanged unless a reset happened in between |
| AuthGuarantees.ResetDisarms | internal/auth/twofactor.go:200-208 | A reset comes only with the account's removal, a disable that wipes the secret, or an enrolment of an account that is not armed, and leaves the second factor off |
| AuthGuarantees.ConfirmedExactly | internal/auth/twofactor.go:224-259 | When a confirm comes to its last statement, the code it accepted is a code of the secret then stored if and only if that secret decrypts to what the confirm loaded, whatever ran in between |
| AuthGuarantees.ConfirmedCodeIsStored | internal/auth/twofactor.go:235-259 | In particular it is whenever no secret was stored or wiped since |
| AuthLimits.InterleavedEnrolments | internal/auth/twofactor.go:200-259 | A run in which a second enrolment comes in between, and the secret armed is not the one whose code was accepted |
| AuthProvenance.VerifiedSessionsAreEarned | internal/auth/handler.go:33-51 | In every run each verified session was minted by a 2FA verify, or stored by a request whose own login statement found the password right and no second factor due, or whose session check found a verified session of the same user |
| AuthProvenance.PendingSessionsAreOwed | internal/auth/verifier.go:56-59 | In every run each pending session was stored by a request whose own login statement found the password right, the kill switch on and the second factor armed |
| AuthSolo.SoloIsASchedule | internal/auth/twofactor.go:31-108 | A request run alone, with whatever of these failures, is the schedule of its own moves, so what is proved of it alone is about the machine |
| AuthSolo.VerifyAlone | internal/auth/twofactor.go:31-141 | What a 2FA verify does to users and sessions, for every cookie and code: nothing, one counted failure, a lockout or a failed one, or counter advance plus rotation |
| AuthSolo.CallAlone | internal/auth/middleware.go:21-75 | Every call, through its session check, does to the tables and answers what its effect says, whichever of these fail: lockout DELETE, session wipe, logout DELETE, the counter UPDATE of acceptTOTPCode, and the token draw, purge and INSERT of a new session |
| AuthMeaning.CallMeans | internal/auth/handler.go:33-283 | What those effects are, call by call, in rows, columns and seconds and without any function of the machine; in particular, with the kill switch off exactly verify, enrol, confirm and disable are refused |
| AuthMeaning.VerifyMeans | internal/auth/twofactor.go:31-141 | A code of the cookie owner's intact secret, timely and beyond the guard, uses up its counter and exchanges the pending session for one of twelve hours; any other code is the next failure and the fifth ends the session; no unexpired pending session, no effect |
| AuthMeaning.LoginMeans | internal/auth/handler.go:33-60 | Refused with nothing changed exactly for an unknown account or a wrong password; otherwise a session of five minutes that owes a code if the switch is on and the second factor armed, and one of twelve hours in every other case |
| AuthSteps.AnswersAreTrue | internal/auth/twofactor.go:110-141 | In every run a request answered with a session drew and stored that token in the class it was told; one told a failure count below five recorded that failure; one told it is locked out recorded the fifth or a later one |
| AuthSteps.SwitchOffFreezes | internal/auth/router.go:120-149 | In every run with the kill switch off, from a state with no two-factor request at work, the secret, flag and guard of an account that is not removed stay as they are, and no pending session is opened |
| AuthSteps.UserStep | internal/auth/database.go:177-202 | In every state, one action: an account changes only by a statement, registration or password reset of its own, column by column, and disappears only by its removal |
| AuthSteps.SessionStep | internal/auth/session.go:26-200 | In every state, one action: a session ends only by the statements that end it, changes only by a recorded failure, which adds one, and comes only by a Create or a rotation, with the owner, class and lifetime of that |
| AuthSteps.RequestStep | internal/auth/twofactor.go:31-141 | Where each statement of every request takes it, also when other requests came in between: what is compared, which branch, which answer |
| AuthSteps.FailStep | internal/auth/handler.go:181-203 | A statement that fails changes no row, and where its request then goes |
| AuthSteps.OutsideStep | internal/auth/database.go:177-186 | What the clock, arrivals, registrations, password resets and session wipes do |
| AuthServer.ServerIsMachine | internal/auth/middleware.go:21-75 | What the machine makes of a call run alone is the effect that Serve promises, from the same tables, and does what CallMeans says |
| AuthServer.Server.Serve | internal/auth/middleware.go:21-75 | The class does for every call exactly that effect, which is read in rows and columns |
| AuthServer.Server.Create | internal/auth/session.go:26-61 | Token, purge and insert, any of which may fail, leave the table the machine's login leaves, with the lifetime of the session's class; only a failed purge is passed over |
| AuthServer.Server.Validate | internal/auth/session.go:63-96 | Admits exactly the unexpired verified sessions, with their owner |
| AuthServer.Server.ValidatePending | internal/auth/session.go:129-146 | Admits exactly the unexpired pending sessions, with their owner |
| AuthServer.Server.Invalidate | internal/auth/session.go:98-104 | Removes that session and nothing else |
| AuthServer.Server.InvalidateAll | internal/auth/session.go:106-112 | Removes exactly the sessions of one user |
| AuthServer.Server.RotatePending | internal/auth/session.go:157-180 | Either the pending row is replaced by one new verified row of twelve hours, or nothing changes |
| AuthServer.Server.RecordTOTPFailure | internal/auth/session.go:185-200 | Adds one failure to a live pending session and returns the new count; revives nothing |
| AuthServer.Server.AcceptTOTPCounter | internal/auth/database.go:192-202 | Moves the guard up exactly when the stored counter is smaller |
| AuthServer.Server.HandleVerify2FA | internal/auth/twofactor.go:31-108 | Nothing, one counted failure, a lockout or a failed one, or counter advance plus rotation, as the step program alone |
| AuthServer.Server.ServeVerify | internal/auth/middleware.go:47-75 | Behind the pending check, no account or unexpired session but the cookie owner's changes |
| AuthServer.Server.RecordVerifyFailure | internal/auth/twofactor.go:113-141 | One more failure, and at the fifth the session is gone, unless the DELETE fails, which leaves it with the new count |
| AuthServer.Server.AcceptTOTPCode | internal/auth/twofactor.go:328-347 | True exactly when the stored secret decrypts, the code has a counter in the window, the guard is below it and the UPDATE works; then the guard is that counter, otherwise nothing changes |
| AuthServer.Server.HandleEnroll2FA | internal/auth/twofactor.go:177-222 | Only an account that is not armed gets a secret, its guard is reset with it and it stays unarmed; nobody else's rows change |
| AuthServer.Server.HandleConfirm2FA | internal/auth/twofactor.go:227-274 | When it answers success, the account is armed and its guard holds a counter for which the code belongs to the secret then stored; nobody else's rows change |
| AuthServer.Server.HandleDisable2FA | internal/auth/twofactor.go:279-323 | Secret, flag and guard are wiped together, and only with both factors; nobody else's rows change |
| AuthServer.Server.HandleLogin | internal/auth/handler.go:33-60 | Refused with the sessions unchanged exactly for an unknown account or a wrong password; otherwise a verified session of twelve hours, or a pending one of five minutes if and only if the switch is on and the second factor armed; nobody else's rows change |
| AuthServer.Server.KillAndReissueSessions | internal/auth/handler.go:174-193 | Every session the user had is gone, at most the new one is left, and a reissue that fails is still success; a wipe that fails changes nothing and is answered with a warning; nobody else's rows change |
| AuthServer.Server.HandleChangePassword | internal/auth/handler.go:290-350 | With the right current password it is replaced and every old session of the user ends, or the answer warns that they did not; nobody else's rows change |
| AuthServer.Server.HandleChangeEmail | internal/auth/handler.go:116-163 | The session part of an e-mail change: likewise, and only with the right password |
| AuthServer.Server.HandleDeleteAccount | internal/auth/handler.go:236-283 | With the password, and a code if enrolled, the account and all its sessions are gone; nobody else's rows change |
| ResetInvariant.RunKeeps | internal/auth/reset.go:116-222 | The inductive invariant of the reset machine survives every schedule, and history only grows |
| ResetTheorems.EachFailureHasItsOwnCause | internal/auth/reset.go:133-146 | Each insert that fails on the unique index was caused by an insert, since the call began, of another call for the same user that overlaps it and blocked none of its earlier attempts |
| ResetTheorems.RetryBound | internal/auth/reset.go:116-148 | If at most two other calls for the user overlap it and insert after it began and before it returned, a call never returns "supersede contention" |
| ResetLimits.ThreeOthersSuffice | internal/auth/reset.go:117-147 | The bound is exact: with three other calls contention is reachable |
| ResetTheorems.LiveTokenExactly | migrations/000006_password_reset_tokens.up.sql:19-26 | In every state a user has at most one unconsumed row, and has one if and only if nothing has deleted or consumed a token of theirs, or erased them, since some insert for them |
| ResetTheorems.LiveTokenOrPendingInsert | internal/auth/reset.go:116-148 | Unless one was consumed since the last DELETE for the user, or the user was erased, there is an unconsumed row, or the call of that DELETE is before its INSERT, or that call failed |
| ResetTheorems.NothingLeftExactly | internal/auth/reset.go:118-119 | Once the call of the last DELETE is no longer before its INSERT, the user has no unconsumed row if and only if that call failed and nobody inserted since |
| ResetTheorems.Quiescence | internal/auth/reset.go:111-148 | In every other case exactly one unconsumed row is left, the one of the last successful insert, and its call has returned that token or is about to |
| ResetTheorems.SurvivesExactly | internal/auth/reset.go:133-140 | At any time, with any calls at work or failed, a token handed out is its user's only unconsumed one if and only if no token of theirs was deleted or consumed, and they were not erased, since its insert |
| ResetTheorems.LastInsertSurvives | internal/auth/reset.go:111-115 | Under the condition of Quiescence a token handed out is the surviving one if and only if its insert was the user's last |
| ResetTheorems.LastRequestWins | internal/auth/reset.go:111-119 | If every other call for the user, failed ones included, had returned before a call began, the token of that call is the user's only unconsumed one, as long as no token of theirs was used since it began and they were not erased |
| ResetLimits.EarlierCallCanSupersede | internal/auth/reset.go:111-115 | The surviving token can belong to the call that began first, although both calls have returned a token |
| ResetLimits.FailureLeavesNone | internal/auth/reset.go:118-132 | A run in which all calls for a user have returned, one with a token and one, which ran the last DELETE, with an error, nothing was consumed or erased since, and no valid token is left |
| ResetTheorems.ChangePaidFor | internal/auth/reset.go:161-190 | Each password change by reset used a token issued to that user, consumed by that same request before its expiry |
| ResetTheorems.SingleUse | internal/auth/reset.go:162-171 | No token makes two password changes |
| ResetTheorems.SupersededIsDead | internal/auth/reset.go:118-125 | A token deleted while unconsumed is never consumed and changes no password in any continuation |
| ResetSteps.PasswordStep | internal/auth/database.go:177-186 | In every state, one action: a password changes only by its owner's registration, erasure, or a confirm's write for that owner, which stores the password the confirm carries and logs it; everybody else's stays |
| ResetSteps.EveryPasswordAccountedFor | internal/auth/reset.go:161-190 | In every run a stored password is the one the account started with or was registered with, or the one that a request arrived with together with a token issued to that account, which the request had consumed; and no other was written since |
| ResetSteps.TokenStep | internal/auth/reset.go:118-171 | In every state, one action: a token row goes only with all its user's, is consumed only by a confirm of it before its expiry, comes only by an INSERT for a user without an unconsumed one, and otherwise stays as it is |
| ResetSteps.RequestStep | internal/auth/reset.go:116-222 | Where each statement takes its request: the clock reading plus 600 seconds, the retries, the three refusals |
| ResetSteps.ArrivalStep | internal/auth/reset.go:116 | When a call or a confirm may come, and what it starts from |
| ResetSteps.FailStep | internal/auth/reset.go:120-190 | A failure changes no row and ends the request with an error |
| ResetSteps.TenMinutes | internal/auth/reset.go:133-137 | In every run a stored token expires exactly 600 seconds after the inserting call read the clock for it, before its INSERT |
| ResetSteps.AnswersAreTrue | internal/auth/reset.go:161-222 | In every run a confirm answered with success consumed a token and then set its owner's password, unless the owner was erased in between; a refusal was read from the table; an issued token was inserted; contention took three blocks |
| ResetSteps.ConfirmAlone | internal/auth/reset.go:161-222 | A confirm with nothing in between: on a valid token exactly that password and that token change; otherwise nothing does, and the refusal is the right one |
| ResetSteps.IssueAlone | internal/auth/reset.go:116-148 | An issue call with nothing in between: all the user's tokens make way for the new one, which lasts 600 seconds |
| ResetTheorems.RefusalExact | internal/auth/reset.go:204-222 | At the moment of classification: invalid exactly when no row is stored, used exactly when the stored token was consumed, expired exactly when its time passed unconsumed |
| ResetTheorems.RefusalIsFinal | internal/auth/reset.go:207-222 | After "used" or "expired" no later confirm of that token succeeds, and "used" was answered after a consume |
| ResetStore.Store.Supersede | internal/auth/reset.go:118-125 | Removes exactly the user's tokens |
| ResetStore.Store.Insert | migrations/000006_password_reset_tokens.up.sql:24-26 | Unique violation exactly when the user has an unconsumed row, another error exactly when there is no such user or the statement fails |
| ResetStore.Store.Attempt | internal/auth/reset.go:117-146 | One round of the loop, any statement of which may fail: stored means the user's only unconsumed token with its lifetime, a violation took a foreign insert, and undisturbed a failure after the DELETE removes the user's tokens and stores none |
| ResetStore.Store.IssueToken | internal/auth/reset.go:116-148 | With other requests between any two statements, and between the clock reading and the insert: success leaves the returned token as the user's only unconsumed one, ten minutes from a clock reading during the call; contention took three foreign inserts; an error took a missing user or a failed statement, in round k only after k foreign inserts; undisturbed it replaces all tokens of the user by the first one drawn, or leaves none if it fails after its DELETE |
| ResetStore.Store.Consume | internal/auth/reset.go:162-174 | Flips exactly an unconsumed, unexpired token and returns its owner |
| ResetStore.Store.ClassifyToken | internal/auth/reset.go:207-222 | Invalid, used and expired exactly by what is stored at that moment |
| ResetInterference.OthersInterfere | internal/auth/reset.go:111-148 | Whatever other requests do in any run, to the clock and the token rows, is within the contract that IssueToken and ConfirmReset assume of them |
| ResetStore.Store.ConfirmReset | internal/auth/reset.go:161-222 | Succeeds exactly on an unconsumed, unexpired token whose consume and password write work; the token stays consumed, also when the password write fails, and the owner has no session left unless the wipe failed; refusals are exact at the time they are read; undisturbed it changes exactly that token and that password |
| RolesProofs.AlwaysASuperuser | internal/admin/role.go:46-65 | In every interleaving of role changes (rollback possible anywhere), verifications, edits and registrations a superuser remains |
| RolesProofs.CommitMeaning | internal/admin/role.go:51-89 | In every run, a role change that commits overwrites the role it read, except that a target read as new may meanwhile be a user; for superuser to any other role, admin to user or new, and user to new it deletes exactly the sessions its own DELETE, an earlier step of the run, found as all the target's, and for every other pair none |
| RolesProofs.RevokesWhatItFound | internal/admin/role.go:76-88 | For each committed demotion of a run, an earlier step of the run is its DELETE, the revoked tokens are exactly the sessions the target had at that step, and none of them names a session now |
| RolesProofs.RevokedStayRevoked | internal/admin/role.go:78-83 | A token revoked by a committed demotion names no session in any later state |
| RolesProofs.RevokesExactlyOnDemotion | internal/admin/role.go:76-83 | Sessions are revoked exactly for the pairs of role read and role set that are demotions, role by role; and this coincides with lowering the overwritten role if and only if it is not the case of a target read as new, set to new, and verified in between |
| RolesProofs.LoweredWithoutRevoking | internal/admin/member.go:94-116 | A run in which that case occurs |
| RolesProofs.EditsStayInScope | internal/admin/member.go:40-76 | While an admin edit writes and commits, the target's committed role is new or user, or the viewer's level is at least 3 |
| RolesProofs.RoleChangesSerialised | internal/admin/role.go:12-21 | At most one role change is past the lock |
| Roles.LevelsInRoles | internal/types/roles.go:27-32 | What the levels come to in role names: which changes are demotions, and that only a superuser sees more than new and user |
| RoleSteps.RoleStep | internal/admin/role.go:68-75 | In every state, one action: a role is written only by the commit of a change of it, by a verification of a member who is new, and by registration; no row disappears |
| RoleSteps.SessionStep | internal/admin/role.go:76-88 | In every state, one action: a session ends only by its sign-out or by a commit whose DELETE found it |
| RoleSteps.AnswersExact | internal/admin/role.go:34-90 | What each answer means at the statement that gives it: not found, last superuser, not pending, verified, updated, and the demotion flag |
| RoleSteps.SetRoleAlone | internal/admin/role.go:34-90 | A role change with nothing in between: not found for a missing target, refused exactly for the only superuser, and otherwise that role is written and the target's sessions are gone exactly on a demotion, role by role |
| RoleSteps.VerifyAlone | internal/admin/member.go:89-117 | A verification with nothing in between |
| RoleSteps.EditAlone | internal/admin/member.go:40-76 | An admin edit with nothing in between |
| RoleSteps.RollbackUndoes | internal/admin/role.go:41-45 | A rollback leaves roles, sessions and history as they were and gives the locks back |
| RoleStore.Store.SetRole | internal/admin/role.go:34-90 | Refused exactly for a missing target or the only superuser, and then nothing changes; otherwise the new role is written and the target's sessions are gone exactly for superuser to anything lower, admin to user or new, and user to new |
| RoleStore.Store.VerifyMember | internal/admin/member.go:89-117 | Not found exactly for a missing member, or below level 3 for one who is neither new nor user; not pending exactly for another role than new; otherwise new becomes user |
| Patterns.MatchesLiteral | internal/types/parse.go:40-43 | A literal in front of an anchored pattern matches exactly that prefix followed by a match |
| Phone.CheckShapeMeaning | internal/types/parse.go:88-103 | What the two patterns accept after one trunk zero is stripped, in terms of digits and lengths |
| Phone.SeparatorsNeverMatter | internal/types/parse.go:23-27 | A space, no-break space, hyphen, full stop or parenthesis inserted anywhere never changes the result |
| Phone.StripCharacter | internal/types/parse.go:23-27 | Stripping drops exactly those six characters and keeps every other in its place |
| Phone.AcceptedCharacters | internal/types/parse.go:40-61 | An accepted number is written with digits, plus signs and those characters only |
| Phone.EmptyPreimages | internal/types/parse.go:62-68 | The result is empty exactly for the empty string and strings of those characters only |
| Phone.FixedPoints | internal/types/parse.go:45-61 | A string is its own normal form if and only if it is a stored form |
| Phone.NormaliserSound | internal/types/parse.go:62-104 | Every result is empty or a plus and 8 to 15 digits with a non-zero first, never +620, and normalises to itself |
| Phone.IndonesianPreimages | internal/types/parse.go:62-104 | The result is +62n if and only if n is a subscriber number and the stripped input is one of 0n, 62n, +62n, 620n, +620n |
| Phone.ForeignPreimage | internal/types/parse.go:68-103 | A result with another country code comes from exactly one stripped input, itself |
| PhoneBackfill.BackfillAgrees | migrations/000007_phone_e164.up.sql:40-75 | The CASE expression yields the normaliser's result, or the value as typed where it refuses, if and only if the value is empty or more than separators |
| PhoneBackfill.BackfillSettles | migrations/000007_phone_e164.up.sql:36-38 | A value is left unchanged exactly when it is settled, and every rewritten value is settled |
| PhoneBackfill.MigrationRewrites | migrations/000007_phone_e164.up.sql:40-75 | Of every row, and of each of its two columns from its own old value: NULL stays, a value empty or of separators only stays, and any other becomes the normaliser's result or stays as typed where that refuses |
| PhoneBackfill.MigrationIdempotent | migrations/000007_phone_e164.up.sql:73-75 | A second run changes no value and writes no row, and no stored number would be rewritten by the application |
| Profile.CategoryRuleIsATable | internal/types/user.go:73-96 | The branching rule accepts a category if and only if the set of filled fields is one of the four that determine that category |
| Profile.MergedColumns | internal/auth/database.go:43-136 | What a successful merge puts in each column: stated text, the e-mail in small letters if it is another one, the normal form of a named number, the day a date spells, a stated consent; and the old value where the request says nothing |
| Profile.ColumnsAreDetermined | internal/auth/database.go:43-136 | That leaves one possible result |
| Profile.ParseDateExactly | internal/types/parse.go:10-21 | A non-empty text is parsed to a date exactly when it spells that day of the Gregorian calendar as YYYY-MM-DD |
| Profile.MergeSucceedsExactly | internal/auth/database.go:46-151 | An update reaches its UPDATE if and only if the e-mail is the old one or free, both numbers normalise, the rank is one of the sixteen, the dates are calendar days, and the resulting block fits its category |
| Profile.MergeRefusesExactly | internal/auth/database.go:46-151 | Otherwise the first of these checks that fails, in the order of the code, decides the error |
| Profile.MergeRules | internal/auth/database.go:138-151 | A merged row keeps the category rule whatever was loaded, and numbers in stored form |
| Profile.MergeIdempotent | internal/auth/database.go:31-46 | The same request applied to its own result changes nothing |
| Profile.UserTable.ApplyProfileUpdate | internal/auth/database.go:40-175 | Applied to a user loaded at any time: an error changes no row; success comes only of an acceptable request and writes exactly the whitelisted columns of that row, each edited as asked |
| ProfileRuns.RunKeepsCategory | internal/auth/database.go:138-151 | In every run, from any table and with any updates in flight, every row keeps the category rule or still has the columns it started with |
| ProfileRuns.RunKeepsForms | internal/auth/database.go:66-78 | In every run each phone number and e-mail is in stored form or is the one the account started with, column by column |
| ProfileRuns.RunKeepsUnique | internal/auth/database.go:46-65 | In every run no two rows come to share an e-mail, ignoring case |
| ProfileRuns.WritersHaveMerged | internal/auth/database.go:143-153 | An update that reaches its UPDATE has merged successfully, in every run |
| ProfileRuns.ProtectedColumnsAreReplayed | internal/auth/database.go:153-166 | In every interleaving the role, password and TOTP columns of an account are what the writes to those columns alone produce |
| ProfileRuns.StaleMergeIsFresh | internal/auth/database.go:43-136 | Merges of one request into two loads agree if and only if the loads agree on every column the request leaves out |
| ProfileRuns.UndisturbedIsAtomic | internal/auth/handler.go:96-130 | Load, conflict count and write with nothing in between have the effect of one atomic update |
| ProfileRuns.WriteIsAtomicExactly | internal/auth/database.go:31-40 | A write from a stale load is refused if its e-mail was taken meanwhile, and otherwise equals the update done as one statement at that moment if and only if the columns the request leaves out are as they were at the load |
| ProfileRuns.LostUpdate | internal/auth/database.go:153-166 | Two edits of different columns of an account that keeps the rule, both loaded before the first write: both answer success and the first is lost |
| ProfileSteps.RowStep | internal/auth/database.go:153-166 | In every state, one action: whitelisted columns change only by an UPDATE whose merge succeeded, the others only by the write to them, and rows come and go only by registration and deletion |
| ProfileSteps.WriteStep | internal/auth/database.go:153-175 | That UPDATE leaves the row as it was loaded, edited as asked, or is refused because another row has the e-mail in whatever case |
| ProfileSteps.RequestStep | internal/auth/database.go:46-151 | A load sees the row as it is, and the conflict count is of its moment |
| ProfileSteps.RegisterStep | internal/register/register.go:98-285 | A registration, its form trimmed and its dates parsed, goes through exactly for a new id, a free e-mail, a name, an allowed rank, the storage consent, numbers that normalise and a block that fits its category, and what it stores in each column |
| Listing.OffsetInRange | internal/admin/database.go:24-37 | For all integers the offset lies in 0..99,999,900, and reaches the top exactly at the last page of full size |
| Listing.ClampsInNumbers | internal/admin/database.go:24-35 | Pages are clamped to 1..1,000,000, sizes to 1..100, with 25 for a size below one |
| Listing.ListUsers | internal/admin/database.go:23-77 | The page of the one listing, in id order, of the members that match the trimmed search by name or e-mail, are new if asked for, and are new or user unless the level is at least 3; each with its own seven disclosed columns; and that listing's length |
| Listing.TrimmedIsUnique | internal/admin/database.go:37 | There is one trimmed search: the text without the white space around it |
| Listing.ListingIsUnique | internal/admin/database.go:60-65 | There is only one such listing |
| Listing.PagesAreTheListing | internal/admin/database.go:60-65 | Pages one to the last, one after the other, are the whole listing as long as it fits the allowed pages |
| Listing.ShownOnPage | internal/admin/database.go:24-37 | The member at place i is on a requested page if and only if the clamped page is i / size + 1 |
| Listing.AllReachableExactly | internal/admin/database.go:11-30 | Every member can be reached by some page number if and only if the listing fits the allowed pages |
| Listing.EchoedPage | internal/admin/handler.go:36-45 | The size reported is the effective one; the page reported is the one asked for, or 1, and is the effective one if and only if it is not beyond page 1,000,000 |

## Left out

- HTTP, JSON, cookies, routing, rate limits, configuration, mail, Turnstile, audit records and logs: no state property depends on them. Answers that differ only in wording are one response.
- bcrypt, AES-GCM, SHA-256, HMAC and base32: see the assumptions.
- Isolation anomalies inside one SQL statement, and commits that fail after taking effect.
- Account erasure in the role machine: it takes no lock, so it can remove the last superuser. The auth, reset and profile machines have it.
- The auth machine starts from a freshly migrated database with nobody enrolled; databases already in use are those its schedules reach.
- RolesProofs.RevokesWhatItFound: sessions created between the DELETE and the commit are not revoked, as in the code.
- RoleStore.Store.SetRole: run without interference, and so is RoleStore.Store.VerifyMember; interference, rollback and locks are in `Roles`. The admin edit exists only there, and its columns are `Profile`'s.
- AuthServer.Server.HandleVerify2FA: run without interference, like every method of that class; interleavings are in `AuthHandlers`. Of the failures, the class has those of `AuthSolo.Faults`.
- ResetStore.Store.IssueToken: says nothing about what other requests did to other rows meanwhile; that is `ResetTheorems`.
- ResetTheorems.Quiescence: says nothing about a user who was erased, or one of whose tokens was consumed, since the last DELETE; account ids are not used again.
- Session wipes by a password reset are an action of the auth machine, not of the reset machine.
- Profile.UserTable.ApplyProfileUpdate: e-mail case folding is ASCII only; the request validator's limits are not modelled, so more requests are covered than can occur. Its edits of simple columns are written as one conditional value each, and it is split into three methods by column group and one around them.
- ProfileRuns.RunKeepsForms: starts with no update in flight.
- ProfileSteps.RegisterStep: starts from the trimmed form with its dates parsed; length limits, the syntax of e-mails and the rules for new passwords are not modelled.
- ProfileRuns.WriteIsAtomicExactly: asks that the two e-mails involved are stored in lower case, as the e-mail migration leaves them.
- AuthLimits.FailuresReached: asks for a secret with a six-digit code at some step, which every real generator has, and for the second factor to be switched on.
- An e-mail change's password check and session wipe are in the auth machine, not in `ProfileRuns`.
- ILIKE with its wildcards is an arbitrary relation. The count and the page query see the same table.
- Phone numbers and dates are sequences of characters; invalid UTF-8 is not modelled.
- AuthMeaning.CallMeans: for clocks from 1970 on, where a code is involved.
- Totp.VerifyCode: the library's conversion of the counter to an unsigned number is not modelled; it differs from the code only for clocks in the first seconds of 1970.
- The down migrations, and the abort guard of the e-mail migration.
