# Verified model of the identity service

A Dafny model of the parts of the identity service that keep state, interleave and make
promises: the merchant change feed, the back-off on sign-in attempts, refresh-token families
and revocation, sessions and the second factor, the challenge protocol, the onboarding sagas,
base32 and one-time codes, and the cache of App Check signing keys.

`dafny verify dfyconfig.toml` checks the whole project.

## How it is built

Every component has a value that stands for its tables or fields and one function per
operation on that value. Where the service changes things in place there is also a class whose
methods make the same changes step by step and are proved to have exactly the effect of the
function. The theorems are about all runs: a run is any sequence of operations, and an
operation that is not enabled changes nothing. The use cases of `SignIn` call the methods of
`Sessions.AuthUsecase` for what they do to accounts and tokens.

| file | what it holds |
|---|---|
| `Common.dfy`, `Accounts.dfy` | options, lookups, powers of two; roles and kinds |
| `AttemptPolicy.dfy`, `AttemptStore.dfy`, `AttemptRefinement.dfy` | the delay policy, the locked and swept store, its plain reference |
| `MerchantFeed.dfy`, `MerchantReader.dfy`, `MerchantDrain.dfy` | writers, the trigger, the query and the RPC; a reader that follows cursors, statement by statement; walking to the end of the feed |
| `Tokens.dfy`, `TokenFamilies.dfy`, `TokenBinding.dfy` | the token service; families as paths, revocation; the client a session belongs to, the session an access token belongs to |
| `Sessions.dfy`, `SessionRules.dfy`, `SessionFamilies.dfy`, `SessionOutcomes.dfy` | sessions and the second factor; the admin rule, burning of codes, renewal by another client; families over runs of requests; what each request leaves behind |
| `SignIn.dfy`, `SignInRules.dfy`, `SignInGrants.dfy`, `SignInEffects.dfy` | the sign-in use cases whole, with the back-off and the passkey options in front of the sessions; exactly when a call gets through and how slowly secrets are tested; who gets a token; kinds and options |
| `Challenges.dfy`, `ChallengeRules.dfy`, `ChallengeAnswers.dfy` | code and passkey answers to one challenge, statement by statement; how often one is consumed and answered; what an answer needs |
| `Onboarding.dfy`, `OnboardingOutcomes.dfy` | courier and seller approval with a stop after any write; the merchant, the courier and the rejection they leave |
| `Base32.dfy`, `Base32Values.dfy`, `Totp.dfy` | the secret's encoding over wrapping 32-bit accumulators; the number it writes and the texts it takes; HOTP and TOTP |
| `AppCheckKeys.dfy`, `AppCheckRules.dfy` | the key cache; what holds under interleaved lookups |

## What is taken for granted

- A transaction or a single SQL statement is one atomic step. A rotation and a bulk update of
  a family are serialised.
- Random ids are fresh. They are parameters, and a step that would reuse one does not happen.
- One nondecreasing clock, read as a parameter. The key cache needs not even that: its clock
  readings are arbitrary.
- A signature is accepted for exactly the tokens the service signed, while `floor(now) < exp`.
- Password hashing, WebAuthn verification and HMAC are outside: their outcomes are parameters,
  and HMAC is any function that gives twenty bytes.
- In the feed, a merchant's alias is never repointed to another principal, no two merchants
  share a principal, and alias rows may otherwise come and go. No merchant is deleted. Each of
  the three statements of a call is its own step. The reader makes one call at a time and may
  abandon it.
- In `Sessions` and `SignIn`, a request is one step, except that enabling and disabling the
  second factor may stop after any write; no request turns an account into an admin or out of
  being one. An account is known to the back-off by its email.
- In `Challenges`, every write of every request is its own step, and so is each of the four
  deletes of a sweep. Opening a challenge is one step: its signature, its tombstone and its
  account are read there, and what it read may be out of date at every later step. The account's
  own fields are not part of it.

## What the code does not promise

Four statements turn out to hold only under a condition. The code is modelled as it is, the
condition is proved exact over every run, and runs that break it are given.

- A challenge may be consumed a second time, and start a second session, when a request found
  right reaches the consuming statement after the challenge was consumed, expired and had its
  tombstone swept. Over every run, each challenge is consumed once if and only if that never
  happens (`ConsumedOnceExactly`); sessions never outnumber consumptions; it takes a late
  request (`ReopeningIsLate`), one late request is enough (`LateRequestStartsAnother`), and such
  runs exist (`TwoSessionsAreReached`).
- A challenge may admit a sixth answer when one that the back-off lets through comes after the
  challenge had its five, expired and had its count swept (`FiveAnswersExactly`, an equivalence;
  `SixAnswersAreReached`). Such an answer, let through by the back-off or not, and nothing else,
  makes the swept store decide otherwise than the plain one (`StoreRefinesPlain`, an equivalence).
- A principal's kind falls behind the role when an approval stops between a write of the role
  that changes it and the write of the kind: over every run the kind is in step in every state if
  and only if that never happens (`KindExactly`). Approving a courier again leaves the kind a
  whole approval would have left, unless the first one stopped right after promoting a customer
  whose kind was another (`CourierApprovalRecovers`, an equivalence). The next sign-in, or the
  next filing, always does (`KindLagsUntilSignIn`).
- The key cache may answer "unknown" on a download that ended before the lookup and began ten
  seconds or more before it. Over every run that happens exactly when a lookup joined a download
  which had ended but still held its marker, came that late, and is answered before another
  download ends, the set being alive and without the key (`UnknownIsCurrentExactly`). Such a run
  is given (`OldUnknownIsReached`). The five-second limit on a download makes it unlikely, but
  nothing rules it out.

## Model

| member | source | states |
|---|---|---|
| `AttemptPolicy.DelaySchedule` | src/domain/sign_in_attempt_policy.ts:3-16 | the whole delay table for every attempt number: none before the fifth, doubling from one second, a minute from the eleventh on, never decreasing |
| `AttemptPolicy.AdmissionExactly` | src/domain/sign_in_attempt_policy.ts:18-35 | a claim is refused exactly before the delay is over, with the whole seconds left rounded up; else it counts as the next attempt, or as the first again once 3,600,000 ms have passed since the last, and the delay after it is the table's, in milliseconds |
| `AttemptPolicy.HeadroomStep` | src/domain/sign_in_attempt_policy.ts:9-35 | the potential that pays for the guess rate: each attempt spends a minute and earns back the delay it waited for; bounded by 597 seconds |
| `AttemptStore.SignInAttempts.LockAccount` | src/infrastructure/persistence/adapters/typeorm_sign_in_attempt_repository.adapter.ts:99-126 | locking inserts at most a zero-attempt row and returns the row it locked |
| `AttemptStore.SignInAttempts.ClaimAccountAttempt` | src/infrastructure/persistence/adapters/typeorm_sign_in_attempt_repository.adapter.ts:22-38 | store and decision after a claim, as a function of the store before |
| `AttemptStore.SignInAttempts.ClaimChallengeAttempt` | src/infrastructure/persistence/adapters/typeorm_sign_in_attempt_repository.adapter.ts:44-81 | store and outcome of a challenge answer: exhausted, delayed, or admitted and counted on both rows |
| `AttemptRefinement.ClearedStartsAfresh` | src/infrastructure/persistence/adapters/typeorm_sign_in_attempt_repository.adapter.ts:40-42 | clearing an account makes its next claim a first attempt and changes no decision on any other account or challenge |
| `AttemptRefinement.SweptDecidesAlike` | src/infrastructure/persistence/adapters/typeorm_sign_in_attempt_repository.adapter.ts:83-97 | a sweep changes no later decision on any account, and no later answer to a challenge that had not expired |
| `AttemptStore.GuessRateBound` | src/domain/sign_in_attempt_policy.ts:9-35 | from any store, over any run in which the account is not cleared: N admitted attempts take at least 60 N - 597 seconds from first to last, sweeps and one-hour forgets included |
| `AttemptStore.GuessRateIsTight` | src/domain/sign_in_attempt_policy.ts:9-35 | for every N from eleven there is a run that meets the bound with equality |
| `AttemptRefinement.StepTracks` | src/infrastructure/persistence/adapters/typeorm_sign_in_attempt_repository.adapter.ts:22-97 | one step of the locked, swept store and of the plain map gives the same answer exactly when it is not an answer to a challenge that had its five and lost its count |
| `AttemptRefinement.StoreRefinesPlain` | test/support/in_memory_sign_in_attempts.ts:18-56 | over every run the adapter's store decides as the never-swept in-memory map if and only if no answer meets a challenge that had its five answers and was swept |
| `AttemptRefinement.ReopeningIsLate` | src/infrastructure/persistence/adapters/typeorm_sign_in_attempt_repository.adapter.ts:44-97 | such an answer comes after its challenge's expiry |
| `AttemptRefinement.SweepReopens` | src/infrastructure/persistence/adapters/typeorm_sign_in_attempt_repository.adapter.ts:83-97 | and every exhausted challenge is opened to it by a sweep after its expiry |
| `AttemptRefinement.UnexpiredRunsAgree` | test/support/in_memory_sign_in_attempts.ts:18-56 | from empty stores, every run whose answers come no later than their challenge's expiry is decided alike |
| `AttemptRefinement.FreshStoresAgree` | test/support/in_memory_sign_in_attempts.ts:18-56 | empty stores start in agreement, whatever the challenges |
| `AttemptRefinement.BoundedRun` | src/domain/sign_in_attempt_policy.ts:9-35 | in every state of every run each row's delay ends at most a minute after its last attempt |
| `AttemptRefinement.RefusalsNeverExtend` | src/infrastructure/persistence/adapters/typeorm_sign_in_attempt_repository.adapter.ts:26-37 | steps that admit nothing on an account never move its delay past an instant it was within |
| `AttemptRefinement.SlowedNeverLockedOut` | src/domain/sign_in_attempt_policy.ts:18-35 | a refused claim or answer names a wait of 1 to 60 seconds and changes nothing; after that wait, whatever happened meanwhile short of an admission, a claim is admitted and an answer is unless its challenge has none left |
| `AttemptRefinement.NextAttempt` | src/domain/sign_in_attempt_policy.ts:18-35 | from one attempt of an account to the next at any later instant: refused until the delay of the first is over, the next number from then, and number one from an hour after on |
| `MerchantFeed.MerchantTables.BeginTransaction` | src/migrations/1789500000000-MerchantChangeTransaction.ts:7-12 | a writer's transaction id is above every id in progress |
| `MerchantFeed.MerchantTables.Save` | src/infrastructure/persistence/adapters/typeorm_merchant_repository.adapter.ts:93-129 | a save writes the merchant and, through the trigger, its feed row, and nothing else |
| `MerchantFeed.MerchantTables.CommitTransaction` | src/migrations/1789500000000-MerchantChangeTransaction.ts:17-33 | a commit moves exactly the writer's rows, content and stamp together, into the joined table |
| `MerchantFeed.MerchantTables.AbortTransaction` | src/migrations/1789500000000-MerchantChangeTransaction.ts:17-33 | an abort drops exactly the writer's rows |
| `MerchantReader.WrittenIsCommitted` | src/infrastructure/persistence/adapters/typeorm_merchant_repository.adapter.ts:93-129 | whatever other writers and readers do in between, a commit puts the writer's last content of a merchant into the table under its own transaction id, and an abort leaves the table alone |
| `MerchantFeed.OrderedLists` | src/infrastructure/persistence/adapters/typeorm_merchant_repository.adapter.ts:63-91 | the query lists each matching merchant once, ascending by transaction id, then merchant id |
| `MerchantFeed.PageIsPrefix` | src/infrastructure/persistence/adapters/typeorm_merchant_repository.adapter.ts:77-90 | a page read with one row to spare is the first `limit` of everything that matches, says whether there is more, and carries the id of its last entry; `WantedExactly` says what matches |
| `MerchantDrain.WantedExactly` | src/infrastructure/persistence/adapters/typeorm_merchant_repository.adapter.ts:72-76 | a merchant matches exactly when its entry lies after the cursor, by transaction id and then merchant id, and below every transaction id in progress, whatever else is open |
| `MerchantFeed.MerchantPageLimitOf` | src/adapters/controllers/identity_grpc.controller.ts:46-52 | every requested limit becomes one from 1 to 500: one in that range is kept, more becomes 500, none or less becomes 100 |
| `MerchantReader.ResolvesNoFurther` | src/adapters/controllers/identity_grpc.controller.ts:336-348 | a cursor taken back resolves to its own merchant or to 0, never past the place it was handed out for |
| `MerchantReader.CommitLandsAfterCursors` | src/infrastructure/persistence/adapters/typeorm_merchant_repository.adapter.ts:72-76 | every entry a commit writes is after every cursor ever handed out |
| `MerchantReader.QueryReadsPage` | src/infrastructure/persistence/adapters/typeorm_merchant_repository.adapter.ts:63-91 | up to the end of a page just read from any cursor, the replica holds a merchant as committed or the page lists it so |
| `MerchantReader.ReplyKeepsInv` | src/adapters/controllers/identity_grpc.controller.ts:281-322 | a reply applied after any commits since its page was read, or a call that failed for want of an alias, keeps every promise of every cursor, the new one included |
| `MerchantReader.NoLostChange` | src/adapters/controllers/identity_grpc.controller.ts:264-348 | after any run of writers, alias changes and calls, commits and alias changes also between the three statements of a call, the replica holds the committed content of every merchant at or below every cursor handed out, also when a principal no longer resolves |
| `MerchantReader.PositionsNeverSlipBehind` | src/infrastructure/persistence/adapters/typeorm_merchant_repository.adapter.ts:72-76 | in every reachable state each cursor is below every open and future writer, and whatever entry the next commit changes lands after it |
| `MerchantFeed.EntriesMoveBackwards` | src/migrations/1789500000000-MerchantChangeTransaction.ts:17-33 | an older writer that commits last does move an entry backwards in the feed |
| `MerchantDrain.WalkDeliversAll` | src/adapters/controllers/identity_grpc.controller.ts:300-322 | reading until there is no more ends, and delivers each remaining entry once, in order |
| `MerchantDrain.WalkIsExact` | src/infrastructure/persistence/adapters/typeorm_merchant_repository.adapter.ts:63-91 | a walk lists, in the order of the feed and once each, exactly the merchants whose entries lie after the cursor and below every transaction id in progress, with their committed content |
| `MerchantDrain.DrainIsExact` | src/infrastructure/persistence/adapters/typeorm_merchant_repository.adapter.ts:77-90 | in every reachable state, writers open or not, a walk from any cursor handed out leaves in the replica, as committed, every merchant below every transaction id in progress, and leaves nothing more to read |
| `MerchantDrain.DrainedReplicaIsTable` | src/adapters/controllers/identity_grpc.controller.ts:264-323 | with no writer open, a reader that started empty and drains the feed equals the table: every merchant as committed and nothing else |
| `MerchantDrain.WalkIsRun` | src/adapters/controllers/identity_grpc.controller.ts:264-323 | the walk is a run of the reader's calls and leaves its replica where the walk does |
| `Tokens.TokenService.Mint` | src/application/services/token.service.ts:79-139 | the two tokens and the one refresh row a minting adds |
| `Tokens.TokenService.RotateToken` | src/application/services/token.service.ts:268-324 | store and outcome of a rotation through all its refusals: invalid, unrecognised, revoked, reused (which ends the family), expired, wrong client |
| `Tokens.TokenService.RevokeWhere` | src/application/services/token.service.ts:352-388 | row by row: a named row without a revocation gets this one, every other row, revoked ones with their first reason included, stays as it was |
| `TokenFamilies.RecordedOnce` | src/application/services/token.service.ts:339-350 | of two records of one token only the first succeeds; the token is refused from then on, and other tokens are not affected |
| `TokenFamilies.SweepChangesNoVerdict` | src/application/services/token.service.ts:390-393 | a sweep of tombstones changes the verdict on no token at any later time |
| `TokenFamilies.RefusedRotation` | src/application/services/token.service.ts:268-324 | a rotation that mints nothing changes nothing, unless it met a spent token, whose family it ends |
| `TokenFamilies.RotationReplaces` | src/application/services/token.service.ts:268-324 | a successful rotation spends one row, adds its one replacement in the same family and account, keeps the client of a row that had one, and signs for nobody else |
| `TokenBinding.GoodUntil` | src/application/services/token.service.ts:395-418 | a token is good exactly before its `exp`, to the millisecond, and while it has no tombstone |
| `TokenBinding.RenewsExactly` | src/application/services/token.service.ts:268-324 | in every reachable state a refresh token rotates exactly when its row is unspent, unrevoked and unexpired and the client is the row's, or the row has none |
| `TokenBinding.RenewalBinds` | src/application/services/token.service.ts:299-324 | the replacement row and both new tokens carry the row's client, or, where it had none, the client that renewed, or none where that has no name; `bound` is told exactly for a row without a client renewed by a named one; lifetimes are those of a fresh session |
| `TokenBinding.NamedRenewalBinds` | src/application/services/token.service.ts:299-324 | after a renewal by a named client the family's unspent row carries that name |
| `TokenBinding.NamedIssueBinds` | src/application/services/token.service.ts:79-139 | and so does a session issued to a named client, from the start |
| `TokenBinding.BoundStays` | src/application/services/token.service.ts:268-324 | over every further run of the token service it stays so |
| `TokenBinding.AccessBelongsToSession` | src/application/services/token.service.ts:79-139 | over every run each access token has a refresh row of the same family, account and client signed in the same second, and the two expire as far apart as their lifetimes |
| `TokenFamilies.FamiliesArePaths` | src/application/services/token.service.ts:75-139 | in every reachable state a family's rows are one simple path of replacements within one account, with a client that is absent for a prefix and then fixed, at most one row unused and unrevoked, and all revoked or none |
| `TokenFamilies.RevokedFamilyNeverMints` | src/application/services/token.service.ts:268-388 | once a family is revoked, over every further run its rows stay as they are and no access or refresh token is signed for it |
| `TokenFamilies.ReuseKills` | src/application/services/token.service.ts:286-297 | presenting a spent token revokes its whole family |
| `TokenFamilies.EndingKills` | src/application/services/token.service.ts:352-388 | so does ending the family, its principal, or its principal's other sessions |
| `TokenFamilies.ChecksAgree` | src/domain/session_client.ts:3-25 | in every reachable state the client a refresh token carries is its row's, so the check before the lock and the check inside it decide alike |
| `TokenFamilies.RevocationIsPermanent` | src/application/services/token.service.ts:339-418 | a recorded token is refused at every later time over any run with sweeps |
| `Sessions.AuthUsecase.AcceptTwoFactorStep` | src/infrastructure/persistence/adapters/typeorm_user_repository.adapter.ts:54-64 | a step is accepted exactly when it is later than the last accepted, and then becomes the last |
| `Sessions.AuthUsecase.Save` | src/infrastructure/persistence/adapters/typeorm_user_repository.adapter.ts:31-52 | a save of the second factor makes no spent step acceptable again and touches no other account |
| `Sessions.AuthUsecase.Resolve` | src/application/services/principal_resolver.service.ts:20-51 | an account keeps its principal, or gets the new one |
| `Sessions.AuthUsecase.LogOut` | src/application/services/auth_usecase.service.ts:245-258 | the access token and the named family, or every family of the principal, end; another account's refresh token changes nothing |
| `Sessions.AuthUsecase.Refresh` | src/application/services/auth_usecase.service.ts:189-243 | store and outcome of a renewal, with the client check, the admin check and the rotation in that order |
| `SessionRules.AdminRule` | src/application/services/auth_usecase.service.ts:286-354 | over every run, with a stop after any write of enabling or disabling, an admin without a second factor has no live refresh token |
| `SessionRules.CodesBurnInOrder` | src/infrastructure/persistence/adapters/typeorm_user_repository.adapter.ts:31-64 | over every run an account's accepted steps strictly increase, and between t1 and t2 at most step(t2) - step(t1) + 3 codes are accepted |
| `SessionRules.MismatchChangesNothing` | src/application/services/auth_usecase.service.ts:193-196 | in every reachable state a renewal by another client changes nothing at all, and one that passes the first check is never stopped by the second |
| `SessionFamilies.RequestsAreTokenOps` | src/application/services/auth_usecase.service.ts:57-396 | every run of sign-in requests is, on the tokens, a run of the token service's operations, so all that holds of those holds here |
| `SessionFamilies.SessionsArePaths` | src/application/services/auth_usecase.service.ts:57-396 | over every run of requests a family is one simple path within one account, with at most one live row, and all revoked or none |
| `SessionFamilies.EndedSessionStaysEnded` | src/application/services/auth_usecase.service.ts:189-258 | over every run of requests a revoked family gets no row and no token any more |
| `SessionFamilies.RevokedStaysRefused` | src/application/services/token.service.ts:339-418 | in every state a run of requests reaches, a token with a tombstone is refused from then on over every further run of requests and sweeps |
| `SessionFamilies.SpentStaysRefused` | src/application/services/auth_usecase.service.ts:98-258 | an access token logged out, or a challenge answered right, is refused for ever over requests and sweeps |
| `SessionOutcomes.OpensExactly` | src/application/services/auth_usecase.service.ts:130-162 | a challenge is open exactly while it is live and its account has the second factor on with a secret; a session or enrolment token opens its own account and no other, while it is live |
| `SessionOutcomes.RegisterOutcome` | src/application/services/auth_usecase.service.ts:171-187 | a new account is a customer without a second factor and has a session for its client |
| `SessionOutcomes.LoginOutcome` | src/application/services/auth_usecase.service.ts:57-96 | a wrong password changes nothing; a right one signs a challenge of 300 seconds where the second factor is on, an enrolment token of 600 for an admin without one, and a session for everybody else, each for this very account |
| `SessionOutcomes.CodeOutcome` | src/application/services/auth_usecase.service.ts:98-128 | a code starts a session exactly on an open challenge and a step later than the last; any right code spends the challenge, and only one that starts a session spends the step |
| `SessionOutcomes.PasskeyOutcome` | src/application/services/passkey_usecase.service.ts:170-212 | a passkey starts one exactly on an open challenge, asserted right and with its counter advanced; asserted right it spends the challenge in any case |
| `SessionOutcomes.LogoutOutcome` | src/application/services/auth_usecase.service.ts:245-258 | row by row: a logout ends the named family of the caller's principal, or all its families, and the access token; a refresh token of another principal ends nothing |
| `SessionOutcomes.SetupOutcome` | src/application/services/auth_usecase.service.ts:260-284 | a set-up stores the new secret, leaves the second factor off and touches no other account and no token |
| `SessionOutcomes.EnableOutcome` | src/application/services/auth_usecase.service.ts:286-318 | all writes done, the second factor is on with the very secret the code was checked against, the step is spent, and row by row the other sessions (from an enrolment token: all, and the token) have ended; stopped at any write, it is on only if they have |
| `SessionOutcomes.DisableOutcome` | src/application/services/auth_usecase.service.ts:320-349 | all writes done, the second factor is off with no secret and row by row the other sessions (an admin's: all, and the access token) have ended; stopped earlier, only the step is spent |
| `SessionOutcomes.SwitchNeedsProof` | src/application/services/auth_usecase.service.ts:260-349 | a switch changes anything if and only if its token is live and the account's own, the password right where one is asked for, and the code right and of a step later than the last; a set-up only with that token and password while the factor is off |
| `SessionOutcomes.DisabledSignsInWithoutCode` | src/application/services/auth_usecase.service.ts:320-349 | after a whole disabling the next right password starts a session, or an admin's enrolment, and no challenge |
| `SessionOutcomes.EnabledSignsInWithCode` | src/application/services/auth_usecase.service.ts:286-318 | after a whole enabling the next right password is answered with a challenge, which for five minutes a code of a later step, and of no earlier one, answers with a session |
| `SessionOutcomes.RenewalOutcome` | src/application/services/auth_usecase.service.ts:189-243 | in every reachable state a renewal succeeds exactly when the row is unspent, unrevoked and unexpired, the client is the session's or its first, and the account is no admin without a second factor; it then signs both tokens of that family, account and bound client |
| `SessionOutcomes.UnprotectedRenewalEnds` | src/application/services/auth_usecase.service.ts:203-210 | an admin without a second factor who tries to renew loses exactly the rows of that family |
| `SessionOutcomes.SessionBelongsToClient` | src/application/services/auth_usecase.service.ts:189-243 | once a named client has renewed a session, over every further run of requests no other client renews any token of its family, and one that presents the unspent token is told of the mismatch and changes nothing |
| `SessionOutcomes.AccessTokensBelong` | src/application/services/token.service.ts:79-139 | over every run of requests each access token belongs to a refresh row of its family, account and client, and each lives its own lifetime from the same second |
| `SignIn.SignInUsecases.Register` | src/application/services/auth_usecase.service.ts:171-187 | a free email becomes a customer account with a session, its principal's kind and no attempts against it; a taken one changes nothing |
| `SignIn.SignInUsecases.LogIn` | src/application/services/auth_usecase.service.ts:57-96 | an attempt is claimed before anything else, for unknown accounts, too; a right password of a known account goes on to the sessions, and the attempts are cleared unless it is answered with a challenge |
| `SignIn.SignInUsecases.VerifyTwoFactor` | src/application/services/auth_usecase.service.ts:98-162 | an answer to an open challenge is claimed against account and challenge, then the challenge is consumed, then the step is tried, then a session starts |
| `SignIn.SignInUsecases.SignInOptions` | src/application/services/passkey_usecase.service.ts:153-168 | options are given for an open challenge of an account that holds a passkey, in place of the account's own earlier ones |
| `SignIn.SignInUsecases.VerifySignIn` | src/application/services/passkey_usecase.service.ts:170-212 | a passkey answer is claimed, spends the open options, and only then is checked; a session starts when it is right and its counter advanced |
| `SignIn.SignInUsecases.Succeed` | src/application/services/auth_usecase.service.ts:356-360 | a session that starts puts the principal's kind in step with the role and forgets the account's attempts |
| `SignIn.SignInUsecases.SetUpTwoFactor` | src/application/services/auth_usecase.service.ts:260-284 | from a session the password is claimed and checked, from an enrolment token it is not; a new secret is stored only while the second factor is off |
| `SignIn.SignInUsecases.EnableTwoFactor` | src/application/services/auth_usecase.service.ts:286-318 | the state after any number of the writes of enabling, in their order, the claim first |
| `SignIn.SignInUsecases.DisableTwoFactor` | src/application/services/auth_usecase.service.ts:320-349 | the state after any number of the writes of disabling, in their order, the claim first |
| `SignInRules.CallsAreRequests` | src/application/services/auth_usecase.service.ts:57-396 | behind back-off and options, every run of the service is on its sessions the run of exactly the requests of the calls that get through, so all that holds of those holds here |
| `SignInRules.CallFollows` | src/application/services/auth_usecase.service.ts:57-396 | a call moves the sessions by its one request exactly when it gets through: an admitted claim where it tests a secret, for a sign-in a known email and the right password, for an assertion open options; else they stay as they are |
| `SignInGrants.WrongPasswordDoesNothing` | src/application/services/auth_usecase.service.ts:82-96 | a sign-in with a wrong password leaves every account, token and row as it was |
| `SignInGrants.CallSignsEarned` | src/application/services/auth_usecase.service.ts:57-396 | a call signs tokens exactly when it proves itself (a new account, an admitted right password, an admitted right code of a later step, an admitted assertion with open options, a renewable token), of that kind and for exactly that account, and changes no other token |
| `SignInGrants.EveryTokenIsEarned` | src/application/services/auth_usecase.service.ts:57-396 | over every run, each token ever signed was earned so by a call of the run, a session by password alone only where the second factor is off and the account is no admin |
| `SignInGrants.EveryRowIsEarned` | src/application/services/auth_usecase.service.ts:351-374 | and so was each session row, for its account; if by a sign-in, with the right password |
| `SignInGrants.RightPasswordAnswer` | src/application/services/auth_usecase.service.ts:57-80 | a right password is answered with a challenge exactly when the account's second factor is on |
| `SignInGrants.SwitchDecidesNextSignIn` | src/application/services/auth_usecase.service.ts:286-349 | after a whole switch, the next right password of the account is answered with a challenge exactly when it was switched on |
| `SignInGrants.EmailsStayDistinct` | src/application/services/auth_usecase.service.ts:171-187 | over every run the emails and the index on them are inverse, so no two accounts share one and a sign-in finds the account that registered it |
| `SignInEffects.SignedInShowsRole` | src/application/services/auth_usecase.service.ts:351-396 | whoever signs up or in, by password, code or passkey, or enrols, has a principal that shows from then on the kind of the account's role |
| `SignInEffects.MintedShowsRole` | src/application/services/principal_resolver.service.ts:20-51 | so does a principal minted for a right password that is answered with a challenge |
| `SignInEffects.OptionsGiven` | src/application/services/passkey_usecase.service.ts:153-168 | options for an open challenge are open for 120 seconds with their own nonce, for an account that holds a passkey and no other |
| `SignInEffects.AssertedOptionsClose` | src/application/services/passkey_usecase.service.ts:170-186 | an assertion that is looked at leaves no open options behind, right or wrong |
| `SignInEffects.OptionsStayOpen` | src/infrastructure/persistence/adapters/typeorm_passkey_challenge_repository.adapter.ts:30-75 | over every run of calls and sweeps that neither give nor spend options of a challenge they are as open as they were |
| `SignInRules.AdminRule` | src/application/services/auth_usecase.service.ts:286-354 | over every run of the whole service an admin without a second factor has no live refresh token |
| `SignInRules.AttemptsFollow` | src/application/services/sign_in_attempts.service.ts:20-72 | a request changes the attempts by its one claim and its one clearing, and in no other way |
| `SignInRules.SecretsAreTestedSlowly` | src/application/services/auth_usecase.service.ts:82-169 | over every run of the whole service in which no session or enrolment starts for an account, the N requests that get to test its password, codes or passkeys take at least 60 N - 597 seconds |
| `SignInRules.UntestedSecretsDoNotMatter` | src/application/services/auth_usecase.service.ts:82-169 | a request whose claim is not admitted does the same whatever password, code or assertion it carries |
| `Challenges.PasskeyChallenges.Issue` | src/infrastructure/persistence/adapters/typeorm_passkey_challenge_repository.adapter.ts:30-39 | options are inserted, or replaced when they are the same user's |
| `Challenges.SpentOnce` | src/infrastructure/persistence/adapters/typeorm_passkey_challenge_repository.adapter.ts:45-75 | spent options cannot be spent again by anyone at any time until options are issued anew |
| `Challenges.SweptOptionsWereClosed` | src/infrastructure/persistence/adapters/typeorm_passkey_challenge_repository.adapter.ts:49-58 | a sweep of options changes the end of no later spend |
| `ChallengeRules.ConsumedOnceExactly` | src/application/services/token.service.ts:221-238 | over every interleaving each challenge is consumed at most once if and only if no request reaches the consuming statement of a challenge consumed before whose tombstone is gone |
| `ChallengeRules.SessionsWithinConsumptions` | src/application/services/auth_usecase.service.ts:98-128 | over every interleaving a challenge starts no more sessions than it was consumed |
| `ChallengeRules.FiveAnswersExactly` | src/infrastructure/persistence/adapters/typeorm_sign_in_attempt_repository.adapter.ts:44-81 | over every interleaving each challenge admits at most five answers if and only if no answer the back-off lets through meets one that had its five and whose count was swept |
| `ChallengeRules.ReopeningIsLate` | src/application/services/token.service.ts:221-238 | a second consumption comes after the challenge's expiry |
| `ChallengeRules.RecountingIsLate` | src/infrastructure/persistence/adapters/typeorm_sign_in_attempt_repository.adapter.ts:44-81 | and so does a sixth answer |
| `ChallengeRules.SweepReopens` | src/application/services/expired_record_sweeper.service.ts:35-51 | after expiry one sweep is enough for any request found right to consume a consumed challenge |
| `ChallengeRules.SweepRecounts` | src/infrastructure/persistence/adapters/typeorm_sign_in_attempt_repository.adapter.ts:83-97 | and for any answer the back-off lets through to be a sixth |
| `ChallengeRules.OneChallengeOneSession` | src/application/services/auth_usecase.service.ts:98-162 | when no request claims or consumes after its challenge's expiry, however answers, options, sweeps and time interleave, a challenge admits at most five answers and starts at most one session |
| `ChallengeRules.OptionsAnsweredOnce` | src/infrastructure/persistence/adapters/typeorm_passkey_challenge_repository.adapter.ts:30-75 | over every interleaving, late or not, each set of options ever given is answered at most once |
| `ChallengeAnswers.GuessesWithinAdmissions` | src/application/services/auth_usecase.service.ts:98-169 | over every interleaving the answers to a challenge are looked at, right or wrong, no more often than answers to it were admitted, and at most five times when no request claims or consumes after its expiry |
| `ChallengeAnswers.EverySessionWasProved` | src/application/services/auth_usecase.service.ts:98-128 | over every interleaving a challenge that started a session had an answer found right, a code once admitted or a passkey once its options were spent, and its counter advanced after that |
| `ChallengeAnswers.RightAnswerForgetsAttempts` | src/application/services/auth_usecase.service.ts:356-360 | before its session starts, a right answer makes the account's next attempt a first one and changes no decision on another account |
| `ChallengeAnswers.EveryRequestOpenedLive` | src/application/services/auth_usecase.service.ts:130-151 | over every interleaving each request opened its challenge while that was signed, before its expiry to the millisecond, and not answered yet |
| `ChallengeAnswers.OptionsLastTwoMinutes` | src/infrastructure/persistence/adapters/typeorm_passkey_challenge_repository.adapter.ts:30-75 | over every interleaving that neither replaces nor spends them, options are spent with their own nonce by their own user and by nobody else, exactly up to 120,000 ms after they were given |
| `ChallengeRules.LateRequestStartsAnother` | src/application/services/token.service.ts:221-238 | whenever two requests were found right, the first finishes, the challenge expires and is swept and the second finishes, both start a session |
| `ChallengeRules.TwoSessionsAreReached` | src/application/services/token.service.ts:221-238 | from an empty system, for every challenge, a run that starts two sessions |
| `ChallengeRules.SixAnswersAreReached` | src/infrastructure/persistence/adapters/typeorm_sign_in_attempt_repository.adapter.ts:44-97 | from an empty system, for every challenge, a run that admits six answers |
| `Onboarding.OnboardingUsecases.Approve` | src/application/services/courier_onboarding_usecase.service.ts:52-90 | the account after any number of the writes of a courier approval |
| `Onboarding.OnboardingUsecases.Activate` | src/application/services/courier_onboarding_usecase.service.ts:140-178 | what each fleet answer leads to: recorded, undone, or left as it is |
| `Onboarding.RejectedUntilFiled` | src/application/services/courier_onboarding_usecase.service.ts:92-123 | a rejected courier application is rejected in every state of a run if and only if the run never files it anew |
| `Onboarding.OnboardingUsecases.File` | src/infrastructure/persistence/adapters/typeorm_courier_application_repository.adapter.ts:24-39 | filing opens an application or reopens a rejected one, and leaves a pending or approved one |
| `Onboarding.OnboardingUsecases.Onboard` | src/application/services/seller_onboarding_usecase.service.ts:40-80 | an application that is not verified is filed anew |
| `Onboarding.SellerRejectedUntilOnboarded` | src/application/services/seller_onboarding_usecase.service.ts:144-151 | a rejected seller application stands as it is, form and instant included, in every state of a run if and only if the run never onboards the seller anew |
| `Onboarding.OnboardingUsecases.Verify` | src/application/services/seller_onboarding_usecase.service.ts:153-213 | the account after any number of the writes of a seller approval |
| `Onboarding.OnboardingUsecases.Finish` | src/application/services/principal_resolver.service.ts:20-90 | the writes after the role: principal, kind, alias, verification |
| `Onboarding.CourierSaga` | src/application/services/courier_onboarding_usecase.service.ts:52-178 | over every run with stops and any fleet answers: fleet-active implies courier, approved implies courier and fleet-active, rejected implies no courier |
| `Onboarding.RefusalUndoesPromotion` | src/domain/errors/fleet_registry.error.ts:12-14 | an approval the fleet surely did not act on leaves a customer exactly as before, with the principal's kind in step |
| `Onboarding.CourierApprovalRecovers` | src/application/services/courier_onboarding_usecase.service.ts:52-90 | approving again after a stop anywhere ends as one whole run does, for customers and couriers alike; the principal's kind does exactly when the first run did not stop right after promoting a customer whose kind was another |
| `Onboarding.KindStep` | src/application/services/courier_onboarding_usecase.service.ts:52-178 | one step of any kind leaves the principal's kind behind exactly when it stops between the role and the kind |
| `Onboarding.KindExactly` | src/application/services/courier_onboarding_usecase.service.ts:52-178 | over every run from an account in step, the kind is in step in every state if and only if no approval stops between a write of the role and the write of the kind |
| `Onboarding.KindLagsUntilSignIn` | src/application/services/auth_usecase.service.ts:351-360 | after any run, a sign-in or a filing puts the kind in step, and from there on that equivalence holds |
| `Onboarding.VerifiedSeller` | src/application/services/seller_onboarding_usecase.service.ts:153-213 | in every reachable state a verified application means the seller role, a verified merchant, and an alias equal to the account's principal |
| `Onboarding.SellerApprovalRecovers` | src/application/services/seller_onboarding_usecase.service.ts:153-224 | from every reachable state, stopped after any write, the application passes every guard again and, whatever the second run draws, ends as one whole run with the draws that took effect, up to instants and geocoding |
| `OnboardingOutcomes.ApplicationShowsLastForm` | src/application/services/seller_onboarding_usecase.service.ts:40-80 | over every run the application shows the form the account gave last while it could |
| `OnboardingOutcomes.WholeSellerApproval` | src/application/services/seller_onboarding_usecase.service.ts:153-213 | a whole approval of any reachable account makes a merchant with the store name, legal data and address of the form last given, or, where there is one, keeps its id, name, slug and legal data and takes the address; the account is a seller, its principal shows a merchant and is the merchant's alias |
| `OnboardingOutcomes.ForeignAliasStopsApproval` | src/application/services/principal_resolver.service.ts:71-90 | a merchant whose alias stands for another principal is not verified for this one, at whatever write the approval stops, and the alias stays |
| `OnboardingOutcomes.EveryMerchantWasApproved` | src/application/services/seller_onboarding_usecase.service.ts:173-195 | over every run a merchant's name, legal data, slug and id are for good those of the form and draw of the approval that first saved it, and its address, place and instant those of the last |
| `OnboardingOutcomes.WholeCourierApproval` | src/application/services/courier_onboarding_usecase.service.ts:52-178 | a whole courier approval by what the fleet answers: a courier, active and approved; a courier, pending in the fleet; or what it was, a customer showing a customer again; the kind shown is the role's |
| `OnboardingOutcomes.FilingOutcome` | src/infrastructure/persistence/adapters/typeorm_courier_application_repository.adapter.ts:24-39 | filing gives a customer or courier a principal that shows the role and opens or reopens the application, and touches nothing else |
| `OnboardingOutcomes.SellerRejectionStands` | src/application/services/seller_onboarding_usecase.service.ts:144-151 | the rejection of a pending application stands, with the form last given and its instant, over every run that does not onboard anew |
| `OnboardingOutcomes.CourierRejectionStands` | src/application/services/courier_onboarding_usecase.service.ts:92-123 | so does that of a pending courier application over every run that does not file anew, and the account is no courier |
| `Base32.AlphabetRead` | src/infrastructure/crypto/totp.ts:3-3 | letters by digit and digits by letter are the alphabet's, and nothing else is in it |
| `Base32.Encode` | src/infrastructure/crypto/totp.ts:10-26 | the loop over a wrapping accumulator gives the five-bit groups of the zero-padded bit string |
| `Base32.Decode` | src/infrastructure/crypto/totp.ts:28-48 | the loop gives the whole bytes in the bits of the letters, whatever their case, and throws exactly on a character outside the alphabet |
| `Base32.EncodedLength` | src/infrastructure/crypto/totp.ts:10-26 | n bytes take 8n/5 letters, rounded up |
| `Base32.RoundTrip` | src/infrastructure/crypto/totp.ts:10-48 | decoding an encoding gives the bytes back, for every byte string |
| `Base32.PaddingIgnored` | src/infrastructure/crypto/totp.ts:29-29 | any number of trailing padding characters changes nothing |
| `Base32Values.EncodedIsNumber` | src/infrastructure/crypto/totp.ts:10-26 | read in base 32, the letters write the number the bytes write in base 256, moved up by the fewer than five bits that fill the last letter |
| `Base32Values.DecodedIsNumber` | src/infrastructure/crypto/totp.ts:28-48 | the bytes write the number the letters write, less the fewer than eight bits that make no byte |
| `Base32Values.DecodesExactly` | src/infrastructure/crypto/totp.ts:28-38 | a text decodes if and only if, before its trailing padding, every character is white space or has an upper case made of letters of the alphabet |
| `Base32Values.CaseIgnored` | src/infrastructure/crypto/totp.ts:29-29 | a small letter anywhere is read as the capital |
| `Base32Values.BlankIgnored` | src/infrastructure/crypto/totp.ts:29-29 | a blank, tab or line end anywhere before the padding is skipped |
| `Totp.MessageIsCounter` | src/infrastructure/crypto/totp.ts:56-58 | the two 32-bit writes give the counter in eight bytes, most significant first |
| `Totp.TruncatedIsThirtyOneBits` | src/infrastructure/crypto/totp.ts:61-66 | the truncation is the big-endian number of four bytes at the digest's own offset, modulo 2^31 (section 5.3 of RFC 4226) |
| `Totp.SixDigitsRead` | src/infrastructure/crypto/totp.ts:68-68 | the text is six digits that read as the number |
| `Totp.CodeIsHotp` | src/infrastructure/crypto/totp.ts:54-69 | for every secret this service encodes, the code is the HOTP value of the secret's own bytes and the counter; the counter is refused exactly when it does not fit |
| `Totp.LastMatching` | src/infrastructure/crypto/totp.ts:80-88 | the loop finds the last step of the window with this code, and stops exactly when a code cannot be computed |
| `Totp.AcceptedStep` | src/infrastructure/crypto/totp.ts:71-89 | a candidate that is not six digits is refused; otherwise the answer is the greatest matching step within one of the current step, or none |
| `Totp.SpaceAroundIgnored` | src/infrastructure/crypto/totp.ts:72-72 | a code with any white space around it is read as the code |
| `Totp.AnswerIsUnique` | src/infrastructure/crypto/totp.ts:71-89 | that leaves one answer, and a step it names lies in the window the burning of codes relies on |
| `Totp.ShownCodeIsAccepted` | src/infrastructure/crypto/totp.ts:71-93 | a code is accepted from thirty seconds before to thirty seconds after it was shown, and from a minute away only as the code of another step |
| `AppCheckKeys.AppCheckKeySet.Ask` | src/infrastructure/attestation/app_check_key_set.ts:28-74 | a lookup up to its wait: answered from the cache, joined to the download in flight, spared within ten seconds of the last, or the start of a download |
| `AppCheckRules.FreshIsLive` | src/infrastructure/attestation/app_check_key_set.ts:49-55 | the keys the cache offers are those of the newest successful download, if it ended less than six hours ago |
| `AppCheckRules.KeysLiveSixHours` | src/infrastructure/attestation/app_check_key_set.ts:49-55 | the keys a download brings are the live ones until exactly 21,600,000 ms after it ended; one that fails changes nothing |
| `AppCheckRules.LookupBegins` | src/infrastructure/attestation/app_check_key_set.ts:28-74 | over every run a lookup answers at once exactly from live keys that have the key; else it waits for the download whose marker stands, or starts one, unless the last began less than 10,000 ms ago |
| `AppCheckRules.DownloadIsRecorded` | src/infrastructure/attestation/app_check_key_set.ts:76-93 | after a download of either outcome the fields still say what the whole history of downloads says |
| `AppCheckRules.AwaitedEnded` | src/infrastructure/attestation/app_check_key_set.ts:57-74 | once the marker of the download a lookup waits for is gone, that download has ended |
| `AppCheckRules.SecondPartIsWarranted` | src/infrastructure/attestation/app_check_key_set.ts:36-47 | the answer after the wait is the one the history of downloads warrants |
| `AppCheckRules.OneFetchAtATime` | src/infrastructure/attestation/app_check_key_set.ts:57-74 | however lookups interleave, at most one download runs and starts are ten seconds apart |
| `AppCheckRules.AnswersAreWarranted` | src/infrastructure/attestation/app_check_key_set.ts:28-55 | every answer of every run follows from the downloads that had ended: a key only from the newest success, less than six hours old; "unknown" only when the last download succeeded without the key |
| `AppCheckRules.UnknownIsCurrentExactly` | src/infrastructure/attestation/app_check_key_set.ts:28-93 | over every interleaving, every "unknown" rests on a download that ended during its lookup or began less than ten seconds before it, if and only if no lookup that joined an ended download too late is answered from it |
| `AppCheckRules.UnknownIsFresh` | src/infrastructure/attestation/app_check_key_set.ts:28-93 | in a run without such an answer, each "unknown" rests on a download that ended during the lookup or began less than ten seconds before it |
| `AppCheckRules.TimelyNeverRests` | src/infrastructure/attestation/app_check_key_set.ts:57-74 | there is none when every lookup that joins a leftover marker comes within ten seconds of its download's start |
| `AppCheckRules.GapRestsOnOld` | src/infrastructure/attestation/app_check_key_set.ts:57-74 | a lookup that joins an ended download and is answered at any time before another ends rests on it exactly when it came too late and is told "unknown" |
| `AppCheckRules.OldUnknownIsReached` | src/infrastructure/attestation/app_check_key_set.ts:69-71 | a run in which a marker lingers reaches such an answer, for every key |

## Left out

- Totp.CodeIsHotp: counters are exact integers, so nothing is said of counters a double cannot hold.
- Reading a JWKS document into keys: a download brings a key set or fails.
- `findChangedSince`, the cursor by timestamp: commits may land out of `updatedAt` order, so it
  carries no such promise.
- Deletion of merchants: a feed row goes with its merchant and no removals are reported.
- A rotation interleaved inside with a bulk update of its family.
- Registration of passkeys and the cap on their number; of its password checks the claim is modelled.
- Role changes from scripts, profile and geocoding services, lists and tallies of applications,
  configuration, guards, metrics and logging: they would add easy members only.
- Slug text of a merchant: the slug is a parameter of the approval.
- Foreign cryptography: signing, hashing, HMAC and WebAuthn verification.
