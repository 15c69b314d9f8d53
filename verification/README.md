# SkillSphere API: outbox, credentials and enum names

A Dafny model of three parts of the SkillSphere API, with proofs that range over whole runs:

- **The transactional outbox.** `OutboxEmitter` inserts rows; any number of `OutboxProcessor` workers lock the
  oldest undelivered rows, pass each to Kafka and to the triple store, and mark it delivered in one transaction.
  `OutboxProtocol` is a labelled step system over the committed table, the open transactions and the two sinks;
  a failed call or a crash is an `Abort`, which drops the marks and keeps what the sinks accepted.
  `OutboxInvariant` and `OutboxDelivery` prove isolation, at-least-once delivery and the exact number of times
  each sink accepted each row; `OutboxBatches` proves that batches are atomic and oldest first whatever the others
  do; `OutboxOrder` proves ordered delivery for one live worker at a time, and `OutboxOvertaking` says exactly how
  several workers break the order; `OutboxDrain` proves that every reachable state can still deliver everything.
  `OutboxWorker`, `OutboxProcessing` and `OutboxEmitting` hold the programs, as classes whose every run, under any
  failure and any interference, is shown to be a run of the step system.
- **The credential lifecycle.** `AuthModel` gives the effect of one `AuthService` call on users, refresh
  sessions, one-time tokens and the set of signed JWTs, for every set of failing repository, hashing, signing and
  random calls. `AuthInvariant`, `AuthFootprint`, `AuthGuarantees` and `AuthFlows` prove what all runs of calls keep,
  never bring back, and let a user do; `AuthReplies` says exactly what each call needs and what it then writes. `AuthServices` holds the repository and the service as classes, each method proved to perform
  exactly that transition. `Password` is the strength check.
- **The names of the ontology generator.** `EnumCodec` has recursive specifications of the four name conversions
  and says exactly on which ASCII names they undo each other, agree or are injective; `EnumGenerator` has the
  loops, `buildEnumInfo` and `collectEnums`.

A `World` object is the database and both sinks at once. Its `quiet` flag says that nobody else acts; without it
every call may be preceded by any steps of others. Which calls of a poll fail is an input, a set of `Fault`s.
"Published" and "inserted" mean that the sink call returned nil. In the credential model a call is atomic, `faults`
names the calls that fail in it, and its two clock readings, fresh ids and fresh secrets are parameters. Hashing is
injective, a JWT is a claim record nobody can forge, and validity follows "exp" and "nbf" of sections 4.1.4 and
4.1.5 of RFC 7519. Times are microseconds.

Where the code and the documentation differ, the model follows the code: docs/ONTOLOGY_PIPELINE.md says that
`SELECT ... FOR UPDATE SKIP LOCKED` prevents duplicate deliveries. `DuplicateDelivery` is a run in which one row is
published twice, and `NoDuplicateIffNoRollback` says exactly when that does not happen.

Every state that can be reached through the classes is reached by a run from the initial state (`World.Valid`,
`AuthService.Valid`), so the theorems about runs apply to it.

## Model

| member | source | states |
|---|---|---|
| OutboxInvariant.RunKeepsInv | internal/ontology/outbox_processor.go:60-115 | Over every run of any number of workers: open batches are duplicate-free, pairwise disjoint and undelivered, marks are the dispatched part of the batch, sinks hold only payloads of enqueued rows, and every accepted call is accounted for |
| OutboxDelivery.ExactAccounting | internal/ontology/outbox_processor.go:105-135 | A sink that is used for a row accepted it once if it is delivered, once if an open batch has passed it, and once for each rolled-back batch that had; a sink that is not used accepted it never |
| OutboxDelivery.AtLeastOnce | internal/ontology/outbox_processor.go:105-135 | A delivered row with a payload is in the Kafka log if Kafka is configured and in the triple-store log if that is; a sink that is not configured has received nothing, and every message is the non-empty payload of an enqueued row |
| OutboxDelivery.NoDuplicateIffNoRollback | internal/ontology/outbox_processor.go:69-77 | A delivered row was accepted exactly once if and only if no batch that had passed it to the sink was rolled back |
| OutboxDelivery.DuplicateDelivery | docs/ONTOLOGY_PIPELINE.md:36 | A run with one worker in which a delivered row has been published twice |
| OutboxDelivery.DeliveredForGood | internal/ontology/outbox_processor.go:71-77 | After a row is delivered no later run selects it, changes it, marks it again or hands it to a sink |
| OutboxDelivery.MarkedByOneBatch | internal/ontology/outbox_processor.go:109-114 | Over any run exactly one committed batch marks a row that became delivered, and none marks any other row |
| OutboxDelivery.InsertsNeverExceedPublishes | internal/ontology/outbox_processor.go:122-132 | With Kafka configured, the triple store never accepted a row more often than Kafka |
| OutboxDelivery.CleanDrainIsExactlyOnce | internal/ontology/outbox_processor.go:105-114 | Any error-free interleaving that drains the table leaves in each sink exactly the multiset of what the outbox has for it, each non-empty payload once in each configured sink |
| OutboxOrder.OrderedDelivery | internal/ontology/outbox_processor.go:71-114 | With one live worker at a time and strictly increasing creation times, after any failures and restarts each sink's log without repeats is a prefix of the outbox, and so are the delivered rows |
| OutboxOrder.OldestIsNextStretch | internal/ontology/outbox_processor.go:71-77 | The selected batch of a quiet table is the stretch of the outbox right after the delivered rows |
| OutboxBatches.BatchAtomicity | internal/ontology/outbox_processor.go:69-114 | In every run of any workers a step that is no commit delivers nothing, and a commit gives exactly the rows of its batch their delivery time: the min(batchSize, k) oldest of the k rows that were undelivered and unlocked at the selection, held by the worker since |
| OutboxOvertaking.SkippedWasLocked | internal/ontology/outbox_processor.go:71-77 | With increasing creation times, an undelivered row that is older than a row of an open batch and not in it was locked by another worker when the batch was selected |
| OutboxOvertaking.OrderKeptIff | internal/ontology/outbox_processor.go:71-114 | A run of any workers with increasing creation times keeps the delivered rows in creation order throughout exactly if none of its commits overtakes an older row that was locked at the selection |
| OutboxOvertaking.OvertakingRun | internal/ontology/outbox_processor.go:71-77 | A run of two workers without any rollback in which the younger row is published and delivered and the older one is not |
| OutboxWorker.SelectOldest | internal/ontology/outbox_processor.go:71-77 | The chosen ids are distinct candidates in creation order, none left out is older, and they are as many as the limit allows |
| OutboxWorker.World.Query | internal/ontology/outbox_processor.go:71-80 | Unless it fails and changes nothing, whatever the others do, the worker gets the oldest rows that are unlocked and undelivered at that moment, with their payloads, and holds their locks |
| OutboxWorker.World.Deliver | internal/ontology/outbox_processor.go:122-132 | A sink call that does not fail puts the message in that sink's log and passes the sink; one that fails puts nothing there and leaves the sink due |
| OutboxWorker.World.MarkDelivered | internal/ontology/outbox_processor.go:109-111 | Only a row that every used sink has accepted can be marked, in its turn; if the update fails it stays unmarked |
| OutboxWorker.World.TryCommit | internal/ontology/outbox_processor.go:114 | A commit marks exactly the rows of the batch, possibly without saying so, or it is refused and the batch is rolled back |
| OutboxWorker.World.Rollback | internal/ontology/outbox_processor.go:69 | The deferred rollback ends the transaction and leaves the committed table alone |
| OutboxProcessing.OutboxProcessor.Dispatch | internal/ontology/outbox_processor.go:117-135 | It fails exactly if the payload is not empty and a configured sink fails; otherwise the message is in the log of each configured sink; alone, each sink gets it once, the triple store only if Kafka did not fail, and an empty payload goes nowhere |
| OutboxProcessing.OutboxProcessor.Scan | internal/ontology/outbox_processor.go:87-99 | It succeeds exactly if no row and not the iteration fails, and then has the rows of the result set in their order |
| OutboxProcessing.OutboxProcessor.DispatchAll | internal/ontology/outbox_processor.go:105-112 | Each row is forwarded and then marked before the next one is touched; it succeeds exactly if no call it makes fails, and alone the sinks then have received exactly the messages of the batch, in order |
| OutboxProcessing.OutboxProcessor.Forward | internal/ontology/outbox_processor.go:87-114 | From the result set to the end of the transaction: it commits exactly if no call fails, and otherwise rolls back |
| OutboxProcessing.OutboxProcessor.ProcessBatch | internal/ontology/outbox_processor.go:60-115 | Without a failing call it succeeds; it succeeds exactly if its commit is acknowledged, and commits exactly if no call before the reply fails. Under any interference its own steps are a whole batch and a commit, or a part of one and a rollback, and a commit delivers exactly the oldest rows available at its selection; alone, those rows are delivered and each sink got exactly their messages in order, or the table stays as it was and a prefix of the messages is out |
| OutboxProcessing.OutboxProcessor.Run | internal/ontology/outbox_processor.go:42-57 | It returns the error of the context or of a batch, and without failing calls that of the context; alone, when the context ends it after k polls, max(0, n - k * batchSize) of n rows are undelivered, by min(k, n / batchSize rounded up) non-empty batches |
| OutboxProcessing.BatchShrinks | internal/ontology/outbox_processor.go:71-114 | A committed batch on a quiet table has min(batchSize, backlog) rows and shrinks the backlog by as many |
| OutboxDrain.CanAlwaysDrain | internal/ontology/outbox_processor.go:60-115 | No row is ever stuck: from every state the invariant admits some run without new rows delivers all of them |
| OutboxDrain.SelectionExists | internal/ontology/outbox_processor.go:71-77 | The locking SELECT has an answer for every table and limit |
| OutboxEmitting.OutboxEmitter.Emit | internal/ontology/outbox_emitter.go:34-59 | It succeeds exactly if there is no database, or the event can be marshalled, its id is new and the insert does not fail; with a database it then enqueues one undelivered row with the given creation time, and a failure changes nothing |
| EnumCodec.CamelRoundTrip | ontology/cmd/generate/main.go:152-174 | snakeToPascal undoes camelToScreamingSnake exactly on names without underscores that do not start in lower case and whose inner upper-case letters all begin a word for the loop |
| EnumCodec.CamelWordsReturn | ontology/cmd/generate/main.go:152-174 | In particular on every name made of words [A-Z][a-z0-9]+ |
| EnumCodec.SnakeRoundTrip | ontology/cmd/generate/main.go:152-174 | camelToScreamingSnake undoes snakeToPascal exactly on names without lower case whose every underscore stands between parts that the camel loop cuts again |
| EnumCodec.SnakeWordsReturn | ontology/cmd/generate/main.go:152-174 | In particular on every name of '_'-joined parts [A-Z][A-Z0-9]+ |
| EnumCodec.LabelSquare | ontology/cmd/generate/main.go:165-202 | splitCamel after snakeToPascal equals toTitle exactly on names whose every underscore is followed by a part that starts with a letter and has a second byte |
| EnumCodec.SnakeWordsLabelsAgree | ontology/cmd/generate/main.go:165-202 | In particular the two labels agree on '_'-joined parts [A-Z][A-Z0-9]+ |
| EnumCodec.NameExamples | ontology/cmd/generate/main.go:152-202 | GoUp and GO_UP on all four paths |
| EnumCodec.UnpascalPascal | ontology/cmd/generate/main.go:165-174 | On upper-case parts that start with letters, snakeToPascal has a left inverse |
| EnumCodec.PascalInjective | ontology/cmd/generate/main.go:165-174 | On such names snakeToPascal is injective |
| EnumCodec.PascalCollideIff | ontology/cmd/generate/main.go:165-174 | Any two names get one Pascal name exactly if they agree in their bytes other than underscores, up to case, and in which of those are letters that start a part |
| EnumCodec.DigitPartsCollide | ontology/cmd/generate/main.go:165-174 | "A_1" and "A1" get one Pascal name |
| EnumGenerator.CamelToScreamingSnake | ontology/cmd/generate/main.go:152-163 | The loop with look-ahead and look-behind computes the recursive conversion |
| EnumGenerator.Capitalize | ontology/cmd/generate/main.go:167-172 | The loop overwrites every non-empty part in place with its capitalized form |
| EnumGenerator.SnakeToPascalLoop | ontology/cmd/generate/main.go:165-174 | Lowering, splitting, capitalizing and joining computes the recursive conversion |
| EnumGenerator.SplitCamelLoop | ontology/cmd/generate/main.go:176-190 | The loop computes the recursive conversion, its parts are non-empty and spell the name again |
| EnumGenerator.CutsByPosition | ontology/cmd/generate/main.go:152-190 | Both camel loops only insert separators (and upper-case the name in the snake case), at places read off the name alone; every cut of splitCamel is also a cut of camelToScreamingSnake, which besides cuts after lower-case letters |
| EnumGenerator.ToTitleLoop | ontology/cmd/generate/main.go:192-202 | Lowering, splitting, capitalizing and joining with blanks computes the recursive conversion |
| EnumGenerator.BuildEnumInfo | ontology/cmd/generate/main.go:101-123 | One entry for each value that is not unspecified, in order, with label, notation and concept name of its trimmed name |
| EnumGenerator.EntryReads | ontology/cmd/generate/main.go:101-123 | Each entry has the value's own name as name and notation, the trimmed name with blanks and capitals as label, and as concept name "sk:", the enum's name and the trimmed name in Pascal case, from which upper-case parts are read back |
| EnumGenerator.KeptByPlace | ontology/cmd/generate/main.go:101-123 | Each value that is not unspecified is kept, at the place given by the number of kept values before it |
| EnumGenerator.KeptAreNames | ontology/cmd/generate/main.go:101-123 | The kept values are the names of the enum without the unspecified suffix and nothing else |
| EnumGenerator.CollectEnums | ontology/cmd/generate/main.go:91-99 | All enums of all files, in order |
| EnumGenerator.InfosByPlace | ontology/cmd/generate/main.go:91-99 | Each enum of each file occurs, at the place after all enums before it, and there are as many entries as enums |
| EnumGenerator.ConceptsMeetIff | ontology/cmd/generate/main.go:110-115 | Any two values get one concept name exactly if snakeToPascal cannot tell their trimmed names apart |
| EnumGenerator.ConceptsCollideIff | ontology/cmd/generate/main.go:110-115 | Two values whose trimmed names are upper-case parts get one concept name exactly if they are equal or one is the other with the enum's prefix put on |
| EnumGenerator.ConceptsDistinct | ontology/cmd/generate/main.go:101-123 | Distinct prefixed values of upper-case parts get pairwise distinct concept names |
| EnumGenerator.ConceptOfWholeName | ontology/cmd/generate/main.go:101-123 | For an enum whose name returns from snake case and prefixes the value, the concept name is the Pascal form of the whole value name |
| EnumGenerator.EnumsCollideIff | ontology/cmd/generate/main.go:101-123 | Values of any two such enums get one concept name exactly if snakeToPascal cannot tell their whole names apart, and for upper-case parts exactly if they have the same name |
| EnumGenerator.EnumsMeetIff | ontology/cmd/generate/main.go:110-115 | Whatever the enums and values, two concept names are equal exactly if one enum's name extends the other's by what the Pascal values differ in |
| EnumGenerator.EnumsCollideExample | ontology/cmd/generate/main.go:110-115 | Enums Go and GoUp with a value GO_UP_NOW each give it one concept name |
| Password.ValidatePassword | internal/domain/auth/service/password.go:38-77 | The flag loop reports the first missing requirement |
| Password.Judge | internal/domain/auth/service/password.go:38-77 | A password is accepted exactly if it has 8 bytes, an upper- and a lower-case letter, a digit and a special character |
| Password.FirstMissed | internal/domain/auth/service/password.go:38-77 | A rejected password misses the requirement it is told and meets all that are reported before it |
| Password.VerdictExamples | internal/domain/auth/service/password.go:38-77 | One password for each verdict |
| AuthInvariant.RunKeepsInv | internal/domain/auth/service/auth_service.go:114-426 | In every reachable state, whatever failed midway: sessions and one-time tokens belong to users, emails and usernames are unique, a session row's user is the subject of the refresh token whose hash it holds, and lineages only point back |
| AuthGuarantees.RevokedForGood | internal/domain/auth/service/auth_service.go:192-242 | A known refresh token without a session row never gets one again in any later run |
| AuthGuarantees.RefreshNeedsSession | internal/domain/auth/service/auth_service.go:205-214 | Without an unexpired session row a refresh is rejected and no table changes |
| AuthGuarantees.RevocationIff | internal/domain/auth/service/auth_service.go:114-426 | Exactly which calls remove a session row: a logout of it, a refresh with it that passes its checks, a reset or change of password of its user, each only if its delete works (its error is ignored except at logout); no other call removes or alters one |
| AuthGuarantees.AccessNeverRefreshes | internal/domain/auth/service/auth_service.go:205-214 | An access token that passes the signature and time check of a refresh is still always rejected, for want of a session |
| AuthGuarantees.ChainKeepsSubject | internal/domain/auth/service/auth_service.go:216-242 | Every refresh chain starts at a registration or a login and keeps one subject |
| AuthGuarantees.RefreshKeepsSubject | internal/domain/auth/service/auth_service.go:205-242 | A refresh issues both tokens to the owner of the session row and extends that owner's chain |
| AuthGuarantees.OldCredentialsDieOut | internal/domain/auth/service/auth_service.go:283-344 | After a change or reset of password at T whose session delete worked, a token of the user, access or refresh, that is valid its own lifetime after T or later was signed later and its chain starts at a later login of the same user |
| AuthGuarantees.OldRefreshTokenPasses | internal/domain/auth/service/auth_service.go:245-250 | The access lifetime does not bound refresh tokens: one signed before the change goes on to validate exactly as before, also where an access token is asked for, and only never refreshes again |
| AuthGuarantees.LiveTokenFindsSession | internal/domain/auth/repository/auth_repository.go:145-167 | With a session lifetime of at least the refresh lifetime, a refresh token that validates and was not revoked finds its session |
| AuthGuarantees.SessionOutlivesTokenIff | cmd/api/dependencies.go:133-145 | A session always expires no earlier than its token exactly if its lifetime is at least the refresh lifetime |
| AuthGuarantees.RefreshSessionCount | internal/domain/auth/service/auth_service.go:205-241 | A refresh opens a session exactly if its checks pass and signing and storing work, and closes the old one exactly if its checks pass and the ignored delete works; other users keep theirs |
| AuthGuarantees.RedemptionFits | internal/domain/auth/repository/auth_repository.go:195-215 | A redemption needs a stored, unexpired token of its purpose, and writes its user's row in one field and no other |
| AuthGuarantees.RedeemedOnItsTerms | internal/domain/auth/service/auth_service.go:283-371 | A one-time token is only ever redeemed for its purpose, before its expiry and on its user, whose one field is the only change to users |
| AuthGuarantees.RedeemedIff | internal/domain/auth/service/auth_service.go:283-371 | After any run, a stored token offered for its purpose before its expiry without failures is redeemed exactly if no call of the run redeemed it with a delete that worked |
| AuthGuarantees.RedeemedOnce | internal/domain/auth/service/auth_service.go:303-362 | After a redemption whose delete worked, no later run redeems the token again |
| AuthGuarantees.RedeemedTwiceIff | internal/domain/auth/service/auth_service.go:303-362 | After a redemption and any run, the token works again before its expiry exactly if its delete and every later one had failed |
| AuthGuarantees.EmailForGood | internal/domain/auth/repository/auth_repository.go:225-229 | Users keep their email, and a verified email never becomes unverified |
| AuthGuarantees.RegisteredOnce | internal/domain/auth/service/auth_service.go:119-146 | Once a user row exists, even from a registration that failed afterwards, its email can never be registered again |
| AuthGuarantees.PasswordsAreStrong | internal/domain/auth/service/auth_service.go:115-338 | In every reachable state each stored hash is that of a password ValidatePassword accepts and bcrypt takes |
| AuthFlows.PasswordChangedBy | internal/domain/auth/service/auth_service.go:283-344 | A user's password is touched by no call but a successful reset or change of that user's password, which sets the new one |
| AuthFlows.LatestPasswordLogsIn | internal/domain/auth/service/auth_service.go:158-344 | After a change of password and any run until the next one, a login without failures succeeds exactly with the new password and an active account |
| AuthFlows.LoginIff | internal/domain/auth/service/auth_service.go:158-189 | A login without failures succeeds exactly with the user's email and password and an active account, and signs in that user |
| AuthFlows.RefreshSucceedsIff | internal/domain/auth/service/auth_service.go:205-242 | In a reachable state a refresh succeeds exactly if the token validates, has a session row and an active user and no needed call fails; the row's expiry never decides |
| AuthFlows.PairLifetime | internal/domain/auth/service/token_manager.go:55-136 | Both tokens handed out validate from the second of issue until exactly their own lifetime in every later state, whatever is revoked or changed, and the refresh token has a session at first |
| AuthFlows.RegisterFlow | internal/domain/auth/service/auth_service.go:114-371 | After a registration the email can be verified exactly within 24 hours, and the password logs in |
| AuthFlows.ResetFlow | internal/domain/auth/service/auth_service.go:253-307 | A requested reset token sets exactly a strong password of at most 72 bytes, exactly within one hour, for its user, who has no session left |
| AuthReplies.RefusalChangesNothing | internal/domain/auth/service/auth_service.go:114-426 | A call that fails for a reason of its own, or without any failing call, leaves every table as it was |
| AuthReplies.RegisterIff | internal/domain/auth/service/auth_service.go:114-155 | A registration succeeds exactly with a strong password of at most 72 bytes, a new email and a new username and no failing call; a taken email and a weak password have their own answers |
| AuthReplies.LoginReplies | internal/domain/auth/service/auth_service.go:158-177 | With a user's email: inactive is answered first, then a wrong password, and otherwise the user is signed in unless signing or storing fails |
| AuthReplies.LoginUnknown | internal/domain/auth/service/auth_service.go:158-162 | An email of nobody is answered as such |
| AuthReplies.LoginWrites | internal/domain/auth/service/auth_service.go:172-183 | A login adds one session of the configured lifetime and writes the time of the last login, unless that update fails |
| AuthReplies.LogoutIff | internal/domain/auth/service/auth_service.go:192-202 | A logout is done for every token that is not empty, known or not, unless the delete fails; the token's session is then gone and nothing else is |
| AuthReplies.LogoutIsFinal | internal/domain/auth/service/auth_service.go:192-214 | A token that was logged out never refreshes again, in any later state |
| AuthReplies.RefreshReplies | internal/domain/auth/service/auth_service.go:205-228 | Which check of a refresh answers, in their order |
| AuthReplies.RefreshWrites | internal/domain/auth/service/auth_service.go:230-241 | A refresh writes no user and no one-time token; the new session belongs to the owner of the old one and has the configured lifetime |
| AuthReplies.RefreshWindow | internal/domain/auth/service/auth_service.go:205-241 | The refresh token just handed out works exactly while the user is active and both the token and its session live |
| AuthReplies.ChangePasswordIff | internal/domain/auth/service/auth_service.go:310-344 | A change of password succeeds exactly with the user's current password, a strong new one of at most 72 bytes and no failing call, and then writes that one field; otherwise every table stays |
| AuthReplies.ChangePasswordReplies | internal/domain/auth/service/auth_service.go:310-331 | Which refusal a change of password is answered with |
| AuthReplies.WrongCurrentPassword | internal/domain/auth/service/auth_service.go:325-327 | A wrong current password is answered as such and changes nothing |
| AuthReplies.NextChangeNeedsLatest | internal/domain/auth/service/auth_service.go:283-344 | After a change of password and any run until the next one, the next change succeeds exactly with that password as the current one |
| AuthReplies.ResetPasswordIff | internal/domain/auth/service/auth_service.go:283-307 | A reset succeeds exactly with a stored, unexpired reset token, a strong password of at most 72 bytes and no failing call; otherwise every table stays |
| AuthReplies.RequestResetIsSilent | internal/domain/auth/service/auth_service.go:253-280 | The answer does not depend on whether the email is known, and an unknown one changes nothing |
| AuthReplies.RequestResetWrites | internal/domain/auth/service/auth_service.go:262-273 | A known email gets one reset token of one hour, and nothing else changes |
| AuthReplies.VerifyEmailIff | internal/domain/auth/service/auth_service.go:347-362 | A verification succeeds exactly with a stored, unexpired verification token and no failing call; otherwise every table stays |
| AuthReplies.ResendFlow | internal/domain/auth/service/auth_service.go:374-396 | A verified user is told so and gets nothing; any other gets a verification token that works exactly within 24 hours |
| AuthReplies.ResendUnknown | internal/domain/auth/service/auth_service.go:379-385 | An email of nobody gets no token and the answer of a success |
| AuthReplies.DeactivatedIsOut | internal/domain/auth/service/auth_service.go:164-228 | Until an operator activates it again, a deactivated account neither logs in nor refreshes, in any run |
| AuthReplies.ClaimsNeverGoStale | internal/domain/auth/service/token_manager.go:55-96 | In every reachable state the email, username and role in every signed token are those of its user's row |
| AuthReplies.PairNamesUser | internal/domain/auth/service/token_manager.go:55-106 | Both tokens of a registration or login carry the user the reply names |
| AuthReplies.ConfiguredLifetimes | internal/domain/auth/service/auth_service.go:94-98 | A session lifetime that is not positive becomes 30 days, any other is kept |
| AuthServices.AuthRepository.InsertUser | internal/domain/auth/repository/auth_repository.go:25-54 | The row is inserted unless the statement fails or the email or username is taken |
| AuthServices.AuthRepository.GetUserByEmail | internal/domain/auth/repository/auth_repository.go:57-80 | The user with the email, none if there is none, or an error |
| AuthServices.AuthRepository.CreateUserSession | internal/domain/auth/repository/auth_repository.go:116-143 | The row is inserted unless the statement fails, the hash is taken or the user is missing |
| AuthServices.AuthRepository.DeleteAllUserSessions | internal/domain/auth/repository/auth_repository.go:177-181 | Exactly the user's rows go |
| AuthServices.AuthService.GenerateTokenPair | internal/domain/auth/service/token_manager.go:55-106 | Both tokens are signed with the user's claims and their own lifetime, or none is |
| AuthServices.AuthService.ValidateToken | internal/domain/auth/service/token_manager.go:119-136 | Claims are returned exactly for a signed token within its time bounds, whatever its use |
| AuthServices.AuthService.RegisterUser | internal/domain/auth/service/auth_service.go:114-155 | Performs the registration transition, with the prefix of writes done when a call fails |
| AuthServices.AuthService.Login | internal/domain/auth/service/auth_service.go:158-189 | Performs the login transition |
| AuthServices.AuthService.Logout | internal/domain/auth/service/auth_service.go:192-202 | Performs the logout transition |
| AuthServices.AuthService.RefreshTokens | internal/domain/auth/service/auth_service.go:205-242 | Performs the refresh transition, taking the user from the claims |
| AuthServices.AuthService.RequestPasswordReset | internal/domain/auth/service/auth_service.go:253-280 | Performs the reset request transition, silent about unknown emails |
| AuthServices.AuthService.ResetPassword | internal/domain/auth/service/auth_service.go:283-307 | Performs the password reset transition |
| AuthServices.AuthService.ChangePassword | internal/domain/auth/service/auth_service.go:310-344 | Performs the password change transition |
| AuthServices.AuthService.VerifyEmail | internal/domain/auth/service/auth_service.go:347-371 | Performs the verification transition |
| AuthServices.AuthService.ResendVerificationEmail | internal/domain/auth/service/auth_service.go:374-396 | Performs the resend transition |

## Left out

- A crash of a worker is an `Abort` step of the system; the program itself ends by its calls.
- The nil checks at the head of `ProcessBatch`: the worker of the model has its database.
- Errors of sink calls that took effect all the same: a call that did not return nil is not in the log.
- The wire format of messages: a log entry also names its row, which the sinks do not see.
- The fixed batch size of 100: the proofs hold for every batch size, those about draining for every positive one.
- Events, their JSON-LD form, the log sender and the fan-out emitter: map filling without state.
- `World.Others` is any finite sequence of steps by others; the model says nothing about how long a worker waits.
- Interleaving inside one `AuthService` call: calls are atomic.
- SHA-256, HMAC, JWT encoding and bcrypt: an injective hash, unforgeable claim records and a password hash equal only to its own password's.
- Emails, goroutines, the ontology event of a registration, user agent and client address of a session, `updated_at` columns: no decision reads them.
- The OAuth identities and their repository methods, interceptors, handlers, presenters, configuration and metrics.
- bcrypt reads at most 72 bytes of the password offered at a login; the model compares whole passwords.
- Column lengths and other reasons for a failing statement: any statement may fail.
- `SetActive` stands for an operator's update of `users.is_active`, which no code of the service performs.
- Passwords and names are ASCII: Unicode letter classes and multi-byte characters are not modelled.
- The Turtle output of the generator, file writing and the call of `buf`.
