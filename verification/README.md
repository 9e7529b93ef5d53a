# Verified models of the authentication, event, projection, filter and health cores

This project states and proves, in Dafny 4.11, what the hardest parts of the repository keep true. `dafny verify
dfyconfig.toml` checks all of it.

* **Identity directory** (`CanonicalText`, `Directory*`). Any number of handles interleave provision, link, unlink and
  reconcile commands on one store. Every transaction, clock reading and capacity call is one atomic step of
  `DirectoryProtocol.Apply`; host ports may answer anything at every call; the store may commit, confirm an abort, or
  leave the outcome unknown with or without having applied the writes. Theorems hold for every schedule
  (`Run(cfg, INITIAL, steps)`). `DirectoryHandle` has the same operations as objects whose fields are updated in place.
* **Broker sessions** (`Rabbit*`). Every `await` of the RabbitMQ strategy is a preemption point; emits, broker answers,
  connection events and destroy come in any order.
* **Session core** (`Session*`). Serialised transactions with arbitrary clock readings, roll-backs and lost
  acknowledgements.
* **JSON projection** (`Projection*`, `JsonCompatible`). Paths and patches, on values and by a cursor in a heap; the two
  compiled SQL dialects with evaluators for `jsonb_set`, `#>`, `jsonb_typeof`, `CASE`, `COALESCE` and `json_set`; and the
  serialisability check over a heap.
* **Where trees** (`WhereSql`). The printer with its two cuts, and a lexer and a recursive-descent reader of the printed
  text.
* **Health checks** (`Health*`). One transition, whole histories of observations, and the state and incident rows.

## What the proofs say about the code

Some promises hold only under a condition; the proofs give the exact one, and an input that fails it.

* A reservation is never both settled and released if the capacity authority grants every identifier once
  (`NeverSettledAndReleased`). The interface documentation lets it return a held identifier again
  (docs/auth/directory-core-reservation-terminal-v1.md:10); then one attempt may release what another one commits on
  (`SharedReservationIsReleased`, and `SharedReservationExample` for a schedule from the empty store).
* The directory's own rows stay readable under one non-decreasing clock (`RowsStayReadable`). With clocks that differ
  between handles, the row of an unlink is readable exactly when its time is not before the link's
  (`UnlinkReadableIff`; for every stored row of every run, `RowsReadableIff`). `SkewedUnlink` is a schedule from the
  empty store after which a link and its identity cannot be looked up.
* `canonical` enumerates index-like member names first, in numeric order, because that is the order in which the source
  language enumerates them; `"9"` is printed before `"10"` although sorting puts it after. Equality, digests and
  sizes are not affected (`CanonicalDecidesEquality`).
* A path segment `null`, in any case, is read as SQL NULL by a PostgreSQL array literal and makes the patch fail; without
  one the compiled expression means the fold for every payload (`PostgresPreservesMeaning`). A resource whose field lies
  at `null` is accepted and fails for every payload (`NullSegmentExample`).
* SQLite agrees exactly when the payload is NULL or an object in which no changed path is blocked by a scalar or an array
  (`SqlitePreservesMeaningIff`). A number at `a` blocks a change of `a.b` (`BlockedPathExample`).
* A where node without `filters` prints as nothing, and its child expressions are dropped; conditions are kept exactly
  when no such node has conditions below it (`ConditionsKeptIff`; `DroppedConditionExample` is a tree of three nodes
  whose text is satisfied where the tree is not).
* At the largest revision a reused token fails without revoking its session (`ReuseRevokes`).
* A result that opens an incident inserts a row exactly when the check was not flapping and had fewer than three status
  changes in the last hour (`RowInsertedIff`). Five results in five milliseconds leave a check naming an incident that
  has no row (`IncidentWithoutRow`).

## Model

| member | source | states |
|---|---|---|
| CanonicalText.BeforeOrder | auth/src/directory/directory-validation.ts:162-171 | the order of member names is a strict total order |
| CanonicalText.NamesInOrder | auth/src/directory/directory-validation.ts:162-171 | an object is printed with all its names: index-like ones first and by number, the others with the smaller first differing unit, or the proper prefix, first |
| CanonicalText.IndexNames | auth/src/directory/directory-validation.ts:162-171 | index-like names are exactly the canonical decimals of the numbers below 2^32 - 1 |
| CanonicalText.EscapedUnit | auth/src/directory/directory-validation.ts:162-171 | which units a string prints as themselves, with a short escape, and with four lower-case hexadecimal digits |
| CanonicalText.TextReads | auth/src/directory/directory-validation.ts:162-171 | an escaped string reads back, by the grammar of RFC 8259 section 7, up to its closing quote, lone surrogates included |
| CanonicalText.ValueReads | auth/src/directory/directory-validation.ts:162-171 | every printed value reads back as itself, at every nesting depth and whatever delimiter follows |
| CanonicalText.CanonicalReads | auth/src/directory/directory-validation.ts:162-171 | the canonical text reads back as the same value with its members in order, and nothing is left over |
| CanonicalText.OrderedDecides | auth/src/directory/directory-validation.ts:162-171 | sorting members at every depth identifies exactly the values that differ in member order only |
| CanonicalText.CanonicalDecidesEquality | auth/src/directory/directory-validation.ts:162-171 | canonical texts are equal if and only if the values are equal ignoring member order |
| CanonicalText.CanonicalSize | auth/src/directory/directory-core.ts:556-564 | the UTF-8 size of the canonical text is the sum of the sizes of its parts, independent of member order |
| CanonicalText.Utf8CountsBytes | auth/src/directory/directory-core.ts:556-564 | a size counts the bytes of UTF-8 (section 3 of RFC 3629), from which every text without lone surrogates is read back |
| DirectoryRows.TargetTextDecides | auth/src/directory/directory-core.ts:758-762 | comparing canonical texts of lookup results decides equality of the rows, absent rows included |
| DirectoryRows.HorizonIsCanonical | auth/src/directory/directory-validation.ts:340-349 | an accepted command id is the canonical decimal of its issue time, a dot and a nonce, and lies within its window |
| DirectoryRows.HorizonParses | auth/src/directory/directory-validation.ts:340-349 | conversely every id made from an issue time and a nonce is accepted within its window, with just that time, is expired from the end of the window on, and is invalid before its issue time or with a window past the largest safe time |
| DirectoryRows.IdEncodes32Bytes | auth/src/directory/directory-validation.ts:129-141 | an id is accepted if and only if it is 43 base64url units whose last two bits are zero |
| DirectoryRows.PortableIs | auth/src/directory/directory-validation.ts:84-98 | a portable text is one of base64url units and full stops, as long in bytes as in units |
| DirectoryRows.PlaceholderDominates | auth/src/directory/directory-core.ts:644-726 | a receipt that fits with the 128-unit placeholder fits with every real reservation id |
| DirectoryTransactions.DigestDecidesIntent | auth/src/directory/directory-core.ts:462-473 | equal digests mean the same account, action, provider, target, consent and command id |
| DirectoryStoreLaws.WriteAllEffect | auth/src/directory/directory-core.ts:767-786 | the five writes succeed exactly when no key is taken and no expectation is stale, and then leave one known store |
| DirectoryStoreLaws.CommitCases | auth/src/directory/directory-core.ts:747-788 | a commit body that succeeds replays a matching receipt unchanged or writes all rows for a plan that is still current |
| DirectoryStoreLaws.StaleCommitsConflict | auth/src/directory/directory-core.ts:744-788 | a commit whose account has a new revision, whose target row has changed, or whose rows can not all be written is a conflict |
| DirectoryStoreLaws.RecordedCommits | auth/src/directory/directory-core.ts:744-788 | a commit that finds its command recorded replays it for the same reservation and is a conflict for another |
| DirectoryStoreLaws.WrittenKeepsStore | auth/src/directory/directory-core.ts:483-547 | a written command keeps unique identities, parity, counts, an active link, one-to-one rows and all bounds, and adds one revision |
| DirectoryStoreLaws.GrowsTransitive | auth/src/directory/directory-core.ts:601-671 | growth of the store (stable identities, growing generations and revisions, append-only receipts) composes over runs |
| DirectoryStoreLaws.AcknowledgeFrees | auth/src/directory/directory-core.ts:519-539 | acknowledging a pending event makes room for one more and changes nothing else |
| DirectoryInvariants.FreshPlan | auth/src/directory/directory-core.ts:483-547 | a plan read in one transaction lists the links that stand as long as the account's revision stands |
| DirectoryInvariants.LocalOk | auth/src/directory/directory-core.ts:585-745 | every step up to the commit keeps what is known of its command and never lifts a fence |
| DirectoryInvariants.WritingCommit | auth/src/directory/directory-core.ts:744-788 | a commit that writes finds the links its plan saw, so the earlier last-method check is still true |
| DirectoryInvariants.ClosingOk | auth/src/directory/directory-core.ts:576-584 | the capacity call that ends a command is justified by a receipt or a confirmed abort |
| DirectoryInvariants.StepKeeps | auth/src/directory/directory-core.ts:585-818 | every step of every handle preserves the invariant and only extends the state |
| DirectoryInvariants.RunKeeps | auth/src/directory/directory-core.ts:585-818 | so does every schedule |
| DirectoryTheorems.LastMethodAlways | auth/src/directory/directory-core.ts:591-600 | in every interleaving the accounts with a revision are those that own a row, and each has an active link |
| DirectoryTheorems.Conservation | auth/src/directory/directory-core.ts:601-671 | a revision equals the account's receipts and the sum of its generations; receipts, consents and events are one-to-one under unique ids |
| DirectoryTheorems.BoundsHold | auth/src/directory/directory-core.ts:519-539 | total rows, links and receipts per account and pending events stay within their limits in every reachable state |
| DirectoryTheorems.ExactlyOnce | auth/src/directory/directory-core.ts:747-788 | all successes of a command, replays and reconciliations included, report its one recorded result |
| DirectoryTheorems.OnlyCommitsWrite | auth/src/directory/directory-core.ts:744-788 | the store changes only by one whole new command or an acknowledgement; a replay changes no row |
| DirectoryTheorems.CommitFulfilsIntent | auth/src/directory/directory-core.ts:601-671 | a commit that changes the store opens, reopens or closes the row its intent names and no other, and records its receipt, consent and event |
| DirectoryRequests.LinkCommitsTheAnswer | auth/src/directory/directory-core.ts:831-909 | whatever happens in between, a link commits only by opening the approved identity, under the approved provider, for the account of the session it was asked with, and consumes the approved consent |
| DirectoryRequests.UnlinkCommitsTheAnswer | auth/src/directory/directory-core.ts:831-909 | an unlink closes the link it was asked for, of the account of its session, and consumes the approved consent |
| DirectoryRequests.ProvisionCommitsTheAnswer | auth/src/directory/directory-core.ts:922-965 | a provision opens the approved identity for the approved account and consumes the approved consent |
| DirectoryReplays.OnlyTheSameIsReplayed | auth/src/directory/directory-core.ts:474-482 | after a command was committed, one with its id is answered from the receipt only for the same account, action, target, provider and consent |
| DirectoryReplays.RetryAnswers | auth/src/directory/directory-core.ts:483-547 | a command whose id is recorded is told the recorded result as a replay if it is the recorded one, and a conflict otherwise |
| DirectoryReplays.SessionReconciles | auth/src/directory/directory-core.ts:996-1070 | a reconciliation is told the recorded result of its own account, a conflict for another account's receipt, and nothing if there is none |
| DirectoryReplays.ProvisionReconciles | auth/src/directory/directory-core.ts:996-1070 | a reconciled provision is told its result only for the very provision that was approved |
| DirectoryRefusals.AdmissionsAreTold | auth/src/directory/directory-core.ts:819-848 | a new command is opened with its parsed id, or ends with the reason it was not admitted for: a fence, too many commands, a bad clock or a bad or expired id |
| DirectoryRefusals.PortRefusalsAreTold | auth/src/directory/directory-core.ts:831-909 | a refusing port ends the command with the port's error and leaves store and capacity alone |
| DirectoryRefusals.ApprovalsAreChecked | auth/src/directory/directory-core.ts:862-965 | an approved provision or link goes on with just what was approved if and only if account, consent, provider, issuer and subject are within their bounds, and is refused otherwise |
| DirectoryRefusals.ForeignLinkIsRefused | auth/src/directory/directory-core.ts:862-887 | an unlink of a link that is not stored, or is stored for another account only, is a conflict |
| DirectoryRefusals.PricesAreTold | auth/src/directory/directory-core.ts:591-709 | in every reachable state a missing last method, a bad clock or id, a revision or generation without successor, and rows without a quote or over the record limit, in this order, end a command before it asks for a reservation; otherwise its rows are ready |
| DirectoryRefusals.UngrantedIsRefused | auth/src/directory/directory-core.ts:710-726 | a command whose growth is not granted, or is granted under an unusable id, ends for lack of capacity and leaves nothing behind |
| DirectoryRefusals.RecheckFailuresAreTold | auth/src/directory/directory-core.ts:727-806 | a fence, a bad clock, an expired id, another actor, a port's objection or a missing last method found by the recheck, in this order, is what the caller is told, whatever happens before the abort, with the reservation released and no row written |
| DirectoryFencing.FencesExactly | auth/src/directory/directory-core.ts:78-188 | in every reachable state a step fences a handle if and only if, on that handle, a transaction stays in doubt, the clock runs back or out of range, or a capacity call is not acknowledged; no fence is lifted |
| DirectoryFencing.FailuresAreTold | auth/src/directory/directory-core.ts:99-188 | a command whose transaction stays in doubt, or is reported committed after a failed callback, is told that the outcome is unknown; one that was aborted is told what its callback found, or that the storage failed |
| DirectoryFencing.CapacityCallsAreTold | auth/src/directory/directory-core.ts:789-817 | settling, releasing and replaying make one capacity call each and tell the result once it is acknowledged, and otherwise that the outcome is unknown |
| DirectoryTheorems.BindingAcceptedIff | auth/src/directory/directory-core.ts:336-354 | in every reachable state a binding is current if and only if a stored row agrees with it in all six fields and is active |
| DirectoryTheorems.StaleBindingForever | auth/src/directory/directory-core.ts:336-354 | a binding accepted in one reachable state stays accepted exactly until its row is written; once denied it is denied in every later state, also after relinking |
| DirectoryTheorems.OutdatedBindingForever | auth/src/directory/directory-core.ts:336-354 | a binding to a closed or earlier generation of a stored link is denied now and in every later state, whether it was ever accepted or not |
| DirectoryTheorems.IdentitiesAreStable | auth/src/directory/directory-core.ts:618-636 | an identity keeps key, account, provider and link id; its generation only grows, and odd means active |
| DirectoryTheorems.ReservationFate | auth/src/directory/directory-core.ts:789-817 | a granted reservation stays with its command through every later schedule, and an ended command that was granted one settled it, released it after a confirmed abort, or holds it on a fenced handle; settle only for recorded receipts |
| DirectoryTheorems.WritesFollowRecheck | auth/src/directory/directory-core.ts:727-788 | whatever happens between recheck and commit, a commit that writes had an unfenced handle, an open window, the same actor and no objection at its recheck, and an unlink's store still holds another active link that was usable then |
| DirectoryReservations.NeverSettledAndReleased | auth/src/directory/directory-core.ts:710-817 | with fresh reservation ids no id is ever both settled and released, in any schedule |
| DirectoryReservations.SharedReservationIsReleased | auth/src/directory/directory-core.ts:710-817 | if two prepared commands hold one reservation and one of them would commit, a schedule settles and releases it |
| DirectoryWitness.ProvisionCommits | auth/src/directory/directory-core.ts:585-818 | an undisturbed provision commits exactly its rows, settles its reservation and tells its caller the original result |
| DirectoryLinking.LinkCommits | auth/src/directory/directory-core.ts:831-909 | an undisturbed link opens exactly the proved identity's row, new or its closed link again, adds its records, settles its reservation and tells its caller |
| DirectoryLinking.UnlinkCommits | auth/src/directory/directory-core.ts:831-909 | an undisturbed unlink closes exactly its row at the time of the handle, adds its records, settles and tells its caller |
| DirectoryWitness.SharedReservationReached | auth/src/directory/directory-core.ts:710-817 | two attempts at one command that are granted one reservation reach, from the empty store, a state that settled and released it |
| DirectoryWitness.SharedReservationExample | auth/src/directory/directory-core.ts:710-817 | a concrete configuration and schedule in which that happens |
| DirectoryCallers.CommandsAreLimited | auth/src/directory/directory-core.ts:819-830 | a handle's counter is always the number of its running commands and never exceeds the limit |
| DirectoryCallers.FencedHandlesAdmitNoWrites | auth/src/directory/directory-core.ts:819-823 | fences are never lifted, and nothing that enters a fenced handle holds a reservation or prepares a write |
| DirectoryCallers.FencedCommitsWriteNothing | auth/src/directory/directory-core.ts:747-749 | from the moment a handle is fenced, no commit of any command on it writes or reports a value, in any later schedule |
| DirectoryCallers.OneCallerSeesTheOriginal | auth/src/directory/directory-core.ts:744-818 | at most one caller per command id is told a result that is not marked as a replay |
| DirectoryReadability.UnlinkReadableIff | auth/src/directory/directory-validation.ts:393-399 | an unlink's row passes the validator if and only if its time is not before the link's |
| DirectoryReadability.RowsReadableIff | auth/src/directory/directory-validation.ts:393-399 | in every run, under any clocks, a stored identity is read if and only if its times are in order; every other stored row is valid and within the record limit |
| DirectorySkew.SkewedUnlink | auth/src/directory/directory-validation.ts:393-399 | a concrete schedule of a provision, a link and an unlink on a slower clock after which the link and its identity cannot be read |
| DirectoryReadability.RowsStayReadable | auth/src/directory/directory-core.ts:190-245 | under a shared clock every lookup, revision, receipt and listing of the directory's own rows succeeds in every reachable state, and all rows, revisions and events as written fit the record limit |
| DirectoryReadability.PreflightAdmitsIff | auth/src/directory/directory-core.ts:483-547 | over readable rows a preflight admits a command if and only if its actor is current, its id and consent are unused, its target is an unknown identity, the account's closed link under the same provider or the account's open link as the action asks, and five rows, a receipt, an event and a new link have room |
| DirectoryReadability.PreflightTellsWhy | auth/src/directory/directory-core.ts:483-547 | why a new command is not admitted: an unusable actor is denied, then an outdated actor or a target the action may not take is a conflict, then a used consent is denied, and otherwise there is no room |
| DirectoryHandle.Tables.WriteRows | auth/src/directory/directory-core.ts:767-786 | the loop over the writes applies all of them or restores the tables |
| DirectoryHandle.Tables.CommitRows | auth/src/directory/directory-core.ts:747-788 | the transaction callback in place has the effect of the commit body |
| DirectoryHandle.DirectoryClosure.Time | auth/src/directory/directory-core.ts:78-88 | a reading below an earlier one or out of range fences the handle, any other one is remembered |
| DirectoryHandle.DirectoryClosure.EnterWrite | auth/src/directory/directory-core.ts:819-830 | fenced handles refuse before busy ones, and entering counts the command |
| DirectoryHandle.DirectoryClosure.CommitTransaction | auth/src/directory/directory-core.ts:99-188 | only a committed outcome of a completed callback or a confirmed abort leaves the handle unfenced; tables, fence and reply are those of the commit step in every protocol state that agrees with the object |
| RabbitSessions.StepKeeps | api-strategy/src/strategies/rabbitmq-event.strategy.ts:62-166 | every segment between awaits keeps the ownership of sessions by the strategy's fields |
| RabbitTheorems.SessionsAreExclusive | api-strategy/src/strategies/rabbitmq-event.strategy.ts:115-166 | under any schedule at most one connected session has an unfinished disposal, and each session is closed at most once |
| RabbitTheorems.CleanupIsNeverOverwritten | api-strategy/src/strategies/rabbitmq-event.strategy.ts:123-130 | a pending cleanup is never replaced |
| RabbitTheorems.PublishesOnLiveSession | api-strategy/src/strategies/rabbitmq-event.strategy.ts:73-85 | a message is published only when not stopped, on the current, connected, valid session, while no other one is open |
| RabbitLiveness.EmitsOnLiveSession | api-strategy/src/strategies/rabbitmq-event.strategy.ts:73-113 | while a session is live and nothing initializes, an emit is published on it at once |
| RabbitLiveness.EmitsOnJoinedSession | api-strategy/src/strategies/rabbitmq-event.strategy.ts:95-113 | an emit that joins a running initialization is published on its session when that has resolved and still is the live one, whatever happened meanwhile |
| RabbitLiveness.EmitsOnNewSession | api-strategy/src/strategies/rabbitmq-event.strategy.ts:95-149 | with neither session nor initialization, an emit and the broker's positive answers publish it on a new session, after a pending cleanup has ended in any way |
| RabbitLiveness.ReconnectsAfterEvent | api-strategy/src/strategies/rabbitmq-event.strategy.ts:123-130 | after a broker event has taken the live session the next emit is published on another one |
| RabbitLiveness.EventsEndASession | api-strategy/src/strategies/rabbitmq-event.strategy.ts:123-130 | after an error or close event nothing is ever published on that session again |
| RabbitLiveness.FailsOnlyIf | api-strategy/src/strategies/rabbitmq-event.strategy.ts:73-113 | an emit fails only on a stopped strategy, a rejected initialization or a session that is no longer the live one |
| RabbitLiveness.NegativeAnswersFail | api-strategy/src/strategies/rabbitmq-event.strategy.ts:115-166 | when the broker refuses the connection, the channel or the exchange, the emit that started it fails, its session is closed once, and the strategy is ready to start anew |
| RabbitTheorems.DestroyLeavesNothingOpen | api-strategy/src/strategies/rabbitmq-event.strategy.ts:62-71 | once destroy has finished every session ever opened is disposed of and none is opened again |
| RabbitTheorems.StoppedBeginsNothing | api-strategy/src/strategies/rabbitmq-event.strategy.ts:95-149 | from a stop on no session is created, none begins to connect and none becomes the live one |
| RabbitTheorems.DestroyReportsTheClosing | api-strategy/src/strategies/rabbitmq-event.strategy.ts:62-71 | whenever destroy finishes it reports how the closing of the session it found live ended, and success if it found none |
| RabbitTheorems.DestroyIsNeverStuck | api-strategy/src/strategies/rabbitmq-event.strategy.ts:62-71 | an unfinished destroy always waits for an answer that is due and that changes the state |
| RabbitTheorems.DestroyFinishes | api-strategy/src/strategies/rabbitmq-event.strategy.ts:62-71 | from every stopped state the awaited answers bring destroy to its end |
| RabbitTheorems.EffectiveStepsAreBounded | api-strategy/src/strategies/rabbitmq-event.strategy.ts:62-166 | after destroy has begun only a bounded number of broker answers can have an effect, whatever comes in between |
| RabbitStrategy.RabbitMqEventStrategy.Publish | api-strategy/src/strategies/rabbitmq-event.strategy.ts:73-113 | the first segment refuses when stopped, joins the initialization, takes the live resource, or starts an initialization, in this order; the invariant is kept |
| RabbitStrategy.RabbitMqEventStrategy.ResumePublish | api-strategy/src/strategies/rabbitmq-event.strategy.ts:73-113 | only the starter clears the initialization; the last check precedes publishing |
| RabbitStrategy.BrokerSession.Close | api-strategy/src/strategies/rabbitmq-event.strategy.ts:152-166 | disposing marks the session object invalid and starts closing it at most once |
| RabbitStrategy.RabbitMqEventStrategy.AfterCleanupSettled | api-strategy/src/strategies/rabbitmq-event.strategy.ts:115-122 | connecting begins only after the awaited cleanup, and not after a stop |
| RabbitStrategy.RabbitMqEventStrategy.AfterConnect | api-strategy/src/strategies/rabbitmq-event.strategy.ts:122-133 | a connected session goes on to its channel, a failed one is disposed of |
| RabbitStrategy.RabbitMqEventStrategy.AfterAssertExchange | api-strategy/src/strategies/rabbitmq-event.strategy.ts:136-149 | only a valid session of a running strategy becomes the resource, any other one is disposed of |
| RabbitStrategy.RabbitMqEventStrategy.Invalidate | api-strategy/src/strategies/rabbitmq-event.strategy.ts:123-130 | the listener gives up the current session only and makes its disposal the cleanup |
| RabbitStrategy.RabbitMqEventStrategy.ResumeOnDestroy | api-strategy/src/strategies/rabbitmq-event.strategy.ts:62-71 | destroy waits for initialization, resource and cleanup in this order |
| SessionTheorems.LoginSucceedsIff | auth/src/core/auth-core.ts:251-289 | in every reachable state a login succeeds if and only if session id, token and, for cookies, CSRF secret differ, id and token are unused and the lifetime fits; the stored record is written out |
| SessionTheorems.AuthenticatesExactly | auth/src/core/auth-core.ts:188-215 | in every reachable state a token authenticates if and only if it is current, its session unrevoked and in time and the request permitted; only the last use changes |
| SessionTheorems.RefusalsTellWhy | auth/src/core/auth-core.ts:188-215 | when a refused token is told expired, lacking its secret, or denied |
| SessionTheorems.RefreshRotatesIff | auth/src/core/auth-core.ts:305-354 | in every reachable state a refresh rotates if and only if the token is usable, its session below the largest revision and the draw unused; the new store is written out |
| SessionTheorems.RefreshEffect | auth/src/core/auth-core.ts:305-354 | a checked refresh rotates a current token or revokes on a rotated one; only colliding draws and the largest revision stop it |
| SessionTheorems.RevokeEachEffect | auth/src/core/auth-core.ts:388-407 | the loop revokes exactly the due sessions of the account and counts them, or fails as a whole at an exhausted revision |
| SessionTheorems.RunKeeps | auth/src/core/auth-core.ts:227-407 | every order of transactions, rolled back or unacknowledged ones included, preserves the invariant |
| SessionTheorems.TokenFamilies | auth/src/core/auth-core.ts:305-354 | every session always has exactly one current token, and one token for its login and every refresh |
| SessionTheorems.SessionLedger | auth/src/core/auth-core.ts:36-60 | a session's events carry revisions 1 to n, creation first, at most one revocation or reuse, and that last |
| SessionTheorems.SessionLifetime | auth/src/core/auth-core.ts:205-213 | accepted uses never go back, lie within the fixed lifetime, and successive ones are less than the idle limit apart |
| SessionTheorems.RecordsOnlyGrow | auth/src/core/auth-core.ts:300-339 | no transaction changes creation, expiry, profile or transport; a revoked record never changes again |
| SessionTheorems.ExchangedOnce | auth/src/core/auth-core.ts:323-339 | no token is exchanged twice, and the exchanged tokens are rotated |
| SessionTheorems.ReuseRevokes | auth/src/core/auth-core.ts:310-322 | any later checked presentation of an exchanged token revokes the session if and only if its revision is not the largest |
| SessionTheorems.RevokedForever | auth/src/core/auth-core.ts:188-215 | no token of a revoked family is ever accepted again, and nothing revokes the session a second time |
| SessionTheorems.LoginThenAuthenticate | auth/src/core/auth-core.ts:255-304 | a login's token authenticates exactly its transport, with its CSRF secret of 1 to 4096 bytes where needed, within the idle limit, as the identity that logged in |
| SessionTheorems.RefreshThenAuthenticate | auth/src/core/auth-core.ts:305-354 | after a refresh the new token authenticates under the old expiry and the old one never does |
| SessionTheorems.LogoutRevokesIff | auth/src/core/auth-core.ts:355-387 | a logout revokes if and only if the token is current, the session unrevoked below the largest revision, and the request permitted and timely |
| SessionTheorems.LogoutIdleIff | auth/src/core/auth-core.ts:355-387 | a logout succeeds without revoking if and only if the token is unknown, or its session is already revoked and the request permitted |
| SessionTheorems.LogoutTellsWhy | auth/src/core/auth-core.ts:355-387 | when a logout is told that its secret is missing, that the session has expired, that it is denied, or that the store cannot hold another revision |
| SessionTheorems.RevokeAllRevokesAll | auth/src/core/auth-core.ts:388-407 | after a complete listing no session of the account is left unrevoked and no other session has changed |
| SessionHandle.AuthCore.OpenSession | auth/src/core/auth-core.ts:251-289 | the inserts of a login in place, undone by any later failure; a collision is reported exactly for equal or taken draws, and a success writes the tables given |
| SessionHandle.AuthCore.RefreshSession | auth/src/core/auth-core.ts:305-354 | the refresh in place; a reuse is committed and then reported, every other failure leaves the tables as they were |
| SessionHandle.AuthCore.CloseSession | auth/src/core/auth-core.ts:355-387 | the logout in place |
| SessionHandle.AuthCore.RevokeAll | auth/src/core/auth-core.ts:388-407 | the loop with its counter has the effect of revoking each listed record, or none |
| ProjectionPaths.GetProjectionPathValue | crud-gen/src/projection/projection-resource.ts:915-929 | the cursor finds the value at the path, or nothing |
| ProjectionCursor.SetProjectionPathValue | crud-gen/src/projection/projection-resource.ts:931-950 | the cursor's writes in place leave a tree that reads as the payload with the path set, and touch no object outside it |
| ProjectionCursor.WriteAt | crud-gen/src/projection/projection-resource.ts:939-948 | writing one member of an object on the path changes the tree there and nowhere else |
| ProjectionPaths.ReadBack | crud-gen/src/projection/projection-resource.ts:931-950 | a set path reads back its value, also where scalars or arrays were in the way |
| ProjectionPaths.SetFrame | crud-gen/src/projection/projection-resource.ts:931-950 | paths that do not overlap a set path read back unchanged |
| ProjectionPaths.OverlapIsExact | crud-gen/src/projection/projection-resource.ts:175-183 | two paths do not overlap if and only if the order of setting them never matters |
| ProjectionPaths.PatchReadsBack | crud-gen/src/projection/projection-resource.ts:931-950 | every field of a patch reads back its new value after the whole patch |
| ProjectionPaths.PatchFrame | crud-gen/src/projection/projection-resource.ts:931-950 | every other declared field reads back unchanged after the whole patch |
| ProjectionPaths.AnyOrder | crud-gen/src/projection/projection-resource.ts:528-543 | a patch of non-overlapping fields gives the same payload in every order |
| ProjectionPaths.CheckFields | crud-gen/src/projection/projection-resource.ts:463-543 | the loop accepts exactly distinct names and valid, pairwise non-overlapping JSON paths |
| ProjectionPaths.NormalizedPaths | crud-gen/src/projection/projection-dialect.ts:368-385 | changes resolved by declared names have valid paths; those of distinct fields do not overlap |
| ProjectionPaths.PatchResolvesIff | crud-gen/src/projection/projection-resource.ts:903-913 | a patch is resolved if and only if every change names a declared JSON field, and every change goes to that field's path |
| ProjectionPaths.PatchOfFields | crud-gen/src/projection/projection-dialect.ts:368-385 | a resolved patch gives every JSON field the value of the last change that names it and leaves the others as they were |
| ProjectionPaths.SegmentIs | crud-gen/src/projection/projection-resource.ts:28-28 | a segment is a letter or an underscore followed by letters, underscores and digits |
| ProjectionDialect.LiteralsReadBack | crud-gen/src/projection/projection-dialect.ts:567-569 | path literals are read back segment by segment; only the word null is lost |
| ProjectionDialect.CompilePostgres | crud-gen/src/projection/projection-dialect.ts:544-565 | for every payload the compiled expression and its parameters evaluate to the fold of the changes, or fail on the word null |
| ProjectionDialect.ObjectAtMeans | crud-gen/src/projection/projection-dialect.ts:571-578 | one nested expression makes one prefix an object and keeps an object that is there |
| ProjectionDialect.PostgresPreservesMeaning | crud-gen/src/projection/projection-dialect.ts:544-578 | for all payloads, NULL and non-objects included, and all changes, the expression means the fold, or fails exactly for the word null |
| ProjectionDialect.CompileSqlite | crud-gen/src/projection/projection-dialect.ts:452-468 | the compiled expression evaluates to the chain of SQLite settings for every payload |
| ProjectionDialect.SqlitePreservesMeaningIff | crud-gen/src/projection/projection-dialect.ts:452-472 | the SQLite expression means the fold, repeated fields included, if and only if the payload is NULL or an object in which no changed path is blocked |
| ProjectionDialect.DialectsAgree | crud-gen/src/projection/projection-dialect.ts:339-385 | for an accepted definition and any patch of its JSON fields the dialects agree if and only if no segment is the word null and the payload is NULL or an object that blocks no changed path |
| ProjectionDialect.NullSegmentExample | crud-gen/src/projection/projection-dialect.ts:567-569 | an accepted definition whose patch fails in PostgreSQL for every payload |
| ProjectionDialect.BlockedPathExample | crud-gen/src/projection/projection-dialect.ts:452-472 | a payload that SQLite leaves as it is where PostgreSQL sets the path |
| JsonCompatible.IsJsonCompatible | crud-gen/src/projection/projection-resource.ts:854-882 | the recursion ends on every finite graph and adds to the seen set what the specification says |
| JsonCompatible.CheckDecides | crud-gen/src/projection/projection-resource.ts:854-882 | from any seen set the verdict is: JSON kinds only, no node twice, none seen before; accepted values add exactly their nodes |
| JsonCompatible.CompatibleIffTree | crud-gen/src/projection/projection-resource.ts:854-882 | a value passes if and only if everything reachable is JSON and no array or object is reached along two paths |
| WhereSql.CutsRemoveTrailingOperator | crud-gen/src/crud-gen.helpers.ts:263-266 | after any text whatever the two cuts remove exactly the trailing operator and its spaces |
| WhereSql.WhereObjectToSqlString | crud-gen/src/crud-gen.helpers.ts:165-268 | the loops print the tree without its empty groups, for every spelling of the conditions, and the returned string reads back with the tree's truth value; unsupported filters fail |
| WhereSql.GroupParses | crud-gen/src/crud-gen.helpers.ts:251-266 | a printed group is read back as one formula up to the end or a closing parenthesis |
| WhereSql.LexText | crud-gen/src/crud-gen.helpers.ts:165-268 | the text of tokens whose operands are in place is cut back into exactly those tokens by every reader that tells the conditions apart |
| WhereSql.PrintingPreservesMeaning | crud-gen/src/crud-gen.helpers.ts:165-268 | the printed string, read with AND binding tighter than OR, has the truth value of the tree under every assignment |
| WhereSql.TextMeansTree | crud-gen/src/crud-gen.helpers.ts:165-268 | the string of a tree whose nodes declare their filters asks for what the filters, operators and children of the tree ask for, and is empty if and only if there is no condition |
| WhereSql.ConditionsKeptIff | crud-gen/src/crud-gen.helpers.ts:178-178 | no condition is lost if and only if no node without filters has conditions below it |
| WhereSql.DroppedConditionExample | crud-gen/src/crud-gen.helpers.ts:178-178 | a tree that holds only under two conditions and whose text names one of them |
| HealthStateMachine.TransitionCheck | health/src/state-machine.ts:17-90 | the assignments of one step amount to the transition of the specification, which the rows below describe |
| HealthRuns.TwoFailuresOpen | health/src/state-machine.ts:54-66 | with omitted thresholds the second of two results that warn or fail leaves an incident open, and shows itself when it opens one |
| HealthRuns.TwoOksClose | health/src/state-machine.ts:39-53 | with omitted thresholds two ok results leave no incident open and the status ok |
| HealthRuns.SuspendedShows | health/src/state-machine.ts:27-38 | a disabled result, a failing parent and a grace period, in this order, show disabled, blocked and unknown and reset both counters |
| HealthRuns.ResultShows | health/src/state-machine.ts:39-69 | what status a failing and an ok result show, by the incident they leave |
| HealthRuns.OtherResultsSkip | health/src/state-machine.ts:67-69 | any other result shows as unknown and counts for nothing |
| HealthRuns.EventTells | health/src/state-machine.ts:76-89 | the event tells a start of flapping, and every opening and closing unless the check flaps afterwards; a closed incident is always named |
| HealthRuns.CountersAreTrailingRuns | health/src/state-machine.ts:27-69 | the counters are the lengths of the trailing runs of failing and ok results, unknown results skipped |
| HealthRuns.IncidentOpenIff | health/src/state-machine.ts:39-66 | an incident is open if and only if some run of failures reached its threshold and no run of ok results reached its own since |
| HealthRuns.IncidentsAtThresholds | health/src/state-machine.ts:39-66 | with constant thresholds an incident appears exactly at the one and vanishes exactly at the other |
| HealthRuns.WindowHolds | health/src/state-machine.ts:20-24 | retained transitions are sorted and within the last 3 600 000 ms; at most three unless flapping |
| HealthRuns.RetainedAreRecentChanges | health/src/state-machine.ts:71-86 | the retained transitions are exactly the status changes since flapping last ended that are less than 3 600 000 ms old |
| HealthRuns.StableSinceIsLastChange | health/src/state-machine.ts:71-75 | the stable time is that of the last status change of the whole history, which is the latest when time does not run backwards |
| HealthRuns.FlappingWindow | health/src/state-machine.ts:76-88 | flapping starts exactly with the fourth retained change and ends exactly when the last change is 1 800 000 ms past |
| HealthRuns.TimesOfHistory | health/src/state-machine.ts:39-74 | the status has stood since its last change, and the last ok time is that of the last ok result that counted |
| HealthRuns.StatusMatchesIncident | health/src/state-machine.ts:39-66 | a failing status is shown only while an incident is open, an ok status only while none is |
| HealthMonitor.HealthMonitorService.RecordResult | health/src/monitor.ts:54-136 | one transaction saves the result and the state row and opens or resolves an incident row |
| HealthMonitor.StateIsRun | health/src/monitor.ts:67-95 | with checks interleaved in any way, a stored state is the state machine over that check's own results |
| HealthMonitor.OneUnresolvedRow | health/src/monitor.ts:112-136 | a check has at most one unresolved incident row, and its state names it |
| HealthMonitor.RecordedOpensAndCloses | health/src/monitor.ts:54-136 | a record opens an incident exactly as the last of enough failing results and closes it as the last of enough ok ones, by its own thresholds; the incident is named by check and time, its row is resolved at that time, and no other check or row changes |
| HealthMonitor.RowInsertedIff | health/src/monitor.ts:112-136 | after any records, a result that opens an incident inserts its row if and only if the check was not flapping and retained fewer than three changes of the last hour |
| HealthMonitor.IncidentWithoutRow | health/src/monitor.ts:112-136 | five concrete results that leave a check in an incident without a row |

## Left out

- Host ports of the directory (proofs, sessions, consent, approval, routing, authorisation, quotes) are arbitrary answers; their own validation and the clock readings inside them are `Tick` steps and error answers.
- The directory store is taken to be truthful and to list an account's rows in table order; its query code is not part of this model.
- SHA-256 is taken to be injective: a digested text, token or secret stands for its digest. Random draws are arbitrary values.
- The comparison of a guarded actor with its repetition is on values; `CanonicalDecidesEquality` is what makes the comparison of texts the same.
- A refused intent has one failure code in the model where the ports have several.
- Event acknowledgement is a step; compaction, pruning, `list`, `resolveIdentity` and `assertCurrentLink` (reads through the same guard) are not modelled.
- DirectoryReadability.RowsStayReadable: bounds event rows as their commands write them; the text of a row grows when a host acknowledges it, and the directory never reads event rows back.
- WhereSql.PrintingPreservesMeaning: speaks of spellings whose conditions a reader can tell apart (`Recognises`, met by `TallyRecognised`); a condition text that itself holds a bare operator is not one of them.
- JSON numbers are nonempty runs of the characters of a number, one literal for each number; the order of digits, signs and exponents (RFC 8259 section 6) is not checked.
- Property descriptors, prototypes, accessors and the member name `__proto__` are not modelled; values are already detached, and the depth and size limits of snapshots are not part of this model.
- Closing a channel and a connection is one disposal of a session, and its timeout is the assumption that a disposal ends. The fields of the RabbitMQ strategy name session objects and promises by position.
- The serializer callback of the RabbitMQ strategy is taken not to call back into the strategy between the last check and the publish.
- Request parsing, origin checks and provider proofs of the session core come before its transactions and are not modelled.
- ProjectionPaths.CheckFields: covers names and JSON paths of a definition; columns, codecs, indexes, references and constraints are further checks of the same kind.
- `structuredClone` is not part of this model: the cursor starts from a tree of objects that share nothing, which is what the clone of a JSON-compatible payload is (`CompatibleIffTree`).
- Codec normalisation of projected values is not modelled: a change carries the JSON value it binds, and parameter texts stand for the values they encode. Column values of a patch are passed through unchanged.
- SQL evaluation covers the functions the patches use; names are never array positions in PostgreSQL, and stored payloads are taken to be valid JSON.
- Rendering of single conditions (`computeFindOperatorExpression`, aliases, quoting) is opaque; a rendered condition is taken to be nonempty.
- Incident identifiers are taken to be nonempty, as the monitor makes them; silences, the outbox, result pruning and severities are not modelled.
- Data loaders, HTTP and fallback strategies, trigger SQL, OData parsing, the probe scheduler and the framework modules are not modelled: they would add easy members.
