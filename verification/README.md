# HOML web backend: a model in Dafny

HOML keeps a diary: events on days or over periods, carrying tags that live in categories.
A tag may have synonyms, and main tags of a category may be put in groups. The backend is a
Go service over MySQL and Redis. This project models four of its parts and proves what they
promise.

- **Signed-in devices.** A login hands out an access token and a refresh token; a rotation
  swaps the refresh token for a new pair, and the old one may replay the rotation until the
  new one is first used. Eight kinds of Redis key record this. `SessionStore` says what every
  repository call does to them, `SessionRepository` runs the calls command by command,
  `SessionInvariant` to `SessionRuns` carry the invariant through every step, and
  `SessionTheorems` states the results over whole runs. `UnfinishedRotation` and
  `SessionRetries` are about a rotation that fails and is tried again while others go on, and
  `RotationClaim` interleaves the commands of rotations of one token.
- **The catalog.** Categories, tags, synonyms, groups, events and links as tables, with the
  constraints and cascades of the migrations. `Catalog`, `CatalogEvents` and `Migration` say
  what every use case comes to; `CatalogRepository`, `EventWrites` and `MigrationRun` run the
  checks and the statements one after the other and are proved to come to that.
  `CatalogInvariant`, `CatalogModes` and `CatalogRuns` prove the invariants over all runs of
  all users, and `StaleModes` over runs of requests that saw an older flag. `TagEffects`,
  `CategoryEffects`, `EventEffects` and `MigrationEffects` tell of each use case, from its
  request and the tables before alone, when it is done or refused and every row it leaves, with
  what `StoredValues` says a stored value means; `Isolation` proves that no user's rows change
  by what others do. `Search`, `SearchStability`, `Usage` and `GroupFold` are about what is read
  back.
- **Periods and date tags.** `DateTags` has the month walk against its meaning in days,
  `DateTagTheorems` what events end up linked to, whatever else is written meanwhile, and
  `ReservedNames` which names users may not give because date tags have them.
- **Modes and replays.** `Encryption` has the two forms of a stored value, `MigrationTheorems`
  and `MigrationRoundTrip` the migration between them, and `ReplayCreates` the creates that
  carry a client id. `NewUser` is a user who has only just registered, for the runs that show
  how a property fails; `Collections` and `Options` are small helpers.

A database is a value, a use case a function from one value to the next, and a run a sequence
of use cases by any users. The classes hold the same tables in fields; each method is proved
equal to the function. Fresh ids and uuids, the times of tokens and the user a request comes
from are parameters, as are the alphabet with its case maps and the at-rest cipher, of which
only this is assumed: decryption inverts encryption per user, and what encryption gives and
decryption takes is the base64 of a nonce and a tag at least
(`homl-web/src/internal/infrastructure/crypto/crypto.go:100-141`); `SoundCipherExists` gives a
cipher that meets it.

## What came out

- A rotation that stops after it stored the new pair but before it carried the device session
  over leaves a session that revoking by its id cannot end: the session names the retired
  token, and that token still replays. `TornRotationSurvivesSignOut` says exactly when.
- A request goes by the E2EE flag read when it arrived. An accepted write keeps every value in
  its user's mode if and only if that flag is still the stored one, and so do whole runs
  (`WriteKeepsModesExactlyWhenSeenIsStored`, `RunsStayInModeExactlyWhenTimely`). It fails both
  ways: `TextAfterEnable` stores text at rest under E2EE, and `BlobAfterDisable` stores a blob
  without, after which listing the user's categories fails. The tables stay consistent either
  way.
- Turning E2EE on and off again with the same plaintext is refused when a category, tag or
  group is named by white space alone, which creating it accepts (`BlankNameDoesNotComeBack`).
- Title-casing twice can differ from title-casing once, since Unicode has signs that are no
  letters but whose title case is one (`IotaSubscriptDrifts`); `StableExactly` says for which
  strings.
- Deleting a tag or a category with its events takes every event carrying it, as the SQL and
  the comment above it say; the comments at `homl-web/src/internal/application/tag.go:198-200`
  and `homl-web/src/internal/domain/category/category.go:109-112` still describe the older
  rule, which spared events with other tags. The model follows the SQL.
- A year's name is reserved if and only if it has four digits (`YearIsReservedExactly`), so a
  tag of a user may be named like the date tag of a year before 1000 or after 9999.
- A synonym's usage counts are always zero (`SynonymUsageIsZero`): the queries look for the
  group it would root.
- Repeating a name in the list handed to the search query makes it match nothing
  (`CountingMeansAll`), which is why the service removes repetitions first.

## Model

| member | source | states |
|---|---|---|
| SessionRepository.UsersRepository.CreateAuth | homl-web/src/internal/infrastructure/persistence/user.go:332-347 | The two halves of the pair name each other, every other token is as it was, and if the user's set listed and outlived every key before it does so after. |
| SessionRepository.UsersRepository.CreateSession | homl-web/src/internal/application/user.go:117-134 | From any store of a run, with fresh uuids: the invariant holds after, usable are the new refresh token and what was usable before, and the new access token belongs to the new device session, which names the new token. |
| SessionRepository.UsersRepository.RevokeSessionByAccess | homl-web/src/internal/infrastructure/persistence/user.go:405-432 | From any store of a run: the login of the access token's session ends, map by map, and no other key changes. |
| SessionRepository.UsersRepository.RevokeSession | homl-web/src/internal/infrastructure/persistence/device_session.go:163-185 | Answers true exactly for the owner of a stored session; from any store of a run its login then ends, and no other key changes, nor any when it answers false. |
| SessionRepository.UsersRepository.RotateSession | homl-web/src/internal/infrastructure/persistence/user.go:438-466 | From any store of a run, for the owner of an issued token: answers true exactly when the token is usable, and changes nothing otherwise; afterwards usable are the new token, the presented one and those of other logins, the device session of the login names the new token, and the invariant holds. |
| SessionRepository.UsersRepository.RevokeAllSessions | homl-web/src/internal/infrastructure/persistence/user.go:543-569 | From any store of a run: no key of the user is left in any map, and every key of every other user is as it was. |
| SessionRepository.UsersRepository.ListSessions | homl-web/src/internal/infrastructure/persistence/device_session.go:86-131 | Answers with the sessions whose newest token is alive and forgets the others. |
| SessionRepository.UsersRepository.RevokeOtherSessions | homl-web/src/internal/application/user.go:539-557 | Lists the sessions and revokes each but the one asking; from any store of a run exactly the logins of the other live sessions end, and no other key changes. |
| SessionRevocation.RevokeByAccessIsByRefresh | homl-web/src/internal/infrastructure/persistence/user.go:350-384 | Revoking by either half of a stored pair is the same. |
| SessionRevocation.LogoutRevokesSession | homl-web/src/internal/infrastructure/persistence/user.go:405-432 | Logging out by an access token is revoking the device session of its login. |
| SessionTheorems.RunKeepsInv | homl-web/src/internal/infrastructure/persistence/user.go:332-569 | Every run of logins, rotations, replays, logouts, revocations, listings and expiry keeps the coupled invariant of the eight kinds of key. |
| SessionTheorems.Lineage | homl-web/src/internal/infrastructure/persistence/user.go:332-538 | In every reachable store: per login at most one live and one pending refresh token, the pending one the live one's direct predecessor; live and pending disjoint; rot and prev inverse; every live access token pairs with a live refresh token that points back. |
| SessionRotation.UsableIsClaimable | homl-web/src/internal/infrastructure/persistence/user.go:470-538 | The claim of a usable token, live or retired, leads to the store in which its device session is signed out, but for the token's own link, the session and the two sets; a replay thereby undoes the rotation it replays. |
| SessionRotation.RotateReinstalls | homl-web/src/internal/infrastructure/persistence/user.go:438-538 | A rotation or replay leads to the store in which the device was signed out and signed in again under its id with the new pair, the presented token kept for one replay. |
| SessionRotation.RetryErasesAttempts | homl-web/src/internal/infrastructure/persistence/user.go:447-465 | Any number of rotations of a usable token in a row, at one instant, that failed after their record was written, at any point, or whose answer was lost, followed by a completed one, lead to the very store that one leads to alone. |
| SessionRetries.RetriesLeaveNoTrace | homl-web/src/internal/infrastructure/persistence/user.go:447-465 | The same with anything but steps about that login in between, as long as the token lives: logins, refreshes, logouts, revocations and listings of others, and time. The first try that completes leads to the store in which the device was signed out before the first one, the others did what they did, and the device was signed in again, with the invariant for the handed-out pair alone; until then the tries change nothing about which other tokens are usable. |
| SessionRetries.StepBeside | homl-web/src/internal/infrastructure/persistence/user.go:332-569 | Whatever step of others is taken, a store with an unfinished rotation in it and the same store without stay alike but for the keys of that rotation. |
| SessionTheorems.DeadStaysDead | homl-web/src/internal/infrastructure/persistence/user.go:574-580 | An issued refresh token that is no longer usable is not usable after any later run. |
| SessionTheorems.UsingTheNewTokenKillsTheOld | homl-web/src/internal/infrastructure/persistence/user.go:388-401 | After the new token was rotated, the token it replaced is dead in every later state. |
| SessionTheorems.RotatesExactlyUsable | homl-web/src/internal/infrastructure/persistence/user.go:470-538 | For the token's owner, a rotation succeeds exactly when RefreshSessionExists answers true, and a refusal changes nothing. |
| SessionTheorems.ForeignRotationIsRefused | homl-web/src/internal/infrastructure/persistence/user.go:481-526 | A rotation by anyone but the token's owner is refused and changes nothing, except that a pending token's record is taken out, so it is then no longer usable. |
| SessionTheorems.RecordOutlivesTheClaim | homl-web/src/internal/infrastructure/persistence/user.go:438-454 | From any store, wherever the rotation stops: the record and the back link live exactly as long as the claimed token would have, or as the new one when that time is up, and never less than now. |
| SessionTheorems.RefreshUsable | homl-web/src/internal/infrastructure/persistence/user.go:438-466 | After a refresh the usable tokens are the new one, the presented one and those of other logins: both directions. |
| SessionTheorems.RevocationEndsItsLogins | homl-web/src/internal/application/user.go:136-150 | Each kind of revocation ends every token of the logins meant and no other token. |
| SessionRuns.RevocationEnds | homl-web/src/internal/infrastructure/persistence/device_session.go:163-185 | The store after a revocation is the store before without the keys of the logins it ends, map by map. |
| SessionTheorems.RevokeAllLeavesNothing | homl-web/src/internal/infrastructure/persistence/user.go:543-569 | Afterwards no key of the user is left in any of the eight maps, and every other user's keys are as they were. |
| SessionTheorems.OnlyTheAskingLoginIsLeft | homl-web/src/internal/application/user.go:539-557 | After the others are signed out, the user's usable tokens are exactly those of the asking login. |
| SessionTheorems.RefreshKeepsDevice | homl-web/src/internal/infrastructure/persistence/device_session.go:41-81 | Through a rotation or replay a login keeps its device session, which names the newest token. |
| SessionTheorems.TornRotationSurvivesSignOut | homl-web/src/internal/infrastructure/persistence/device_session.go:163-185 | After a rotation that stopped part-way, the presented token survives the revocation of its device session if and only if that session names a token no longer live, which is when the rotation stopped before carrying it over. |
| SessionTheorems.UserSetIsExact | homl-web/src/internal/infrastructure/persistence/user.go:332-347 | The per-user set holds every uuid with a live access, live refresh or pending key, else only uuids past their time, and expires no earlier than they do. |
| SessionLogin.LoginKeepsInv | homl-web/src/internal/application/user.go:117-134 | A login under a fresh device id keeps the invariant. |
| SessionRuns.PurgeKeepsInv | homl-web/src/internal/infrastructure/persistence/user.go:332-347 | Expiry in the order the keys' times give keeps the invariant. |
| RotationClaim.AtMostOneClaims | homl-web/src/internal/infrastructure/persistence/user.go:490-526 | However the commands of any number of rotations of one token interleave, with crashes and revocations, at most one deletion claims the live token and at most one client holds the claim at any time. |
| RotationClaim.TheClaimIsNotLost | homl-web/src/internal/infrastructure/persistence/user.go:490-526 | Without crashes or revocations, once all clients are done exactly one deletion claimed the token and its record is there to be replayed. |
| DateTags.Event.ValidatePeriod | homl-web/src/internal/application/event.go:194-230 | Accepts no end, or no Ongoing and an end from the first day to the same day a hundred years on; says why not; clears the end of a one-day period and changes nothing else. |
| DateTags.Event.DateTagNames | homl-web/src/internal/domain/event/event.go:53-84 | Terminates after one round per month, with no name twice and exactly the months and years walked, and Ongoing for an open period. |
| DateTags.MonthsNameDays | homl-web/src/internal/domain/event/event.go:40-52 | The months and years walked are exactly those of the days of the period. |
| DateTags.AcceptedWalkIsBounded | homl-web/src/internal/application/event.go:190-194 | An accepted period walks at most 1202 months, and 1202 exactly from 29 February of a year divisible by 400 to 1 March a hundred years on; it touches at most 101 years. |
| DateTags.HundredYears | homl-web/src/internal/application/event.go:224-227 | The last accepted day is a real day: the same day a hundred years on, or 1 March after a leap day missing there. |
| DateTags.FewNames | homl-web/src/internal/domain/event/event.go:53-84 | A period gets at most 12 month names, one name a year and Ongoing. |
| DateTags.StartNames | homl-web/src/internal/domain/event/event.go:40-52 | An open period and a single day are named by their first day: one month, one year. |
| DateTags.ItoaRoundTrip | homl-web/src/internal/domain/event/event.go:74-76 | Years have different names, none of which is a month name or Ongoing. |
| ReservedNames.ReservedExactly | homl-web/src/internal/application/tag.go:38-59 | The reserved names are exactly those a date tag can have for days in years of four digits, and those of four digits that begin with a zero, which no such tag has. |
| ReservedNames.YearIsReservedExactly | homl-web/src/internal/application/tag.go:40-42 | A year's name is reserved if and only if the year lies between 1000 and 9999. |
| Text.TitleCaseRunes | homl-web/src/internal/application/text.go:14-24 | Rune by rune: title case after a rune that is no letter or digit and at the start, lower case elsewhere. |
| Text.TitleCaseIsIdempotent | homl-web/src/internal/application/text.go:8-13 | Normalising twice is normalising once, over every alphabet whose case maps are idempotent and keep letters letters. |
| Text.AsciiIsRegular | homl-web/src/internal/application/text.go:14-24 | The ASCII letters and digits meet that condition. |
| Text.StableExactly | homl-web/src/internal/application/text.go:8-24 | Over case maps that are only idempotent, a string has a stable normal form exactly when the other case map leaves alone every sign that follows one which normalising turned into a letter or out of one. |
| Text.IotaSubscriptDrifts | homl-web/src/internal/application/text.go:14-24 | Three signs of Unicode over which normalising twice is not normalising once: an iota subscript before a letter. |
| Encryption.BlobsAreNotAtRest | homl-web/src/internal/domain/e2ee/e2ee.go:15-30 | A client blob is never the at-rest ciphertext of anything, because of the colon in its prefix. |
| Encryption.EncIsInjective | homl-web/src/internal/infrastructure/crypto/crypto.go:100-117 | Two texts of one user with one ciphertext are one text. |
| Encryption.SoundCipherExists | homl-web/src/internal/infrastructure/crypto/crypto.go:100-141 | The assumptions on the at-rest cipher can be met. |
| CatalogRepository.Database.ValidateTag | homl-web/src/internal/application/tag.go:61-101 | Returns the row to store exactly when the request is accepted: own category, not the date category outside E2EE, shape or normal form, no reserved name, parent rules. |
| CatalogRepository.Database.ValidateParent | homl-web/src/internal/application/tag.go:105-128 | Accepts exactly the tags of the user's own under which the row keeps to one level of synonyms in one category. |
| CatalogRepository.Database.CreateTag | homl-web/src/internal/application/tag.go:131-143 | Inserts the accepted row, or refuses a name or index already in the category, changing nothing. |
| CatalogRepository.Database.UpdateTag | homl-web/src/internal/application/tag.go:161-196 | The checks and statements one after the other answer and leave what UpdateTagDoes tells: refusals whole, else the tag, its synonyms and its memberships change together. |
| CatalogRepository.UpdateTagRows | homl-web/src/internal/infrastructure/persistence/tag.go:44-108 | The three statements with their checks on the way go through exactly when the tags as they end up are unique, and leave the tags and memberships the rule says. |
| CatalogRepository.StatementsCheckFinalState | homl-web/src/internal/infrastructure/persistence/tag.go:55-71 | Checking the updated row first and its synonyms next is checking the final tags. |
| CatalogRepository.RegroupByStatements | homl-web/src/internal/infrastructure/persistence/tag.go:78-105 | Insert-then-delete hands a new synonym's memberships to its main tag once each; a tag leaving its category leaves that category's groups. |
| CatalogRepository.DeleteTagRows | homl-web/src/internal/infrastructure/persistence/tag.go:120-198 | A synonym's links go to its parent without duplicates; a main tag's group goes, with every event carrying it if asked. |
| CatalogRepository.Database.DeleteTag | homl-web/src/internal/application/tag.go:201-213 | The same behind the ownership and date-tag checks. |
| CatalogRepository.DeleteCategoryRows | homl-web/src/internal/infrastructure/persistence/category.go:168-249 | The statements of the three modes, with the unique keys checked on the way, answer and leave what DeleteCategoryDoes tells. |
| CatalogRepository.MovedNamesChecked | homl-web/src/internal/infrastructure/persistence/category.go:201-215 | Checking the moved rows is checking the whole unique keys. |
| CatalogRepository.Database.CreateCategory | homl-web/src/internal/application/category.go:97-139 | A known client id hands its category back untouched; else the category is stored in the user's mode. |
| CatalogRepository.Database.UpdateCategory | homl-web/src/internal/application/category.go:141-172 | Renames an own, unlocked category or refuses; keeps the aggregate and every value in its user's mode. |
| CatalogRepository.Database.ValidateGroup | homl-web/src/internal/application/tag_group.go:40-88 | Accepts exactly: own category other than the dates, at least one member, all of them main tags there, an accepted name. |
| CatalogRepository.DistinctMembers | homl-web/src/internal/application/tag_group.go:48-55 | The members sent, each once. |
| CatalogRepository.CheckMainTagsInCategory | homl-web/src/internal/infrastructure/persistence/tag_group.go:185-222 | Counting the matching rows of the distinct ids accepts exactly when every id is a main tag of the category. |
| CatalogRepository.Database.CreateGroup | homl-web/src/internal/application/tag_group.go:101-108 | Stores the group and its members, or refuses a taken name whole. |
| CatalogRepository.Database.UpdateGroup | homl-web/src/internal/application/tag_group.go:113-125 | Replaces name and members; the group stays in its category. |
| CatalogRepository.PutGroupRows | homl-web/src/internal/infrastructure/persistence/tag_group.go:98-140 | Row, then members one by one: goes through exactly when the group names stay unique. |
| CatalogRepository.Database.CreateEvent | homl-web/src/internal/application/event.go:129-172 | Replay, checks, the names of the period's months and years, their lookup and the insert: the state and the answer of the specification for those names. |
| CatalogRepository.Database.InsertOrFind | homl-web/src/internal/application/event.go:155-170 | On any tables met: while no event of the user has the client id, the write; else nothing is written and the answer is the event that has it. |
| CatalogRepository.Database.UpdateEvent | homl-web/src/internal/application/event.go:174-191 | Checks, the names of the period, their lookup and the rewrite of an own event, one after the other: the state and the answer UpdateEventDoes tells of for those names. |
| CatalogRepository.Database.GetEvents | homl-web/src/internal/application/event.go:46-127 | Refuses malformed indexes; otherwise the found events, each once; none starts before one listed after it, and of two that start on one day the one created last comes first. |
| CatalogRepository.Database.Enable | homl-web/src/internal/application/e2ee.go:44-53 | The checks and the loops of the swap answer and leave what EnableDoes tells: a refusal for a malformed key check or payload, a conflict, or the rows as sent. |
| CatalogRepository.Database.Disable | homl-web/src/internal/application/e2ee.go:55-79 | Refuses blank names, normalises the others, drops the indexes and runs the swap. |
| CatalogRepository.Database.Purge | homl-web/src/internal/infrastructure/persistence/e2ee.go:162-197 | Done exactly under E2EE; then the user has no event, no tag, no group and the three first categories alone, without E2EE; the aggregate and the modes are kept. PurgeDoes tells of everyone else. |
| CatalogRepository.Database.Register | homl-web/src/internal/infrastructure/persistence/user.go:96-145 | A new user's first categories leave the aggregate consistent, with the dates and the others among them, and every value in its user's mode. |
| EventWrites.CheckTagsBelongToUser | homl-web/src/internal/infrastructure/persistence/tag.go:253-288 | Counting owned rows of the distinct ids accepts exactly when every id is a tag of the user. |
| EventWrites.BuildDateTagList | homl-web/src/internal/application/event.go:257-283 | Every name looked up in the date category: the row found, or a tag to be made. |
| EventWrites.CreateAllTags | homl-web/src/internal/infrastructure/persistence/tag.go:326-358 | The loop of upserts comes to the specified tags and ids. |
| EventWrites.InsertEventRows | homl-web/src/internal/infrastructure/persistence/event.go:199-246 | Date tags, row and links of a create, rolled back whole when another event has the client id or a linked tag is gone. |
| EventWrites.UpdateEventRows | homl-web/src/internal/infrastructure/persistence/event.go:267-315 | The ownership check, then date tags, row and links anew of an update, rolled back whole when a linked tag is gone. |
| EventWrites.NamesOfPeriod | homl-web/src/internal/domain/event/event.go:53-84 | The walk gives exactly the names an accepted period implies, at most 113 of them. |
| EventWrites.SearchTerms | homl-web/src/internal/application/event.go:49-82 | The loop normalises, drops repetitions and encrypts, or checks the index shape. |
| EventWrites.FindEvents | homl-web/src/internal/infrastructure/persistence/event.go:59-111 | The events whose group counts as many distinct matched names as were asked for. |
| EventWrites.SortTimeline | homl-web/src/internal/application/event.go:87-100 | Sorts the found events into the timeline. |
| CatalogRuns.RunsKeepEverything | homl-web/src/internal/application/tag.go:105-196 | Every run of all use cases by all users keeps the aggregate consistent (synonyms one deep in one category and owner, groups of main tags of their own category, unique names, default categories, valid periods, unique client ids, no dangling or foreign link) and every stored value in its user's mode. |
| CatalogRuns.EveryReadDecrypts | homl-web/src/internal/infrastructure/persistence/category.go:88-95 | In every reachable state each name and description of a user without E2EE decrypts. |
| CatalogInvariant.UpdateTagKeeps | homl-web/src/internal/infrastructure/persistence/tag.go:44-108 | Renaming, moving and turning into a synonym or a main tag keep the aggregate. |
| CatalogInvariant.SynonymHandsOverGroups | homl-web/src/internal/infrastructure/persistence/tag.go:73-96 | A tag turned synonym is in no group; its main tag is in exactly the groups it was in and those of their category the tag was in; no other membership changes. |
| CatalogInvariant.MovedTagLeavesGroups | homl-web/src/internal/infrastructure/persistence/tag.go:97-105 | A main tag loses exactly its memberships in groups of other categories than its new one. |
| CatalogInvariant.SynonymHandsOverEvents | homl-web/src/internal/infrastructure/persistence/tag.go:143-162 | After a synonym's deletion its main tag has exactly the links of both, and no other link changes. |
| CatalogInvariant.DeleteTagKeeps | homl-web/src/internal/infrastructure/persistence/tag.go:120-198 | Deleting a synonym or a whole group, with or without events, keeps the aggregate. |
| CatalogInvariant.DeleteCategoryKeeps | homl-web/src/internal/infrastructure/persistence/category.go:168-249 | All three modes of deleting a category keep the aggregate. |
| CatalogInvariant.CreateTagKeeps | homl-web/src/internal/application/tag.go:131-143 | Creating a tag or a synonym keeps the aggregate. |
| CatalogInvariant.PutGroupKeeps | homl-web/src/internal/infrastructure/persistence/tag_group.go:71-140 | Writing a group keeps the aggregate. |
| CatalogInvariant.PurgeKeeps | homl-web/src/internal/infrastructure/persistence/e2ee.go:162-197 | The purge leaves a consistent dataset, like a registration. |
| CatalogInvariant.DeleteTagsKeeps | homl-web/db/migrations/000002_tag_synonyms.up.sql:1-4 | Deleting tags with their cascades to synonyms, memberships and links keeps the aggregate. |
| CatalogInvariant.DeleteCategoriesKeepsRest | homl-web/db/migrations/000001_mysql.up.sql:48-59 | Deleting categories with their cascades keeps all but the default categories. |
| CatalogEvents.WriteEventKeeps | homl-web/src/internal/infrastructure/persistence/event.go:199-315 | Writing an event with its date tags keeps the aggregate, also when the tags were looked up in an earlier state. |
| CatalogEvents.CreateEventKeeps | homl-web/src/internal/application/event.go:129-172 | Creating an event keeps the aggregate, client ids unique included. |
| CatalogRuns.StepKeepsModes | homl-web/src/internal/application/category.go:178-187 | Every use case keeps names and descriptions in the mode of their user, indexes included. |
| CatalogModes.UpdateTagKeepsModes | homl-web/src/internal/application/tag.go:148-158 | A renamed tag and the synonyms it takes along stay in the user's mode. |
| CatalogModes.AcceptedWriteKeepsModes | homl-web/src/internal/infrastructure/persistence/event.go:321-326 | A written event and the date tags made for it are in the user's mode. |
| StaleModes.WriteKeepsModesExactlyWhenSeenIsStored | homl-web/src/internal/domain/e2ee/e2ee.go:55-66 | An accepted write of a category, tag, group or event keeps every value in its user's mode if and only if the flag the request saw is the stored one; the empty description is no exception, as it is no ciphertext. |
| StaleModes.RefusedWritesChangeNothing | homl-web/src/internal/infrastructure/web/middleware.go:60-75 | A write that is refused or replays an earlier create changes nothing, whatever flag it saw. |
| StaleModes.StaleValues | homl-web/src/internal/infrastructure/persistence/category.go:88-95 | What a stale write leaves in its row: under E2EE a text that is no blob, without E2EE a value that does not decrypt. |
| StaleModes.StaleRunsKeepAggregate | homl-web/src/internal/infrastructure/web/middleware.go:60-75 | Runs of requests that saw whatever flags keep the aggregate. |
| StaleModes.RunsStayInModeExactlyWhenTimely | homl-web/src/internal/infrastructure/web/middleware.go:60-75 | Over whole runs of requests that saw whatever flags, all values are in their modes throughout if and only if each accepted write saw the flag then stored. |
| StaleModes.TextAfterEnable | homl-web/src/internal/domain/e2ee/e2ee.go:55-66 | A failing run one way: a category created by a request that arrived before E2EE was turned on. |
| NewUser.SomeBlobAndCheck | homl-web/src/internal/domain/e2ee/e2ee.go:15-38 | There are blobs and key checks, so the failing runs are about something. |
| StaleModes.BlobAfterDisable | homl-web/src/internal/infrastructure/persistence/category.go:88-95 | And the other way: a blob stored after E2EE was turned off, which does not decrypt when the categories are listed. |
| MigrationRun.CheckIdSetMatches | homl-web/src/internal/infrastructure/persistence/e2ee.go:201-227 | Accepts exactly the duplicate-free enumerations of the stored ids. |
| MigrationRun.SwapRows | homl-web/src/internal/infrastructure/persistence/e2ee.go:36-158 | Row by row with the unique keys checked on the way: comes to the rewritten tables and the flag, or to nothing. |
| MigrationRun.NormaliseRows | homl-web/src/internal/application/e2ee.go:59-78 | The names title-cased without index, or a refusal exactly when one is blank. |
| MigrationRun.RewriteKeyRows | homl-web/src/internal/infrastructure/persistence/e2ee.go:93-118 | The loop of updates stops at the first row that hits a unique key. |
| MigrationTheorems.SwapConflictsExactlyOnCollapse | homl-web/src/internal/infrastructure/persistence/e2ee.go:93-139 | Once the ids match, the rewrite goes through, row by row and in any order, exactly when no two payload rows of a category collapse onto one value or one index. |
| Migration.RowByRowConflicts | homl-web/src/internal/infrastructure/persistence/e2ee.go:93-118 | The updates made one after the other succeed exactly when no two rows collapse, whatever their order. |
| Migration.OrderIsIrrelevant | homl-web/src/internal/infrastructure/persistence/e2ee.go:93-118 | What is written for an id does not depend on the order of the payload. |
| MigrationTheorems.NewRowsAreApart | homl-web/src/internal/domain/e2ee/e2ee.go:12-15 | A rewritten row never meets a row still to be rewritten, in either direction. |
| MigrationTheorems.SwapKeeps | homl-web/src/internal/infrastructure/persistence/e2ee.go:36-158 | A migration keeps the aggregate. |
| MigrationTheorems.SwapKeepsModes | homl-web/src/internal/infrastructure/persistence/e2ee.go:36-158 | A migration leaves every value of the user in the new mode and no other user touched. |
| MigrationRoundTrip.ThereAndBack | homl-web/src/internal/application/e2ee.go:44-83 | Enabling and then disabling with the original plaintext succeeds and restores every row if and only if all names were in normal form and none is blank. |
| MigrationRoundTrip.BlankNameDoesNotComeBack | homl-web/src/internal/application/e2ee.go:59-76 | A category renamed to one space is accepted and encrypted, and the way back with the original plaintext is refused although all names are in normal form. |
| StoredValues.SayingIsOne | homl-web/src/internal/infrastructure/persistence/event.go:321-326 | A name is stored in one way only: as sent under E2EE, else as the at-rest ciphertext of its normal form. |
| TagEffects.CreateTagDoes | homl-web/src/internal/application/tag.go:61-143 | Refused exactly for a request that breaks a rule, spelled out field by field, or when the tags it would leave repeat a name or an index; else the new tag has the category, parent, name and index of the request, the name decrypting to its title case or kept as the blob, and no other row changes. |
| TagEffects.UpdateTagDoes | homl-web/src/internal/infrastructure/persistence/tag.go:44-108 | The four answers in the source's order, each exactly when; once done the tag is as requested, every other tag is as it was but for the category of synonyms that follow their main tag, the memberships are exactly those the rule names, and nothing else changes. |
| TagEffects.DeleteTagDoes | homl-web/src/internal/infrastructure/persistence/tag.go:120-198 | Gone are exactly the tag and its synonyms, their memberships, and, if asked for a main tag, exactly the events carrying one of them; a synonym's links stand at its main tag, every other row is as it was. |
| CategoryEffects.CreateCategoryDoes | homl-web/src/internal/application/category.go:97-139 | Replayed exactly when a category of the user has the client id; else the custom, unlocked category is added with the name decrypting to its title case, or the blob, and no other row changes. |
| CategoryEffects.UpdateCategoryDoes | homl-web/src/internal/application/category.go:141-172 | The four answers; once done the name alone of that category changes. |
| CategoryEffects.DeleteCategoryDoes | homl-web/src/internal/infrastructure/persistence/category.go:168-249 | Moving refuses exactly when the moved rows would repeat a name or an index; else every tag and group of the category stands under its name, index and parent in the user's others, with memberships, events and links as they were. The other modes take exactly the tags, groups and memberships of the category, and exactly the events carrying its tags if asked; every other row is as it was. |
| CategoryEffects.CreateGroupDoes | homl-web/src/internal/infrastructure/persistence/tag_group.go:71-97 | Refused exactly for a request that breaks a rule or would repeat a name or an index; else the group has the name and index sent and exactly the members sent, and no other row changes. |
| CategoryEffects.UpdateGroupDoes | homl-web/src/internal/infrastructure/persistence/tag_group.go:98-140 | The same for a group that stands: its old members go, and it keeps its category. |
| CategoryEffects.DeleteGroupDoes | homl-web/src/internal/infrastructure/persistence/tag_group.go:143-164 | The group and its memberships go, and nothing else. |
| CategoryEffects.RegisterDoes | homl-web/src/internal/infrastructure/persistence/user.go:96-145 | The account is without E2EE and has the three first categories of their kinds, locks and names; no other row changes. |
| CategoryEffects.PurgeDoes | homl-web/src/internal/infrastructure/persistence/e2ee.go:162-197 | Done exactly under E2EE: every account, category, tag, group, membership, event and link of anyone else is as it was, nothing of the user is left, and the account starts afresh. |
| EventEffects.CreateEventDoes | homl-web/src/internal/application/event.go:129-172 | Replayed exactly when an event of the user has the client id, refused exactly for a period, a tag or a description that may not be stored; else the event has the normalised period and the description, and its links are exactly those to the tags of the request and, without E2EE, to the tags naming a month or a year of its days, or Ongoing. Only such tags are added; every other event and link is as it was. |
| EventEffects.UpdateEventDoes | homl-web/src/internal/infrastructure/persistence/event.go:267-315 | Refused for a request that may not be stored, not found for an event not the user's, and else done: the event is as asked and keeps its client id, with the links and date tags of a create. |
| EventEffects.DeleteEventDoes | homl-web/src/internal/infrastructure/persistence/event.go:328-345 | The event of its user goes with its links, and nothing else. |
| MigrationEffects.EnableDoes | homl-web/src/internal/infrastructure/persistence/e2ee.go:36-158 | Refused exactly for a payload of the wrong shape; a conflict exactly when E2EE is on, the rows do not name the user's rows once each, or two names or indexes of a category would be the same; else each row stands as it was sent: names, indexes and descriptions, with category, parent and all else as it was, members, links and other rows unchanged, and the flag on with its key check. |
| MigrationEffects.DisableDoes | homl-web/src/internal/application/e2ee.go:55-83 | The same the other way: refused exactly when a name is blank; descriptions decrypt to what was sent, names to its title case, the indexes are unset and the flag is off. |
| Isolation.StepIsOwn | homl-web/src/internal/infrastructure/persistence/category.go:29-41 | Whatever use case a user calls and however it ends, nobody else's account, categories, tags, groups, memberships, events or links change, go or are added. |
| Isolation.RunsAreOwn | homl-web/src/internal/infrastructure/web/middleware.go:60-75 | Over whole runs of everyone else's requests, with whatever flags they saw, a user's account and rows stay as they are. |
| DateTagTheorems.InterleavedCreateLinksExactly | homl-web/src/internal/infrastructure/persistence/event.go:199-246 | Whatever any users write between the lookup of the date tags and the insert, the user not turning E2EE on: the create goes through if and only if the client's tags are still there and no event of the user has its client id, which alone it reports; then each date name has one row and the event is linked to exactly the client's tags and those rows; else nothing is written. |
| DateTagTheorems.InterleavedUpdateLinksExactly | homl-web/src/internal/infrastructure/persistence/event.go:267-315 | The same for an update, which goes through if and only if the client's tags and the event are still there, reports an event that is gone, and leaves the client id as it finds it. |
| DateTagTheorems.InterleavedWritesKeep | homl-web/src/internal/infrastructure/persistence/event.go:218-226 | Whatever landed before them, neither write breaks the aggregate: client ids stay unique and no deleted event comes back. |
| DateTagTheorems.CreatedEventIsTaggedByItsDays | homl-web/src/internal/application/event.go:129-172 | A create that is neither a replay nor refused by its checks goes through, and its event is linked to exactly the client's tags and the date tags naming a month or a year of one of its days, or Ongoing. |
| DateTagTheorems.StepHoldsDates | homl-web/src/internal/application/tag.go:229-243 | Only by turning E2EE on does a user lose or change a date tag; no other use case of anyone touches it. |
| CatalogEvents.CreateAllAdds | homl-web/src/internal/infrastructure/persistence/tag.go:326-358 | The upserts add rows to the date category only, touch none, keep names unique, and settle every tag on the row of its name. |
| Search.SearchFindsWhatItMeans | homl-web/src/internal/application/event.go:46-82 | An event is found exactly when, for every requested name however spelt or repeated, one of its tags shares a synonym group with a tag of the user so named. |
| Search.CountingMeansAll | homl-web/src/internal/infrastructure/persistence/event.go:72-85 | Counting distinct matched names means all names are hit exactly when no name is repeated; a repeated one refuses every event. |
| Search.TimelineIsUnique | homl-web/src/internal/application/event.go:87-100 | There is one timeline of a set of events, whatever order the rows came in. |
| SearchStability.SearchSurvivesSynonymDeletion | homl-web/src/internal/infrastructure/persistence/tag.go:143-162 | Deleting a synonym leaves every search not naming it unchanged. |
| SearchStability.SearchSurvivesCategoryMove | homl-web/src/internal/infrastructure/persistence/category.go:191-215 | Deleting a category with its tags moved leaves every search unchanged. |
| SearchStability.SearchSurvivesTagMove | homl-web/src/internal/infrastructure/persistence/tag.go:55-71 | Moving a main tag under its own name leaves every search unchanged. |
| SearchStability.SearchGrowsByJoining | homl-web/src/internal/infrastructure/persistence/tag.go:55-71 | A main tag without synonyms turned into a synonym under its own name only makes searches find more. |
| Usage.TagUsagePredictsDeletion | homl-web/src/internal/infrastructure/persistence/tag.go:204-247 | For a main tag: Events is the number of events a deletion with events removes, which are the linked ones; ExclusiveEvents the number a deletion keeping them leaves date-only. |
| Usage.CategoryUsagePredictsDeletion | homl-web/src/internal/infrastructure/persistence/category.go:255-303 | The same for an unlocked category. |
| Usage.SynonymUsageIsZero | homl-web/src/internal/infrastructure/persistence/tag.go:224-247 | A synonym is reported unused. |
| ReplayCreates.ReplaysCreateOnce | homl-web/src/internal/application/event.go:129-172 | However any number of creates with one client id interleave, while their row is not deleted: at most one row, every answered caller given its id, exactly one told it created, with that caller's body. |
| ReplayCreates.CreatesAreDeletionsAndOne | homl-web/src/internal/application/event.go:129-172 | With deletions too: at most one row at any time, and as many callers told they created it as it was deleted, and one more while it stands. |
| ReplayCreates.LookingAgainFinds | homl-web/src/internal/application/category.go:125-137 | A create beaten to the insert is answered with the row if and only if there is one when it looks again, and is not answered only if the winner's row was deleted in between. |
| ReplayCreates.FirstBodyStands | homl-web/src/internal/infrastructure/persistence/event.go:218-228 | Until it is deleted, no later step of a run touches the row. |
| GroupFold.CollectGroups | homl-web/src/internal/infrastructure/persistence/tag_group.go:36-64 | The loop over the rows comes to the fold. |
| GroupFold.FoldInvertsJoin | homl-web/src/internal/infrastructure/persistence/tag_group.go:21-69 | Every group comes out once under its category and in id order, emptied ones included, with its name and exactly its members in id order; nothing else does. |

## Left out

- DateTags.Event.DateTagNames: reads civil dates in UTC; a time value in another zone, whose own month the walk would use, is not modelled.
- StaleModes.WriteSeeing: a request may go by an older flag, but passes its checks and writes in one step; the other races between the checks of a service and its transaction are modelled only for the writes of events (DateTagTheorems) and for creates with a client id (ReplayCreates).
- DateTagTheorems.InterleavedWritesKeep: takes it that what stands of the client's tags is still the user's own; the runs may give a deleted row's id out again, which the tables' AUTO_INCREMENT does not.
- SessionRetries.RetriesLeaveNoTrace: an attempt that fails between its claim and its record is not among the tries, since nothing can replay it; nor is a step about the login itself between two tries, such as using the abandoned pair, revoking the login, or its user revoking everything.
- SessionTheorems.RefreshUsable: the caller's user is the token's owner, as the service takes both from one verified token; what a foreign user meets is ForeignRotationIsRefused.
- Search.CountingMeansAll: MySQL compares the columns under a collation; here names are equal when they are the same string.
- Command-level races between revoking everything and a running rotation, and between a replay and an unfinished rotation.
- What Redis stores as text: the encoding of owner and partner in one value, the hash fields of a device that are shown only (client, address, times).
- PIN, reset codes, passwords, second factors and the signing of tokens.
- The cryptography: AES-GCM, HKDF and HMAC are the assumptions on the cipher; blobs and indexes are known by shape only.
- Account deletion, colours of categories and the data generation written by the purge.
- GetAllCategoriesWithTags, whose fold is the easier sibling of the one over tag groups.
- HTTP handlers, input validators, middleware, configuration, mail, the rate limiter and logging.
- MySQL deadlocks and their retries: every transaction is atomic. Duplicate link rows of one event and tag are one link here.
