# Accord: verified model of the server and client core

Accord is a self-hosted chat platform: a server with accounts, roles, public channels, end-to-end
encrypted private groups and voice channels, and a desktop client that archives private messages,
mirrors them to a vault and can host the server itself. This project models the parts whose state
must stay right over whole runs, and proves what they are there for. `dafny verify dfyconfig.toml`
checks all of it.

## What is modelled

- `EditDistance`, `ChannelNames`: the two-row edit distance, and the channel-name checks built on it.
- `Guardrails`: the token buckets that limit each actor and action, over any sequence of calls.
- `Registration`: the sliding window on remote registrations, kept as a pruned log.
- `Directory`, `Roles`: stored accounts, roles and assignments, the authorisation rules, and one
  step per role request.
- `Membership`, `DeletionLimits`: owner, member and guest tiers over registration, login, group and
  moderation requests, and the limiters these answer to.
- `RefreshTokens`: sessions and single-use refresh tokens.
- `Hub`, `HubRuns`: the delivery hub: routing tables, bounded stream buffers and voice rosters.
- `Messaging`, `MessagingService`: the message-stream handlers over hub, store and mailbox.
- `Mailbox`: private messages are delivered exactly once and in order, live or through the mailbox.
- `VoiceRoster`, `StaleRoster`: the client's view of a voice channel against the hub's roster.
- `HistoryLog`: the framed archive, its scanning reader and the plaintext it is mirrored as.
- `VaultSync`: dirty marks and the background flusher, under all interleavings.
- `EmbeddedHost`: claim, slow start and commit of the embedded server, under all interleavings.

An object the source updates in place is a class here, and a loop is a loop; each method is proved
equal to a specification function on values, and the properties are proved about those functions.
Requests are steps of a state machine, and a theorem about runs speaks of every sequence of steps.

What a step takes from outside is one of its parameters: ids the store draws, times, the order in
which a hash map is visited or rows are listed, verdicts of validation and of credential checks.
A run is restricted only where a predicate named `Enabled` says so: ids drawn are unused, a device
opens no second stream while it has one, voice updates come from a connected device. The
theorems about rate limits are about calls whose times do not go back;
`Guardrails.ClockStepBackRefills` says what happens when they do.

## Where code and comments differ

The model follows the code.

- `crates/accord-server/src/auth/service.rs:70-86`: the limit is described as one on successful
  registrations and the function as recording the attempt. It records every attempt it admits, even
  one that fails later, and none that it refuses.
- `crates/accord-server/src/store/mod.rs:104`: a role is said to be created just above the default
  role, at the current maximum plus one. Only the second is so
  (`crates/accord-server/src/store/sqlite.rs:312-336`): it lands above every role there is, which is
  why `Roles.CreatedOutOfReach` holds.

## Model

| member | source | states |
|---|---|---|
| `EditDistance.DistanceIsShortestScript` | crates/accord-server/src/guardrails/names.rs:108-128 | For every two strings some script of exactly the computed number of single-character inserts, deletes and substitutions turns one into the other, and no script is shorter |
| `EditDistance.NoScriptBeats` | crates/accord-server/src/guardrails/names.rs:108-128 | Every script that turns one string into the other has at least as many edits as the table says |
| `EditDistance.ShortScript` | crates/accord-server/src/guardrails/names.rs:108-128 | A script with exactly the number in a table entry rewrites the first `i` characters into the first `j`, whatever text follows |
| `EditDistance.DistanceIsMetric` | crates/accord-server/src/guardrails/names.rs:108-128 | Zero exactly for equal strings, symmetric, triangle inequality, at most the longer length |
| `EditDistance.Levenshtein` | crates/accord-server/src/guardrails/names.rs:108-128 | The two-row loop, through both empty-string exits and the row swap after every character, returns that distance |
| `EditDistance.FillRow` | crates/accord-server/src/guardrails/names.rs:115-125 | One pass of the inner loop fills the lower row of the table from the upper one in place |
| `ChannelNames.SimilarityLaws` | crates/accord-server/src/guardrails/names.rs:98-105 | Similarity is symmetric, lies in 0..1 and is 1 exactly for equal strings |
| `ChannelNames.NormalizeIdempotent` | crates/accord-server/src/guardrails/names.rs:51-57 | Normalising a normalised name changes nothing |
| `ChannelNames.NormalizeDecidesAlike` | crates/accord-server/src/guardrails/names.rs:51-57 | Two names normalise to the same text if and only if one is reached from the other by changing letter case, kind of whitespace, and outer or repeated whitespace |
| `ChannelNames.CountSimilarPermuted` | crates/accord-server/src/guardrails/names.rs:35-47 | The cluster count depends only on which recent names occur and how often, not on their order |
| `ChannelNames.AssessNameInvariant` | crates/accord-server/src/guardrails/names.rs:27-48 | Verdict and reason are the same for every spelling of the name, every reordering of the recent names and every spelling of each of them |
| `Guardrails.BurstBound` | crates/accord-server/src/guardrails/mod.rs:80-94 | In any run with non-decreasing times, the limited calls allowed on one (actor, action) key within any interval number at most capacity plus refill over its length |
| `Guardrails.KeysAreIndependent` | crates/accord-server/src/guardrails/mod.rs:227-279 | The answers to the calls on a key are, one by one, those of its own bucket at its own call times, whatever calls other keys make |
| `DeletionLimits.DeletionBound` | crates/accord-server/src/groups/service.rs:384-406 | In any run of the server whose limiter is asked at times that do not go back, the channels and categories a non-owner gets deleted within any interval number at most 3 plus one per 20 seconds of it |
| `DeletionLimits.StepDeletions` | crates/accord-server/src/groups/service.rs:681-699 | A non-owner's deletion of a channel or of a category goes ahead exactly when the limiter allows a call on the one bucket the two share |
| `DeletionLimits.RunBuckets` | crates/accord-server/src/groups/service.rs:71-113 | Over a run of the server the limiter's buckets are those left by the calls its handlers make of it |
| `Guardrails.RetryAdvice` | crates/accord-server/src/guardrails/mod.rs:176-188 | In any run with non-decreasing times, whatever other keys' calls fall in between: after a refusal advising `r` seconds every later call on the key up to `r - 1` seconds on is refused, and the first from `r` seconds on is allowed unless an earlier one was |
| `Guardrails.RefusedUntilDue` | crates/accord-server/src/guardrails/mod.rs:176-188 | With less than one token every call before the due time is refused and the first from then on is allowed |
| `Guardrails.RefusedCostsNothing` | crates/accord-server/src/guardrails/mod.rs:176-188 | A refused call leaves the due time where it was |
| `Guardrails.ClockStepBackRefills` | crates/accord-server/src/guardrails/mod.rs:177-179 | Why times must not go back: after an out-of-order call the same seconds refill again, and an emptied bucket lets the next call through if and only if the step back spans the missing token |
| `Guardrails.StepsBackBreakTheBound` | crates/accord-server/src/guardrails/mod.rs:176-188 | And the bound of a window fails: of seven calls within 20 seconds, two of them out of order, five are allowed where it is four |
| `Guardrails.TokenBucket.TryTake` | crates/accord-server/src/guardrails/mod.rs:176-188 | Updates tokens and last-use time to the level after refilling, less the token spent if there was a whole one, and answers the wait otherwise |
| `Guardrails.Limiter.CheckAt` | crates/accord-server/src/guardrails/mod.rs:227-279 | Assesses the name, spends a token of the caller's own bucket unless an exempt owner, touches no other bucket, and decides accordingly |
| `Registration.PrunedLogDecides` | crates/accord-server/src/auth/service.rs:72-86 | The pruned per-address log admits an attempt if and only if fewer than 5 attempts of the whole history were admitted from that address in the last hour |
| `Registration.SixSpanTheWindow` | crates/accord-server/src/auth/service.rs:72-86 | Any six consecutive admissions from one address span at least an hour |
| `Registration.LogIsHistory` | crates/accord-server/src/auth/service.rs:72-86 | At every later time the pruned log holds exactly the entries of the full history that still count |
| `Registration.RegLog.CheckRate` | crates/accord-server/src/auth/service.rs:72-86 | Prunes the caller's entries, admits and records when fewer than 5 are left, records nothing when refused, and leaves other addresses alone |
| `Directory.RankMeans` | crates/accord-server/src/authz.rs:53-58 | A non-owner's rank bounds the positions of all roles held and is one of them, or 0 when none is held |
| `Directory.All` | crates/accord-types/src/perms.rs:65-73 | The loop over the table yields every defined bit, and what it yields allows everything |
| `Roles.CoalitionCeiling` | crates/accord-server/src/roles/service.rs:63-242 | In any run of role operations by non-owners none of whom starts above a ceiling, nobody at or below it rises above it, everybody above it keeps exactly their rank, and every role at or above it keeps position, permissions and holders |
| `Roles.StepStaysCapped` | crates/accord-server/src/authz.rs:53-105 | Each single operation by such a caller keeps the invariant behind the ceiling |
| `Roles.AdminContained` | crates/accord-server/src/roles/service.rs:260-273 | Over any run whose callers all start without effective ADMINISTRATOR nobody gains it, through assigned roles, the default role or edits to roles already held |
| `Roles.CreatedOutOfReach` | crates/accord-server/src/roles/service.rs:63-93 | A created role lies above every existing one, so no non-owner, its creator included, can act on it, and nobody's rank changes |
| `Roles.ReorderSetsOrder` | crates/accord-server/src/roles/service.rs:155-193 | An accepted order of distinct roles gives them positions n down to 1 and leaves the rest of them and all unlisted roles as they were |
| `Roles.RoleService.ReorderRoles` | crates/accord-server/src/roles/service.rs:155-193 | The validation loop reports the first objection, and only then the positions are written one by one |
| `Membership.TierSafety` | crates/accord-server/src/auth/service.rs:165-288 | In every run from an unclaimed server there is at most one owner, never a guest and never banned; every guest has no permission at all and is in no public channel |
| `Membership.TierNeverChanges` | crates/accord-server/src/auth/service.rs:219-280 | No operation ever changes what tier an account has |
| `Membership.OwnerIsFirstLocal` | crates/accord-server/src/auth/service.rs:165-288 | An operation makes an owner if and only if it registers, from the hosting machine, the first account of all |
| `Membership.StepStaysSafe` | crates/accord-server/src/groups/service.rs:153-343 | Every operation of registration, login, groups and moderation keeps tier safety |
| `Membership.MembershipService.AddMembers` | crates/accord-server/src/groups/service.rs:278-319 | The loop adds one by one and stops at the first malformed id, guest or banned account; those before it stay |
| `Membership.MembershipService.RemoveMembers` | crates/accord-server/src/groups/service.rs:321-343 | The loop removes one by one; others need KICK_MEMBERS and a token each, and the first refusal stops it |
| `Membership.MembershipService.CreatePrivateGroup` | crates/accord-server/src/groups/service.rs:219-246 | Refuses an id in use, then adds the creator and every member listed up to the first malformed id |
| `Membership.MembershipService.LeaveAll` | crates/accord-server/src/groups/service.rs:556-561 | The loop of a ban takes the target out of every group and touches no other membership |
| `RefreshTokens.SingleUse` | crates/accord-server/src/auth/service.rs:382-412 | Each refresh token succeeds at most once in a run |
| `RefreshTokens.ChainKeepsIdentity` | crates/accord-server/src/auth/service.rs:382-412 | Every stored token names the user and device of the login that began its chain of replacements |
| `RefreshTokens.TokensMatchLogins` | crates/accord-server/src/auth/service.rs:122-127 | The tokens stored for a device number exactly the logins issued for it |
| `RefreshTokens.AuthService.RefreshToken` | crates/accord-server/src/auth/service.rs:382-412 | Unknown and expired tokens are refused; otherwise the successor is stored before the old one is deleted |
| `RefreshTokens.AuthService.IssueSession` | crates/accord-server/src/auth/service.rs:92-140 | Finds the install's device by name or makes one, and stores a token for it |
| `HubRuns.IndexesAgree` | crates/accord-server/src/messaging/hub.rs:309-373 | In every run each listed group of a device holds it with its current sender, no inner map is empty and the two device maps share keys; and if whoever registers anew lists at least what it listed, the tables hold nothing more |
| `HubRuns.DeliveryRightIffExact` | crates/accord-server/src/messaging/hub.rs:553-563 | Group messages are offered to exactly the current streams of connected devices that list the group, minus the excluded one, if and only if the tables hold nothing more |
| `HubRuns.RegisteringDeliversIffCovers` | crates/accord-server/src/messaging/hub.rs:309-325 | So registering a device leaves delivery right if and only if its new list covers every group it listed |
| `HubRuns.DeliveryReaches` | crates/accord-server/src/messaging/hub.rs:553-563 | After any such run a message is offered, once, to each of those streams and to no other |
| `HubRuns.StaleStreamStillReceives` | crates/accord-server/src/messaging/hub.rs:316-323 | Without that discipline it fails: after a second registration the first stream still receives |
| `Hub.RegisterExactIff` | crates/accord-server/src/messaging/hub.rs:309-325 | A registration leaves no stale subscription if and only if its list covers every group the device already listed |
| `Hub.Hub.Register` | crates/accord-server/src/messaging/hub.rs:309-325 | The loop enters the new sender under every group listed and in both device maps |
| `Hub.Hub.Deregister` | crates/accord-server/src/messaging/hub.rs:329-344 | The loop takes the device out of its groups and drops the inner maps left empty |
| `Hub.Hub.Unregister` | crates/accord-server/src/messaging/hub.rs:328-350 | Takes the device out of routing and rosters and tells each roster's group, with the device's last state |
| `Hub.Hub.Subscribe` | crates/accord-server/src/messaging/hub.rs:359-373 | A connected device is entered under the group with its current sender, listed once; any other is ignored |
| `Hub.Hub.DeliverToGroup` | crates/accord-server/src/messaging/hub.rs:553-563 | Every member but the excluded one is sent the message, in whatever order; a full or closed buffer loses it |
| `Hub.Hub.SendToDevice` | crates/accord-server/src/messaging/hub.rs:396-401 | Sends on the device's current stream if it has one |
| `Hub.Hub.VoiceJoin` | crates/accord-server/src/messaging/hub.rs:407-417 | Records the state and lists the whole roster, the newcomer included |
| `Hub.Hub.VoiceLeave` | crates/accord-server/src/messaging/hub.rs:430-438 | Removes the device and the roster left empty, and answers the last state |
| `Hub.Hub.VoiceDropDevice` | crates/accord-server/src/messaging/hub.rs:442-452 | Removes the device from every roster and lists exactly the groups it was in |
| `Messaging.MailRebuildsLive` | crates/accord-server/src/messaging/hub.rs:197-231 | A queued private message is drained as the very notification a connected device would have got |
| `Messaging.StepSound` | crates/accord-server/src/messaging/service.rs:69-135 | Every step keeps the indexes agreeing, the current stream the device's last one, and rosters free of disconnected devices |
| `Mailbox.ExactlyOnceInOrder` | crates/accord-server/src/messaging/service.rs:378-453 | Over any run through which a device remains a member's: what its streams carried followed by its mailbox is, in order and without repeats, what it had and then what other devices sent; what is left out equals what a buffer refused in number, so delivery is exactly once and in order if and only if nothing was refused |
| `Mailbox.SendAccounted` | crates/accord-server/src/messaging/service.rs:430-451 | A send from another device is the last thing a tracked device has got, or one more refused, and refused only if it is connected; the sending device gets nothing, and nothing already got is lost |
| `Mailbox.MailQueued` | crates/accord-server/src/messaging/service.rs:441-451 | A send adds to what is waiting for a device exactly when it is a member's, not the sender and not connected |
| `Mailbox.OpeningDrains` | crates/accord-server/src/messaging/service.rs:80-104 | Opening puts the rebuilt mailbox on the new stream in order, loses exactly what exceeds its 128 slots, and leaves the mailbox empty |
| `Mailbox.TrackingBegins` | crates/accord-server/src/messaging/service.rs:80-104 | The theorem's starting point is reached by opening a stream as a member and by a subscription with nothing waiting |
| `MessagingService.MessagingSvc.OpenStream` | crates/accord-server/src/messaging/service.rs:69-104 | Registers the stream and drains the mailbox item by item, skipping unknown kinds and unreadable payloads |
| `MessagingService.MessagingSvc.HandlePrivateMessage` | crates/accord-server/src/messaging/service.rs:378-453 | Refuses empty ciphertext and non-members; otherwise publishes to the others and queues for the absent |
| `MessagingService.MessagingSvc.MailAway` | crates/accord-server/src/messaging/service.rs:441-451 | The loop queues the item once for every member device that is away, the sender's aside |
| `MessagingService.MessagingSvc.HandleVoiceState` | crates/accord-server/src/messaging/service.rs:283-332 | Joins on first use, subscribes, records, publishes, and bursts the roster to a newcomer |
| `VoiceRoster.JoinedShowsRoster` | crates/accord-server/src/messaging/service.rs:283-332 | A device that joined a voice channel since its stream opened, and has not closed it, has heard on it exactly the hub's roster with current flags, whatever happened in between, unless the stream refused an event of the channel; its client, which keeps what it folded from earlier streams, shows the roster if and only if whoever was left over from those has been mentioned on this one |
| `StaleRoster.ClientShowsWhoLeft` | crates/accord-client/src/App.tsx:1270-1274 | A run in which it does not: a participant leaves while the client is disconnected and goes on being shown after it reconnects and joins |
| `VoiceRoster.LeftOverIff` | crates/accord-client/src/App.tsx:1270-1274 | Folding on from an earlier view gives what the later events alone give if and only if they mention everyone left over |
| `VoiceRoster.RosterConverges` | crates/accord-server/src/messaging/hub.rs:407-458 | Every rostered device is connected; what a connected device heard on its stream folds to the roster among the devices announced on it, hence to the whole roster if and only if everyone there was announced; without a subscription to nothing |
| `VoiceRoster.ClosedFaithful` | crates/accord-server/src/messaging/hub.rs:328-350 | A disconnect keeps every other device's view right |
| `VoiceRoster.JoinedFaithful` | crates/accord-server/src/messaging/service.rs:308-324 | A join keeps every device's view right and completes the newcomer's |
| `HistoryLog.ParseInvertsIffAllFit` | crates/accord-client/src-tauri/src/history.rs:58-84 | Reading concatenated frames gives back the records if and only if every payload is shorter than 2^32 bytes |
| `HistoryLog.TruncatedArchive` | crates/accord-client/src-tauri/src/history.rs:58-75 | A file cut anywhere reads as the longest run of whole records |
| `HistoryLog.ParseReframes` | crates/accord-client/src-tauri/src/history.rs:58-75 | On arbitrary bytes what is read re-frames to a prefix of the input, and what follows holds no whole record |
| `HistoryLog.ReadRecords` | crates/accord-client/src-tauri/src/history.rs:58-75 | The scanning loop reads exactly those records and never past the end |
| `HistoryLog.AppendKeepsEarlier` | crates/accord-client/src-tauri/src/history.rs:179-207 | Whatever bytes are appended, earlier records keep their place |
| `HistoryLog.AppendAddsIffIntact` | crates/accord-client/src-tauri/src/history.rs:179-207 | Appending adds exactly the record appended, whichever it is, if and only if the file has no torn record at its end |
| `HistoryLog.BothAddIffIntact` | crates/accord-client/src-tauri/src/history.rs:179-207 | Any two different records tell: both would be added exactly if and only if the file is intact, so after a torn write at most one record of all is ever read back |
| `HistoryLog.AddsCleanlyIffIntact` | crates/accord-client/src-tauri/src/history.rs:179-207 | One record is added and leaves the file intact if and only if it was intact |
| `HistoryLog.TornArchiveLoadsNeither` | crates/accord-client/src-tauri/src/history.rs:179-207 | The failing archive: a write cut inside its payload and a shorter message recorded after it, and neither loads |
| `HistoryLog.TailIdsAreStable` | crates/accord-client/src-tauri/src/history.rs:134-150 | An id shown before an append names the same record in every later tail that shows it |
| `HistoryLog.RecordedLoads` | crates/accord-client/src-tauri/src/history.rs:98-119 | Recording a message in an intact archive adds it at the end of what loads, sealed or not |
| `HistoryLog.RecordedIffIntact` | crates/accord-client/src-tauri/src/history.rs:98-119 | Of any two different messages, sealed or not, both would be read back as recorded if and only if the archive is intact |
| `HistoryLog.RestoreRoundTrip` | crates/accord-client/src-tauri/src/history.rs:162-233 | An archive written from the plaintext lines of another loads the same messages in the same order |
| `HistoryLog.WritePlaintext` | crates/accord-client/src-tauri/src/history.rs:162-175 | Nothing for an empty archive, otherwise one JSON line a message |
| `HistoryLog.WriteFromJsonl` | crates/accord-client/src-tauri/src/history.rs:211-233 | The loop archives each readable line and passes over blank and unreadable ones |
| `VaultSync.VaultAgreement` | crates/accord-client/src-tauri/src/sync.rs:39-92 | Under any interleaving of appends, marks, takes, reads and uploads, once nothing is dirty or under way the vault copy of each marked non-empty archive is its whole plaintext, and restoring it gives the same messages in order |
| `VaultSync.QuietIsUploaded` | crates/accord-client/src-tauri/src/sync.rs:71-92 | The same for any function from archive to upload |
| `VaultSync.OneFlusher` | crates/accord-client/src-tauri/src/sync.rs:51-68 | However often it is asked for, there is never more than one flusher |
| `VaultSync.TwoFlushersLag` | crates/accord-client/src-tauri/src/sync.rs:51-68 | Why that matters: from nothing, with two flushers spawned, a run ends with nothing dirty or under way and the vault behind the archive |
| `VaultSync.Sync.MarkGroup` | crates/accord-client/src-tauri/src/sync.rs:39-48 | Adds the one mark |
| `VaultSync.Sync.ClaimFlusher` | crates/accord-client/src-tauri/src/sync.rs:51-60 | Exactly the first caller is told to spawn the flusher |
| `VaultSync.Sync.Flush` | crates/accord-client/src-tauri/src/sync.rs:71-92 | Clears the marks and uploads every marked archive that has something to upload, as it is when read, and nothing else |
| `EmbeddedHost.AtMostOneServer` | crates/accord-client/src-tauri/src/hosting.rs:90-133 | Under every interleaving of starts, failures and stops at most one spawned server is neither aborted nor told to shut down, and a start is never under way beside a recorded address |
| `EmbeddedHost.StopReachesEveryServer` | crates/accord-client/src-tauri/src/hosting.rs:266-286 | With no start under way a stop leaves no server untold |
| `EmbeddedHost.NeverStuck` | crates/accord-client/src-tauri/src/hosting.rs:90-133 | The flag is never left set once every start has committed or failed |
| `EmbeddedHost.StepKeepsInv` | crates/accord-client/src-tauri/src/hosting.rs:146-235 | Each step, the failure path that aborts a silent server included, keeps the invariant behind these |

## Left out

- Floating point: ratios, tokens and times are exact reals, so rounding is not captured.
- `ChannelNames.NormalizeIdempotent`: ASCII only; the source lowercases and splits Unicode text, with rules that look at more than one character.
- `ChannelNames.NormalizeDecidesAlike`: ASCII case and whitespace only, for the same reason.
- `ChannelNames.AssessNameInvariant`: ASCII variations only, for the same reason.
- `looks_random` counts distinct letters as the size of a set, where the source sorts and removes duplicates in a local vector; the count is the same, the vector is not modelled.
- Permissions are sets of bit numbers, not a 64-bit word; escalation is guarded, and so claimed, for ADMINISTRATOR only.
- Role positions and the number of roles are unbounded integers; the 32-bit cast of a very long reorder list is not captured.
- `remove_members` checks KICK_MEMBERS but no rank (`crates/accord-server/src/groups/service.rs:335-339`); the model does the same, and no rank protection is claimed of it.
- Handlers of one server instance are single steps. Awaits inside a handler can interleave in the source, among them the live publish and the presence check after it (`crates/accord-server/src/messaging/service.rs:430-444`) and two registrations that both see an empty server.
- The Redis transport and delivery across instances: the mailbox and the voice rosters exist on one instance only.
- The store: rows are maps and sets with the effect of the statements in `crates/accord-server/src/store/sqlite.rs`; database errors and transactions are not modelled. A drained mailbox is taken to come back in the order it was filled, which `DELETE ... RETURNING` (lines 1410-1426) does not promise.
- A private message sent again under the same client id is another send here, as it is to the hub; the stored row it is merged into is not modelled.
- Names, display names and avatars of voice participants, and the text of errors, alerts and audit entries.
- `Membership.MembershipService.CreatePrivateGroup`: the Welcomes and subscriptions that follow are steps of `Messaging`, not of this method.
- `Membership.TierSafety`: passwords, keys, invites and uniqueness of names come in as verdicts, each where the source takes it.
- Where channels are filed: deleting a category also unfiles its channels.
- The audit entries and alerts of the rate limiter, and the hub subscription of a channel's creator at its creation.
- Already issued access tokens: a ban or a revoked device does not cut them off in the source, and nothing here says it does.
- `VaultSync.VaultAgreement`: uploads succeed and carry the group archives; the MLS snapshot, failed uploads and encryption to the vault are left out.
- `HistoryLog.RecordedIffIntact`: about records read back, not messages: a decoder may happen to read a message out of swallowed bytes, and nothing assumed of JSON or of sealing forbids it.
- `VoiceRoster.JoinedShowsRoster`: one client process and one server; the filter that drops events of servers not shown (`crates/accord-client/src/App.tsx:1269`) is not modelled.
- `HistoryLog.RestoreRoundTrip`: JSON encoding is a parameter that inverts and contains no newline, and sealing one that opens to what was sealed.
- `EmbeddedHost.AtMostOneServer`: the address, host, port, privacy flag and certificate are set and cleared together and stand as one field.
- Categories, channel order, invites, friend requests, backups, history fetches and profiles: simple stores.
- MLS, cryptography, access tokens, TLS, the mesh, the user interface.
