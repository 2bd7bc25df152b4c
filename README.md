# ServerComm core, modelled in Dafny

This project models the sequential logic at the centre of the ServerComm back end.
ServerComm schedules announcements to Discord communities and serves guild, member and
user data. The database, the job queue, Discord and the other network services appear
only as maps and as function parameters.

The model covers six areas, one Dafny module each:

- **`Announcements`** (`announcements.dfy`) has three parts:
  - **Scheduling.** The announcement store and the delayed-job queue are two maps in the class `Scheduler`. The model covers creating a draft, creating a scheduled announcement, rescheduling, removing the job, adding a job, deletion and `onDestroyAnnouncement`. The invariant `WellFormed` says that an announcement's `jobId` names a queued job for it, and that every queued job belongs to an announcement that names it. Creating, rescheduling, removing or adding a job, and deleting (which removes the record together with its job) preserve it. `onDestroyAnnouncement` on its own only dequeues a job and is not claimed to preserve it: called with the job id of an announcement that stays stored, it leaves that announcement naming a job that is gone. Each transition is a function on `State`, and the class's methods are proved equal to these functions.
  - **Public dispatch.** The classifier `generateAnnouncementType`, and the sagas a fired job starts for each target.
  - **Private fan-out.** For each target, the recipients are collected into an insertion-ordered set and one message is composed per recipient.
- **`ChannelSort`** (`channel_sort.dfy`): `sortChannels` groups channels under their root category channels and puts childless roots in a trailing "unCategorized" bucket. `sortByHandler` parses `field:order,…` into an object from fields to ±1, modelled as its sequence of properties, because the key order of that object is the precedence of the MongoDB `$sort`.
- **`GuildMembers`** (`guild_members.dfy`) covers the member query:
  - limit and page defaults, the sort, and the `$match` filter, built as a datatype;
  - skip and limit, `totalPages`, and the fallback result when a query throws;
  - the display names `getNgu` and `getUsername`.

  As written, a non-empty `ngu` assigns its own `$or` (src/services/guildMember.service.ts:64) over the `$or` the activity filter set (line 57). So when both an activity list containing `others` and a name search are given, the activity condition on `$or` is dropped. The model keeps this behaviour (`GuildMembers.BuildMatchStageShape`).
- **`Guilds`** (`guilds.dfy`): the selected-channel listing, the status code of the bot-connection callback (701/702/491), and soft or hard disconnection. These operate on the guild collection in the class `GuildTable`.
- **`Users`** (`users.dfy`): the user table in the class `UserTable`:
  - `createUser` and `getUserByDiscordId`;
  - `updateUserByDiscordId`, with its "User not found" and "Email already taken" guards and the merge of the update into the user.
- **`OAuth`** (`oauth.dfy`) covers:
  - base64 as in section 4 of RFC 4648;
  - `base64UrlEncode` exactly as written, which replaces only the first `+` and the first `/`;
  - the corrected encoder, proved equal to unpadded base64url as in section 5 of RFC 4648, the form the S256 code challenge of section 4.2 of RFC 7636 requires;
  - the Discord and Twitter authorize-URL builders.

The string operations of JavaScript used above are in `Text` (`text.dfy`): `split`, `join`, `replace` with a string pattern, which replaces the first occurrence only, stripping a trailing run, and decimal printing. `Option` and `Result` are in `Wrappers` (`wrappers.dfy`).

JavaScript truthiness is written out:
- An array is truthy even when empty. So `channelIds: []` still makes a target public, and `userIds: []` still gives it a private audience.
- A string counts only when non-empty. This applies to `ngu`, `sortBy`, `nickname`, `globalName`, `email`, `guildId`, `code` and the safety channel id.

## Model

| member | source | states |
|---|---|---|
| Announcements.CreateDraft | src/services/announcement.service.ts:12-16 | fails with the "draft set to false" error exactly when `draft` is `false`; otherwise the announcement is stored under a new id with no job and the queue is untouched; the invariant is preserved |
| Announcements.Scheduler.CreateDraftAnnouncement | src/services/announcement.service.ts:12-16 | the store changes as `CreateDraft` says, and on failure nothing changes |
| Announcements.CreateScheduled | src/services/announcement.service.ts:19-33 | the announcement is stored with the id of a job newly added to the queue; that job carries the announcement id and `scheduledAt`; neither id was in use before; the invariant is preserved |
| Announcements.Scheduler.CreateScheduledAnnouncement | src/services/announcement.service.ts:22-30 | the final state is `CreateScheduled` of the initial one (the body saves, enqueues and records the job id in the source's order; the contract states only the final state) |
| Announcements.Reschedule | src/services/announcement.service.ts:46-54 | the old job, if any, leaves the queue; a new job at `updatedData.scheduledAt`, or else the old `scheduledAt`, joins it; other jobs are kept; the announcement takes the patch and the new job id; the invariant (at most one live job per announcement) is preserved |
| Announcements.Scheduler.UpdateAndRescheduleAnnouncement | src/services/announcement.service.ts:46-54 | the final state is `Reschedule` of the initial one (the body dequeues the old job before enqueuing the new one; the contract states only the final state) |
| Announcements.RemoveJob | src/services/announcement.service.ts:70-75 | fails with "Job associated with the announcement not found" exactly when there is no `jobId`; otherwise the patch is applied, `jobId` becomes null and the old job (which was queued) leaves the queue; the invariant is preserved |
| Announcements.Scheduler.UpdateAnnouncementAndRemoveJob | src/services/announcement.service.ts:70-75 | the outcome is `RemoveJob`, and an error changes nothing |
| Announcements.AddJob | src/services/announcement.service.ts:91-97 | fails with "Job associated with the announcement already exists" exactly when a `jobId` is present; otherwise a new job at the new or old time is queued and its id is stored; the invariant is preserved |
| Announcements.Scheduler.UpdateAnnouncementAndAddJob | src/services/announcement.service.ts:91-97 | the outcome is `AddJob`, and an error changes nothing |
| Announcements.RemoveThenAddJob | src/services/announcement.service.ts:66-107 | removing the job and then adding one both succeed and leave exactly one queued job for the announcement |
| Announcements.AtMostOneJob | src/services/announcement.service.ts:46-54 | under the invariant, two queued jobs for the same announcement are the same job |
| Announcements.JobIdIffQueued | src/services/announcement.service.ts:70-72 | under the invariant, an announcement has a `jobId` exactly when a queued job triggers it |
| Announcements.Destroy | src/services/announcement.service.ts:137-140 | the queue is unchanged without a job id; with one, exactly that job leaves the queue |
| Announcements.Scheduler.OnDestroyAnnouncement | src/services/announcement.service.ts:137-140 | it removes the job only when given a job id; the store is untouched |
| Announcements.Delete | src/services/announcement.service.ts:130-135 | a missing id changes nothing and returns null; otherwise the announcement is removed and returned, and its job leaves the queue; afterwards no job refers to it, and the invariant is preserved |
| Announcements.Scheduler.DeleteAnnouncementById | src/services/announcement.service.ts:130-135 | the outcome is `Delete` |
| Announcements.Apply | src/services/announcement.service.ts:54 | in `{...updatedData, jobId}`, each field the patch sets replaces the stored one, the others stay, and `jobId` is replaced |
| Announcements.GenerateAnnouncementType | src/services/announcement.service.ts:183-198 | `discord_public` exactly when `channelIds` is present, even alongside users or roles; `discord_private` exactly when it is absent and `userIds` or `roleIds` is present; `unknown` otherwise |
| Announcements.TargetSagasByType | src/services/announcement.service.ts:213-230 | a target starts a channel saga with its channels and template exactly when it is classified public, and the fixed in-channel safety text to its safety channel exactly when it names one |
| Announcements.TargetSagas | src/services/announcement.service.ts:214-229 | definition; at most two sagas per target, each carrying the fired announcement's id; see `TargetSagasByType` |
| Announcements.DispatchPlan | src/services/announcement.service.ts:213-230 | definition; at most two sagas per target; see `DispatchPlanAppend` and `DispatchPlanFromTargets` |
| Announcements.DispatchPlanAppend | src/services/announcement.service.ts:213-230 | targets are dispatched in order: the sagas for `p + q` are those for `p` followed by those for `q` |
| Announcements.DispatchPlanSingle | src/services/announcement.service.ts:213-230 | one target starts exactly its own sagas; with `DispatchPlanAppend`, each target's sagas appear in the plan in target order |
| Announcements.DispatchPlanFromTargets | src/services/announcement.service.ts:211-230 | every saga started carries the fired announcement's id and comes from one of its targets |
| Announcements.Scheduler.BullMQTriggeredAnnouncement | src/services/announcement.service.ts:200-233 | for a missing announcement no saga is started; otherwise the sagas are those of its targets, in target order |
| Announcements.SafetyLink | src/services/announcement.service.ts:281 | the link starts with `https://discord.com/channels/`; its ids are given by `SafetyLinkSplits` |
| Announcements.SafetyLinkSplits | src/services/announcement.service.ts:281 | for ids without `/`, the rest of the link after the prefix splits at `/` into exactly the guild, channel and message ids, in that order |
| Announcements.ComposeMessage | src/services/announcement.service.ts:280-289 | a message is the template rendered with `username` = `<@id>`, then a newline, then the safety notice; the `discord.com/channels/{guild}/{channel}/{message}` link sits right after the notice's fixed text |
| Announcements.Recipients | src/services/announcement.service.ts:258-277 | definition; never holds an id twice; see `RecipientsAreUnion` |
| Announcements.PrivatePlan | src/services/announcement.service.ts:244-292 | definition; empty when no target names users, roles or categories; see `PrivatePlanEntries` |
| Announcements.AddAll | src/services/announcement.service.ts:259-277 | adding ids to an insertion-ordered set keeps what was there as a prefix, holds exactly the old and the added ids, and never creates a duplicate |
| Announcements.RecipientsAreUnion | src/services/announcement.service.ts:258-277 | a target's recipients are free of duplicates and are exactly the union of its users, its role members and its engagement-category members |
| Announcements.TargetDeliveries | src/services/announcement.service.ts:280-292 | one entry per recipient, in set order, each holding that recipient's composed message |
| Announcements.UnknownTargetStillFannedOut | src/services/announcement.service.ts:183-198 | a target with only engagement categories is classified `unknown` and is still messaged privately |
| Announcements.PrivatePlanEntries | src/services/announcement.service.ts:244-292 | every entry is the composed message for a recipient of a target that has a private audience |
| Announcements.Scheduler.SendPrivateMessageToUser | src/services/announcement.service.ts:235-299 | `saga.data.info` is replaced by the entries of all targets with users, roles or categories, in target order, and the rest of the saga data is kept |
| Announcements.Scheduler.AddEach | src/services/announcement.service.ts:261-276 | the loop of `Set.add` calls computes `AddAll` |
| Announcements.Scheduler.GatherRecipients | src/services/announcement.service.ts:258-277 | users, then role members, then category members, gathered into the recipient set |
| Announcements.Scheduler.ComposeAll | src/services/announcement.service.ts:280-292 | the loop over the recipient set yields `TargetDeliveries` |
| Announcements.Scheduler.TargetEntries | src/services/announcement.service.ts:254-293 | a target without users, roles or categories adds no entry; otherwise one per recipient |
| ChannelSort.ChildrenOf | src/utils/sort.ts:19 | the children are exactly the channels whose `parent_id` is the given id; order and multiplicity are given by `ChildrenOfAppend` and `ChildrenOfSingle` |
| ChannelSort.ChildrenOfAppend | src/utils/sort.ts:19 | `filter` keeps input order and every occurrence: filtering `p + q` gives the children in `p`, then those in `q` |
| ChannelSort.ChildrenOfSingle | src/utils/sort.ts:19 | a single channel is kept exactly when its `parent_id` is the id |
| ChannelSort.Grouped | src/utils/sort.ts:17-25 | definition; never more categories than channels, none empty; see `GroupedAreRootsWithChildren` |
| ChannelSort.Ungrouped | src/utils/sort.ts:26-27 | definition; every bucketed channel is its own parent; see `UngroupedAreChildlessRoots` |
| ChannelSort.SortedChannels | src/utils/sort.ts:9-37 | definition; no output category has an empty `subChannels`; see `BucketLast` |
| ChannelSort.SortChannels | src/utils/sort.ts:9-37 | the loop yields the categories in input order, followed by the bucket |
| ChannelSort.GroupedAreRootsWithChildren | src/utils/sort.ts:17-25 | each category is a root channel (`parent_id === null`) with at least one child, titled by its name or `""`, whose subChannels are exactly its children in input order; every root with a child is a category |
| ChannelSort.UngroupedAreChildlessRoots | src/utils/sort.ts:26-27 | the bucket holds exactly the childless roots, each with `parent_id` rewritten to its own id |
| ChannelSort.BucketLast | src/utils/sort.ts:11-15 | the bucket (id "0", title "unCategorized") comes last and is present exactly when some root has no child |
| ChannelSort.GroupedAppend | src/utils/sort.ts:17-30 | categories follow the input order of their roots |
| ChannelSort.OrphanDropped | src/utils/sort.ts:17-19 | a non-root channel whose parent is not a root of the input appears in no category |
| ChannelSort.Direction | src/utils/sort.ts:42-43 | the direction is always 1 or -1 |
| ChannelSort.Keys | src/utils/sort.ts:40 | the keys of an object, one per property, in property order |
| ChannelSort.Overwrite | src/utils/sort.ts:43 | the properties with the key take the value in place; all others are unchanged |
| ChannelSort.AssignSpec | src/utils/sort.ts:43 | `acc[field] = value` gives the field that value and keeps every other value; it moves no key, and adds a new key last |
| ChannelSort.FieldList | src/utils/sort.ts:41-42 | the field of each segment, in segment order |
| ChannelSort.FirstOccurrences | src/utils/sort.ts:41-45 | every distinct string once, with the same members as the input |
| ChannelSort.SortParams | src/utils/sort.ts:41-45 | definition of the `reduce`; see `SortParamsKeys`, `SortParamsValues` and `SortParamsSigns` |
| ChannelSort.SortByHandler | src/utils/sort.ts:39-47 | definition; see `SortByHandlerSpec` |
| ChannelSort.SortParamsKeys | src/utils/sort.ts:41-45 | the keys are the distinct fields in the order they are first named |
| ChannelSort.SortParamsValues | src/utils/sort.ts:41-45 | each key is a named field, and its value is the direction of the last segment naming it |
| ChannelSort.SortParamsSigns | src/utils/sort.ts:43 | every stored value is 1 or -1 |
| ChannelSort.FieldListNames | src/utils/sort.ts:41-42 | the field list names exactly the fields of the segments |
| ChannelSort.SortByHandlerSpec | src/utils/sort.ts:39-47 | one property per distinct field, with no key twice, in the order the fields are first named (the `$sort` precedence); each value is the direction of the last segment naming the field |
| ChannelSort.SortByHandlerOrder | src/utils/sort.ts:39-47 | `"a:desc,b"` gives `{a: -1, b: 1}` and `"b,a:desc"` gives `{b: 1, a: -1}`: the order of the segments decides the precedence |
| ChannelSort.LastDirectionCons | src/utils/sort.ts:41-45 | a leading segment matters only when no later segment names its field |
| ChannelSort.DirectionOfSegment | src/utils/sort.ts:42-43 | `field:order` sorts on `field`, descending exactly when `order` is `desc`; a segment without `:` sorts ascending |
| ChannelSort.SortByHandlerTwo | src/utils/sort.ts:41-45 | for two segments, a second segment naming the same field overrides the direction in place; otherwise the second field comes after the first |
| GuildMembers.GetUsername | src/services/guildMember.service.ts:151-154 | the bare username when the discriminator is "0", otherwise `username#discriminator` |
| GuildMembers.GetUsernameSplits | src/services/guildMember.service.ts:151-154 | for `#`-free names, splitting the displayed name at `#` gives back the username and, unless it is "0", the discriminator |
| GuildMembers.GetNgu | src/services/guildMember.service.ts:136-144 | the nickname if non-empty, else the global name if non-empty, else `getUsername` |
| GuildMembers.Limit | src/services/guildMember.service.ts:30 | the parsed limit if positive, otherwise 10; never 0 |
| GuildMembers.Page | src/services/guildMember.service.ts:31 | the parsed page if positive, otherwise 1; never 0 |
| GuildMembers.SortParams | src/services/guildMember.service.ts:32 | `{username: 1}` without a non-empty `sortBy`; otherwise the keys are the distinct fields in first-named order (the `$sort` precedence at line 86), each with the direction of its last segment; every value is 1 or -1 |
| GuildMembers.LastDirectionIsSign | src/utils/sort.ts:43 | every field's last direction is 1 or -1 |
| GuildMembers.WithoutOthers | src/services/guildMember.service.ts:45-46 | exactly the activities other than `others` |
| GuildMembers.ActivityIds | src/services/guildMember.service.ts:46-47 | the flat-mapped ids are exactly those recorded for one of the activities |
| GuildMembers.ActivityStage | src/services/guildMember.service.ts:40-62 | definition; an absent or empty composition adds nothing, and the step never sets roles or a date; see `ActivityStageShape` |
| GuildMembers.BuildMatchStage | src/services/guildMember.service.ts:40-77 | the `discordId` condition is the activity step's; `roles` is set exactly for a non-empty role list; the date cap is the latest activity date; see `BuildMatchStageShape` |
| GuildMembers.ActivityStageShape | src/services/guildMember.service.ts:40-61 | `others` alone excludes (`$nin`) the ids of all other activity types; specific activities alone include (`$in`) theirs; both together give the `$or` of the two |
| GuildMembers.ActivityStageIds | src/services/guildMember.service.ts:43-55 | an excluded id belongs to an activity type other than `others`; an included id belongs to a requested activity other than `others` |
| GuildMembers.BuildMatchStageShape | src/services/guildMember.service.ts:63-77 | a name search replaces any `$or` of the activity step and keeps its `discordId` condition; `roles` is added exactly when the list is non-empty; `joinedAt` is capped at the latest activity date exactly when there is one |
| GuildMembers.TotalPages | src/services/guildMember.service.ts:109 | the ceiling: `pages * limit >= total` and `(pages - 1) * limit < total` when there are pages |
| GuildMembers.PageOf | src/services/guildMember.service.ts:88-93 | at most `limit` rows, taken consecutively starting `limit * (page - 1)` rows in, or none when that is past the end |
| GuildMembers.QueryGuildMembers | src/services/guildMember.service.ts:26-128 | when a query throws, the result is `{[], 10, 1, 0, 0}`; otherwise limit, page, the total count, `totalPages` as the ceiling, and the page of sorted matching members |
| GuildMembers.PagesCoverRows | src/services/guildMember.service.ts:88-109 | member `i` is on page `i / limit + 1` at position `i % limit`, and that page is within `totalPages` |
| Guilds.SelectedOf | src/controllers/guild.controller.ts:73 | exactly the subChannels whose id is among the selected channels; order and multiplicity are given by `SelectedOfAppend` and `SelectedOfSingle` |
| Guilds.SelectedOfAppend | src/controllers/guild.controller.ts:73 | `filter` keeps input order and every occurrence: selecting from `p + q` gives the selection from `p`, then from `q` |
| Guilds.SelectedOfSingle | src/controllers/guild.controller.ts:73 | a single channel is kept exactly when it is selected |
| Guilds.Trimmed | src/controllers/guild.controller.ts:76-81 | the mapped category keeps its id and title, and its subChannels are exactly its selected ones |
| Guilds.SelectCategories | src/controllers/guild.controller.ts:71-82 | never more categories than given, and no kept category is empty |
| Guilds.SelectCategoriesMembers | src/controllers/guild.controller.ts:71-82 | the result holds exactly the categories with a selected subChannel, each trimmed to its selected subChannels and keeping its id and title |
| Guilds.SelectCategoriesAppend | src/controllers/guild.controller.ts:71-82 | surviving categories keep their order |
| Guilds.SelectedChannelsExact | src/controllers/guild.controller.ts:71-82 | a selected channel of any category is kept, inside that category's trimmed version |
| Guilds.GuildTable.GetSelectedChannels | src/controllers/guild.controller.ts:62-88 | error 440 exactly when the caller does not own the guild; `[]` when `selectedChannels` is missing or empty; otherwise the sorted channels filtered to the selection |
| Guilds.ConnectOutcome | src/controllers/guild.controller.ts:97-132 | the status is always 491, 701 or 702; it is 491 (and nothing changes) exactly for a missing code, a failed exchange, an unknown user, or a user who owns another connected guild; 702 exactly when the guild exists; only that guild may change |
| Guilds.ConnectOwnership | src/controllers/guild.controller.ts:111-120 | 701 creates the guild connected and owned by the caller; 702 reconnects it when the caller owns it and leaves another owner's guild untouched; the redirect names the guild |
| Guilds.ConnectKeepsOneConnectedPerUser | src/controllers/guild.controller.ts:108-119 | no user ever gets a second connected guild |
| Guilds.GuildTable.ConnectGuildCallback | src/controllers/guild.controller.ts:97-132 | the redirect and the new collection are `ConnectOutcome` |
| Guilds.DisconnectOutcome | src/controllers/guild.controller.ts:134-142 | `soft` marks the caller's guild disconnected; `hard` deletes it; anything else, or another owner's guild, changes nothing; other guilds are kept |
| Guilds.DisconnectKeepsInvariants | src/controllers/guild.controller.ts:134-142 | disconnecting keeps each guild under its own id and at most one connected guild per user |
| Guilds.GuildTable.DisconnectGuild | src/controllers/guild.controller.ts:134-142 | always replies 204, and the collection becomes `DisconnectOutcome` |
| Users.Merge | src/services/user.service.ts:119 | `Object.assign`: the update's email (when present, even empty) and fields overwrite; the other fields and the Discord id stay |
| Users.UpdateUser | src/services/user.service.ts:111-122 | NOT_FOUND exactly for an unknown id; "Email already taken" exactly when a non-empty email is held by another user; otherwise only that user changes, merged with the update |
| Users.UpdateKeepsInvariants | src/services/user.service.ts:116-120 | a successful update keeps users under their own ids and keeps non-empty emails unique |
| Users.UpdateOwnEmail | src/services/user.service.ts:116 | re-submitting a user's own email succeeds |
| Users.Status | src/services/user.service.ts:114-117 | NOT_FOUND is 404 and BAD_REQUEST is 400 |
| Users.InsertUser | src/services/user.service.ts:18-23 | the profile is stored under `discordId = data.id` |
| Users.CreateUserKeepsInvariants | src/services/user.service.ts:18-23 | a new user whose email nobody holds keeps the invariants and can be found again under its id |
| Users.UserTable.GetUserByDiscordId | src/services/user.service.ts:76-79 | the stored user for that id, or null |
| Users.UserTable.CreateUser | src/services/user.service.ts:18-23 | the outcome is `InsertUser`; users stay keyed by id; emails stay unique when they were and the new email is free |
| Users.UserTable.UpdateUserByDiscordId | src/services/user.service.ts:111-122 | the outcome is `UpdateUser`; an error changes nothing; users stay keyed by id; emails stay unique when they were unique before |
| OAuth.Encode | src/config/oAtuh2.ts:19 | padded base64 is four characters per started group of three bytes |
| OAuth.Base64UrlEncode | src/config/oAtuh2.ts:18-20 | the output never ends with `=` and only a trailing run of `=` was cut; at each position, only the first `+` became `-` and only the first `/` became `_` |
| OAuth.FirstOnlyRewriteAgrees | src/config/oAtuh2.ts:19 | the two chained single replacements rewrite exactly the first `+` and the first `/` |
| OAuth.Base64UrlEncodeAgreesWhenFew | src/config/oAtuh2.ts:19 | with at most one `+` and one `/` in the standard encoding, the result is unpadded base64url (section 5 of RFC 4648) |
| OAuth.Base64UrlEncodeKeepsLaterPlus | src/config/oAtuh2.ts:19 | the bytes FB EF BE encode to `"-+++"`, whereas base64url gives `"----"` |
| OAuth.Base64UrlEncodeCorrected | src/config/oAtuh2.ts:18-20 | replacing every `+` and `/` gives exactly unpadded base64url |
| OAuth.EncodeUrlTranslates | src/config/oAtuh2.ts:19 | the base64url encoding (section 5 of RFC 4648) is the base64 encoding (section 4 of RFC 4648) with every `+` → `-` and `/` → `_` |
| OAuth.DiscordRequiredUrl | src/config/oAtuh2.ts:59-60 | starts with `https://discord.com/api/oauth2/authorize?client_id=` |
| OAuth.DiscordAuthUrl | src/config/oAtuh2.ts:51-64 | extends the URL built from the required parameters |
| OAuth.DiscordAuthUrlParams | src/config/oAtuh2.ts:60 | the URL contains the client id, the encoded `redirect_uri`, `response_type=code` with the encoded `scope`, the `permissions` in decimal, and the `state` |
| OAuth.DiscordAuthUrlOptionalParams | src/config/oAtuh2.ts:61-62 | `&guild_id=` + the guild id follows the required part exactly when a guild id is given; `&disable_guild_select=true` ends the URL when the flag is set; the length shows nothing else is added |
| OAuth.DiscordAuthUrlDefaults | src/config/oAtuh2.ts:56-57 | with both optional arguments left out, guild selection is disabled |
| OAuth.TwitterAuthUrl | src/config/oAtuh2.ts:71-74 | starts with the authorize URL, `response_type=code` and the client id; always ends with `&code_challenge=<challenge>&code_challenge_method=S256` after the state |
| Text.Split | src/utils/sort.ts:41-42 | at least one part; no part contains the separator; one more part than separators |
| Text.JoinSplit | src/utils/sort.ts:41-42 | joining the parts again gives back the string |
| Text.SplitJoin | src/utils/sort.ts:41-42 | splitting joined separator-free parts gives back the parts |
| Text.ReplaceFirst | src/config/oAtuh2.ts:19 | `replace` with a string pattern changes only the first occurrence |
| Text.ReplaceFirstAt | src/config/oAtuh2.ts:19 | position by position, only the first occurrence is replaced and every later one stays |
| Text.StripTrailing | src/config/oAtuh2.ts:19 | `/=+$/` removes exactly the trailing run |
| Text.NatToDecimal | src/config/oAtuh2.ts:60 | the interpolated number is the decimal digits denoting it, with no leading zero except for 0 itself |

## Left out

- **External systems.**
  - Database sessions and transactions, BullMQ, the Discord and Twitter HTTP APIs, and the discord.js client are not modelled as systems. The collections are maps. The calls that fetch or resolve are function parameters: code exchange, the user behind a token, role and engagement-category members, the member database query, and the Handlebars rendering.
  - Configuration values (client ids, callback URIs, the frontend URL) are parameters or are left out.
- **Queue failures.** The queue operations cannot fail in the model, and no rollback is claimed. In the source, aborting a database transaction would not undo a queue change, and a failed queue call leaves the store as the transaction left it.
- **`Announcements.Scheduler.UpdateAndRescheduleAnnouncement`, `UpdateAnnouncementAndRemoveJob` and `UpdateAnnouncementAndAddJob`.** These require that the id is in the store, because the caller passes the stored announcement as `oldAnnouncement`. A call for a missing id is not modelled; there the source would queue a job for an announcement that does not exist.
- **Rescheduling always replaces the job**, even when the patch sets no new time. This follows the code.
- **Announcements.Scheduler.OnDestroyAnnouncement** and `Announcements.Destroy` only dequeue the given job and do not promise `WellFormed`. Called alone, with the job id of an announcement that stays stored, they leave that announcement naming a job that is no longer queued. Only `Delete`, which removes the record as well, is proved to keep the invariant.
- **ChannelSort.SortByHandler** keeps every key in insertion order. A JavaScript object lists integer-like keys (such as `"0"` or `"12"`) first, in ascending numeric order, and that is not modelled. Field names are not integer-like in practice.
- **Deletion and the queue.** `deleteAnnouncementById` calls the database's `remove()`, and the model assumes that the removal hook runs `onDestroyAnnouncement` with the announcement's job id. `DeleteAnnouncementById` does that call itself; the hook's wiring is not part of this model.
- **Unawaited `forEach(async …)`.** In the source, these loops let `saga.save` run before the per-target callbacks finish. The model processes targets one after the other. The `mongoose.connect` call, saga creation, `saga.save`, `saga.next`, job logging and console output are left out. The platform and tenant-connection lookups are folded into the `roleMembers` and `categoryMembers` parameters.
- **`enhanceAnnouncementDataOption`, `queryAnnouncements`, `getAnnouncementById` and `findOneAnnouncementAndUpdate`** are thin store lookups and are not modelled.
- **Member query.** The filter is built but not evaluated: `$regex`, `countDocuments` and `aggregate` are Mongo semantics. The database is a parameter returning the sorted matching members, or `None` when any of the queries throws. `parseInt` is an `Option<int>` input. A missing activity type in the member-activity document (`undefined` flat-mapped into the id list) is not modelled; the parameter always returns a list.
- **Channel id field.** `sortChannels` keys channels and categories by `id`, while `getSelectedChannels` compares `channelId` and copies a category's `channelId`. The channel documents themselves are not part of this model, so the model names the identifier `id` in both places and does not claim a mismatch.
- **`Users.UserTable.CreateUser`** returns an error for a Discord id already in the table. This assumes a unique index on `discordId`; the user schema is not part of this model. Email uniqueness is an invariant over non-empty emails only, because the source skips the email check for an empty email. `createUser` does not check emails, so `Users.CreateUserKeepsInvariants` assumes the new email is free. For the same reason email uniqueness is not part of `UserTable.Valid`: `createUser` can store a second user with an email already taken, and `updateUserByDiscordId` then still runs on that table, keeping emails unique only when they were unique before.
- **User update body.** Only `email` and a map of other string fields are modelled.
- **Crypto.** `generateState`, `generateCodeVerifier` and the SHA-256 of `generateCodeChallenge` (crypto randomness and hashing) are not modelled, and neither is `encodeURIComponent`, which is an abstract function parameter.
- **Other files.** The analytics controller, the routes, the passport glue, the Joi validations and the other guild-controller handlers are not part of this model.

## Findings

| source | as written | input that shows it | evidently intended | confidence | as-written member | corrected member |
|---|---|---|---|---|---|---|
| src/config/oAtuh2.ts:19 | `.replace('+', '-').replace('/', '_')` with string patterns replaces only the first `+` and the first `/` | the bytes FB EF BE: standard base64 `"++++"` becomes `"-+++"` instead of `"----"`. A 32-byte SHA-256 digest has a 43-character encoding and often holds several `+` or `/`, so the PKCE S256 code challenge is then not base64url | every `+` → `-` and every `/` → `_` (section 5 of RFC 4648, required by section 4.2 of RFC 7636) | high (not executed) | OAuth.Base64UrlEncode, OAuth.Base64UrlEncodeKeepsLaterPlus | OAuth.Base64UrlEncodeCorrected |
