# Write-back entity caches of tg-chat-manager, in Dafny

tg-chat-manager is a Telegram bot for moderating chats and clusters of chats. It keeps no data of
its own between requests except in its managers. Each manager keeps an in-memory write-back
cache of one kind of entity, such as users, chats, roles, nicks, invites, bans, mutes, pins,
settings, welcome messages, clusters, banned words or journal entries. Each cache is a dictionary
from a business key to a record, together with a set of dirty keys. Reads are answered from the
dictionary. Most edits change the dictionary and mark the key dirty. The store is called at
once by `remove*`, by `ensure`/`add*` for a key not yet cached, and by a few writes that resolve
a row first even for a cached key: `ClusterSettingCache.set` always gets or creates its row, and
`add_role` with an assigner gets or creates the assigner's user row. A periodic `sync` works in
three steps:

- it snapshots the dirty records;
- it writes them to the store;
- it decides which keys to clear from the dirty set.

Each manager has its own rule for that last step. This project models all of these managers,
together with the role ordering they rely on.

## How the model is built

- **One class per manager.** Each class has `cache` (a map from the key to an immutable record
  value) and `dirty` (a set of keys) as fields. It also has its own table of the store (`db`),
  the parent tables it resolves foreign keys against (`users`, `chats`: a Telegram id mapped to
  a row id), and `nextId`, the store's next auto-increment id. A ghost counter `storeCalls`
  counts repository calls, so "no store call" can be stated. `Valid()` holds the invariants the
  manager keeps, always including `dirty <= cache.Keys`.
- **Records.** Managers that read and write attributes by name (`hasattr`/`setattr`/`getattr`
  and `**fields`: users, chats, global bans, mutes) keep records as maps from attribute names
  to a small `Val` type. The others use a datatype with one field per attribute.
- **`sync` in steps.** `sync` is split into `BeginSync` (the snapshot), `Flush` (the writing
  step) and `CommitSync` (the dirty-set update). `Sync` composes the three. An edit made
  between `BeginSync` and `CommitSync` can therefore be expressed; the `...DuringSync` methods
  show what each commit rule does with it. `Flush` takes a flag `ok` that is false when the
  store raises.
- **What a flush writes.** The writing loop of every flush is specified by a function
  (`Flushed`) that maps each payload through one step. The step calls the manager's `FlushedRow`
  function, and `WriteBack.FlushedWith` applies it across the payloads. The loop is proved to
  produce that table whatever order it takes the payloads in. Lemmas beside each `Flushed`
  state what a row ends up holding.
- **Commit rules.** Every commit rule of the source is modelled:
  - recheck of the whole record: users, chats;
  - recheck of `level` and `assigned_by_id`, with skipped keys kept dirty: user roles;
  - clearing the payload keys: nicks, invite links, invite usage;
  - `dirty -= snapshot`: global bans, mutes, pins, chat and cluster settings, welcome messages;
  - clearing everything with no store call: log entries, news broadcasts;
  - clearing only the clusters whose reconciliation succeeded: clusters.
- **Word filter.** The word filter tracks nothing dirty, and its `sync` does nothing.
- **Inputs from outside.** Time is an integer parameter `now`. The Telegram user ids
  configured as admins (`ADMIN_TELEGRAM_IDS`) and as owners (`OWNER_TELEGRAM_IDS`) are
  parameters too, and so is the insertion order of the users dictionary where
  `get_by_username` depends on it.
- **Where the model follows the code.** Where the tests expect something the code does not
  do, the model follows the code:
  - `UserRoleCache.add_role` marks a key dirty on a level change only when an assigner is
    given (src/core/managers/user_roles.py:197-203). So the level change that
    tests/test_user_roles_manager.py:119-131 expects to reach the store stays in the cache.
    `UserRoles.RoleCache.LevelChangeWithoutAssigner` shows this.
  - Ensure returns the cached record, not the bool that tests/test_users_manager.py:70-71 and
    tests/test_chats_manager.py:236-237 test.
  - `add_log` in tests/test_log_entry_manager.py:48 passes `chat_id=`, `target_user_id=` and
    `actor_user_id=`. `ensure_record` names those same keywords itself, so the call raises.
    `LogEntry.Clashes` and the error path of `LogEntry.LogEntryCache.AddLog` model this.
- **Where the code's behaviour may surprise.** The model keeps these behaviours as they are:
  - `add_chat` and `add_cluster` cache a cluster with no chats. The first sync of such a cluster
    therefore unassigns the chats the store already held in it
    (`Clusters.ClusterCache.AddChatToUncachedThenSync`).
  - The dirty-clearing rules of global bans, mutes, pins, settings, welcome messages and nicks
    clear an edit made during the sync (`WriteBack.UnconditionalClearDropsRacedEdit` and the
    `...DuringSync` methods).
  - A mute added for a key that has a row but is not cached is cached as the row stands and is
    not marked dirty, so the caller's values are dropped (`Mute.MuteCache.AddStoredMuteThenSync`).
- **Schema.** The model keeps the columns the code reads and writes, even where the schema
  differs:
  - src/core/models.py has no `messages_count` column on users, but the user sync writes one;
  - src/core/models.py ties a welcome message to a cluster, but the welcome manager filters
    and writes it by `chat_id`.

## Model

| member | source | states |
|---|---|---|
| Enums.Parse | src/core/enums.py:4-8 | `Role(s)`: the role whose value is `s`, and None exactly when no role has that value |
| Enums.Level | src/core/enums.py:10-12 | a level between 0 and 3 |
| Enums.ParseValue | src/core/enums.py:4-8 | parsing a role's value gives the role back |
| Enums.LevelMapping | src/core/enums.py:10-12 | `user` is 0, `moderator` 1, `senior_moderator` 2 and `admin` 3, and no two roles share a level |
| Enums.AtLeast | src/core/enums.py:14-15 | `a >= b` compares the roles' levels; its order properties are the next two rows |
| Enums.AtLeastIsTotalOrder | src/core/enums.py:14-15 | `>=` is reflexive, antisymmetric, transitive and total |
| Enums.UserBottomAdminTop | src/core/enums.py:4-15 | every role is at least `user`, `admin` is at least every role, and each of them is the only role in its place |
| WriteBack.Patched | src/core/managers/users.py:180-182 | the record keeps its attribute names; each attribute it has takes the caller's value, the others keep theirs, unknown names are ignored |
| WriteBack.ApplyKnownFields | src/core/managers/global_ban.py:97-99 | the `hasattr`/`setattr` loop, one field after another, leaves the record `Patched` describes |
| WriteBack.Overlay | src/core/managers/users.py:224-241 | a row rewritten with the compared columns of the cache: those columns take the cached values, the others keep the row's |
| WriteBack.OverlayOfAgreeingRow | src/core/managers/users.py:239-243 | rewriting a row none of whose compared columns differ changes nothing, so skipping it loses nothing |
| WriteBack.Snapshot | src/core/managers/users.py:199-204 | the payloads are the dirty keys that are still cached, each with its current record |
| WriteBack.SnapshotCoversDirty | src/core/managers/users.py:199-204 | when every dirty key is cached, the payloads cover the whole dirty set |
| WriteBack.RecheckCleared | src/core/managers/users.py:285-292 | a payload key that was not skipped is cleared exactly when it is no longer cached or its cached record is still the same as the flushed one |
| WriteBack.RecheckRetainsRacedKey | src/core/managers/user_roles.py:310-328 | a key edited after the snapshot, or skipped by the flush, stays dirty under the recheck rule |
| WriteBack.QuietRecheckCleansAllButSkipped | src/core/managers/user_roles.py:310-328 | with no edit between snapshot and commit, the recheck rule clears every dirty key except the skipped ones |
| WriteBack.UnconditionalClearDropsRacedEdit | src/core/managers/nicks.py:273-275 | for every dirty key flushed and then edited before the commit, the unconditional rule clears it while the recheck rule keeps it dirty |
| WriteBack.FlushedWith | src/core/managers/welcome_messages.py:91-104 | after a flush each payload holds the row its step gives (or none), and every row without a payload is unchanged |
| WriteBack.FlushLoop | src/core/managers/welcome_messages.py:91-104 | the batch loop, one payload at a time in any order, leaves the table `FlushedWith` describes |
| WriteBack.FlushedWithPointwise | src/core/managers/welcome_messages.py:91-104 | a table that agrees with `FlushedWith` key by key is that table |
| WriteBack.WithFirst | src/core/managers/user_roles.py:216-220 | exactly the cached entries whose key's first component is the one asked for |
| WriteBack.WithSecond | src/core/managers/user_roles.py:222-226 | exactly the cached entries whose key's second component is the one asked for |
| WriteBack.FiltersMeetAtKey | src/core/managers/nicks.py:177-182 | filtering by both components selects at most the entry of the pair itself |
| WriteBack.FirstFilterPartitions | src/core/managers/mute.py:121-125 | every cached entry is selected by the filter on its own first component and by no other |
| Users.MergedDefaults | src/core/managers/users.py:69-73 | the defaults minus the key column, overlaid by the caller's defaults: every caller value wins, every other default is kept |
| Users.CreatedUserDefaults | src/core/managers/users.py:48-76 | a created row holds the Telegram id, its id and creation time, and for every synced column the caller's default if given, else the `DEFAULT_USER` value |
| Users.NewRowTakesMerged | src/core/managers/users.py:74-76 | `get_or_create` inserts every merged default into the new row, the key column excepted |
| Users.CreatedRow | src/core/managers/users.py:245-258 | a row created by a sync holds every cached attribute, column by column |
| Users.Flushed | src/core/managers/users.py:209-277 | after a successful flush the table has a row for every old row and every payload, and rows without a payload are unchanged |
| Users.FlushStoresSyncedFields | src/core/managers/users.py:220-258 | after a successful flush every payload's synced columns are in its row, whether it was updated, skipped as equal, or created |
| Users.FlushedNothing | src/core/managers/users.py:206-207 | flushing no payload leaves the table as it was |
| Users.LeftCut | src/core/managers/users.py:321 | the first non-whitespace position from `i` on (or the end), with only whitespace skipped |
| Users.RightCut | src/core/managers/users.py:321 | the end of a slice once its trailing whitespace is cut, with only whitespace cut |
| Users.Strip | src/core/managers/users.py:321 | `str.strip()`: a slice of its input with only whitespace cut at each end and no whitespace left at either end |
| Users.StripOfTrimmed | src/core/managers/users.py:321 | stripping a string with no whitespace at its ends gives it back |
| Users.DisplayName | src/core/managers/users.py:319-321 | None exactly when both names are None; otherwise a string with no whitespace at its ends |
| Users.DisplayNameOfBoth | src/core/managers/users.py:321 | a first and a last name join with a single space between them |
| Users.DisplayNameOfBlank | src/core/managers/users.py:319-321 | a first and a last name that are present but blank give the empty name, not None |
| Users.StripOfBlank | src/core/managers/users.py:321 | a string of whitespace only strips to the empty string |
| Users.DisplayNameOfOne | src/core/managers/users.py:321 | with one name present (either one) the display name is that name, stripped |
| Users.PlusOne | src/core/managers/users.py:299 | `+= 1` succeeds exactly on integers and booleans and adds one to an integer |
| Users.UserCache.EnsureRecord | src/core/managers/users.py:66-77 | an existing row is returned as it is; a missing one is created from the merged defaults under a fresh id; one store call |
| Users.UserCache.GetOrInsert | src/core/managers/users.py:74-76 | `get_or_create`: `created` exactly when the key had no row; the existing row, or the inserted one under a new id |
| Users.UserCache.EnsureCached | src/core/managers/users.py:120-146 | a cached key is returned unchanged with no store call; otherwise the row is fetched or created, cached, and indexed by its truthy id |
| Users.UserCache.Get | src/core/managers/users.py:157-164 | the cached record exactly when the key is cached |
| Users.UserCache.GetField | src/core/managers/users.py:165-168 | None for a missing key or attribute, else the attribute |
| Users.UserCache.GetFields | src/core/managers/users.py:169-172 | a tuple as long as the names asked for, each entry the single-field answer (all None for a missing key) |
| Users.UserCache.Edit | src/core/managers/users.py:174-183 | the key ends up cached and dirty, only its own entry changes, attributes the record has take the new values and no attribute is added; a cached key makes no store call and hands out no id, an uncached one fetches or creates its row and indexes a truthy row id |
| Users.UserCache.Remove | src/core/managers/users.py:185-193 | the key leaves cache, dirty set and id index, its row is deleted, and `get` then answers None |
| Users.UserCache.BeginSync | src/core/managers/users.py:196-204 | the payloads are copies of exactly the dirty records |
| Users.UserCache.Flush | src/core/managers/users.py:209-283 | a successful flush leaves the table `Flushed` describes; a failed one is caught and writes nothing |
| Users.UserCache.CommitSync | src/core/managers/users.py:285-292 | a payload key leaves the dirty set exactly when it is no longer cached or its record equals the flushed copy |
| Users.UserCache.Sync | src/core/managers/users.py:195-292 | an empty dirty set makes no store call; a failure keeps the dirty set; a success writes every dirty record and empties the dirty set |
| Users.UserCache.EditDuringSync | src/core/managers/users.py:174-292 | an edit landing between the snapshot and the commit of a sync leaves the key dirty with the new value |
| Users.UserCache.IncrementMessagesCount | src/core/managers/users.py:294-301 | False and nothing changed for an uncached key; otherwise the count goes up by exactly one and the key is dirty; a non-number count raises |
| Users.UserCache.GetName | src/core/managers/users.py:317-321 | None exactly when both cached names are None (always for an uncached user); otherwise a name with no whitespace at its ends |
| Users.UserCache.GetByUsername | src/core/managers/users.py:325-329 | None exactly when no cached user has that username; otherwise the first cached record with it in the dictionary's insertion order |
| Users.UserCache.IsOwner | src/core/managers/users.py:343-348 | true exactly when the record says owner or the id is configured as an owner; a configured owner not yet marked is marked through `edit`, after which its cached `is_owner` is true and it is dirty; otherwise nothing changes |
| Chats.MergedDefaults | src/core/managers/chats.py:62-66 | the defaults minus the key column, overlaid by the caller's defaults: every caller value wins, every other default is kept |
| Chats.CreatedChatDefaults | src/core/managers/chats.py:43-69 | a created row holds the Telegram id, its id and creation time, and for every compared column the caller's default if given, else the `DEFAULT_CHAT` value (so active by default) |
| Chats.NewRowTakesMerged | src/core/managers/chats.py:67-69 | `get_or_create` inserts every merged default into the new row, the key column excepted |
| Chats.CreatedRow | src/core/managers/chats.py:220-229 | a row created by a sync has every chat column |
| Chats.Flushed | src/core/managers/chats.py:186-247 | after a successful flush the table has a row for every old row and every payload, and rows without a payload are unchanged |
| Chats.FlushUpdatesExistingRow | src/core/managers/chats.py:198-245 | a flushed chat that had a row ends with every compared column (the invite link included) equal to the cache and every other column as it was |
| Chats.FlushCreatesMissingRow | src/core/managers/chats.py:219-229 | a flushed chat without a row is created with the cached title, username, type, cluster, activity and settings, and no invite link |
| Chats.FlushedNothing | src/core/managers/chats.py:183-184 | flushing no payload leaves the table as it was |
| Chats.ChatCache.EnsureRecord | src/core/managers/chats.py:59-70 | an existing row is returned as it is; a missing one is created from the merged defaults under a fresh id; one store call |
| Chats.ChatCache.GetOrInsert | src/core/managers/chats.py:67-69 | `get_or_create`: `created` exactly when the key had no row; the existing row, or the inserted one under a new id |
| Chats.ChatCache.EnsureCached | src/core/managers/chats.py:108-130 | a cached key is returned unchanged with no store call, so a second ensure keeps the first values; otherwise the row is fetched or created and cached |
| Chats.ChatCache.Get | src/core/managers/chats.py:139-144 | the cached record exactly when the key is cached |
| Chats.ChatCache.GetField | src/core/managers/chats.py:145-148 | None for a missing key or attribute, else the attribute |
| Chats.ChatCache.GetFields | src/core/managers/chats.py:149-152 | a tuple as long as the names asked for, each entry the single-field answer, all None for a missing key |
| Chats.ChatCache.Edit | src/core/managers/chats.py:154-163 | the key ends up cached and dirty, only its own entry changes, attributes the record has take the new values and no attribute is added; a cached key makes no store call and hands out no id, an uncached one fetches or creates its row |
| Chats.ChatCache.Remove | src/core/managers/chats.py:165-170 | the key leaves cache and dirty set (an absent key is fine), its row is deleted, and `get` then answers None |
| Chats.ChatCache.BeginSync | src/core/managers/chats.py:173-181 | the payloads are copies of exactly the dirty records |
| Chats.ChatCache.Flush | src/core/managers/chats.py:186-253 | a successful flush leaves the table `Flushed` describes; a failed one is caught and writes nothing |
| Chats.ChatCache.CommitSync | src/core/managers/chats.py:255-262 | a payload key leaves the dirty set exactly when it is no longer cached or its record equals the flushed copy |
| Chats.ChatCache.Sync | src/core/managers/chats.py:172-262 | an empty dirty set makes no store call; a failure keeps the dirty set; a success writes every dirty record and empties the dirty set |
| Chats.ChatCache.EditDuringSync | src/core/managers/chats.py:154-262 | an edit landing between the snapshot and the commit of a sync leaves the key dirty with the new value |
| Chats.ChatCache.Activate | src/core/managers/chats.py:287-288 | the chat ends up cached and dirty with `is_active` true, whether or not it was cached before; no other key changes |
| Chats.ChatCache.Deactivate | src/core/managers/chats.py:290-291 | the chat ends up cached and dirty with `is_active` false, whether or not it was cached before; no other key changes |
| UserRoles.Resolve | src/core/managers/user_roles.py:272-279 | a cached foreign key is kept; a missing one is the parent row's id when the parent exists, else still missing |
| UserRoles.SkippedKeys | src/core/managers/user_roles.py:257-283 | exactly the payloads with no row whose user or chat cannot be resolved |
| UserRoles.UpdatedRow | src/core/managers/user_roles.py:261-270 | an updated row carries the cached level and assigner and keeps its user, chat and assignment time |
| UserRoles.FlushedRow | src/core/managers/user_roles.py:259-292 | a payload leaves no row exactly when it had none and its user or chat does not resolve |
| UserRoles.FlushedKeys | src/core/managers/user_roles.py:259-302 | after a flush the table holds the old rows and the payloads that were not skipped |
| UserRoles.FlushRows | src/core/managers/user_roles.py:255-292 | the batch loop, in whatever order it takes the payloads, yields the table `Flushed` describes and the skipped keys |
| UserRoles.FlushWritesLevelAndAssigner | src/core/managers/user_roles.py:260-300 | a flushed key that had a row keeps its user and chat and takes the cached level and assigner |
| UserRoles.FlushCreatesUnlessSkipped | src/core/managers/user_roles.py:271-302 | a flushed key without a row gets one, carrying the cached level, exactly when it is not skipped |
| UserRoles.HasRights | src/core/managers/user_roles.py:356-359 | a missing role passes exactly the `user` check; a present one passes when its level is at least the asked one |
| UserRoles.RightsBounds | src/core/managers/user_roles.py:356-359 | everyone has `user` rights, an admin has every right, and moderator rights or more need a cached role |
| UserRoles.RoleCache.EnsureUser | src/core/managers/user_roles.py:51-52 | `get_or_create` of the user: its existing id, or a fresh one added to the table; one store call |
| UserRoles.RoleCache.EnsureChat | src/core/managers/user_roles.py:54-55 | `get_or_create` of the chat: its existing id, or a fresh one added to the table; one store call |
| UserRoles.RoleCache.EnsureRecord | src/core/managers/user_roles.py:57-71 | the user and the chat rows exist afterwards; an existing role row is returned as it is, a missing one created with the given level and no assigner |
| UserRoles.RoleCache.FindUserById | src/core/managers/user_roles.py:139-140 | the Telegram id of the user row with that id, or None when no row has it |
| UserRoles.RoleCache.EnsureCached | src/core/managers/user_roles.py:118-154 | false with no store call for a cached key; otherwise the user and chat rows exist, a missing role row is created with the given level and no assigner, and the row is cached with its level, ids and looked-up assigner |
| UserRoles.RoleCache.Get | src/core/managers/user_roles.py:165-172 | the cached record exactly when the key is cached |
| UserRoles.RoleCache.GetLevel | src/core/managers/user_roles.py:173-176 | the cached level exactly when the key is cached |
| UserRoles.RoleCache.AddRole | src/core/managers/user_roles.py:182-203 | the role ends up cached with the given level. For a cached key, an unchanged level changes nothing and a changed one is marked dirty, with the assigner, only when an assigner is given. For an uncached key with no row, the row is created with the level and no assigner and cached clean; with a stored row, the store is unchanged and the stored row is cached, its level replaced and the key marked dirty with the assigner exactly when the level differs and an assigner is given |
| UserRoles.RoleCache.DeleteRecord | src/core/managers/user_roles.py:78-83 | the role row is deleted only when both the user and the chat rows exist |
| UserRoles.RoleCache.RemoveRole | src/core/managers/user_roles.py:205-214 | returns the level cached before (or None), evicts the key from cache and dirty, and deletes the row |
| UserRoles.RoleCache.GetUserRoles | src/core/managers/user_roles.py:216-220 | exactly the cached roles whose key has that user |
| UserRoles.RoleCache.GetChatRoles | src/core/managers/user_roles.py:222-226 | exactly the cached roles whose key has that chat |
| UserRoles.RoleCache.UserHasRights | src/core/managers/user_roles.py:353-359 | agrees with `HasRights` on the cached level, or on no level for an uncached key |
| UserRoles.RoleCache.GetUserChats | src/core/managers/user_roles.py:361-365 | exactly the chats in which the user holds a cached role at least as high as the asked one |
| UserRoles.RoleCache.ChatActivation | src/core/managers/user_roles.py:347-351 | true exactly for a configured admin id, who then holds `admin` in the chat; any other id changes nothing |
| UserRoles.RoleCache.BeginSync | src/core/managers/user_roles.py:229-237 | the payloads are copies of exactly the dirty records |
| UserRoles.RoleCache.Flush | src/core/managers/user_roles.py:242-308 | reports the skipped keys; a successful flush leaves the table `Flushed` describes, a failed one writes nothing |
| UserRoles.RoleCache.CommitSync | src/core/managers/user_roles.py:310-328 | skipped keys stay dirty; another payload key is cleared exactly when it is no longer cached or its level and assigner equal the flushed copy |
| UserRoles.RoleCache.Sync | src/core/managers/user_roles.py:228-328 | an empty dirty set makes no store call; a failure keeps the dirty set; a success leaves exactly the skipped keys dirty |
| UserRoles.RoleCache.AddRoleDuringSync | src/core/managers/user_roles.py:197-328 | a level change with an assigner, made between snapshot and commit, leaves the key dirty with the new level |
| UserRoles.RoleCache.LevelChangeWithoutAssigner | src/core/managers/user_roles.py:197-231 | a level change without an assigner on a clean role is cached but not dirty, so a following sync writes nothing for it |
| WriteBack.CreatorId | src/core/managers/nicks.py:231-248 | the creator's user id exactly when the creator's Telegram id is truthy and has a user row; the invite and welcome message flushes resolve their creators by the same rule |
| Nicks.FlushedRow | src/core/managers/nicks.py:223-256 | a payload whose user or chat has no row leaves its row as it was; otherwise it ends with a row holding the cached nick and resolved creator |
| Nicks.FlushWritesNick | src/core/managers/nicks.py:223-266 | after a flush every payload whose user and chat exist has a row with its nick and creator, and the row of any other payload is left alone |
| Nicks.NickCache.EnsureUser | src/core/managers/nicks.py:53-57 | `get_or_create` of a user: its existing id, or a fresh one added to the table; one store call |
| Nicks.NickCache.EnsureChat | src/core/managers/nicks.py:54 | `get_or_create` of a chat: its existing id, or a fresh one added to the table; one store call |
| Nicks.NickCache.EnsureRecord | src/core/managers/nicks.py:46-68 | the user and chat rows exist afterwards; the nick row is created, or its nick and creator overwritten; the creator is linked only for a truthy Telegram id |
| Nicks.NickCache.Get | src/core/managers/nicks.py:118-124 | the cached record exactly when the key is cached |
| Nicks.NickCache.GetNick | src/core/managers/nicks.py:125-126 | the cached nick exactly when the key is cached |
| Nicks.NickCache.AddNick | src/core/managers/nicks.py:134-159 | the key ends up cached with the nick and creator; a cached key becomes dirty with no store call; an uncached one is upserted in the store (an existing row keeps its other columns and takes the nick and resolved creator, a new one is stamped now) and cached clean |
| Nicks.NickCache.DeleteRecord | src/core/managers/nicks.py:70-74 | the nick row is deleted only when both the user and the chat rows exist |
| Nicks.NickCache.RemoveNick | src/core/managers/nicks.py:161-171 | returns the record cached before (or None), evicts the key from cache and dirty, and deletes the row |
| Nicks.NickCache.GetUserNicks | src/core/managers/nicks.py:173-175 | exactly the cached nicks whose key has that user |
| Nicks.NickCache.GetChatNicks | src/core/managers/nicks.py:184-188 | exactly the cached nicks whose key has that chat |
| Nicks.NickCache.GetUserNick | src/core/managers/nicks.py:177-182 | the entries matching both key components are at most the entry of the pair itself, so the answer is that entry or None |
| Nicks.NickCache.UserHasNick | src/core/managers/nicks.py:295-297 | a nick is cached for the (user, chat) pair; the next row proves it exactly the cached pairs |
| Nicks.NickCache.UserHasNickIffCached | src/core/managers/nicks.py:295-297 | `user_has_nick` holds exactly for a cached pair, exactly when `get_user_nick` finds one |
| Nicks.NickCache.BeginSync | src/core/managers/nicks.py:191-199 | the payloads are copies of exactly the dirty records |
| Nicks.NickCache.Flush | src/core/managers/nicks.py:204-271 | a successful flush leaves the table `Flushed` describes; a failed one is caught and writes nothing |
| Nicks.NickCache.CommitSync | src/core/managers/nicks.py:273-275 | every payload key leaves the dirty set, skipped and raced ones included |
| Nicks.NickCache.Sync | src/core/managers/nicks.py:190-275 | an empty dirty set makes no store call; a failure keeps the dirty set; a success writes the payloads and empties it |
| Nicks.NickCache.AddNickDuringSync | src/core/managers/nicks.py:142-275 | a nick changed between snapshot and commit is lost: the key ends clean while the store holds the nick copied before the change |
| InviteLinks.ValidAt | src/core/managers/invite_links.py:182-189 | an invite is valid at a time when it is active, not past a set expiry, and its counter is under its limit; the rows below prove how a use and expiry change it |
| InviteLinks.Used | src/core/managers/invite_links.py:166-168 | one use raises the counter by exactly one and deactivates the invite when it reaches its limit; every other column is unchanged |
| InviteLinks.UseKeepsValidityUntilLimit | src/core/managers/invite_links.py:161-189 | after a use an invite is valid exactly when it was valid before and the new count is still under the limit |
| InviteLinks.SingleUseInvite | src/core/managers/invite_links.py:161-170 | a fresh invite limited to one use is valid, and after a single use it is inactive and invalid |
| InviteLinks.ExpiredIsInvalid | src/core/managers/invite_links.py:185-186 | an invite past its expiry is invalid, both before and after a use |
| InviteLinks.FlushedRow | src/core/managers/invite_links.py:219-248 | an existing row takes the cached counter and active flag and keeps every other column; a missing row is created from the cache only when its chat exists, and is skipped otherwise |
| InviteLinks.FlushUpdatesCounterOnly | src/core/managers/invite_links.py:219-258 | after a flush an existing row holds the cached counter and flag with its other columns unchanged, and a missing row whose chat has no row is still missing |
| InviteLinks.InviteLinkCache.EnsureRecord | src/core/managers/invite_links.py:46-68 | the chat and a truthy creator are then in their tables; an existing row is returned unchanged with created false; otherwise a row with the given limit, expiry and single-use flag, counter 0 and active, is inserted with created true |
| InviteLinks.InviteLinkCache.IsValid | src/core/managers/invite_links.py:178-189 | an uncached token is invalid; a cached one is valid exactly when its invite is valid at that time |
| InviteLinks.InviteLinkCache.Get | src/core/managers/invite_links.py:109-121 | the cached invite when the token is cached, None exactly when it is not |
| InviteLinks.InviteLinkCache.AddInvite | src/core/managers/invite_links.py:123-152 | a cached token leaves everything unchanged; a new token gets a row and is cached with the row's counter and flag and marked dirty |
| InviteLinks.InviteLinkCache.RemoveInvite | src/core/managers/invite_links.py:154-159 | the token leaves the cache, the dirty set and the table, and is then invalid and not found |
| InviteLinks.InviteLinkCache.IncrementUsage | src/core/managers/invite_links.py:161-189 | true exactly when the token is cached; then the invite is replaced by its used version and marked dirty, and `is_valid` holds afterwards, at any time, exactly when it held before and the new count is still under the limit; otherwise nothing changes |
| InviteLinks.InviteLinkCache.GetChatInvites | src/core/managers/invite_links.py:172-176 | exactly the cached invites of the chat, with their cached values |
| InviteLinks.InviteLinkCache.BeginSync | src/core/managers/invite_links.py:192-200 | the payloads are copies of exactly the dirty cached invites |
| InviteLinks.InviteLinkCache.Flush | src/core/managers/invite_links.py:205-263 | on success the table becomes the flush of the payloads; on failure it is unchanged |
| InviteLinks.InviteLinkCache.CommitSync | src/core/managers/invite_links.py:265-267 | every flushed token leaves the dirty set, and nothing else does |
| InviteLinks.InviteLinkCache.Sync | src/core/managers/invite_links.py:191-267 | an empty dirty set means no store call; a failed flush leaves table and dirty set unchanged; a successful one writes the flush and empties the dirty set, skipped creates included |
| InviteUsage.UsedAtOrNow | src/core/managers/invite_usage.py:41 | a given use time is kept and a missing one is replaced by the clock |
| InviteUsage.FlushedRow | src/core/managers/invite_usage.py:155-171 | whether or not the row existed, it ends holding the cached use time |
| InviteUsage.FlushStoresUsedAt | src/core/managers/invite_usage.py:146-177 | after a flush every payload key has a row with its cached time and every other key keeps its row or its absence |
| InviteUsage.InviteUsageCache.EnsureRecord | src/core/managers/invite_usage.py:35-49 | an error exactly when the invite or the user row is missing, with the table unchanged; otherwise the existing row, or a new row holding the given time or the clock, with created saying which |
| InviteUsage.InviteUsageCache.EnsureCached | src/core/managers/invite_usage.py:78-92 | a cached key gives false with no store call; otherwise the error of a missing invite or user escapes with nothing cached, or the stored row is cached and the result is whether it was created |
| InviteUsage.InviteUsageCache.Get | src/core/managers/invite_usage.py:101-109 | the cached use when the key is cached, None exactly when it is not |
| InviteUsage.InviteUsageCache.AddUsage | src/core/managers/invite_usage.py:111-118 | an error exactly when the key was not cached and its invite or user is missing, changing nothing; otherwise the cached time becomes the argument, None included, the key is dirty, and the result is whether a row was created |
| InviteUsage.InviteUsageCache.RemoveUsage | src/core/managers/invite_usage.py:120-126 | the key leaves the cache, the dirty set and the table |
| InviteUsage.InviteUsageCache.GetInviteUsages | src/core/managers/invite_usage.py:128-130 | exactly the cached uses whose invite is the given one |
| InviteUsage.InviteUsageCache.GetUserUsages | src/core/managers/invite_usage.py:132-134 | exactly the cached uses whose user is the given one |
| InviteUsage.InviteUsageCache.BeginSync | src/core/managers/invite_usage.py:137-141 | the payloads are copies of exactly the dirty cached uses |
| InviteUsage.InviteUsageCache.Flush | src/core/managers/invite_usage.py:147-181 | on success the table becomes the flush of the payloads; on failure it is unchanged |
| InviteUsage.InviteUsageCache.CommitSync | src/core/managers/invite_usage.py:183-185 | every flushed key leaves the dirty set, and nothing else does |
| InviteUsage.InviteUsageCache.Sync | src/core/managers/invite_usage.py:136-185 | an empty dirty set means no store call; a failed flush leaves table and dirty set unchanged; a successful one writes every payload and empties the dirty set |
| GlobalBan.OptionVal | src/core/managers/global_ban.py:20 | an absent cluster id is the null attribute and a present one its integer |
| WriteBack.UserIdVal | src/core/managers/global_ban.py:164-173 | a user id exactly when the Telegram id attribute is truthy and has a user row, and then that row's id |
| GlobalBan.NewBanRow | src/core/managers/global_ban.py:54-56 | a new row has every ban column: its id and creation time, the resolved creator and lifter, and each other column from the caller where given and from the model's defaults otherwise |
| GlobalBan.CachedBan | src/core/managers/global_ban.py:105-115 | the cached ban has every cached attribute: the key's user and cluster, the stored id, reason, time, activity and lifting time, and the creator and lifter as the caller gave them |
| GlobalBan.FlushedRow | src/core/managers/global_ban.py:160-184 | a payload whose user has no row leaves its row as it was; otherwise the row exists and holds the cached reason, activity and lifting time and the resolved creator and lifter |
| GlobalBan.FlushWritesBan | src/core/managers/global_ban.py:154-184 | after a flush a payload whose user exists has a row with its reason and activity, and one whose user is missing keeps its row or its absence |
| GlobalBan.UserIdValExtends | src/core/managers/global_ban.py:164-173 | adding user rows does not change the id an already resolvable Telegram id leads to |
| GlobalBan.GlobalBanCache.EnsureUser | src/core/managers/global_ban.py:41 | `get_or_create` of a user: its existing id, or a fresh one added to the table |
| GlobalBan.GlobalBanCache.EnsureActor | src/core/managers/global_ban.py:43-53 | the creator or lifter a truthy Telegram id names gets a user row, and the result is its id; older user rows are unchanged |
| GlobalBan.GlobalBanCache.EnsureRecord | src/core/managers/global_ban.py:38-56 | the user then has a row; an existing ban row is returned unchanged with created false; otherwise the new row from the caller's columns and the defaults is inserted with created true |
| GlobalBan.GlobalBanCache.GetOrCreate | src/core/managers/global_ban.py:54-56 | `get_or_create` on the key: the existing row untouched, or the new row under a fresh id |
| GlobalBan.GlobalBanCache.AddBan | src/core/managers/global_ban.py:92-116 | a cached key has the known attributes overwritten and is marked dirty with no store call; a new key gets a row, kept as it was if it existed, and is cached from it and marked dirty |
| GlobalBan.GlobalBanCache.DeleteRecord | src/core/managers/global_ban.py:58-61 | the row is deleted exactly when the user has a row |
| GlobalBan.GlobalBanCache.RemoveBan | src/core/managers/global_ban.py:118-123 | the key leaves the cache and the dirty set, and its row is deleted when the user has a row |
| GlobalBan.GlobalBanCache.GetClusterBans | src/core/managers/global_ban.py:125-133 | exactly the cached bans whose cluster is the given one, None standing for the bans in every cluster |
| GlobalBan.GlobalBanCache.GetUserBans | src/core/managers/global_ban.py:135-141 | exactly the cached bans of the given user |
| GlobalBan.GlobalBanCache.BeginSync | src/core/managers/global_ban.py:144-150 | the snapshot is the dirty set and the payloads are copies of its cached bans |
| GlobalBan.GlobalBanCache.Flush | src/core/managers/global_ban.py:154-188 | on success the table becomes the flush of the payloads; on failure the transaction leaves it unchanged |
| GlobalBan.GlobalBanCache.CommitSync | src/core/managers/global_ban.py:190-191 | the snapshot is subtracted from the dirty set |
| GlobalBan.GlobalBanCache.Sync | src/core/managers/global_ban.py:143-191 | no payload means no store call; a failed flush leaves table and dirty set unchanged; a successful one writes the flush and empties the dirty set, skipped bans included |
| GlobalBan.GlobalBanCache.AddBanDuringSync | src/core/managers/global_ban.py:92-191 | an edit made between the snapshot and the commit is cleared with the snapshot: the key ends clean while the store still holds the reason from before the edit |
| Mute.StartAt | src/core/managers/mute.py:49-51 | a new mute starts when the caller says, or at the clock when no start is given |
| Mute.NewMuteRow | src/core/managers/mute.py:49-51 | a new row has every mute column: its id, its start, the resolved creator, and each other column from the caller where given and from the model's defaults otherwise |
| Mute.CachedMute | src/core/managers/mute.py:102-112 | the cached mute has every cached attribute: the key's user and chat, the stored id, start, end, reason and flags, and the creator as the caller gave it |
| Mute.WrittenColumns | src/core/managers/mute.py:163-171 | `update_or_create` writes exactly the six mute columns, the end, reason and activity as cached |
| Mute.FlushedRow | src/core/managers/mute.py:154-174 | a payload whose user or chat has no row leaves its row as it was; otherwise the row exists and holds the written columns |
| Mute.FlushWritesMute | src/core/managers/mute.py:144-174 | after a flush a payload whose user and chat exist has a row with its cached end, reason and activity; one whose user or chat is missing, and any key outside the payloads, keeps its row or its absence |
| Mute.MuteCache.EnsureUser | src/core/managers/mute.py:41 | `get_or_create` of a user: its existing id, or a fresh one added to the table |
| Mute.MuteCache.EnsureChat | src/core/managers/mute.py:42 | `get_or_create` of a chat: its existing id, or a fresh one added to the table |
| Mute.MuteCache.EnsureParents | src/core/managers/mute.py:41-42 | the user and the chat of the key both have rows afterwards |
| Mute.MuteCache.EnsureCreator | src/core/managers/mute.py:43-48 | a truthy creator Telegram id gets a user row and the result is its id; older user rows stay |
| Mute.MuteCache.EnsureRecord | src/core/managers/mute.py:38-52 | the user and chat then have rows; an existing mute row is returned unchanged with created false; otherwise the new row from the caller's columns and the defaults is inserted with created true |
| Mute.MuteCache.GetOrCreate | src/core/managers/mute.py:49-51 | `get_or_create` on the key: the existing row untouched, or the new row under a fresh id |
| Mute.MuteCache.AddMute | src/core/managers/mute.py:89-112 | a cached key has the known attributes overwritten and is marked dirty with no store call; a new key gets a row, kept as it was if it existed, and is cached from it without being marked dirty |
| Mute.MuteCache.DeleteRecord | src/core/managers/mute.py:54-58 | the row is deleted exactly when both the user and the chat have rows |
| Mute.MuteCache.RemoveMute | src/core/managers/mute.py:114-119 | the key leaves the cache and the dirty set, and its row is deleted when user and chat have rows |
| Mute.MuteCache.Get | src/core/managers/mute.py:196-199 | the cached mute when the key is cached, None exactly when it is not |
| Mute.MuteCache.GetUserMutes | src/core/managers/mute.py:121-125 | exactly the cached mutes of the given user |
| Mute.MuteCache.GetChatMutes | src/core/managers/mute.py:127-131 | exactly the cached mutes in the given chat |
| Mute.MuteCache.BeginSync | src/core/managers/mute.py:134-140 | the snapshot is the dirty set and the payloads are copies of its cached mutes |
| Mute.MuteCache.Flush | src/core/managers/mute.py:144-178 | on success the table becomes the flush of the payloads; on failure the transaction leaves it unchanged |
| Mute.MuteCache.CommitSync | src/core/managers/mute.py:180-181 | the snapshot is subtracted from the dirty set |
| Mute.MuteCache.Sync | src/core/managers/mute.py:133-181 | no payload means no store call; a failed flush leaves table and dirty set unchanged; a successful one writes the flush and empties the dirty set, skipped mutes included |
| Mute.MuteCache.AddStoredMuteThenSync | src/core/managers/mute.py:89-181 | a mute added for an uncached key that has a row is cached as the row stands, the caller's reason dropped, stays clean, and a sync leaves the row unchanged |
| Mute.MuteCache.AddMuteDuringSync | src/core/managers/mute.py:89-181 | an edit made between the snapshot and the commit is cleared with the snapshot: the key ends clean while the store still holds the reason from before the edit |
| MessagePins.PinnedById | src/core/managers/message_pins.py:115-119 | the pinner's user id exactly when the pinner's Telegram id is truthy and has a user row |
| MessagePins.FlushedRow | src/core/managers/message_pins.py:111-124 | a payload whose chat has no row leaves its row as it was; otherwise the row exists and names the resolved pinner, keeping its id and time or taking the cached ones when created |
| MessagePins.FlushWritesPinner | src/core/managers/message_pins.py:105-124 | after a flush a payload whose chat exists has a row naming its pinner; one whose chat is missing, and any key outside the payloads, keeps its row or its absence |
| MessagePins.MessagePinCache.EnsureChat | src/core/managers/message_pins.py:28 | `get_or_create` of a chat: unchanged when it has a row, otherwise a fresh row id is added |
| MessagePins.MessagePinCache.EnsurePinner | src/core/managers/message_pins.py:29-32 | a truthy pinner gets a user row, fresh only when it had none, and the result is its id; otherwise nothing changes |
| MessagePins.MessagePinCache.EnsureRecord | src/core/managers/message_pins.py:27-38 | the chat then has a row; an existing pin row is returned unchanged with created false; otherwise a row naming the pinner and stamped now is inserted with created true |
| MessagePins.MessagePinCache.AddPin | src/core/managers/message_pins.py:70-85 | a cached key leaves everything unchanged with no store call; a new one gets a row and is cached with the pinner the caller gave and marked dirty |
| MessagePins.MessagePinCache.DeleteRecord | src/core/managers/message_pins.py:40-43 | the row is deleted exactly when the chat has a row |
| MessagePins.MessagePinCache.RemovePin | src/core/managers/message_pins.py:87-92 | the key leaves the cache, the dirty set and the chat's pins, and its row is deleted when the chat has a row |
| MessagePins.MessagePinCache.GetChatPins | src/core/managers/message_pins.py:94-96 | exactly the cached pins of the given chat |
| MessagePins.MessagePinCache.BeginSync | src/core/managers/message_pins.py:99-101 | the snapshot is the dirty set and the payloads are copies of its cached pins |
| MessagePins.MessagePinCache.Flush | src/core/managers/message_pins.py:105-128 | on success the table becomes the flush of the payloads; on failure the transaction leaves it unchanged |
| MessagePins.MessagePinCache.CommitSync | src/core/managers/message_pins.py:130-131 | the snapshot is subtracted from the dirty set |
| MessagePins.MessagePinCache.Sync | src/core/managers/message_pins.py:98-131 | no payload means no store call; a failed flush leaves table and dirty set unchanged; a successful one writes the flush and empties the dirty set, skipped pins included |
| MessagePins.MessagePinCache.RepinThenSync | src/core/managers/message_pins.py:70-131 | pinning an uncached message whose row names another pinner, then syncing, leaves the row naming the new pinner and the dirty set empty |
| ChatSetting.FlushedRow | src/core/managers/chat_setting.py:115-123 | a payload whose chat has no row leaves its row as it was; otherwise the row exists and holds the cached value, keeping its id or taking the cached one when created |
| ChatSetting.FlushWritesValue | src/core/managers/chat_setting.py:109-123 | after a flush a payload whose chat exists has a row holding its value; one whose chat is missing, and any key outside the payloads, keeps its row or its absence |
| ChatSetting.ChatSettingCache.EnsureRecord | src/core/managers/chat_setting.py:26-36 | the chat then has a row, and the setting's row exists and holds the given value, keeping its id if it existed |
| ChatSetting.ChatSettingCache.Set | src/core/managers/chat_setting.py:67-83 | the key ends cached with the given value and marked dirty; a cached key needs no store call, and a new one is written through to the store |
| ChatSetting.ChatSettingCache.Get | src/core/managers/chat_setting.py:85-89 | the cached value of the key, and None for a key that is not cached |
| ChatSetting.ChatSettingCache.DeleteRecord | src/core/managers/chat_setting.py:38-41 | the row is deleted exactly when the chat has a row |
| ChatSetting.ChatSettingCache.Remove | src/core/managers/chat_setting.py:91-96 | the key leaves the cache and the dirty set and then reads as None, and its row is deleted when the chat has a row |
| ChatSetting.ChatSettingCache.GetChatSettings | src/core/managers/chat_setting.py:98-100 | exactly the cached settings of the given chat |
| ChatSetting.ChatSettingCache.BeginSync | src/core/managers/chat_setting.py:103-105 | the snapshot is the dirty set and the payloads are copies of its cached settings |
| ChatSetting.ChatSettingCache.Flush | src/core/managers/chat_setting.py:109-127 | on success the table becomes the flush of the payloads; on failure the transaction leaves it unchanged |
| ChatSetting.ChatSettingCache.CommitSync | src/core/managers/chat_setting.py:129-130 | the snapshot is subtracted from the dirty set |
| ChatSetting.ChatSettingCache.Sync | src/core/managers/chat_setting.py:102-130 | no payload means no store call; a failed flush leaves table and dirty set unchanged; a successful one writes the flush and empties the dirty set, skipped settings included |
| ChatSetting.ChatSettingCache.SetTwiceThenSync | src/core/managers/chat_setting.py:67-130 | two sets of one key and a sync leave both the cache and the store holding the second value, and the dirty set empty |
| ClusterSetting.FlushedRow | src/core/managers/cluster_setting.py:98-103 | whether or not the row existed, it ends holding the cached value, keeping its id or taking the cached one when created |
| ClusterSetting.FlushWritesValue | src/core/managers/cluster_setting.py:97-103 | after a flush every payload key has a row with its value and every other key keeps its row or its absence |
| ClusterSetting.ClusterSettingCache.EnsureRecord | src/core/managers/cluster_setting.py:26-32 | an existing row is returned and kept with the value it had; otherwise a row with the given value is created under a fresh id |
| ClusterSetting.ClusterSettingCache.Set | src/core/managers/cluster_setting.py:61-71 | the key then has a row, an existing one untouched; the cache holds the new value under the row's id and the key is dirty |
| ClusterSetting.ClusterSettingCache.Get | src/core/managers/cluster_setting.py:73-77 | the cached value of the key, and None for a key that is not cached |
| ClusterSetting.ClusterSettingCache.Remove | src/core/managers/cluster_setting.py:79-84 | the key leaves the cache, the dirty set and the table, and then reads as None |
| ClusterSetting.ClusterSettingCache.GetClusterSettings | src/core/managers/cluster_setting.py:86-88 | exactly the cached settings of the given cluster |
| ClusterSetting.ClusterSettingCache.BeginSync | src/core/managers/cluster_setting.py:91-93 | the snapshot is the dirty set and the payloads are copies of its cached settings |
| ClusterSetting.ClusterSettingCache.Flush | src/core/managers/cluster_setting.py:97-103 | on success the table becomes the flush of the payloads; on failure the transaction leaves it unchanged |
| ClusterSetting.ClusterSettingCache.CommitSync | src/core/managers/cluster_setting.py:105-106 | the snapshot is subtracted from the dirty set |
| ClusterSetting.ClusterSettingCache.Sync | src/core/managers/cluster_setting.py:90-106 | no payload means no store call; a store failure escapes to the caller with table and dirty set unchanged; a success writes every payload and empties the dirty set |
| ClusterSetting.ClusterSettingCache.SetStoredThenSync | src/core/managers/cluster_setting.py:61-106 | setting a key whose row holds another value leaves the row behind the cache until the next sync, which writes the new value |
| WelcomeMessages.FlushedRow | src/core/managers/welcome_messages.py:92-105 | the row ends holding the cached text, default flag and resolved creator, keeping its id and time or taking the cached ones when created |
| WelcomeMessages.FlushWritesText | src/core/managers/welcome_messages.py:90-105 | after a flush every payload has a row with its text and flag, and every other key keeps its row or its absence |
| WelcomeMessages.WelcomeCache.EnsureCreator | src/core/managers/welcome_messages.py:31-35 | a truthy creator gets a user row, fresh only when it had none, and the result is its id; otherwise nothing changes |
| WelcomeMessages.WelcomeCache.EnsureRecord | src/core/managers/welcome_messages.py:29-36 | an existing row is returned unchanged with created false; otherwise a row with the text, creator, flag and clock is inserted with created true |
| WelcomeMessages.WelcomeCache.SetMessage | src/core/managers/welcome_messages.py:60-71 | the key then has a row, an existing one untouched; the cache holds the new text, creator and flag under the row's id and time, and the key is dirty |
| WelcomeMessages.WelcomeCache.RemoveMessage | src/core/managers/welcome_messages.py:73-77 | the key leaves the cache, the dirty set and the table, and then reads as None |
| WelcomeMessages.WelcomeCache.Get | src/core/managers/welcome_messages.py:79-81 | the cached message when the key is cached, None exactly when it is not |
| WelcomeMessages.WelcomeCache.BeginSync | src/core/managers/welcome_messages.py:84-86 | the snapshot is the dirty set and the payloads are copies of its cached messages |
| WelcomeMessages.WelcomeCache.Flush | src/core/managers/welcome_messages.py:90-109 | on success the table becomes the flush of the payloads; on failure the transaction leaves it unchanged |
| WelcomeMessages.WelcomeCache.CommitSync | src/core/managers/welcome_messages.py:111-112 | the snapshot is subtracted from the dirty set |
| WelcomeMessages.WelcomeCache.Sync | src/core/managers/welcome_messages.py:83-112 | no payload means no store call; a failed flush leaves table and dirty set unchanged; a successful one writes every payload and empties the dirty set |
| WelcomeMessages.WelcomeCache.SetTwiceThenSync | src/core/managers/welcome_messages.py:60-112 | two messages set for one chat and a sync leave the cache and the row both holding the second text, although the second call left the row alone |
| Clusters.Members | src/core/managers/clusters.py:150-151 | exactly the chats with a row whose cluster is the given one |
| Clusters.Reconciled | src/core/managers/clusters.py:150-169 | the two updates for one cluster: they assign the cluster to its claimed chats and clear it from the others it held, keeping the chat table's rows; the next row proves their effect |
| Clusters.ReconciledMembers | src/core/managers/clusters.py:149-169 | after the two updates for a cluster the store assigns to it exactly the claimed chats that have a row, and every other chat not in it keeps its cluster |
| Clusters.SucceededIffClaimedChatsExist | src/core/managers/clusters.py:153-172 | counting the rows the assigning update matched succeeds exactly when every chat the cache claims has a row |
| Clusters.SyncedChats | src/core/managers/clusters.py:148-169 | the whole transaction: the per-cluster updates applied in iteration order, keeping the chat table's rows; the next two rows prove where each chat ends up |
| Clusters.UnclaimedChatAfterSync | src/core/managers/clusters.py:148-169 | after the transaction a chat no synced cluster claims has lost its cluster if that cluster was synced, and keeps it otherwise |
| Clusters.ClaimedChatAfterSync | src/core/managers/clusters.py:148-169 | after the transaction a chat claimed only by one synced cluster belongs to that cluster, whatever the iteration order |
| Clusters.IterationOrder | src/core/managers/clusters.py:149 | an order of iteration over the payloads lists each of them exactly once and nothing else |
| Clusters.ClusterCache.Get | src/core/managers/clusters.py:89-91 | the cached cluster when it is cached, None exactly when it is not |
| Clusters.ClusterCache.AddChat | src/core/managers/clusters.py:93-108 | a cluster neither cached nor stored changes nothing; a cached one gains the chat and is dirty, with no store call; one only stored is cached with just that chat and is dirty |
| Clusters.ClusterCache.RemoveChat | src/core/managers/clusters.py:110-115 | a chat in a cached cluster's set is removed and the cluster marked dirty; otherwise nothing changes |
| Clusters.ClusterCache.EnsureRecord | src/core/managers/clusters.py:39-53 | the result is the row with that name; it is created, with the caller's slug and flag over the defaults, exactly when no row has that name, and otherwise the table is unchanged |
| Clusters.ClusterCache.AddCluster | src/core/managers/clusters.py:117-128 | the row with that name is cached with no chats, and the dirty set is unchanged |
| Clusters.ClusterCache.RemoveCluster | src/core/managers/clusters.py:130-134 | the row is deleted together with the chats assigned to it, and the cluster leaves the cache and the dirty set |
| Clusters.ClusterCache.GetChats | src/core/managers/clusters.py:195-197 | the chats of a cached cluster, and none for a cluster that is not cached |
| Clusters.ClusterCache.GetAllClusters | src/core/managers/clusters.py:199-201 | exactly the cached clusters |
| Clusters.ClusterCache.Flush | src/core/managers/clusters.py:147-176 | on success the chats table is reconciled cluster by cluster in iteration order; on failure it is unchanged; the clusters collected are exactly those whose claimed chats all had a row |
| Clusters.ClusterCache.Sync | src/core/managers/clusters.py:136-179 | no dirty cluster means nothing happens; a store failure escapes with chats and dirty set unchanged; a success reconciles the chats table and clears exactly the clusters whose claimed chats all have a row |
| Clusters.ClusterCache.AddMissingChatThenSync | src/core/managers/clusters.py:93-179 | a chat with no row added to a cached cluster leaves that cluster dirty after a sync |
| Clusters.ClusterCache.AddChatToUncachedThenSync | src/core/managers/clusters.py:93-179 | a cluster that `add_chat` had to cache starts with no chats, so its first sync unassigns every other chat the store held in it |
| WordFilter.LowerChar | src/core/managers/word_filter.py:30 | an ASCII capital becomes its small letter, any other character is unchanged, and the result is never a capital |
| WordFilter.Lower | src/core/managers/word_filter.py:30 | lower-casing keeps the length and lower-cases each character in place |
| WordFilter.LowerHasNoUpper | src/core/managers/word_filter.py:30 | a lower-cased word has no capital left |
| WordFilter.LowerIdempotent | src/core/managers/word_filter.py:74-75 | lower-casing twice is the same as lower-casing once |
| WordFilter.LowerIgnoresCase | src/core/managers/word_filter.py:29-30 | two words that differ only in letter case lower-case to the same word |
| WordFilter.CacheKey | src/core/managers/word_filter.py:29-30 | the key pairs the chat with the lower-cased word, which has no capital |
| WordFilter.CacheKeyOfLowered | src/core/managers/word_filter.py:74-75 | lower-casing the word before making its key changes nothing |
| WordFilter.SameKeyIffEqualIgnoringCase | src/core/managers/word_filter.py:29-30 | two words give the same key in a chat exactly when they agree letter by letter once lower-cased, so "BadWord" and "badword" share a key |
| WordFilter.WordFilterCache.EnsureUser | src/core/managers/word_filter.py:37-38 | `get_or_create` of a user: its existing id, or a fresh one added to the table |
| WordFilter.WordFilterCache.EnsureChat | src/core/managers/word_filter.py:34-35 | `get_or_create` of a chat: its existing id, or a fresh one added to the table |
| WordFilter.WordFilterCache.AddWord | src/core/managers/word_filter.py:73-102 | a word already cached for the chat, in any case, changes nothing; otherwise an existing chat row is reused (a missing one created) and a truthy adder gets a row; when the chat's rows already hold the lower-cased word the create raises IntegrityError and nothing is cached, else a new row holds it and the word is cached under the row's id; other chats' words are untouched |
| WordFilter.WordFilterCache.StoreWord | src/core/managers/word_filter.py:80-102 | for a word not cached for the chat: an existing chat row is reused, a missing one created; IntegrityError exactly when the chat's rows hold the word, leaving cache and table as they were; otherwise the new row and the cached record agree on id, chat, word, adder and time |
| WordFilter.WordFilterCache.CreateRow | src/core/managers/word_filter.py:87-91 | IntegrityError, with the table unchanged, exactly when a row of the chat already holds the word (the unique (chat, word) constraint); otherwise the row is inserted under a fresh id and nothing else in the table changes |
| WordFilter.WordFilterCache.DeleteRecord | src/core/managers/word_filter.py:43-47 | without a chat row nothing is deleted; otherwise exactly the chat's rows holding the lower-cased word are deleted |
| WordFilter.WordFilterCache.RemoveWord | src/core/managers/word_filter.py:104-110 | the word leaves the cache and the chat's word list, other chats keep theirs; when the chat has a row exactly its rows holding the word are deleted, otherwise the table is unchanged |
| WordFilter.WordFilterCache.GetChatWords | src/core/managers/word_filter.py:112-116 | exactly the words cached for the chat |
| WordFilter.WordFilterCache.AddThenList | src/core/managers/word_filter.py:73-116 | after a successful add the chat's words are the old ones plus the lower-cased word; after an IntegrityError they are the old ones, the word stays uncached and the table still holds it for the chat |
| WordFilter.WordFilterCache.Sync | src/core/managers/word_filter.py:118-119 | nothing is ever dirty, so a sync changes neither the cache nor the table and calls no store |
| WordFilter.WordFilterCache.AddTwice | src/core/managers/word_filter.py:73-102 | adding a word again, in any case, ends as the first add did: after a success it changes nothing, after an IntegrityError it raises again; the chat's words are those the first add left |
| LogEntry.Linked | src/core/managers/log_entry.py:29-46 | a Telegram id leads to a foreign key exactly when it is truthy, and then to that id's row |
| LogEntry.NewRow | src/core/managers/log_entry.py:47 | the new row keeps the caller's cluster, action, reason and meta, links the chat, target and actor only for truthy ids, and is stamped now |
| LogEntry.Added | src/core/managers/log_entry.py:77-87 | the cached entry takes the row's id, columns and time but the chat, target and actor ids as the caller gave them |
| LogEntry.Loaded | src/core/managers/log_entry.py:61-71 | the entry loaded from a row has the row's columns and the Telegram ids its foreign keys lead to |
| LogEntry.AddedIsLoadedIffIdsReload | src/core/managers/log_entry.py:29-87 | the entry `add_log` caches equals the one a reload from the store gives exactly when none of its Telegram ids was given as 0 |
| LogEntry.LogEntryCache.Initialize | src/core/managers/log_entry.py:57-72 | every row is cached under its id as loaded from the store |
| LogEntry.LogEntryCache.EnsureLinkedUser | src/core/managers/log_entry.py:38-46 | a truthy Telegram id gets a user row; any other id changes nothing |
| LogEntry.LogEntryCache.EnsureLinkedChat | src/core/managers/log_entry.py:32-34 | a truthy Telegram id gets a chat row; any other id changes nothing |
| LogEntry.LogEntryCache.EnsureRecord | src/core/managers/log_entry.py:28-47 | truthy chat, target and actor ids get rows; a keyword clashing with a resolved foreign key raises with no log row written; otherwise the new row is inserted under a fresh id |
| LogEntry.LogEntryCache.AddLog | src/core/managers/log_entry.py:74-88 | when the create raises nothing is cached or written; otherwise the new row is inserted and its entry cached under its fresh id and marked dirty |
| LogEntry.LogEntryCache.GetClusterLogs | src/core/managers/log_entry.py:90-92 | exactly the cached entries of the given cluster |
| LogEntry.LogEntryCache.Sync | src/core/managers/log_entry.py:94-96 | the dirty set is emptied and nothing is written |
| LogEntry.LogEntryCache.AddLogThenGet | src/core/managers/log_entry.py:74-92 | an entry added without a clashing keyword is listed for its cluster with its action and reason, and its row holds them |
| NewsBroadcast.NewRow | src/core/managers/news_broadcast.py:28-29 | the new row holds the caller's cluster, actor, content and meta, zeroed counters, and the clock |
| NewsBroadcast.Loaded | src/core/managers/news_broadcast.py:43-53 | the cached broadcast has the row's id and every column of the row |
| NewsBroadcast.NewsBroadcastCache.AddBroadcastThenInitialize | src/core/managers/news_broadcast.py:39-70 | a broadcast added and then reloaded by `initialize` is cached exactly as `add_broadcast` cached it: the caller's content, cluster, actor and meta with zeroed counters |
| NewsBroadcast.NewsBroadcastCache.Initialize | src/core/managers/news_broadcast.py:39-54 | every row is cached under its id as loaded from the store |
| NewsBroadcast.NewsBroadcastCache.EnsureRecord | src/core/managers/news_broadcast.py:28-29 | the new row is inserted under a fresh id and nothing else in the table changes |
| NewsBroadcast.NewsBroadcastCache.AddBroadcast | src/core/managers/news_broadcast.py:56-70 | the new row is inserted, and its broadcast cached under its fresh id and marked dirty |
| NewsBroadcast.NewsBroadcastCache.GetClusterBroadcasts | src/core/managers/news_broadcast.py:72-74 | exactly the cached broadcasts of the given cluster |
| NewsBroadcast.NewsBroadcastCache.Sync | src/core/managers/news_broadcast.py:76-79 | the dirty set is emptied and nothing is written |
| NewsBroadcast.NewsBroadcastCache.AddBroadcastThenGet | src/core/managers/news_broadcast.py:56-74 | a broadcast added for a cluster is listed for that cluster with its content, and its row holds it |

## Left out

- Concurrency. The asyncio lock and interleaved coroutines are not modelled: every method runs to completion on its own. A race is expressed only by an edit placed between `BeginSync` and `CommitSync`.
- Tortoise ORM, SQL and the schema in src/core/models.py. The store is a map per table. Most tables are indexed by their unique key, and get-or-create is idempotent on them because of their `unique_together` constraints. The word filter table is indexed by row id and keeps its unique (chat, word) constraint as an invariant. The invite usage, mute and global ban tables have no unique constraint (src/core/models.py:143-225 gives them plain indexes only), yet the model keys them by (invite, user), (user, chat) and (user, cluster). `prefetch_related` and the lookup queries become map lookups.
- Duplicate rows in the invite usage, mute and global ban tables. The model holds at most one row per (invite, user), (user, chat) or (user, cluster). With duplicates in the store, `get_or_create` and `update_or_create` would raise MultipleObjectsReturned and `filter(...).delete()` would remove every matching row; the model does not show either.
- Cascading deletes, except for the chats of a removed cluster. Deleting a parent row does not remove its dependent rows in the other managers' tables.
- The parent tables. Each manager keeps its own copy of the users and chats tables, so a row created through one manager is not seen by another.
- Foreign keys are assumed consistent. A row's foreign keys name Telegram ids whose parents are taken to exist, without a check.
- `initialize` of every manager except log entries and news broadcasts. It loads the table into the cache; the base classes it calls are in src/core/managers/base, which is not part of this model. Each other class starts with an empty cache over a given table.
- `batch_size`. It only cuts the writes into chunks, and the model writes every payload at once.
- Ids and creation times of rows created during a sync. Such a row takes the cached record's id and time wherever the table has those columns. The store would assign a fresh id, and the clock for columns filled on creation.
- Validation and coercion by Tortoise (types, lengths, `null=False`). Unknown keyword arguments that reach `create` or `get_or_create` are dropped: Tortoise sets them on the instance but does not store them.
- Python's `True == 1` and other equalities across types, in the comparisons of the sync loops. Values of different `Val` kinds are never equal in the model.
- Aliasing. `get` and `get_full` return live references that callers can mutate, and tests/test_users_manager.py:153-162 relies on that. Records here are values, so the model cannot show it.
- List order. Lookups that return lists return maps or sets here. Iteration order matters only in the cluster sync and in `get_by_username`, where it is an explicit parameter.
- `str.lower` is modelled for the ASCII letters only. `str.strip` covers Python's whitespace set.
- `NickRepository.get_by_nick` and `NickManager.get_by_nick`. They are store queries ordered by the database, not cache operations.
- `UserManager.set_last_seen`, `set_meta`, `mark_bot` and `set_owner`, and `ChatManager.get_settings` and `set_settings`. Each is one `edit` or `get` of a single attribute, which `Users.UserCache.Edit`, `Chats.ChatCache.Edit` and the `Get` functions cover.
- Logging of sync failures and of incomplete cluster reconciliations.
- Users.UserCache.Flush: a failure writes nothing. The source runs the user batches without a transaction, so batches written before the failing one stay in the store.
- Users.UserCache.Sync: it inherits the simplification of `Users.UserCache.Flush`.
- Chats.ChatCache.Flush: a failure writes nothing. The source runs the chat batches without a transaction, so batches written before the failing one stay in the store.
- Chats.ChatCache.Sync: it inherits the simplification of `Chats.ChatCache.Flush`.
