# A verified model of the Roblox verification bot's commands

The bot links Discord members to Roblox accounts and keeps their Discord roles
in step with their Roblox group ranks. This project models, in Dafny, the parts
of its slash commands that decide what gets stored and which roles change:

- `/verify`: a two-stage button dialogue. The member confirms the Roblox profile
  found for the typed username. They are then shown a challenge phrase derived
  from their Discord id, and prove control of the account by putting the phrase
  in the profile description. On success the link is stored and the verified
  role is granted.
- `/unverify`: a confirmation, then a teardown. It removes the held roles that
  the server's bindings grant, deletes the record (twice), removes the verified
  role and clears the nickname.
- `/update`: refreshes the stored username. It then reconciles roles with the
  bindings: every removal comes before every addition, and each change gets up
  to three attempts.
- `/bind add|remove|view`: maintains the binding table, which maps
  (group, server, rank) to Discord role ids. `view` shows a group's roles sorted
  by rank, on pages of eight.
- `/points add|remove`: adjusts a points ledger for a comma-separated list of
  Roblox usernames.
- `/setup`: edits the configuration's channel ids and role-id lists.
- `/group`: edits the group registry.
- `/ban` and `/unban`: timed bans, at most one per Roblox id.

Layout:
- There is one module per command file.
- `Common` holds the shared pieces: `Option`, the role-permission test,
  JavaScript's `split`/`trim`/`join`/`includes`, and Set-based deduplication.
- `Guild` holds the shared stateful objects: the guild member, the
  verified-account store, and how Discord answers role changes.
- Stores that the source updates in place are classes whose methods are
  proved against pure functions. The lemmas state the commands' promises about
  those functions.
- Button clicks and collector time-outs are a sequence of events. Roblox and
  Discord answers are parameters: resolved ids (`None` when a lookup throws),
  profile descriptions, group-role lists, the role cache, and a fault map that
  says how many attempts of each role change Discord refuses.

Where the code does not do what its own messages suggest, the model follows
the code:
- After "DONE" on `/verify`, the phrase-proof collector is not stopped, whether
  the phrase matched or not (verify.js:183-192). Only "Cancel" (verify.js:203)
  and the window's end stop it, so the model's phrase stage stays open. The
  mismatch reply `i.update({ ..., components: [] })` removes the buttons from
  that message, so a later DONE reaches the still-open channel-wide collector
  only from another message that uses the same custom id; such a DONE can still
  succeed.
- `/verify` never shows its time-out message (verify.js:214-220 and 243-249).
  Both end handlers require `!interaction.replied`, but `interaction.replied`
  is already true once the prompt has been sent, so the guard is false. An
  expired window closes the dialogue silently and leaves no record.
  `/unverify` has no end handler at all.
- A username that does not resolve does not get a dedicated "account not
  found" answer. The lookup throws, and the command's catch-all answers with
  its generic error (`LookupFailed`).
- A verified match first stores the record and then adds the role. A failed
  role add is reported as an error, and the stored record is not rolled back.
- `/group` tests an id with `groupsJson[id]` (groups.js:94, 131), which is also
  truthy for the names JavaScript objects inherit, such as `toString` or
  `constructor`. `group add toString` is refused as already saved, and
  `group remove toString` reports a removal and rewrites the file unchanged.

## Model

| member | source | states |
|---|---|---|
| Common.HasAnyRole | binds.js:14-18 | the permission test holds iff some configured role id is among the member's roles |
| Common.Split | binds.js:236 | `split(',')` yields at least one piece, no piece contains the separator, and joining the pieces gives the input back |
| Common.SplitJoin | verify.js:18 | splitting a join of separator-free pieces gives the pieces back |
| Common.Trim | binds.js:236 | `trim()` is a contiguous slice of the input between all-white-space margins, and starts and ends with a non-space character when non-empty |
| Common.SplitTrim | points.js:51 | the parsed list has one trimmed piece per comma-separated part, so never fewer than one |
| Common.SplitTrimPieces | binds.js:271 | a parsed role id contains no comma and does not start with white space |
| Common.AddAll | binds.js:244 | inserting into an insertion-ordered set keeps the old list as a prefix, keeps it duplicate-free, and holds the union of the elements |
| Common.UnionKeepsOldOrder | binds.js:244 | `[...new Set([...old, ...new])]` of a duplicate-free list keeps the old ids first, in order, and is a duplicate-free union |
| Common.DedupOfDistinct | binds.js:244 | a duplicate-free list is its own Set |
| Common.Includes | verify.js:135 | `includes` holds iff the phrase occurs at some position of the description, exactly and case-sensitively |
| Guild.Member.AddRole | verify.js:148 | one role add: the role is added iff Discord accepts the call; the nickname is untouched |
| Guild.Member.RemoveRole | unverify.js:96-97 | one role removal: the role is removed iff Discord accepts the call; the nickname is untouched |
| Guild.Member.SetNickname | verify.js:152-158 | a nickname change takes effect iff it is allowed, and never touches roles |
| Guild.IdentityStore.FindOne | unverify.js:29 | the lookup by Discord id finds a record iff one is stored, and returns it |
| Guild.IdentityStore.Save | verify.js:137-142 | saving stores the record under its Discord id, replaces nothing else, and keeps every record keyed by its own id |
| Guild.IdentityStore.FindOneAndDelete | unverify.js:106-108 | afterwards no record exists for the id, and every other record is untouched |
| Verify.GenerateRandomPhrase | verify.js:13-19 | the loop yields word i = `table[i][id[i]]` (empty when missing) for every position, joined by single spaces |
| Verify.PhraseSplitsIntoWords | verify.js:13-19 | with space-free words, the phrase splits back into exactly one word per character of the id, in position order |
| Verify.Step | verify.js:93-241 | one collector callback: other users' clicks and non-button interactions change nothing; the only write is the caller's record {typed username, Roblox id, Discord id}, made iff a DONE click's non-empty description contains the phrase; the verified role is granted only together with that record; the phrase stage is entered only by "Yes"; "Verified" is replied only after a proof |
| Verify.RunWritesOnlyCallersRecord | verify.js:135-158 | over any events, the only record written is the caller's, and the only role granted is the first verified role, together with that record |
| Verify.NoProofNoChange | verify.js:130-192 | without a DONE click proving the phrase, no record is stored and no role or nickname changes |
| Verify.NothingBeforeYes | verify.js:93-126 | before "Yes", nothing changes, the phrase stage is never entered, and the only possible reply is the decline |
| Verify.ClosedIsFinal | verify.js:203-232 | once both collectors are stopped, later events change nothing and reply nothing |
| Verify.EndingsChangeNothing | verify.js:193-249 | a window end, "No" and "Cancel" each close the dialogue with no store, role or nickname change and at most one reply |
| Verify.OthersAreIgnored | verify.js:90-94 | dropping other users' clicks and non-button interactions does not change the outcome |
| Verify.Handle | verify.js:93-241 | the imperative callback on the store and the member has exactly the effect, next stage and replies of `Step` |
| Verify.Dialogue | verify.js:91-241 | the collectors acting on the events one by one have exactly the effect and replies of `Run` from the confirmation stage |
| Verify.Execute | verify.js:34-91 | configuration check, then username lookup, then the already-verified guard (each with no change), then the prompt and the dialogue over the events |
| Unverify.DecisionIsFirstStop | unverify.js:55-163 | the session's decision is the caller's first button click before the window closes; there is none iff the window closes or the events run out first |
| Unverify.Collect | unverify.js:55-163 | the collector loop stops at the first event that ends it and returns that decision |
| Unverify.Matching | unverify.js:78-81 | the bindings found are exactly the server's bindings listing some held role |
| Unverify.RoleOpsTouch | unverify.js:92-102 | the inner loop attempts exactly the listed roles that are held and cached, and removes those whose removal does not fail |
| Unverify.UnbindOpsTouch | unverify.js:89-103 | the nested loops attempt the held, cached roles of all the bindings, and a failure does not stop the loop |
| Unverify.RemoveListedRoles | unverify.js:92-102 | the inner loop removes, one at a time, the listed roles that are held and cached, logs every attempt, and the member loses exactly the removals that succeed |
| Unverify.UnbindTouchesHeldBoundRoles | unverify.js:75-103 | the removals attempted are exactly held ∩ the server's bound roles ∩ the role cache; a role not held is never touched |
| Unverify.TeardownOrder | unverify.js:89-124 | the order is: bound-role removals (held roles only), two record deletions, the verified-role removal (iff configured and cached), then the nickname clear |
| Unverify.RemoveBoundRoles | unverify.js:89-103 | the nested loops leave the member with the held roles minus those whose removal succeeded |
| Unverify.RemoveVerifiedRole | unverify.js:110-117 | the first verified role is removed iff the role cache knows it, and the member loses it iff the removal succeeds |
| Unverify.Teardown | unverify.js:75-124 | after "Yes" the record is gone, the roles lose exactly the removed ones, and the nickname is cleared iff allowed |
| Unverify.Execute | unverify.js:19-171 | no record: "not verified" and no change; cancel, time-out or a missing member: no change; "Yes": the teardown |
| Update.Retry | update.js:10-30 | the retry helper succeeds iff fewer attempts fail than it allows; it stops at the first success and never uses more attempts than allowed |
| Update.DefaultRetries | update.js:7-30 | with MAX_RETRIES = 3, at most three attempts are made, and a change succeeds iff fewer than three attempts fail |
| Update.AddRoleWithRetry | update.js:10-19 | the recursive helper behaves as `Retry`, adds the role iff it succeeds, and never raises |
| Update.RemoveRoleWithRetry | update.js:21-30 | the same for removal |
| Update.ServerBindings | update.js:92 | the bindings used are exactly those of the server |
| Update.RankMap | update.js:93-97 | every binding's rank id is a key, and every key comes from some binding |
| Update.LastBindingWins | update.js:95-97 | the list kept for a rank is that of the last binding with that rank |
| Update.RankMapIgnoresGroups | update.js:95-97 | the map does not depend on the bindings' group ids |
| Update.RolesToAdd | update.js:99-111 | the roles to add are duplicate-free |
| Update.RolesToAddMembers | update.js:99-111 | a role is to be added iff the list mapped from one of the member's rank ids holds it |
| Update.RolesToRemove | update.js:119-120 | a role is to be removed iff it is held, bound by some binding, and not to be added; duplicate-free when the held list is |
| Update.PlanIsConsistent | update.js:99-120 | the removal list is disjoint from the additions and lies within held ∩ bound roles |
| Update.BuildRankMap | update.js:93-97 | the loop builds `RankMap` |
| Update.CollectRolesToAdd | update.js:99-111 | the nested loops build `RolesToAdd` |
| Update.AppendNew | update.js:107 | the inner loop appends each of the rank's roles not yet in the set, in order: the result is the insertion-ordered union |
| Update.CollectBoundRoles | update.js:114-117 | the nested loops collect every role id of every binding |
| Update.ComputePlan | update.js:92-120 | the computed plan is `RolesToAdd` and `RolesToRemove` |
| Update.RemovalOps | update.js:123-129 | the removal loop touches exactly the cached roles of the removal list, and only removes |
| Update.AdditionOps | update.js:135-141 | the addition loop touches exactly the cached roles of the addition list, and only adds |
| Update.PlanOps | update.js:123-141 | every removal is issued before any addition |
| Update.ApplyRemovals | update.js:123-129 | the loop removes exactly the roles whose retried removal succeeded |
| Update.ApplyAdditions | update.js:135-141 | the loop adds exactly the roles whose retried addition succeeded |
| Update.ApplyPlan | update.js:123-141 | both loops together: removals first, then additions, and the member ends with (held − removed) + added |
| Update.RerunRemovesNothing | update.js:99-141 | after a fully successful run, a rerun plans no removal |
| Update.Execute | update.js:40-151 | a missing member, record or username fetch: failure with no change; a changed username is saved, the nickname follows when allowed and `usernameChanged` is reported; otherwise nothing is written; then the plan is applied |
| Binds.FindKey | binds.js:240 | the lookup finds the first binding with the (group, server, rank) key, or reports that none has it |
| Binds.AddBinding | binds.js:240-255 | an existing key's list becomes the deduplicated union and every other binding is untouched; a new key gets a binding holding exactly the parsed ids |
| Binds.AddKeepsTable | binds.js:240-255 | add never creates a second binding for a key, never leaves an empty list, and leaves a binding for the key |
| Binds.AddMergeOrder | binds.js:244 | merging keeps the old ids first, in order, then the new ones, duplicate-free |
| Binds.Without | binds.js:279 | `$pull` with `$in` keeps exactly the ids not listed |
| Binds.PullRoles | binds.js:277-280 | the listed ids are pulled from every binding of the group in the server, and all other bindings are untouched |
| Binds.DropEmpty | binds.js:283 | exactly the group's bindings left empty are deleted |
| Binds.DropEmptyUnique | binds.js:283 | deleting the emptied bindings keeps the (group, server, rank) keys unique |
| Binds.RemoveGroup | binds.js:291 | remove without a list deletes exactly the group's bindings in the server |
| Binds.RemoveRolesEffect | binds.js:277-283 | after remove with a list, no binding of the group holds a listed id or an empty list, and the other bindings are untouched |
| Binds.RemoveKeepsTable | binds.js:277-291 | both forms of remove keep keys unique and lists non-empty |
| Binds.InsertByRank | binds.js:106 | insertion adds exactly the one element |
| Binds.InsertKeepsSorted | binds.js:106 | insertion into a rank-sorted list keeps it sorted |
| Binds.SortByRank | binds.js:106 | the sort is a permutation in ascending rank order |
| Binds.Paginate | binds.js:117-129 | the pages cover the roles in order; page k is `slice(8k, 8k+8)`; each holds 1 to 8 roles; all but the last hold 8 |
| Binds.ConcatPages | binds.js:117-120 | the first m slices laid end to end are the roles before position min(8m, n) |
| Binds.PageSizes | binds.js:117-120 | slices of eight that reach the end of the list are non-empty, full but the last, and n / 8 rounded up in number |
| Binds.NavigateStaysOnPages | binds.js:158-183 | with Back disabled on page 0 and Next on the last page, the pager never leaves the pages |
| Binds.BoundRolesOf | binds.js:121-122 | a role shows the roles of the first binding whose rank id is the role's id, or none when no binding has it |
| Binds.InGroupOf | binds.js:109 | the view uses exactly the group's bindings in the server |
| Binds.BindingTable.View | binds.js:92-133 | a failed request gives the failure reply; otherwise line q of page p shows the role at position 8p+q of the rank-sorted list with its bound roles, pages hold 1 to 8 lines and all but the last hold 8; one to eight roles give a single page |
| Binds.BindingTable.Add | binds.js:231-260 | the table becomes `AddBinding` of the parsed input and stays valid |
| Binds.BindingTable.Remove | binds.js:267-297 | a non-empty list gives `RemoveRoles`; no list or an empty one gives `RemoveGroup`; the table stays valid |
| Binds.Execute | binds.js:75-92 | the owner check, then the configuration check, come before any table access; view never writes |
| Points.FailedAreUnknown | points.js:75-80 | the failed list names exactly the usernames the Roblox API does not know or knows only as id 0, in input order and with repeats |
| Points.SuccessfulAreKnown | points.js:75-81 | the successful list names exactly the other usernames, in input order and with repeats, each with its looked-up (non-zero) id |
| Points.FailedUsers | points.js:80 | the failed list holds exactly the lookups with a falsy id |
| Points.SuccessfulUsers | points.js:81 | the successful list holds exactly the lookups with a truthy id |
| Points.UsersArePartitioned | points.js:80-81 | every lookup lands in exactly one of the two lists |
| Points.FailedKeepsOrder | points.js:80 | the failed filter keeps list order |
| Points.SuccessfulKeepsOrder | points.js:81 | the successful filter keeps list order |
| Points.UpdatePoints | points.js:153-169 | an existing record moves by ±amount with no lower bound; a new record starts at the amount (add) or 0 (remove); nothing else changes |
| Points.UpdateAllEffect | points.js:84-86 | after the loop, a user listed c times has moved c times the amount (a new record on remove: c−1 times); unlisted users are untouched |
| Points.NoValidUsersIsUnreachable | points.js:109-120 | the "no valid users" reply cannot occur |
| Points.PointsStore.Update | points.js:153-169 | the stored ledger becomes `UpdatePoints` |
| Points.UpdateEach | points.js:84-86 | the loop applies the updates in list order, duplicates included |
| Points.Execute | points.js:49-120 | no points role, more than 10 names, or an amount ≤ 0 is rejected with no update; otherwise the resolved users are updated and the reply lists both groups |
| Setup.FirstIndex | setup.js:123 | `indexOf` gives the first position of the id, or none |
| Setup.RemoveFirst | setup.js:123-126 | `splice` at `indexOf` removes one element when the id is present and changes nothing otherwise |
| Setup.RemoveFirstMultiset | setup.js:123-126 | removing deletes exactly one copy of the id |
| Setup.AddId | setup.js:103-108 | a channel is overwritten; a role id is appended, duplicates allowed; only the named field changes |
| Setup.RemoveId | setup.js:119-127 | a channel becomes "" whatever id is given; a role list loses its first occurrence of the id; only the named field changes |
| Setup.AddThenRemoveRole | setup.js:107-126 | add then remove restores the role list as a multiset, and restores the configuration exactly when the id was absent |
| Setup.AppendThenRemove | setup.js:107-126 | `push` then `indexOf`/`splice` of the same id restores the list as a multiset, and exactly when the id was absent before |
| Setup.RemoveFirstEmpties | setup.js:123-126 | `splice` at `indexOf` leaves an empty list iff the list was empty or held only that id |
| Setup.ViewOf | setup.js:76-81 | every editable field shows "Not Set" iff it is empty, and otherwise its own channel id or role list; the owner list is shown as it is |
| Setup.AddIdShown | setup.js:103-108 | in the view of lines 76-80, after an add a role list is never "Not Set" and shows the id appended; a channel shows the new id unless it is empty; other fields display as before |
| Setup.RemoveIdShown | setup.js:119-127 | in the view of lines 76-80, after a remove a channel shows "Not Set"; a role list shows "Not Set" iff it was empty or held only that id; other fields display as before |
| Setup.IndexOfId | setup.js:123 | the search loop returns -1 iff the id is absent, and otherwise the first index |
| Setup.ConfigFile.Add | setup.js:99-111 | the file content becomes `AddId` |
| Setup.ConfigFile.Remove | setup.js:115-130 | the file content becomes `RemoveId` |
| Setup.Execute | setup.js:61-133 | a caller without an owner role is rejected and nothing is written; otherwise view, add or remove |
| Groups.ViewGroups | groups.js:50-73 | the reply is exactly one of: file missing (iff there is no file), no groups (iff the map is empty), or the listing of every saved id with its name |
| Groups.AddGroup | groups.js:83-121 | an id that `groupsJson[id]` finds, a saved one or an inherited name such as `toString`, is refused before any request and nothing changes; a failed fetch changes nothing; otherwise exactly one entry is inserted (a missing file counts as empty) and all other entries are kept |
| Groups.RemoveGroup | groups.js:123-158 | with the file present, a saved id or an inherited name is reported removed and only a saved id's entry is deleted (an inherited name leaves the file as it was); any other id, or a missing file, is refused and nothing changes |
| Groups.AddThenRemove | groups.js:107-136 | adding an id that is neither saved nor inherited and removing it again restores the map |
| Groups.AddTwice | groups.js:94-99 | a second add of the same id is refused and changes nothing |
| Groups.RemoveTwice | groups.js:131-145 | a second remove of the same id changes nothing, and reports the id missing unless it is an inherited name of an existing file |
| Groups.GroupsFile.Add | groups.js:83-121 | the file becomes `AddGroup`'s result |
| Groups.GroupsFile.Remove | groups.js:123-158 | the file becomes `RemoveGroup`'s result |
| Groups.Execute | groups.js:43-158 | a caller without an owner role is rejected and nothing changes; otherwise view, add or remove |
| Ban.FindBan | ban.js:22-24 | the ban lookup finds the first record for the Roblox id, or reports that none exists |
| Ban.ExpiryTimestamp | ban.js:83 | the expiry is the current time in whole seconds (floor of ms/1000) plus 60 s per minute of duration |
| Ban.ExpiryMonotonic | ban.js:83 | a later clock or a longer duration never gives an earlier expiry |
| Ban.BanUser | ban.js:69-93 | an already-banned id is refused and the store is unchanged; otherwise exactly one record {username, id, reason, duration, expiry} is appended |
| Ban.BanKeepsUnique | ban.js:69-93 | check-then-insert keeps at most one ban per Roblox id, and afterwards the id is banned |
| Ban.BanTwice | ban.js:70-78 | a second ban of the same id is refused and changes nothing |
| Ban.BanStore.FindOne | ban.js:22-24 | the search loop finds the first record for the id |
| Ban.Execute | ban.js:49-118 | the configuration and permission checks come before any store access; a failed lookup changes nothing |
| Unban.DeleteBan | unban.js:70 | `findOneAndDelete` with no record for the id changes nothing; otherwise, for the first record i of the id, the result is one shorter, lacks exactly one copy of record i, and keeps every other record in order |
| Unban.UnbanUser | unban.js:54-70 | an id without a ban is refused and nothing changes; otherwise one record is deleted |
| Unban.UnbanClearsUser | unban.js:55-70 | with one ban per id, no record remains for the id, the others are kept, and the collection stays unique |
| Unban.DeleteOnlyBan | unban.js:70 | deleting the only record of an id from a unique collection leaves a unique collection with no record for the id |
| Unban.DeleteKeepsOthers | unban.js:70 | that deletion keeps exactly the records of the other ids |
| Unban.BanThenUnban | unban.js:70 | banning a fresh id and then unbanning it restores the collection |
| Unban.FindOneAndDelete | unban.js:70 | the delete loop removes exactly `DeleteBan`'s record |
| Unban.Execute | unban.js:37-83 | the configuration and permission checks come before any store access; then the not-banned guard, then the delete |

## Left out

- Discord plumbing is not modelled: embeds, buttons, `reply`/`update`/`editReply`, the `replied`/`deferred` bookkeeping, and log-channel messages. Replies are outcome tags.
- Exceptions thrown by Discord's reply calls are not modelled.
- Network calls are parameters: noblox lookups, Roblox users and groups API requests, thumbnails. `startServer` (ban.js:100, unban.js:72) is not modelled.
- Real time is left out: the 15-second and 60-second collector windows, retry backoff, cooldowns and the 500 ms delay. Windows become `WindowEnd` events; only ordering is kept.
- Concurrency is left out. Collectors are channel-wide and share custom ids across commands, and commands can race. Events are handled one at a time, in order.
- `check.js` and `help.js` are not part of this model.
- File and configuration I/O, and JSON parsing, are not modelled. The configuration check (`isConfigComplete`) is a boolean input. Role-id lists are read from the configuration as parameters.
- MongoDB query semantics beyond key equality are not modelled. In particular, `Number(guild.id)` versus string server ids (unverify.js:80) is treated as a plain match on the server id.
- The verified-account store is a map keyed by Discord id, so it holds one record per id.
- Failed database writes and network errors are not modelled, apart from those a command explicitly catches and answers: a failed lookup or fetch is `None` and yields the failure reply.
- Binds.BindingTable.View: with zero roles, the source sends `pages[0]` of an empty page list. What Discord does then is not modelled; the model replies with an empty paged view.
- Binds.Execute: its postcondition does not restate the view's reply; that is `BindingTable.View`'s contract.
- The pager's collector is modelled only through `Navigate`: clicks arrive only on enabled buttons. The disabled buttons after the window ends are not modelled.
- Groups.ViewGroups: the listing is a map, so the `Object.entries` order of the lines is not modelled.
- Points.UpdatePoints: points are unbounded integers; JavaScript number precision is not modelled.
- Unverify.Execute: on "Yes" with no member, the source replies and returns before `collector.stop()`. The reply removes the buttons, so later clicks are not modelled.
- Update.Execute: the `groups.length > 0` test is not modelled separately; an empty group list yields no additions either way.
- Role-change failures come from a fault map. A single attempt fails iff the role's count is positive; a retried change succeeds iff fewer attempts fail than it allows.
- Verify.Execute: the thumbnail request at verify.js:56 is folded into the username lookup; a failure of either gives the generic error reply.
