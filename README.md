# League-Stalker core, modelled in Dafny

League-Stalker is a Discord bot. It keeps a roster of League of Legends players (`username#tag` plus the Riot puuid). Every 30 seconds it probes each rostered player through the Riot spectator API. When a player goes from "not in game" to "in game", it posts a message to every Discord guild that has bound a notification channel, unless that guild only wants ranked games and the game is not ranked. Besides this loop, the bot keeps four JSON stores:

- the roster (`tracked-players.json`);
- the per-guild notification channel (`guild-channels.json`);
- the per-guild `rankedOnly` flag (`guild-settings.json`);
- a per-guild ping subscription table (`ping-list.json`). It maps a target (`GLOBAL` or one player's puuid) to the users subscribed to it, each with the type `all` or `ranked`. Legacy files, which held a flat array of user ids per guild, are migrated on load.

The project models these pieces:

- `common.dfy`: shared value types: optional values, results, and `{ success, message }` replies.
- `text.dfy`: JavaScript's one-character `split`, `trim` (with the ECMAScript whitespace set) and `join`, plus the "split into two trimmed, non-empty parts" pattern.
- `ping_list.dfy`: the subscription table.
  - Migration is a loop over the guild entries. Subscribe and unsubscribe include pruning of empty targets. `getUsersToPing` (with `checkSub`) and `getPingSubscribers` are loops that fill a set.
  - The store is a class whose field is the document on disk.
- `tracked_players.dfy`: the roster.
  - Parsing of `username#tag`.
  - The duplicate test by puuid or by exact string.
  - Append on add, and the exact-string filter on remove.
  - The store class.
- `guild_settings.dfy`: the `rankedOnly` flag, which reads as `true` when it is absent. Also the set operation and the store class.
- `guild_channels.dfy`: the channel bindings (the last write wins) and the store class.
- `monitor.dfy`: the monitoring core of `index.js`.
  - The `playerStatus` map and the rule "a game started = previously not in game and now in game".
  - One monitoring cycle over the roster, and repeated cycles.
  - The fan-out of `notifyPlayerInGame`, with its ranked-only filter and its message label.
  - The status upkeep of `!track` and `!untrack`.
- `commands.dfy`: the argument handling of the chat commands: prefix plus `trim`, `!find username,tag` parsing, the `!gamemode` toggle and `!channel`.

The effects around the logic become inputs:

- Every store's load and save is collapsed onto a field holding the document, so a load reads the field and a save writes it. The outcome of each save is a `saved: bool` parameter, and a failed save leaves the field unchanged.
- The Riot account lookup is an input `Option<Puuid>`. For `!find` it is a function from username and tag to that option.
- A spectator probe is an input `Option<Status>`, where `None` is a failed lookup.
- Whether a guild's channel could be fetched and accepted the message is an input set `reachable` of guilds.

Points about the code worth knowing:

- `notifyPlayerInGame` does not consult the ping subscription table. It only posts to bound channels, so no user is mentioned in a notification. `getUsersToPing` is modelled on its own.
- A game is ranked exactly when its reported game type is the string `RANKED` (`index.js:236`). No queue table is involved.
- Duplicate detection and removal on the roster compare the exact `username#tag` string as typed, with no case folding. The puuid comparison is exact as well.

## Model

| member | source | states |
|---|---|---|
| Text.Trim | functions/tracked-players.js:48-49 | the result is the input with exactly its leading and trailing whitespace removed: a slice whose outside is all whitespace and whose ends, when non-empty, are not; it is empty exactly when the input is all whitespace |
| Text.TrimUnique | functions/tracked-players.js:48-49 | any slice bounded that way is the trimmed text, so `trim` is determined by those bounds |
| Text.TrimPadded | index.js:39 | whitespace put around a trimmed, non-empty text is removed again, and nothing else |
| Text.TrimOfTrimmed | index.js:39 | trimming text that is already trimmed returns it unchanged |
| Text.Split | functions/tracked-players.js:43 | `split` on one character gives one piece more than there are separators, and no piece holds the separator |
| Text.JoinSplit | functions/tracked-players.js:43 | joining the pieces of a split with the separator gives the input back |
| Text.SplitPair | functions/tracked-players.js:43-53 | wrong part count iff the separator does not occur exactly once; empty part iff one of the two pieces is all whitespace; otherwise the parts are the two pieces around the separator, each trimmed, and are non-empty and separator-free |
| Text.SplitPairOfJoined | functions/tracked-players.js:43-53 | round trip: two trimmed, non-empty, separator-free parts joined by the separator split back into exactly those parts |
| Text.SplitPairOfPadded | functions/tracked-players.js:43-53 | round trip with padding: whitespace around either part before or after the separator is dropped, and the two parts come back |
| PingList.MigratedEntry | functions/ping-list.js:20-35 | a legacy array becomes a GLOBAL-only table holding exactly its users, each with type `all`; an object without `subscriptions` becomes `{GLOBAL:{}}`; a structured entry is kept |
| PingList.AllSubscribers | functions/ping-list.js:27-29 | the loop over the legacy array yields exactly the listed users, each mapped to `all` |
| PingList.Migrate | functions/ping-list.js:17-38 | every guild entry is replaced by its migrated form, the guild set is kept, the result is fully migrated, and `modified` holds iff some entry needed migration |
| PingList.MigrationIdempotent | functions/ping-list.js:18-37 | migrated data is left unchanged, so migrating twice is migrating once |
| PingList.MigratedLegacyLookup | functions/ping-list.js:20-30 | after migration a legacy guild has an `all` GLOBAL subscription for exactly its listed users and nothing else |
| PingList.Loaded | functions/ping-list.js:47-53 | the document a load leaves on disk: unchanged when it was already migrated or the write-back failed, fully migrated when the write-back succeeded |
| PingList.LoadedThenLoad | functions/ping-list.js:41-54 | whether the write-back of a migration was saved cannot be seen by the next load |
| PingList.Subscribe | functions/ping-list.js:82-97 | the (guild, target, user) entry becomes the new type; every other entry and guild is unchanged; the guild's targets afterwards are exactly its old targets (or `GLOBAL` alone when the guild or its `subscriptions` was missing) plus the new target |
| PingList.Unsubscribe | functions/ping-list.js:117-130 | exactly that entry is removed; the target key survives iff another user is still under it; the guild keeps its `subscriptions` object even when it becomes empty; other targets and guilds are unchanged |
| PingList.Matches | functions/ping-list.js:158-162 | `checkSub`: a type fires iff it is `all`, or the game is ranked; for an unranked game exactly the non-`ranked` types fire |
| PingList.AddFiring | functions/ping-list.js:164-171 | one `Object.entries` loop adds exactly the users whose type matches the game, as `checkSub` decides |
| PingList.UsersToPing | functions/ping-list.js:148-191 | a user is pinged iff their subscription to this player, or to GLOBAL, is `all`, or is `ranked` and the game is ranked; an unknown guild gives nobody |
| PingList.Subscribers | functions/ping-list.js:194-206 | exactly the users with any subscription in the guild |
| PingList.AdditiveTargets | functions/ping-list.js:164-188 | player-specific and GLOBAL subscriptions add up; a GLOBAL `ranked` subscription does not hide a player `all` subscription |
| PingList.UnsubscribeLastLeavesNoTarget | functions/ping-list.js:125-130 | removing the last user of a target removes the target, and later lookups find nobody under it |
| PingList.PingListFile.Load | functions/ping-list.js:41-59 | a load returns the migrated document; the stored document becomes the migrated one only when there was something to migrate and the write-back succeeded |
| PingList.PingListFile.AddPingSubscriber | functions/ping-list.js:79-106 | refused as already subscribed iff the stored type equals the requested one; otherwise success iff saved; on success the document is `Subscribe` of the loaded one, otherwise only the load's write-back shows |
| PingList.PingListFile.RemovePingSubscriber | functions/ping-list.js:114-139 | refused iff the guild, the target or the user entry is absent; otherwise success iff saved; on success the document is `Unsubscribe` of the loaded one |
| PingList.PingListFile.GetUsersToPing | functions/ping-list.js:148-191 | the users to ping on the loaded document, as `UsersToPing` states |
| PingList.PingListFile.GetPingSubscribers | functions/ping-list.js:194-206 | every user with a subscription in the guild on the loaded document |
| TrackedPlayers.ParseUsernameTag | functions/tracked-players.js:43-53 | invalid format iff the input does not hold exactly one `#`; missing part iff username or tag is all whitespace; otherwise username and tag are the trimmed pieces before and after the `#`, non-empty and `#`-free |
| TrackedPlayers.ParseNameTag | functions/tracked-players.js:43-53 | a stored player's `username#tag` parses back to its username and tag |
| TrackedPlayers.IsDuplicate | functions/tracked-players.js:64-67 | true iff some stored player has the same puuid or exactly the typed `username#tag` |
| TrackedPlayers.WithoutNameTag | functions/tracked-players.js:85-87 | keeps exactly the players whose `username#tag` differs from the input; the length is unchanged iff nobody matched |
| TrackedPlayers.WithoutNameTagAppend | functions/tracked-players.js:85-87 | the filter keeps the original order: filtering a concatenation concatenates the filtered parts |
| TrackedPlayers.WithoutNameTagKeeps | functions/tracked-players.js:85-87 | a non-matching player survives removal |
| TrackedPlayers.WithoutNameTagIdempotent | functions/tracked-players.js:85-87 | removing twice is removing once |
| TrackedPlayers.WithoutNameTagKeepsUnique | functions/tracked-players.js:85-87 | the filter keeps a subsequence, so a roster with distinct puuids keeps them distinct |
| TrackedPlayers.IndexOfNameTag | index.js:119-121 | the position of the first player with that `username#tag`, or the roster length when there is none |
| TrackedPlayers.RemovedIsFirstMatch | functions/tracked-players.js:96 | the player reported as removed is the first one whose `username#tag` matched |
| TrackedPlayers.AppendKeepsUnique | functions/tracked-players.js:63-68 | appending a player that the duplicate test lets through keeps the roster's puuids distinct |
| TrackedPlayers.AddOutcome | functions/tracked-players.js:41-77 | the reply of `addTrackedPlayer`: a parse error first, then not-found for a null or empty puuid, then already-tracked, then the save outcome; success iff the parse succeeds, the puuid is non-empty, the player is no duplicate and the save succeeds |
| TrackedPlayers.RemoveOutcome | functions/tracked-players.js:80-101 | the reply of `removeTrackedPlayer`: not-in-list iff no `username#tag` matches exactly; success iff some player matches and the save succeeds, reporting the first match |
| TrackedPlayers.TrackedPlayersFile.AddTrackedPlayer | functions/tracked-players.js:41-77 | the reply is `AddOutcome` of the stored roster; on success the new player is appended at the end; on any error the roster is unchanged; distinct puuids stay distinct |
| TrackedPlayers.TrackedPlayersFile.RemoveTrackedPlayer | functions/tracked-players.js:80-101 | the reply is `RemoveOutcome` of the stored roster; on success the roster is the order-preserving filter, otherwise unchanged; distinct puuids stay distinct |
| TrackedPlayers.TrackedPlayersFile.GetTrackedPlayers | functions/tracked-players.js:104-106 | returns the stored roster |
| GuildSettings.RankedOnly | functions/guild-settings.js:56-62 | false exactly when the guild exists and its flag is explicitly `false`; absent means `true` |
| GuildSettings.WithRankedOnly | functions/guild-settings.js:41-45 | the guild exists afterwards with the new flag and its other fields kept; every other guild is unchanged |
| GuildSettings.RankedOnlyAfterSet | functions/guild-settings.js:45-61 | after setting `v`, reading gives `v`; other guilds read as before |
| GuildSettings.ModeText | functions/guild-settings.js:49 | "ranked games only" exactly for `true`, "all games" for `false` |
| GuildSettings.GuildSettingsFile.SetRankedOnly | functions/guild-settings.js:40-53 | success iff saved, with the mode named in the message; on success the stored settings are `WithRankedOnly` of the old ones, otherwise unchanged |
| GuildSettings.GuildSettingsFile.GetAllGuildSettings | functions/guild-settings.js:65-67 | returns the stored settings |
| GuildChannels.ChannelOf | functions/guild-channels.js:53-56 | the bound channel, or none when the guild is unbound or bound to an empty id |
| GuildChannels.ChannelAfterSet | functions/guild-channels.js:40-56 | a binding overwrites the earlier one for its guild and leaves every other guild's channel unchanged |
| GuildChannels.GuildChannelsFile.SetGuildChannel | functions/guild-channels.js:40-50 | success iff saved; on success the guild is bound to the channel, otherwise nothing changes |
| GuildChannels.GuildChannelsFile.GetAllGuildChannels | functions/guild-channels.js:59-61 | returns the stored bindings |
| Monitor.Observe | index.js:195-206 | a failed probe changes nothing and starts nothing; any other probe is stored; a start is reported iff the probe says in game and the stored status (default not in game) did not |
| Monitor.NoRepeatedStart | index.js:200-206 | once in game is stored, the next probe, whatever it says, reports no start |
| Monitor.Cycle | index.js:193-218 | a cycle reports at most one start per rostered player |
| Monitor.Announced | index.js:193-211 | a start is listed for a rostered player iff `Observe` against the status before the cycle reports one for that player's probe, each with the player and the probed game type |
| Monitor.AnnouncedAgrees | index.js:200-203 | whether a player's start is announced depends only on that player's own stored status |
| Monitor.CycleStartsAnnounced | index.js:193-211 | with distinct puuids, a cycle's starts are, in roster order, exactly the announced starts, each judged against the status before the cycle |
| Monitor.CycleStatus | index.js:193-218 | with distinct puuids, after a cycle each player's status is its probe result, or untouched when the probe failed; puuids off the roster are untouched |
| Monitor.CycleOfOne | index.js:193-211 | a cycle over a one-player roster stores what `Observe` stores and reports one start, with the probed game type, exactly when `Observe` reports one |
| Monitor.Cycles | index.js:189-222 | repeated cycles give one list of starts per round of probes; their contents are stated by the lemmas below |
| Monitor.StartsAreRisingEdges | index.js:195-211 | over repeated cycles, the number of a single player's announced starts equals the number of false-to-true steps in its successful probes, counted from its stored status |
| Monitor.StartsPerCycle | index.js:195-211 | cycle by cycle, a single player gets a start exactly when that cycle's probe succeeded and says in game while the last successful earlier probe (or the stored status, when there is none) said not in game; so never on true-to-true, false-to-false or true-to-false |
| Monitor.WantsRankedOnly | index.js:242 | the fan-out's `rankedOnly !== false` reads the same flag as `getRankedOnly` |
| Monitor.Skips | index.js:236-247 | a guild is skipped iff it reads as ranked-only and the game type is not exactly the string `RANKED` |
| Monitor.Label | index.js:251 | the label is the reported game type, or "game" when it is missing or empty |
| Monitor.NotifyPlayerInGame | index.js:226-262 | a message goes to a guild iff it is bound, is not skipped by the ranked-only filter, and its channel accepts it; one guild's failure does not stop the others; no bindings means no message |
| Monitor.RankedOnlyGuildSkipsUnranked | index.js:242-247 | a guild whose flag is not explicitly `false` gets nothing about a non-ranked game |
| Monitor.OneGameOneAnnouncement | index.js:193-262 | probes not-in-game, in "Normal Draft", in "Normal Draft", not-in-game give exactly one start, in the second cycle; it reaches a guild with ranked-only off, labelled "Normal Draft" |
| Monitor.StatusMonitor.CheckPlayer | index.js:195-211 | the status map and the start flag are those of `Observe` |
| Monitor.StatusMonitor.RunCycle | index.js:193-218 | the status map and the starts are those of `Cycle`; every start is fanned out, and a message is sent iff some start is delivered to its guild |
| Monitor.StatusMonitor.Track | index.js:88-107 | an empty argument is refused with nothing changed; otherwise the reply is `AddOutcome` of the roster before the command, the roster changes as `addTrackedPlayer` does, and exactly a successful add sets the new puuid's status to not in game |
| Monitor.StatusMonitor.Untrack | index.js:109-134 | for a non-empty argument the reply is `RemoveOutcome` of the roster before the command; the roster is filtered on success and unchanged otherwise, so a failed save leaves the player tracked; distinct puuids stay distinct; the status of the first matching player is deleted whenever one matched, even when the removal was not saved |
| Monitor.StatusMonitor.UntrackChecked | index.js:109-134 | as `Untrack`, with the same reply and roster, but the status is deleted only when the removal succeeded |
| Monitor.StatusAfterUntrack | index.js:127-129 | as written: the status map loses the first matching player's puuid when one matched, and nothing else; every surviving entry is unchanged |
| Monitor.StatusAfterUntrackChecked | index.js:127-129 | corrected: unchanged when the removal did not succeed, otherwise as `StatusAfterUntrack` |
| Monitor.UntrackFailedSaveRenotifies | index.js:116-129 | as written, a failed untrack of a player in game makes the next cycle announce the same game again |
| Monitor.UntrackCheckedKeepsTrackedStatus | index.js:116-129 | corrected, a player still on the roster after `!untrack` keeps its status, given distinct puuids |
| Commands.CommandArgument | index.js:38-39 | defined iff the message starts with the prefix; the argument is the rest of the message after the prefix, trimmed, and empty iff that rest is all whitespace |
| Commands.CommandArgumentOfTyped | index.js:38-39 | the prefix followed by a trimmed argument gives that argument back |
| Commands.Find | index.js:39-59 | the usage hint iff there is not exactly one comma; missing part iff username or tag is all whitespace; otherwise the lookup decides, and an empty or null puuid is "not found" |
| Commands.FindCommand | index.js:38-64 | handles exactly the messages that start with `!find ` and answers as `Find` on their argument |
| Commands.FindOfTyped | index.js:38-59 | round trip: `!find u,t` with trimmed, non-empty, comma-free parts looks up exactly `u` and `t` |
| Commands.FindArgumentOfTyped | index.js:38-39 | the argument of `!find u,t` with trimmed, non-empty parts is `u,t` |
| Commands.FindCommandOfArgument | index.js:38-64 | a `!find` message is answered as `Find` on its argument |
| Commands.FindOfJoined | index.js:39-59 | `u,t` with trimmed, non-empty, comma-free parts looks up exactly `u` and `t` |
| Commands.FindOfPadded | index.js:39-59 | spaces around the comma or around either part do not reach the lookup |
| Commands.FindWithoutCommaIsUsage | index.js:40-43 | an argument without a comma always gets the usage hint |
| Commands.Toggled | index.js:173-175 | the guild reads the negation of its old flag, and every other guild reads as before |
| Commands.ToggleTwice | index.js:173-175 | toggling twice restores the mode the guild reads, and stores it explicitly |
| Commands.ToggleGameMode | index.js:166-181 | outside a guild, the refusal with nothing changed; inside one, the negated flag is stored iff saved, and the store's reply is relayed |
| Commands.SetChannel | index.js:151-164 | outside a guild, the refusal with nothing changed; inside one, the guild is bound to the current channel iff saved, and the store's reply is relayed |

## Left out

- File handling (`ensure*`, `load*`, `save*`): file creation, JSON parsing and printing, and the empty document returned after a read or parse error are not modelled. Each store is its document in memory, and each save outcome is a parameter.
- The Riot HTTP wrappers `functions/in-game.js` and `get-player-Id.js` are inputs. `functions/in-game.js` is not part of this model, and neither is the dead duplicate `in-game.js` at the repository root.
- The keep-alive web server (`functions/upTime.js`) is not part of this model.
- Discord client setup, message dispatch, `channels.fetch` and `send` are left out. A guild's delivery success is the input set `reachable`.
- The `setInterval` timer, the 100 ms delay between probes and error logging are left out.
- Concurrency is left out: the monitor does not await notifications, and command handlers race the loop and each other on the stores. The model is sequential, so a cycle's notifications are taken to happen inside the cycle.
- Reply and message texts are left out where they carry no logic. Examples are the messages of `addTrackedPlayer`, `removeTrackedPlayer` and the ping-list operations, and the emoji and bold formatting of the notification. The outcomes are datatypes instead.
- `!ping`, `!stalk` and `!list` are left out. They only relay replies and perform no state change.
- Subscription types other than the two documented types, `all` and `ranked`, are left out; `addPingSubscriber` stores whatever type it is given.
- Fields of the JSON documents other than those named here are left out, except the other fields of a guild's settings object.
- PingList.UsersToPing: returns a set. The insertion order of the array that `getUsersToPing` returns is not modelled.
- PingList.Subscribers: returns a set. The order of the array that `getPingSubscribers` returns is not modelled.
- Monitor.Cycle: a probe that throws inside the loop body is treated as a failed probe (`None`). The spectator wrapper reports every failure that way, so no other case reaches the loop.
- Monitor.StartsAreRisingEdges: stated for a one-player roster, and as a count; `Monitor.StartsPerCycle` gives the cycle-by-cycle statement for that roster, and `Monitor.CycleStatus` and `Monitor.CycleStartsAnnounced` cover larger rosters with distinct puuids.
- Monitor.StatusMonitor.Track: the reply text of `addTrackedPlayer` is represented by its `TrackError`. The catch branch for an exception from the store is not modelled.
- The status map is not persisted, so a restart forgets which players were in game. This property of the system is not modelled.

## Findings

| source | as written | input that shows it | evidently intended | confidence | as-written member | corrected member |
|---|---|---|---|---|---|---|
| index.js:116-129 | `!untrack` deletes the status entry of the first matching player whenever one was found, even when `removeTrackedPlayer` failed to save and the player stays on the roster | roster `[Bork#NA1 (p1)]`, p1 stored as in game, `!untrack Bork#NA1` with a failed save, then a cycle that probes p1 still in the same game: the game is announced a second time | delete the status only when the removal succeeded | medium, not executed | Monitor.UntrackFailedSaveRenotifies | Monitor.UntrackCheckedKeepsTrackedStatus |
