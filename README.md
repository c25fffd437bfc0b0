# Townsquare bot: a verified model of its guild logic

The Townsquare bot runs a social-deduction game ("Blood on the Clocktower") on a
Discord server. A host starts a game from a voice channel. The bot then tracks
who is host, player or spectator. It moves people between a "Main Hall" and
numbered private rooms, either on a slash command or on a JSON control message
posted by a web app into the `townsquare-control` channel.

This project models that decision logic over an abstract guild snapshot and
proves what it does:

- **`Guilds`**: the snapshot and the platform calls that change it. Roles,
  members and channels are sequences in cache order. `Guilds.Guild` is a class
  whose methods are `setChannel`, `roles.add`/`remove`, `setMute`, and role and
  channel creation and deletion.
- **`Seqs`**: `Collection.find` and `Collection.filter` as first match and
  order-preserving sub-sequence, with the lemmas the handlers need.
- **`Text`**: `toLowerCase` and `startsWith`.
- **`Movement`**: `moveAllToMainCore`. It makes four checks in a fixed order,
  then relocates and counts the eligible members.
- **`Control`**: the `messageCreate` interpreter. It filters messages, then
  dispatches MOVEALL, MOVE, MOVEPRIVATE and RETURN.
- **`Sessions`**: the `activeGames` map (class `Sessions.Bot`) and the commands
  `/newgame`, `/spectator`, `/endgame` and `/uninstall`.
- **`Setup`**: `/setup`. It creates the missing roles, creates the category if
  it is missing, and appends the rooms.
- **`Muting`**: `/silence` and `/talk`.
- **`Lifecycle`**: `/uninstall` after `/setup` restores the roles and channels
  of a guild that had neither.

Each handler runs as one atomic step. Imperative handlers are methods, proved
equal to a pure function of the old state. The properties are proved about
those functions.

A few details of the bot's behaviour are easy to miss, and the model keeps
each of them:

- Name matching is not uniform.
  - `moveAllToMainCore` matches the category "townsquare" and the room
    "main hall" ignoring case.
  - The control handlers, `/setup` and `/uninstall` match the category exactly
    as "Townsquare".
  - RETURN matches exactly "Main Hall".
  - MOVE compares usernames and room names ignoring case.
- `/setup` creates the category only when it is missing. It appends the three
  public rooms, the five private rooms and the control channel on every run,
  so a second run duplicates them.
- `/newgame` accepts only a channel of kind GuildVoice, not a stage channel.
- `/spectator` checks for the Spectator and Player roles before it refuses the
  host.
- A control message whose handler needs a field the payload lacks changes
  nothing, just like an unknown `type`.

## Model

| member | source | states |
|---|---|---|
| Seqs.FindValue | src/bot.ts:198 | `Collection.find`: None exactly when no element matches; otherwise a matching element with no earlier match |
| Seqs.Filter | src/bot.ts:216-218 | `Collection.filter`: keeps exactly the matching elements and never grows |
| Seqs.Count | src/bot.ts:624 | `members.size` of a filtered collection: zero exactly when nothing matches |
| Seqs.FindAfterFilter | src/bot.ts:216-223 | finding in a filtered collection picks the first element passing both tests |
| Seqs.FindValueAppend | src/bot.ts:309-319 | a match in the existing cache shadows everything appended after it |
| Seqs.CountAppend | src/bot.ts:110-116 | a count over a concatenation is the sum of the counts |
| Seqs.FilterAppend | src/bot.ts:102 | filtering distributes over concatenation |
| Seqs.FilterKeepsAll | src/bot.ts:102 | a filter that every element passes keeps the sequence whole |
| Seqs.FilterDropsAll | src/bot.ts:102 | a filter that no element passes yields nothing |
| Text.Lower | src/bot.ts:212 | `toLowerCase` keeps the length and lowers each ASCII capital |
| Text.StartsWith | src/bot.ts:620 | case-sensitive prefix test; `Setup.PrivateRoomName` and `Control.FirstEmptyPrivateRoom` state what it is used for |
| Text.LowerIdempotent | src/bot.ts:571-573 | a lowered name lowers to itself; `Guilds.MemberNamedIgnoresCase` uses it |
| Guilds.RoleByName | src/bot.ts:198 | the first role with exactly that name; None only if no role has it |
| Guilds.Occupancy | src/bot.ts:624 | a room's member count; `Control.EmptyInIffUnoccupied` states that zero means nobody is connected |
| Guilds.MemberNamed | src/bot.ts:570-574 | the index of the first member whose username matches ignoring case; None if none matches |
| Guilds.MemberNamedIgnoresCase | src/bot.ts:570-574 | the username lookup gives the same member for a name and for its lower-cased form |
| Guilds.TownsquareCategory | src/bot.ts:578-582 | the first category named exactly "Townsquare"; None only if there is none |
| Guilds.MoveMember | src/bot.ts:596 | `setChannel` changes member `i`'s voice channel and nothing else |
| Guilds.Guild.SetChannel | src/bot.ts:596 | only member `i`'s voice channel changes |
| Guilds.Guild.UpdateRoles | src/bot.ts:442-450 | member `i`'s roles become `roles + add - remove`; nothing else changes |
| Guilds.Guild.SetMute | src/bot.ts:166 | only member `i`'s mute flag changes |
| Guilds.Guild.CreateRole | src/bot.ts:283-288 | the created role is appended to the role cache |
| Guilds.Guild.CreateChannel | src/bot.ts:314-317 | the created channel is appended to the channel cache |
| Guilds.Guild.DeleteChannels | src/bot.ts:103-106 | the channels with the given ids leave the cache; the rest keep their order |
| Guilds.Guild.DeleteRole | src/bot.ts:114 | role `i` leaves the cache; the rest keep their order |
| Movement.LooseCategory | src/bot.ts:209-213 | the first category named "townsquare" ignoring case; None exactly when there is none |
| Movement.MainHallUnder | src/bot.ts:216-223 | the first voice-based channel under the category named "main hall" ignoring case; None exactly when there is none |
| Movement.ResolveTarget | src/bot.ts:198-225 | fails with NotHost iff the Host role is missing or not held. Fails with RolesMissing iff that check passes and Player or Spectator is missing. CategoryMissing and MainVcMissing follow in the same way. On success the role ids are those of the first Player and Spectator roles, and the hall is `MainHallUnder` the first category named "townsquare" ignoring case |
| Movement.RelocateAll | src/bot.ts:227-239 | every member holding Player or Spectator and in voice ends in the main hall; all other voice channels and all other fields are unchanged |
| Movement.CountIsRelocations | src/bot.ts:227-241 | the returned count equals the number of members whose voice channel changed |
| Movement.MoveAllSettles | src/bot.ts:229-238 | a second pass finds nobody eligible and changes nothing |
| Movement.MoveAllToMainCore | src/bot.ts:194-242 | on each of the four errors no member changes; on success the cache becomes `RelocateAll` and the result is the number of eligible members |
| Movement.MoveEligible | src/bot.ts:227-241 | the loop relocates exactly as `RelocateAll` does and counts the eligible members |
| Control.FromAcceptedAuthor | src/bot.ts:532 | a bot author is accepted only through a webhook; `Control.ControlEffect` states that anything else is ignored |
| Control.InControlChannel | src/bot.ts:533-541 | the message is in a guild text channel named exactly "townsquare-control"; `Control.ControlEffect` states that anything else is ignored |
| Control.Accepted | src/bot.ts:531-547 | the author, the channel and the JSON parse all pass; `Control.ControlEffect` states that a message failing any of them changes nothing |
| Control.Decode | src/bot.ts:549-647 | MOVEALL decodes iff `type` is "MOVEALL". MOVE, MOVEPRIVATE and RETURN decode iff `type` names them and the fields their handler reads are present, carrying those fields. Anything decoded has a known `type` |
| Control.HostMember | src/bot.ts:553-558 | the first member holding Host, None if the role is missing or nobody holds it; that member passes the NotHost check |
| Control.MoveAllEffect | src/bot.ts:549-564 | without a Host holder nothing changes. If `moveAllToMainCore` fails for the first Host holder, its error is swallowed and nothing changes. On success the members become `RelocateAll` with the resolved target. Only voice channels change, and only for members in voice |
| Control.MoveTargetRoom | src/bot.ts:578-594 | the first voice-based room under "Townsquare" whose name matches ignoring case; None exactly when there is none |
| Control.MoveOneEffect | src/bot.ts:566-597 | only the first member with that username moves, only if in voice, and only to the target room; if all three hold it does move |
| Control.EmptyInIffUnoccupied | src/bot.ts:624 | `members.size === 0` holds exactly when nobody is connected to the room |
| Control.FirstEmptyPrivateRoomIsEarliest | src/bot.ts:615-624 | filter-then-find returns the earliest empty private room; None means every private room is occupied |
| Control.FirstEmptyPrivateRoom | src/bot.ts:615-624 | the chosen room is a private room under the category, is empty, and no earlier private room is empty; None means all are occupied |
| Control.PrivateTarget | src/bot.ts:609-624 | a room is chosen only under the first category named exactly "Townsquare", and it is the earliest empty private room there; with the category present, None means every private room is occupied |
| Control.MovePair | src/bot.ts:630-631 | the first members named `u1` and `u2` move to the room; everybody else stays |
| Control.MovePrivateEffect | src/bot.ts:598-637 | nobody moves unless both users are in voice and a room exists. A member that moves is one of the two and goes to the earliest empty private room. If the room exists, both do move |
| Control.ReturnTarget | src/bot.ts:649-660 | the first voice-based channel under "Townsquare" named exactly "Main Hall"; None means there is none |
| Control.ReturnEffect | src/bot.ts:638-674 | nobody moves unless both users are in voice and the hall exists; then exactly those two move there |
| Control.CommandEffect | src/bot.ts:549-674 | a decoded command changes at most the voice channels of members |
| Control.ControlEffect | src/bot.ts:531-675 | a bot author without a webhook, another channel, an unparseable body, or a missing or unknown `type` leaves the guild unchanged. Roles and channels never change, and members change only in their voice channel |
| Control.RunMoveAll | src/bot.ts:549-564 | the guild afterwards is `MoveAllEffect` of the guild before |
| Control.RunMove | src/bot.ts:566-597 | the guild afterwards is `MoveOneEffect` of the guild before |
| Control.RunPair | src/bot.ts:626-674 | both users move to the room if both are in voice and the room exists; otherwise nothing changes |
| Control.HandleMessage | src/bot.ts:531-675 | the guild afterwards is `ControlEffect` of the guild before |
| Sessions.CallerChannel | src/bot.ts:420-421 | the cached channel the caller's voice state points to; None exactly when the caller is not in voice or no cached channel has that id |
| Sessions.PlanNewGame | src/bot.ts:420-435 | a plan exists iff the caller is in a GuildVoice channel and all three roles exist. Its channel is the caller's, and its role ids are those of the first Host, Player and Spectator roles |
| Sessions.AssignRoles | src/bot.ts:441-452 | only roles change, and every member keeps all roles other than the three game roles. A member that is neither the caller nor a human in the caller's channel is unchanged. `NewGameRolesMatchSession` states which game roles the caller and the players end up holding |
| Sessions.NewSession | src/bot.ts:438-461 | the stored session is well formed. The host is the caller and spectators are empty. The players are exactly the non-bot members of the channel other than the caller |
| Sessions.NewGameRolesMatchSession | src/bot.ts:441-452 | afterwards the caller holds Host and neither other game role; every stored player holds Player and neither other game role |
| Sessions.AssignGameRoles | src/bot.ts:441-452 | the loop's role updates equal `AssignRoles` and it returns exactly the players' ids |
| Sessions.SpectatorRoles | src/bot.ts:510-513 | the caller gains Spectator and loses Player; every other role and every other field is kept |
| Sessions.ToSpectator | src/bot.ts:504-517 | the host is refused and nothing changes. Anyone else leaves the players and joins the spectators, and nobody else's membership changes. Disjointness is preserved |
| Sessions.GameRoleIds | src/bot.ts:137-141 | an id is in the set iff it is the id of the first Host, the first Player or the first Spectator role |
| Sessions.StripRoles | src/bot.ts:143-145 | afterwards no member holds a removed role, every other role is kept, no role is added, and every other field is kept |
| Sessions.MoveAllAfterEndGameMovesNobody | src/bot.ts:137-147 | after `/endgame` nobody holds Host, so a MOVEALL message changes nothing |
| Sessions.UninstallChannels | src/bot.ts:96-107 | without a category nothing is deleted. With one, every survivor is neither the category nor its child, and every other channel survives |
| Sessions.RemoveFirstNamed | src/bot.ts:110-116 | at most one role is removed, and none when no role has the name; `Lifecycle.RemoveFirstNamedAt` states which one goes otherwise |
| Sessions.RemoveFirstNamedCounts | src/bot.ts:110-116 | the count of roles with that name drops by one if positive; counts of other names are unchanged |
| Sessions.RemoveAtCounts | src/bot.ts:112-115 | removing the first role with a name lowers that name's count by exactly one and leaves the other counts unchanged |
| Sessions.UninstallRoles | src/bot.ts:110-116 | at most three roles are removed; `UninstallRemovesOneOfEach` states which |
| Sessions.UninstallRemovesOneOfEach | src/bot.ts:110-116 | each of Host, Player and Spectator loses one role if it had any |
| Sessions.Bot.constructor | src/bot.ts:44 | the session map starts empty |
| Sessions.Bot.StartNewGame | src/bot.ts:408-474 | without a plan nothing changes. Otherwise the session is replaced by `NewSession` and the roles by `AssignRoles`. Session disjointness is kept |
| Sessions.Bot.SwitchToSpectator | src/bot.ts:476-524 | with no game, a missing role, or the host as caller, nothing changes. Otherwise the caller gains Spectator and loses Player, and the session becomes `ToSpectator` |
| Sessions.Bot.EndGame | src/bot.ts:128-150 | with no session nothing changes; otherwise every member loses the game roles and the session is deleted |
| Sessions.Bot.Uninstall | src/bot.ts:85-126 | the category and its children are deleted, the first role of each game name is deleted, and the session is dropped |
| Sessions.DeleteFirstRole | src/bot.ts:110-116 | the role cache becomes `RemoveFirstNamed` of the old one; nothing else changes |
| Setup.EnsureRole | src/bot.ts:282-289 | one create-if-missing step; `Setup.EnsureRoleLookup` states its effect on every lookup by name |
| Setup.EnsureRoles | src/bot.ts:278-307 | Host, then Spectator, then Player, each created only if missing; `Setup.EnsureRolesLookup`, `EnsureRolesResolvesAll`, `EnsureRolesCreatesOnlyMissing` and `EnsureRolesIdempotent` state its properties |
| Setup.EnsureRoleLookup | src/bot.ts:278-307 | after one create-if-missing step, only a missing name's lookup changes, and it changes to the created role |
| Setup.EnsureRolesLookup | src/bot.ts:277-307 | after the three steps every game role resolves and every existing lookup is unchanged |
| Setup.EnsureRolesResolvesAll | src/bot.ts:277-307 | existing roles are kept as a prefix, all three game roles resolve, and roles that resolved before still resolve the same |
| Setup.EnsureRolesCreatesOnlyMissing | src/bot.ts:282-307 | every appended role is a game role that was missing before |
| Setup.EnsureRolesIdempotent | src/bot.ts:277-307 | running the role part again creates nothing |
| Setup.PrivateRoomName | src/bot.ts:334 | `private-room-${i}` starts with "private-room-" |
| Setup.PrivateRooms | src/bot.ts:332-363 | the loop creates voice rooms under the category, each passing MOVEPRIVATE's private-room test |
| Setup.WithCategory | src/bot.ts:309-318 | the category is appended only when the lookup finds none; `Setup.SetupMakesRoomsResolvable` and `Lifecycle.SetupChannelsOnEmpty` state the result |
| Setup.CreatedRooms | src/bot.ts:320-379 | the nine rooms in creation order; `Lifecycle.CreatedRoomsUnder` states that each is under the category with a handed-out id |
| Setup.SetupChannels | src/bot.ts:309-379 | the channel cache after `/setup`; `Setup.SetupMakesRoomsResolvable` and `Lifecycle.UninstallUndoesSetupChannels` state its properties |
| Setup.SetupMakesRoomsResolvable | src/bot.ts:309-379 | after `/setup` the category lookup returns the category the rooms were put under. RETURN finds a "Main Hall" there, and every created private room passes MOVEPRIVATE's filter |
| Setup.CreateMissingRoles | src/bot.ts:278-307 | the role cache becomes `EnsureRoles` of the old one |
| Setup.CreateRooms | src/bot.ts:320-379 | the rooms are appended in creation order: public rooms, five private rooms, control channel |
| Setup.SetupTownsquare | src/bot.ts:268-404 | roles become `EnsureRoles` and channels become `SetupChannels`; members are unchanged |
| Muting.MuteFlags | src/bot.ts:159-168 | members holding Player and in voice get the new mute flag; everyone else and every other field is unchanged |
| Muting.TalkOverridesSilence | src/bot.ts:152-192 | `/talk` after `/silence` leaves the same state as `/talk` alone |
| Muting.MutePlayers | src/bot.ts:156-168 | without a Player role nothing changes; otherwise the members become `MuteFlags` |
| Muting.Silence | src/bot.ts:152-171 | mutes the players in voice, or does nothing without a Player role |
| Muting.Talk | src/bot.ts:173-192 | unmutes the players in voice, or does nothing without a Player role |
| Lifecycle.RemoveFirstNamedAt | src/bot.ts:112-115 | deleting the first role with a name removes the one occurrence before which no role has that name |
| Lifecycle.EnsureRolesOnEmpty | src/bot.ts:277-307 | on a guild with no game roles, setup appends Host, Spectator and Player in that order |
| Lifecycle.UninstallUndoesSetupRoles | src/bot.ts:110-116 | on such a guild `/uninstall` after `/setup` restores the exact role cache |
| Lifecycle.SetupChannelsOnEmpty | src/bot.ts:309-379 | without a category, setup appends the category and then its rooms, and the lookup then finds that category |
| Lifecycle.CreatedRoomsUnder | src/bot.ts:320-379 | every created room has the category as parent and one of the handed-out ids |
| Lifecycle.SetupIdsMissOriginal | src/bot.ts:96-103 | a channel the guild had before setup is neither the new category nor its child |
| Lifecycle.UninstallUndoesSetupChannels | src/bot.ts:96-107 | on a guild without a category `/uninstall` after `/setup` restores the exact channel cache |

## Left out

- Client construction, intents, login, REST command registration and the `ready` handler: process bootstrap with no decision logic.
- Webhook creation, the pinned message, and the permission overwrites on the private rooms and the control channel. These are platform calls with no state the model tracks. The rooms themselves are modelled as appended channels.
- Reply texts, deferred replies, emoji and console output.
- Interleaving between `await` points, such as two MOVEPRIVATE messages racing for one room. Each handler is one atomic step.
- Platform failures swallowed by `.catch` or `try`/`catch`. Every platform call is taken to succeed.
- `moveAllPlayersToMain`, the slash-command wrapper around `moveAllToMainCore`: its only effect beyond the core is the reply text.
- The `interactionCreate` dispatch on the command name: a plain switch to the handlers modelled here.
- JSON parsing. `JSON.parse` is a step that yields either a parse failure or a payload with optional string fields. A payload that is not an object behaves like one without `type`.
- Text.Lower: `toLowerCase` is modelled for the ASCII letters only; Unicode case mapping is outside the model.
- The `guild`/`member` null checks at the top of each handler: the model always has a guild and a calling member.
- Guilds.InVoice: a member counts as in voice when its voice state holds a channel id. The platform resolves that id through the channel cache, and the model takes every such id to name a cached channel. Only `/newgame` looks the channel up (`Sessions.CallerChannel`), because it needs the channel's kind.
- Platform ids of created roles and channels are a parameter (`newIds`), since the platform chooses them.
- Sessions.Bot: `GameState`'s sets are updated in place in `/spectator`. The model replaces the map entry with a new value, since nothing else aliases the session.
- What the platform does to members when a channel or role is deleted (disconnecting voice, dropping role ids) is not modelled. Deletion changes only the role and channel caches.
- Setup.SetupTownsquare: the role part and the channel part are proved separately and composed. The channel names other than Main Hall, the private rooms and the control channel ("Potion Shop", "Library") are recorded, but no property about them is stated.
