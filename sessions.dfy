/**
 * The per-guild game sessions (`activeGames`) and the slash commands that
 * create, change and clear them: `/newgame`, `/spectator`, `/endgame` and
 * `/uninstall`.
 */
module Sessions {
  import opened Wrappers
  import opened Seqs
  import opened Guilds
  import opened Movement
  import opened Control

  /** `GameState`: one active game of a guild. */
  datatype GameState = GameState(
    hostId: Id,
    playerIds: set<Id>,
    spectatorIds: set<Id>,
    mainChannelId: Id,
    privateRoomIds: seq<Id>)

  /** Host, players and spectators are three disjoint groups. */
  predicate WellFormed(g: GameState) {
    g.hostId !in g.playerIds && g.hostId !in g.spectatorIds && g.playerIds !! g.spectatorIds
  }

  // ---- startNewGame ----

  /** What `startNewGame` resolves before it changes anything. */
  datatype NewGamePlan = NewGamePlan(channelId: Id, host: Id, player: Id, spectator: Id)

  function HasId(id: Id): Channel -> bool {
    (c: Channel) => c.id == id
  }

  /** The cached channel the caller is connected to by voice, if any. */
  function CallerChannel(st: GuildState, caller: nat): (r: Option<Channel>)
    requires caller < |st.members|
    ensures r.Some? ==> r.value in st.channels && st.members[caller].voice == Some(r.value.id)
    ensures r.None? <==> !InVoice(st.members[caller]) || forall c :: c in st.channels ==> Some(c.id) != st.members[caller].voice
  {
    var voice := st.members[caller].voice;
    if voice.None? then None else FindValue(st.channels, HasId(voice.value))
  }

  /**
   * The checks of `startNewGame`: the caller must be in a GuildVoice channel
   * and all three roles must exist; the plan uses the first role of each name.
   */
  function PlanNewGame(st: GuildState, caller: nat): (r: Option<NewGamePlan>)
    requires caller < |st.members|
    ensures r.Some? <==>
      && CallerChannel(st, caller).Some? && CallerChannel(st, caller).value.kind == GuildVoice
      && RoleByName(st.roles, HostRoleName).Some?
      && RoleByName(st.roles, PlayerRoleName).Some?
      && RoleByName(st.roles, SpectatorRoleName).Some?
    ensures r.Some? ==> st.members[caller].voice == Some(r.value.channelId)
    ensures r.Some? ==> exists c :: c in st.channels && c.id == r.value.channelId && c.kind == GuildVoice
    ensures r.Some? ==>
      && r.value.host == RoleByName(st.roles, HostRoleName).value.id
      && r.value.player == RoleByName(st.roles, PlayerRoleName).value.id
      && r.value.spectator == RoleByName(st.roles, SpectatorRoleName).value.id
    ensures !InVoice(st.members[caller]) ==> r.None?
  {
    var channel := CallerChannel(st, caller);
    if channel.None? || channel.value.kind != GuildVoice then None
    else
      var host := RoleByName(st.roles, HostRoleName);
      var player := RoleByName(st.roles, PlayerRoleName);
      var spectator := RoleByName(st.roles, SpectatorRoleName);
      if host.None? || player.None? || spectator.None? then None
      else Some(NewGamePlan(channel.value.id, host.value.id, player.value.id, spectator.value.id))
  }

  /** A member of the caller's channel that the loop makes a player: not the caller, not a bot. */
  predicate JoinsAsPlayer(m: Member, channelId: Id, hostId: Id) {
    m.voice == Some(channelId) && m.id != hostId && !m.isBot
  }

  function PlayersOf(ms: seq<Member>, channelId: Id, hostId: Id): set<Id> {
    set m | m in ms && JoinsAsPlayer(m, channelId, hostId) :: m.id
  }

  /** The caller gains Host, then loses Player and Spectator. */
  function AsHost(m: Member, p: NewGamePlan): Member {
    m.(roles := m.roles + {p.host} - {p.player, p.spectator})
  }

  /** A player gains Player, then loses Host and Spectator. */
  function AsPlayer(m: Member, p: NewGamePlan): Member {
    m.(roles := m.roles + {p.player} - {p.host, p.spectator})
  }

  /** The member cache after `startNewGame` has assigned the roles. */
  function AssignRoles(ms: seq<Member>, caller: nat, p: NewGamePlan): (r: seq<Member>)
    requires caller < |ms|
    ensures |r| == |ms|
    ensures forall k :: 0 <= k < |ms| ==> r[k] == ms[k].(roles := r[k].roles)
    ensures forall k :: 0 <= k < |ms| && k != caller && !JoinsAsPlayer(ms[k], p.channelId, ms[caller].id) ==> r[k] == ms[k]
    ensures forall k :: 0 <= k < |ms| ==>
      r[k].roles - {p.host, p.player, p.spectator} == ms[k].roles - {p.host, p.player, p.spectator}
  {
    seq(|ms|, k requires 0 <= k < |ms| =>
      if k == caller then AsHost(ms[k], p)
      else if JoinsAsPlayer(ms[k], p.channelId, ms[caller].id) then AsPlayer(ms[k], p)
      else ms[k])
  }

  /** The session `startNewGame` stores. */
  function NewSession(ms: seq<Member>, caller: nat, p: NewGamePlan): (g: GameState)
    requires caller < |ms|
    ensures WellFormed(g)
    ensures g.hostId == ms[caller].id && g.spectatorIds == {} && g.mainChannelId == p.channelId
    ensures forall id :: id in g.playerIds <==>
      exists k :: 0 <= k < |ms| && ms[k].id == id && JoinsAsPlayer(ms[k], p.channelId, ms[caller].id)
  {
    var players := PlayersOf(ms, p.channelId, ms[caller].id);
    assert forall id :: id in players <==>
      exists k :: 0 <= k < |ms| && ms[k].id == id && JoinsAsPlayer(ms[k], p.channelId, ms[caller].id);
    GameState(ms[caller].id, players, {}, p.channelId, [])
  }

  predicate UniqueMemberIds(ms: seq<Member>) {
    forall i, j :: 0 <= i < j < |ms| ==> ms[i].id != ms[j].id
  }

  /**
   * After `startNewGame` the platform roles agree with the stored session: the
   * caller holds Host only, and every stored player holds Player only.
   */
  lemma NewGameRolesMatchSession(ms: seq<Member>, caller: nat, p: NewGamePlan)
    requires caller < |ms| && UniqueMemberIds(ms)
    requires p.host != p.player && p.host != p.spectator && p.player != p.spectator
    ensures var r := AssignRoles(ms, caller, p);
      p.host in r[caller].roles && p.player !in r[caller].roles && p.spectator !in r[caller].roles
    ensures var r := AssignRoles(ms, caller, p);
      forall k :: 0 <= k < |r| && r[k].id in NewSession(ms, caller, p).playerIds ==>
        p.player in r[k].roles && p.host !in r[k].roles && p.spectator !in r[k].roles
  {
    var r := AssignRoles(ms, caller, p);
    var g := NewSession(ms, caller, p);
    forall k | 0 <= k < |r| && r[k].id in g.playerIds
      ensures p.player in r[k].roles && p.host !in r[k].roles && p.spectator !in r[k].roles
    {
      var w :| 0 <= w < |ms| && ms[w].id == r[k].id && JoinsAsPlayer(ms[w], p.channelId, ms[caller].id);
      assert w == k;
    }
  }

  // ---- switchToSpectator ----

  /** The session change of `/spectator`: the host is refused, anyone else becomes a spectator. */
  function ToSpectator(g: GameState, id: Id): (r: GameState)
    ensures r.hostId == g.hostId && r.mainChannelId == g.mainChannelId && r.privateRoomIds == g.privateRoomIds
    ensures id == g.hostId ==> r == g
    ensures id != g.hostId ==> id in r.spectatorIds && id !in r.playerIds
    ensures forall x :: x != id ==> (x in r.playerIds <==> x in g.playerIds) && (x in r.spectatorIds <==> x in g.spectatorIds)
    ensures WellFormed(g) ==> WellFormed(r)
  {
    if id == g.hostId then g
    else g.(playerIds := g.playerIds - {id}, spectatorIds := g.spectatorIds + {id})
  }

  /** The roles of the caller after `/spectator`: Spectator added, Player removed if held. */
  function SpectatorRoles(m: Member, player: Id, spectator: Id): (r: Member)
    ensures r == m.(roles := r.roles)
    ensures player != spectator ==> spectator in r.roles && player !in r.roles
    ensures forall x :: x != player && x != spectator ==> (x in r.roles <==> x in m.roles)
  {
    m.(roles := m.roles + {spectator} - (if player in m.roles then {player} else {}))
  }

  /** `/spectator` changes something: a game is active, the roles exist, and the caller is not the host. */
  predicate SwitchApplies(games: map<Id, GameState>, st: GuildState, guildId: Id, caller: nat)
    requires caller < |st.members|
  {
    && guildId in games
    && RoleByName(st.roles, SpectatorRoleName).Some?
    && RoleByName(st.roles, PlayerRoleName).Some?
    && st.members[caller].id != games[guildId].hostId
  }

  // ---- endGame ----

  /** Role `name` exists and the first role of that name has id `id`. */
  predicate ResolvesTo(roles: seq<Role>, name: string, id: Id) {
    RoleByName(roles, name).Some? && RoleByName(roles, name).value.id == id
  }

  /** The ids of the first Host, Player and Spectator roles, leaving out any that do not exist. */
  function GameRoleIds(roles: seq<Role>): (r: set<Id>)
    ensures forall id :: id in r <==>
      ResolvesTo(roles, HostRoleName, id) || ResolvesTo(roles, PlayerRoleName, id) || ResolvesTo(roles, SpectatorRoleName, id)
  {
    var ids := set n | n in {HostRoleName, PlayerRoleName, SpectatorRoleName} && RoleByName(roles, n).Some?
                 :: RoleByName(roles, n).value.id;
    ids
  }

  /** Every cached member loses the roles `ids`. */
  function StripRoles(ms: seq<Member>, ids: set<Id>): (r: seq<Member>)
    ensures |r| == |ms|
    ensures forall k :: 0 <= k < |ms| ==> r[k].roles !! ids
    ensures forall k :: 0 <= k < |ms| ==> r[k] == ms[k].(roles := r[k].roles) && ms[k].roles - ids <= r[k].roles
    ensures forall k :: 0 <= k < |ms| ==> r[k].roles <= ms[k].roles
  {
    seq(|ms|, k requires 0 <= k < |ms| => ms[k].(roles := ms[k].roles - ids))
  }

  /** Once a game has ended, nobody holds Host, so a MOVEALL control message moves nobody. */
  lemma MoveAllAfterEndGameMovesNobody(st: GuildState)
    ensures var ended := st.(members := StripRoles(st.members, GameRoleIds(st.roles)));
      HostMember(ended).None? && MoveAllEffect(ended) == ended.members
  {
    var ended := st.(members := StripRoles(st.members, GameRoleIds(st.roles)));
    var host := RoleByName(st.roles, HostRoleName);
    if host.Some? {
      assert host.value.id in GameRoleIds(st.roles);
      assert forall j :: 0 <= j < |ended.members| ==> !HostHeld(ended, ended.members[j]);
    }
  }

  // ---- uninstallTownsquare ----

  /** The category and every channel whose parent it is. */
  function TownsquareIds(cs: seq<Channel>, categoryId: Id): set<Id> {
    {categoryId} + set c | c in cs && c.parent == Some(categoryId) :: c.id
  }

  /** The channels left after uninstall deleted the first "Townsquare" category and its children. */
  function UninstallChannels(cs: seq<Channel>): (r: seq<Channel>)
    ensures TownsquareCategory(cs).None? ==> r == cs
    ensures TownsquareCategory(cs).Some? ==> forall c :: c in r ==>
      c in cs && c.id != TownsquareCategory(cs).value.id && c.parent != Some(TownsquareCategory(cs).value.id)
    ensures TownsquareCategory(cs).Some? ==> forall c :: c in cs && c.id !in TownsquareIds(cs, TownsquareCategory(cs).value.id) ==> c in r
  {
    match TownsquareCategory(cs)
    case None => cs
    case Some(category) => Filter(cs, IdOutside(TownsquareIds(cs, category.id)))
  }

  /** Delete the first role named exactly `name`, if any: only that one role goes. */
  function RemoveFirstNamed(rs: seq<Role>, name: string): (r: seq<Role>)
    ensures |r| == |rs| || |r| == |rs| - 1
    ensures FindIndex(rs, NamedRole(name)).None? ==> r == rs
  {
    match FindIndex(rs, NamedRole(name))
    case None => rs
    case Some(i) => rs[..i] + rs[i + 1..]
  }

  /** Deleting the first role named `name` lowers its count by one, if it had any, and no other count. */
  lemma RemoveFirstNamedCounts(rs: seq<Role>, name: string)
    ensures var r := RemoveFirstNamed(rs, name);
      && Count(r, NamedRole(name)) == (if Count(rs, NamedRole(name)) == 0 then 0 else Count(rs, NamedRole(name)) - 1)
      && forall other :: other != name ==> Count(r, NamedRole(other)) == Count(rs, NamedRole(other))
  {
    match FindIndex(rs, NamedRole(name))
    case None =>
    case Some(i) => RemoveAtCounts(rs, i, name);
  }

  lemma RemoveAtCounts(rs: seq<Role>, i: nat, name: string)
    requires i < |rs| && rs[i].name == name
    requires forall j :: 0 <= j < i ==> rs[j].name != name
    ensures Count(rs, NamedRole(name)) > 0
    ensures Count(rs[..i] + rs[i + 1..], NamedRole(name)) == Count(rs, NamedRole(name)) - 1
    ensures forall other :: other != name ==>
      Count(rs[..i] + rs[i + 1..], NamedRole(other)) == Count(rs, NamedRole(other))
  {
    assert rs == rs[..i] + [rs[i]] + rs[i + 1..];
    forall n | true
      ensures Count(rs, NamedRole(n)) ==
        Count(rs[..i], NamedRole(n)) + Count([rs[i]], NamedRole(n)) + Count(rs[i + 1..], NamedRole(n))
      ensures Count(rs[..i] + rs[i + 1..], NamedRole(n)) == Count(rs[..i], NamedRole(n)) + Count(rs[i + 1..], NamedRole(n))
    {
      CountAppend(rs[..i] + [rs[i]], rs[i + 1..], NamedRole(n));
      CountAppend(rs[..i], [rs[i]], NamedRole(n));
      CountAppend(rs[..i], rs[i + 1..], NamedRole(n));
    }
    assert Count([rs[i]], NamedRole(name)) == 1;
  }

  /** Uninstall deletes the first Host, the first Player and the first Spectator role. */
  function UninstallRoles(rs: seq<Role>): (r: seq<Role>)
    ensures |rs| - 3 <= |r| <= |rs|
  {
    RemoveFirstNamed(RemoveFirstNamed(RemoveFirstNamed(rs, HostRoleName), PlayerRoleName), SpectatorRoleName)
  }

  /** Each of the three role names loses exactly one role, if it had any. */
  lemma UninstallRemovesOneOfEach(rs: seq<Role>, n: string)
    requires n == HostRoleName || n == PlayerRoleName || n == SpectatorRoleName
    ensures Count(UninstallRoles(rs), NamedRole(n)) ==
      if Count(rs, NamedRole(n)) == 0 then 0 else Count(rs, NamedRole(n)) - 1
  {
    var r1 := RemoveFirstNamed(rs, HostRoleName);
    var r2 := RemoveFirstNamed(r1, PlayerRoleName);
    RemoveFirstNamedCounts(rs, HostRoleName);
    RemoveFirstNamedCounts(r1, PlayerRoleName);
    RemoveFirstNamedCounts(r2, SpectatorRoleName);
  }

  // ---- the session store ----

  /** `activeGames`: the process-wide map from guild id to its active game. */
  class Bot {
    var activeGames: map<Id, GameState>

    ghost predicate Valid()
      reads this
    {
      forall g :: g in activeGames ==> WellFormed(activeGames[g])
    }

    constructor ()
      ensures Valid() && activeGames == map[]
    {
      activeGames := map[];
    }

    /** `/newgame`: the caller hosts, the other humans in its voice channel play. */
    method StartNewGame(guild: Guild, caller: nat)
      requires Valid() && caller < |guild.members|
      modifies this, guild
      ensures Valid()
      ensures guild.roles == old(guild.roles) && guild.channels == old(guild.channels)
      ensures match PlanNewGame(old(guild.State()), caller)
        case None => activeGames == old(activeGames) && guild.members == old(guild.members)
        case Some(p) =>
          && activeGames == old(activeGames)[guild.id := NewSession(old(guild.members), caller, p)]
          && guild.members == AssignRoles(old(guild.members), caller, p)
    {
      var plan := PlanNewGame(guild.State(), caller);
      if plan.None? {
        return;
      }
      var p := plan.value;
      var hostId := guild.members[caller].id;
      var playerIds := AssignGameRoles(guild, caller, p);
      activeGames := activeGames[guild.id := GameState(hostId, playerIds, {}, p.channelId, [])];
    }

    /** `/spectator` */
    method SwitchToSpectator(guild: Guild, caller: nat)
      requires Valid() && caller < |guild.members|
      modifies this, guild
      ensures Valid()
      ensures guild.roles == old(guild.roles) && guild.channels == old(guild.channels)
      ensures if SwitchApplies(old(activeGames), old(guild.State()), guild.id, caller) then
          && activeGames == old(activeGames)[guild.id := ToSpectator(old(activeGames)[guild.id], old(guild.members)[caller].id)]
          && guild.members == old(guild.members)[caller := SpectatorRoles(old(guild.members)[caller],
               RoleByName(old(guild.roles), PlayerRoleName).value.id, RoleByName(old(guild.roles), SpectatorRoleName).value.id)]
        else activeGames == old(activeGames) && guild.members == old(guild.members)
    {
      if guild.id !in activeGames {
        return;
      }
      var game := activeGames[guild.id];
      var spectator := RoleByName(guild.roles, SpectatorRoleName);
      var player := RoleByName(guild.roles, PlayerRoleName);
      if spectator.None? || player.None? {
        return;
      }
      var id := guild.members[caller].id;
      if id == game.hostId {
        return;
      }
      var held := player.value.id in guild.members[caller].roles;
      guild.UpdateRoles(caller, {spectator.value.id}, if held then {player.value.id} else {});
      activeGames := activeGames[guild.id := ToSpectator(game, id)];
    }

    /** `/endgame`: strip the game roles from every cached member and drop the session. */
    method EndGame(guild: Guild)
      requires Valid()
      modifies this, guild
      ensures Valid() && guild.id !in activeGames
      ensures guild.roles == old(guild.roles) && guild.channels == old(guild.channels)
      ensures guild.id !in old(activeGames) ==> activeGames == old(activeGames) && guild.members == old(guild.members)
      ensures guild.id in old(activeGames) ==>
        && activeGames == old(activeGames) - {guild.id}
        && guild.members == StripRoles(old(guild.members), GameRoleIds(old(guild.roles)))
    {
      if guild.id !in activeGames {
        return;
      }
      var ids := GameRoleIds(guild.roles);
      ghost var before := guild.members;
      var i := 0;
      while i < |guild.members|
        invariant i <= |guild.members| == |before|
        invariant guild.roles == old(guild.roles) && guild.channels == old(guild.channels)
        invariant forall k :: 0 <= k < i ==> guild.members[k] == before[k].(roles := before[k].roles - ids)
        invariant forall k :: i <= k < |before| ==> guild.members[k] == before[k]
        invariant activeGames == old(activeGames)
      {
        guild.UpdateRoles(i, {}, ids);
        i := i + 1;
      }
      assert guild.members == StripRoles(before, ids);
      activeGames := activeGames - {guild.id};
    }

    /** `/uninstall`: delete the category with its children and the three roles; drop the session. */
    method Uninstall(guild: Guild)
      requires Valid()
      modifies this, guild
      ensures Valid()
      ensures activeGames == old(activeGames) - {guild.id}
      ensures guild.channels == UninstallChannels(old(guild.channels))
      ensures guild.roles == UninstallRoles(old(guild.roles))
      ensures guild.members == old(guild.members)
    {
      var category := TownsquareCategory(guild.channels);
      if category.Some? {
        guild.DeleteChannels(TownsquareIds(guild.channels, category.value.id));
      }
      DeleteFirstRole(guild, HostRoleName);
      DeleteFirstRole(guild, PlayerRoleName);
      DeleteFirstRole(guild, SpectatorRoleName);
      activeGames := activeGames - {guild.id};
    }
  }

  /**
   * The role assignments of `startNewGame`: Host to the caller, then Player to
   * each other human in its channel, collecting their ids.
   */
  method AssignGameRoles(guild: Guild, caller: nat, p: NewGamePlan) returns (playerIds: set<Id>)
    requires caller < |guild.members|
    modifies guild
    ensures guild.roles == old(guild.roles) && guild.channels == old(guild.channels)
    ensures guild.members == AssignRoles(old(guild.members), caller, p)
    ensures playerIds == PlayersOf(old(guild.members), p.channelId, old(guild.members)[caller].id)
  {
    ghost var before := guild.members;
    var hostId := guild.members[caller].id;
    guild.UpdateRoles(caller, {p.host}, {p.player, p.spectator});
    playerIds := {};
    var i := 0;
    while i < |guild.members|
      invariant i <= |guild.members| == |before|
      invariant guild.roles == old(guild.roles) && guild.channels == old(guild.channels)
      invariant forall k :: 0 <= k < i ==> guild.members[k] == AssignRoles(before, caller, p)[k]
      invariant forall k :: i <= k < |before| ==>
        guild.members[k] == if k == caller then AsHost(before[k], p) else before[k]
      invariant playerIds == PlayersOf(before[..i], p.channelId, hostId)
    {
      var m := guild.members[i];
      if m.voice == Some(p.channelId) && m.id != hostId && !m.isBot {
        guild.UpdateRoles(i, {p.player}, {p.host, p.spectator});
        playerIds := playerIds + {m.id};
      }
      assert before[..i + 1] == before[..i] + [before[i]];
      i := i + 1;
    }
    assert before[..i] == before;
    assert guild.members == AssignRoles(before, caller, p);
  }

  /** Delete the first role named `name`, if there is one. */
  method DeleteFirstRole(guild: Guild, name: string)
    modifies guild
    ensures guild.roles == RemoveFirstNamed(old(guild.roles), name)
    ensures guild.members == old(guild.members) && guild.channels == old(guild.channels)
  {
    var i := FindIndex(guild.roles, NamedRole(name));
    if i.Some? {
      guild.DeleteRole(i.value);
    }
  }
}
