/**
 * `/setup`: create whichever of the three roles is missing, create the
 * "Townsquare" category if it is missing, then append the public rooms, the
 * five private rooms and the control channel under it.
 */
module Setup {
  import opened Wrappers
  import opened Seqs
  import opened Text
  import opened Guilds
  import opened Control

  const HostColor: nat := 0xFF0000
  const SpectatorColor: nat := 0xFFFF00
  const PlayerColor: nat := 0x0000FF

  /** The ids the platform assigns, in creation order: three roles, the category, nine channels. */
  const FreshIdsNeeded: nat := 13

  /** Create the role `name` with `color`, unless a role of that name already exists. */
  function EnsureRole(rs: seq<Role>, name: string, color: nat, id: Id): seq<Role> {
    if RoleByName(rs, name).Some? then rs else rs + [Role(id, name, color)]
  }

  /** One role step, seen through the lookup by name: only a missing `name` changes, to the created role. */
  lemma EnsureRoleLookup(rs: seq<Role>, name: string, color: nat, id: Id, n: string)
    ensures RoleByName(EnsureRole(rs, name, color, id), n) ==
      if n == name && RoleByName(rs, n).None? then Some(Role(id, name, color)) else RoleByName(rs, n)
  {
    var created := Role(id, name, color);
    if RoleByName(rs, name).None? {
      FindValueAppend(rs, [created], NamedRole(n));
      FindValueCons([created], NamedRole(n));
    }
  }

  predicate IsGameRoleName(n: string) {
    n == HostRoleName || n == PlayerRoleName || n == SpectatorRoleName
  }

  /** The role part of `/setup`: Host, then Spectator, then Player, each only if missing. */
  function EnsureRoles(rs: seq<Role>, newIds: seq<Id>): seq<Role>
    requires |newIds| >= 3
  {
    var withHost := EnsureRole(rs, HostRoleName, HostColor, newIds[0]);
    var withSpectator := EnsureRole(withHost, SpectatorRoleName, SpectatorColor, newIds[1]);
    EnsureRole(withSpectator, PlayerRoleName, PlayerColor, newIds[2])
  }

  /**
   * After the role part of `/setup` all three roles resolve by name and every
   * role that resolved before still resolves to the same role.
   */
  lemma EnsureRolesResolvesAll(rs: seq<Role>, newIds: seq<Id>)
    requires |newIds| >= 3
    ensures var r := EnsureRoles(rs, newIds);
      && rs <= r
      && RoleByName(r, HostRoleName).Some?
      && RoleByName(r, SpectatorRoleName).Some?
      && RoleByName(r, PlayerRoleName).Some?
      && (forall n :: RoleByName(rs, n).Some? ==> RoleByName(r, n) == RoleByName(rs, n))
  {
    forall n ensures RoleByName(rs, n).Some? || IsGameRoleName(n) ==> RoleByName(EnsureRoles(rs, newIds), n).Some?
      ensures RoleByName(rs, n).Some? ==> RoleByName(EnsureRoles(rs, newIds), n) == RoleByName(rs, n)
    {
      EnsureRolesLookup(rs, newIds, n);
    }
  }

  /** The three role steps seen through the lookup by one name. */
  lemma EnsureRolesLookup(rs: seq<Role>, newIds: seq<Id>, n: string)
    requires |newIds| >= 3
    ensures RoleByName(rs, n).Some? ==> RoleByName(EnsureRoles(rs, newIds), n) == RoleByName(rs, n)
    ensures IsGameRoleName(n) ==> RoleByName(EnsureRoles(rs, newIds), n).Some?
  {
    var r1 := EnsureRole(rs, HostRoleName, HostColor, newIds[0]);
    var r2 := EnsureRole(r1, SpectatorRoleName, SpectatorColor, newIds[1]);
    EnsureRoleLookup(rs, HostRoleName, HostColor, newIds[0], n);
    EnsureRoleLookup(r1, SpectatorRoleName, SpectatorColor, newIds[1], n);
    EnsureRoleLookup(r2, PlayerRoleName, PlayerColor, newIds[2], n);
  }

  /** Whatever the role part of `/setup` appends is a game role that was missing before. */
  lemma EnsureRolesCreatesOnlyMissing(rs: seq<Role>, newIds: seq<Id>)
    requires |newIds| >= 3
    ensures var r := EnsureRoles(rs, newIds);
      forall k :: |rs| <= k < |r| ==> IsGameRoleName(r[k].name) && RoleByName(rs, r[k].name).None?
  {
    var r1 := EnsureRole(rs, HostRoleName, HostColor, newIds[0]);
    var r2 := EnsureRole(r1, SpectatorRoleName, SpectatorColor, newIds[1]);
    var r3 := EnsureRole(r2, PlayerRoleName, PlayerColor, newIds[2]);
    EnsureRoleLookup(rs, HostRoleName, HostColor, newIds[0], SpectatorRoleName);
    EnsureRoleLookup(rs, HostRoleName, HostColor, newIds[0], PlayerRoleName);
    EnsureRoleLookup(r1, SpectatorRoleName, SpectatorColor, newIds[1], PlayerRoleName);
    forall k | |rs| <= k < |r3| ensures IsGameRoleName(r3[k].name) && RoleByName(rs, r3[k].name).None? {
      if k < |r1| {
        assert r3[k] == r1[k];
      } else if k < |r2| {
        assert r3[k] == r2[k];
      }
    }
  }

  /** Running the role part of `/setup` again creates nothing. */
  lemma EnsureRolesIdempotent(rs: seq<Role>, newIds: seq<Id>, newIds2: seq<Id>)
    requires |newIds| >= 3 && |newIds2| >= 3
    ensures EnsureRoles(EnsureRoles(rs, newIds), newIds2) == EnsureRoles(rs, newIds)
  {
    EnsureRolesResolvesAll(rs, newIds);
  }

  /** The name of private room `i`: "private-room-" followed by the digit `i`. */
  function PrivateRoomName(i: nat): (name: string)
    requires 1 <= i <= 9
    ensures StartsWith(name, PrivateRoomPrefix)
  {
    PrivateRoomPrefix + [('0' as int + i) as char]
  }

  /** The id of the category the rooms go under: the existing one, or the one setup creates. */
  function SetupCategoryId(cs: seq<Channel>, newIds: seq<Id>): Id
    requires |newIds| >= FreshIdsNeeded
  {
    match TownsquareCategory(cs)
    case Some(c) => c.id
    case None => newIds[3]
  }

  /** The first `n` of the five private rooms the setup loop creates, numbered from 1. */
  function PrivateRooms(categoryId: Id, newIds: seq<Id>, n: nat): (r: seq<Channel>)
    requires |newIds| >= FreshIdsNeeded && n <= 5
    ensures |r| == n
    ensures forall k :: 0 <= k < n ==> IsPrivateRoom(r[k], categoryId) && r[k].kind == GuildVoice
  {
    seq(n, k requires 0 <= k < n => Channel(newIds[7 + k], GuildVoice, PrivateRoomName(k + 1), Some(categoryId)))
  }

  function PublicRooms(categoryId: Id, newIds: seq<Id>): seq<Channel>
    requires |newIds| >= FreshIdsNeeded
  {
    [ Channel(newIds[4], GuildVoice, MainHallName, Some(categoryId)),
      Channel(newIds[5], GuildVoice, "Potion Shop", Some(categoryId)),
      Channel(newIds[6], GuildVoice, "Library", Some(categoryId)) ]
  }

  function ControlRoom(categoryId: Id, newIds: seq<Id>): Channel
    requires |newIds| >= FreshIdsNeeded
  {
    Channel(newIds[12], GuildText, ControlChannelName, Some(categoryId))
  }

  /** Create the "Townsquare" category when the lookup finds none. */
  function WithCategory(cs: seq<Channel>, newIds: seq<Id>): seq<Channel>
    requires |newIds| >= FreshIdsNeeded
  {
    if TownsquareCategory(cs).Some? then cs
    else cs + [Channel(newIds[3], GuildCategory, CategoryName, None)]
  }

  /** Every room `/setup` creates under the category, in creation order. */
  function CreatedRooms(categoryId: Id, newIds: seq<Id>): seq<Channel>
    requires |newIds| >= FreshIdsNeeded
  {
    PublicRooms(categoryId, newIds) + PrivateRooms(categoryId, newIds, 5) + [ControlRoom(categoryId, newIds)]
  }

  /** The channel cache after `/setup`: rooms are appended on every run, the category only once. */
  function SetupChannels(cs: seq<Channel>, newIds: seq<Id>): seq<Channel>
    requires |newIds| >= FreshIdsNeeded
  {
    WithCategory(cs, newIds) + CreatedRooms(SetupCategoryId(cs, newIds), newIds)
  }

  /**
   * After `/setup` the control handlers find their rooms: the category lookup
   * returns the one the rooms were put under, RETURN finds a "Main Hall" there,
   * and every created private room passes MOVEPRIVATE's filter.
   */
  lemma SetupMakesRoomsResolvable(st: GuildState, newIds: seq<Id>)
    requires |newIds| >= FreshIdsNeeded
    ensures var after := st.(channels := SetupChannels(st.channels, newIds));
      && TownsquareCategory(after.channels).Some?
      && TownsquareCategory(after.channels).value.id == SetupCategoryId(st.channels, newIds)
      && ReturnTarget(after).Some?
      && forall c :: c in PrivateRooms(SetupCategoryId(st.channels, newIds), newIds, 5) ==>
           c in after.channels && IsPrivateRoom(c, TownsquareCategory(after.channels).value.id)
  {
    var cs := st.channels;
    var categoryId := SetupCategoryId(cs, newIds);
    var category := Channel(newIds[3], GuildCategory, CategoryName, None);
    var withCategory := if TownsquareCategory(cs).Some? then cs else cs + [category];
    var rest := PublicRooms(categoryId, newIds) + PrivateRooms(categoryId, newIds, 5) + [ControlRoom(categoryId, newIds)];
    var after := SetupChannels(cs, newIds);
    assert after == withCategory + rest;
    if TownsquareCategory(cs).None? {
      FindValueAppend(cs, [category], IsTownsquare);
      FindValueCons([category], IsTownsquare);
    }
    assert TownsquareCategory(withCategory).Some? && TownsquareCategory(withCategory).value.id == categoryId;
    FindValueAppend(withCategory, rest, IsTownsquare);
    var hall := PublicRooms(categoryId, newIds)[0];
    assert hall in after && ExactMainHallUnder(categoryId)(hall);
  }
  
  /** The role part of `/setup`, through `guild.roles.create`. */
  method CreateMissingRoles(guild: Guild, newIds: seq<Id>)
    requires |newIds| >= 3
    modifies guild`roles
    ensures guild.roles == EnsureRoles(old(guild.roles), newIds)
  {
    if RoleByName(guild.roles, HostRoleName).None? {
      guild.CreateRole(Role(newIds[0], HostRoleName, HostColor));
    }
    if RoleByName(guild.roles, SpectatorRoleName).None? {
      guild.CreateRole(Role(newIds[1], SpectatorRoleName, SpectatorColor));
    }
    if RoleByName(guild.roles, PlayerRoleName).None? {
      guild.CreateRole(Role(newIds[2], PlayerRoleName, PlayerColor));
    }
  }

  /** The rooms of `/setup`, through `guild.channels.create`. */
  method CreateRooms(guild: Guild, categoryId: Id, newIds: seq<Id>)
    requires |newIds| >= FreshIdsNeeded
    modifies guild`channels
    ensures guild.channels == old(guild.channels) + CreatedRooms(categoryId, newIds)
  {
    var publicRooms := PublicRooms(categoryId, newIds);
    guild.CreateChannel(publicRooms[0]);
    guild.CreateChannel(publicRooms[1]);
    guild.CreateChannel(publicRooms[2]);
    ghost var base := guild.channels;
    for i := 1 to 6
      invariant guild.channels == base + PrivateRooms(categoryId, newIds, i - 1)
    {
      guild.CreateChannel(Channel(newIds[6 + i], GuildVoice, PrivateRoomName(i), Some(categoryId)));
      assert PrivateRooms(categoryId, newIds, i) == PrivateRooms(categoryId, newIds, i - 1)
        + [Channel(newIds[6 + i], GuildVoice, PrivateRoomName(i), Some(categoryId))];
    }
    guild.CreateChannel(ControlRoom(categoryId, newIds));
  }

  /** `/setup`: roles first, then the category and the rooms. */
  method SetupTownsquare(guild: Guild, newIds: seq<Id>)
    requires |newIds| >= FreshIdsNeeded
    modifies guild
    ensures guild.roles == EnsureRoles(old(guild.roles), newIds)
    ensures guild.channels == SetupChannels(old(guild.channels), newIds)
    ensures guild.members == old(guild.members)
  {
    CreateMissingRoles(guild, newIds);
    var categoryId := SetupCategoryId(guild.channels, newIds);
    if TownsquareCategory(guild.channels).None? {
      guild.CreateChannel(Channel(newIds[3], GuildCategory, CategoryName, None));
    }
    CreateRooms(guild, categoryId, newIds);
  }
}
