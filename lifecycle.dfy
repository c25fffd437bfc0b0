/**
 * How the install and uninstall commands relate: on a guild that has none of
 * the game roles and no "Townsquare" category, `/uninstall` after `/setup`
 * leaves the roles and channels exactly as they were.
 */
module Lifecycle {
  import opened Wrappers
  import opened Seqs
  import opened Guilds
  import opened Setup
  import opened Sessions

  predicate NoGameRoles(rs: seq<Role>) {
    forall k :: 0 <= k < |rs| ==> !IsGameRoleName(rs[k].name)
  }

  /** Deleting the first role named `name` from `rs + [x] + t`, where only `x` carries that name before `t`. */
  lemma RemoveFirstNamedAt(rs: seq<Role>, x: Role, t: seq<Role>, name: string)
    requires x.name == name
    requires forall k :: 0 <= k < |rs| ==> rs[k].name != name
    ensures RemoveFirstNamed(rs + [x] + t, name) == rs + t
  {
    var s := rs + [x] + t;
    assert s[|rs|] == x;
    var i := FindIndex(s, NamedRole(name));
    assert i == Some(|rs|);
    assert s[..|rs|] + s[|rs| + 1..] == rs + t;
  }

  /** With no game role present, the role part of `/setup` appends Host, Spectator and Player in that order. */
  lemma EnsureRolesOnEmpty(rs: seq<Role>, newIds: seq<Id>)
    requires |newIds| >= 3 && NoGameRoles(rs)
    ensures EnsureRoles(rs, newIds) == rs + [Role(newIds[0], HostRoleName, HostColor),
                                             Role(newIds[1], SpectatorRoleName, SpectatorColor),
                                             Role(newIds[2], PlayerRoleName, PlayerColor)]
  {
    var h := Role(newIds[0], HostRoleName, HostColor);
    var sp := Role(newIds[1], SpectatorRoleName, SpectatorColor);
    assert RoleByName(rs, HostRoleName).None?;
    var r1 := rs + [h];
    assert forall x :: x in r1 ==> x.name != SpectatorRoleName;
    var r2 := r1 + [sp];
    assert forall x :: x in r2 ==> x.name != PlayerRoleName;
  }

  /** `/uninstall` deletes exactly the roles `/setup` created on a guild that had none of them. */
  lemma UninstallUndoesSetupRoles(rs: seq<Role>, newIds: seq<Id>)
    requires |newIds| >= 3 && NoGameRoles(rs)
    ensures UninstallRoles(EnsureRoles(rs, newIds)) == rs
  {
    var h := Role(newIds[0], HostRoleName, HostColor);
    var sp := Role(newIds[1], SpectatorRoleName, SpectatorColor);
    var pl := Role(newIds[2], PlayerRoleName, PlayerColor);
    EnsureRolesOnEmpty(rs, newIds);
    var s0 := EnsureRoles(rs, newIds);
    assert s0 == rs + [h] + [sp, pl];
    RemoveFirstNamedAt(rs, h, [sp, pl], HostRoleName);
    var s1 := RemoveFirstNamed(s0, HostRoleName);
    assert s1 == (rs + [sp]) + [pl] + [];
    RemoveFirstNamedAt(rs + [sp], pl, [], PlayerRoleName);
    var s2 := RemoveFirstNamed(s1, PlayerRoleName);
    assert s2 == rs + [sp] + [];
    RemoveFirstNamedAt(rs, sp, [], SpectatorRoleName);
    assert RemoveFirstNamed(s2, SpectatorRoleName) == rs;
  }

  /** No channel of the guild is, or sits under, an id the channel part of `/setup` will hand out. */
  predicate ClearOfSetupIds(cs: seq<Channel>, newIds: seq<Id>)
    requires |newIds| >= FreshIdsNeeded
  {
    forall c :: c in cs ==> c.id !in newIds[3..FreshIdsNeeded] && c.parent != Some(newIds[3])
  }

  /** On a guild without a category, `/setup` appends the category and then its rooms. */
  lemma SetupChannelsOnEmpty(cs: seq<Channel>, newIds: seq<Id>)
    requires |newIds| >= FreshIdsNeeded && TownsquareCategory(cs).None?
    ensures var category := Channel(newIds[3], GuildCategory, CategoryName, None);
      && SetupChannels(cs, newIds) == cs + ([category] + CreatedRooms(newIds[3], newIds))
      && TownsquareCategory(SetupChannels(cs, newIds)) == Some(category)
  {
    var category := Channel(newIds[3], GuildCategory, CategoryName, None);
    var tail := [category] + CreatedRooms(newIds[3], newIds);
    assert SetupChannels(cs, newIds) == cs + tail;
    FindValueAppend(cs, tail, IsTownsquare);
    FindValueCons(tail, IsTownsquare);
  }

  /** Every room `/setup` creates sits under the category and takes one of the handed-out ids. */
  lemma CreatedRoomsUnder(categoryId: Id, newIds: seq<Id>)
    requires |newIds| >= FreshIdsNeeded
    ensures forall d :: d in CreatedRooms(categoryId, newIds) ==>
      d.parent == Some(categoryId) && exists k :: 4 <= k < FreshIdsNeeded && newIds[k] == d.id
  {
    var rooms := CreatedRooms(categoryId, newIds);
    forall d | d in rooms ensures d.parent == Some(categoryId) && exists k :: 4 <= k < FreshIdsNeeded && newIds[k] == d.id {
      var k :| 0 <= k < |rooms| && rooms[k] == d;
      assert d.id == newIds[4 + k];
    }
  }

  /** A channel the guild had before `/setup` is neither the new category nor one of its children. */
  lemma SetupIdsMissOriginal(cs: seq<Channel>, newIds: seq<Id>, c: Channel)
    requires |newIds| >= FreshIdsNeeded
    requires TownsquareCategory(cs).None? && ClearOfSetupIds(cs, newIds) && c in cs
    ensures var catId := newIds[3];
      c.id !in TownsquareIds(cs + ([Channel(catId, GuildCategory, CategoryName, None)] + CreatedRooms(catId, newIds)), catId)
  {
    var catId := newIds[3];
    var rooms := CreatedRooms(catId, newIds);
    var after := cs + ([Channel(catId, GuildCategory, CategoryName, None)] + rooms);
    var window := newIds[3..FreshIdsNeeded];
    assert c.id !in window;
    assert window[0] == catId;
    CreatedRoomsUnder(catId, newIds);
    forall d | d in after && d.parent == Some(catId) ensures d.id != c.id {
      assert d in rooms;
      var k :| 4 <= k < FreshIdsNeeded && newIds[k] == d.id;
      assert window[k - 3] == d.id;
    }
  }

  /** `/uninstall` deletes exactly the category and rooms `/setup` created on a guild without a category. */
  lemma UninstallUndoesSetupChannels(cs: seq<Channel>, newIds: seq<Id>)
    requires |newIds| >= FreshIdsNeeded
    requires TownsquareCategory(cs).None? && ClearOfSetupIds(cs, newIds)
    ensures UninstallChannels(SetupChannels(cs, newIds)) == cs
  {
    var catId := newIds[3];
    var tail := [Channel(catId, GuildCategory, CategoryName, None)] + CreatedRooms(catId, newIds);
    SetupChannelsOnEmpty(cs, newIds);
    CreatedRoomsUnder(catId, newIds);
    var after := cs + tail;
    var keep := IdOutside(TownsquareIds(after, catId));
    assert UninstallChannels(after) == Filter(after, keep);
    forall c | c in cs ensures keep(c) {
      SetupIdsMissOriginal(cs, newIds, c);
    }
    FilterKeepsAll(cs, keep);
    FilterAppend(cs, tail, keep);
    FilterDropsAll(tail, keep);
  }
}
