/** `/silence` and `/talk`: server-mute or unmute every Player connected to voice. */
module Muting {
  import opened Wrappers
  import opened Guilds

  /** Whom the two commands touch: holders of the Player role who are in voice. */
  predicate MuteTarget(m: Member, playerRole: Id) {
    playerRole in m.roles && InVoice(m)
  }

  /** The member cache after every target has had its mute flag set to `mute`. */
  function MuteFlags(ms: seq<Member>, playerRole: Id, mute: bool): (r: seq<Member>)
    ensures |r| == |ms|
    ensures forall k :: 0 <= k < |ms| ==> r[k] == ms[k].(muted := r[k].muted)
    ensures forall k :: 0 <= k < |ms| ==> r[k].muted == if MuteTarget(ms[k], playerRole) then mute else ms[k].muted
  {
    seq(|ms|, k requires 0 <= k < |ms| => if MuteTarget(ms[k], playerRole) then ms[k].(muted := mute) else ms[k])
  }

  /** `/talk` after `/silence` leaves the same cache as `/talk` alone. */
  lemma TalkOverridesSilence(ms: seq<Member>, playerRole: Id)
    ensures MuteFlags(MuteFlags(ms, playerRole, true), playerRole, false) == MuteFlags(ms, playerRole, false)
  {
  }

  /** The loop shared by `/silence` (mute) and `/talk` (unmute). */
  method MutePlayers(guild: Guild, mute: bool)
    modifies guild
    ensures guild.roles == old(guild.roles) && guild.channels == old(guild.channels)
    ensures match RoleByName(old(guild.roles), PlayerRoleName)
      case None => guild.members == old(guild.members)
      case Some(player) => guild.members == MuteFlags(old(guild.members), player.id, mute)
  {
    var player := RoleByName(guild.roles, PlayerRoleName);
    if player.None? {
      return;
    }
    var role := player.value.id;
    ghost var before := guild.members;
    var i := 0;
    while i < |guild.members|
      invariant i <= |guild.members| == |before|
      invariant guild.roles == old(guild.roles) && guild.channels == old(guild.channels)
      invariant forall k :: 0 <= k < i ==> guild.members[k] == MuteFlags(before, role, mute)[k]
      invariant forall k :: i <= k < |before| ==> guild.members[k] == before[k]
    {
      if MuteTarget(guild.members[i], role) {
        guild.SetMute(i, mute);
      }
      i := i + 1;
    }
  }

  method Silence(guild: Guild)
    modifies guild
    ensures guild.roles == old(guild.roles) && guild.channels == old(guild.channels)
    ensures match RoleByName(old(guild.roles), PlayerRoleName)
      case None => guild.members == old(guild.members)
      case Some(player) => guild.members == MuteFlags(old(guild.members), player.id, true)
  {
    MutePlayers(guild, true);
  }

  method Talk(guild: Guild)
    modifies guild
    ensures guild.roles == old(guild.roles) && guild.channels == old(guild.channels)
    ensures match RoleByName(old(guild.roles), PlayerRoleName)
      case None => guild.members == old(guild.members)
      case Some(player) => guild.members == MuteFlags(old(guild.members), player.id, false)
  {
    MutePlayers(guild, false);
  }
}
