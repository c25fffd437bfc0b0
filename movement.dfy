/**
 * `moveAllToMainCore`: four checks in a fixed order, then one pass over the
 * member cache that sends every eligible Player or Spectator to the main hall
 * and counts them.
 */
module Movement {
  import opened Wrappers
  import opened Seqs
  import opened Text
  import opened Guilds

  /** The errors `moveAllToMainCore` throws, in the order it checks for them. */
  datatype MoveError = NotHost | RolesMissing | CategoryMissing | MainVcMissing

  /** What the four checks resolve: the two role ids and the main hall's channel id. */
  datatype Target = Target(playerRole: Id, spectatorRole: Id, mainHall: Id)

  /** The category test of this handler: "townsquare" ignoring case. */
  predicate IsTownsquareIgnoringCase(c: Channel) {
    c.kind == GuildCategory && Lower(c.name) == "townsquare"
  }

  /** The main-hall test of this handler: "main hall" ignoring case. */
  predicate IsMainHallIgnoringCase(c: Channel) {
    Lower(c.name) == "main hall"
  }

  /** A voice or stage channel whose parent is the category `categoryId`. */
  function VoiceUnder(categoryId: Id): Channel -> bool {
    (c: Channel) => IsVoiceBased(c) && c.parent == Some(categoryId)
  }

  /** Check 1: the Host role exists and the requester holds it. */
  predicate HostHeld(st: GuildState, requester: Member) {
    var host := RoleByName(st.roles, HostRoleName);
    host.Some? && host.value.id in requester.roles
  }

  /** Check 2: the Player and Spectator roles exist. */
  predicate RolesPresent(st: GuildState) {
    RoleByName(st.roles, PlayerRoleName).Some? && RoleByName(st.roles, SpectatorRoleName).Some?
  }

  /** Check 3's lookup: the first category named "townsquare" ignoring case. */
  function LooseCategory(st: GuildState): (r: Option<Channel>)
    ensures r.Some? ==> r.value in st.channels && IsTownsquareIgnoringCase(r.value)
    ensures r.Some? ==> exists i: nat :: FirstAt(st.channels, IsTownsquareIgnoringCase, i) && st.channels[i] == r.value
    ensures r.None? <==> forall c :: c in st.channels ==> !IsTownsquareIgnoringCase(c)
  {
    FindValue(st.channels, IsTownsquareIgnoringCase)
  }

  /** Check 4's lookup: filter the voice channels under the category, then find "main hall". */
  function MainHallUnder(st: GuildState, categoryId: Id): (r: Option<Channel>)
    ensures r.Some? ==> r.value in st.channels && IsVoiceBased(r.value)
    ensures r.Some? ==> r.value.parent == Some(categoryId) && Lower(r.value.name) == "main hall"
    ensures r.None? <==> forall c :: c in st.channels && IsVoiceBased(c) && c.parent == Some(categoryId) ==> Lower(c.name) != "main hall"
    ensures r.Some? ==> exists i: nat :: FirstAt(st.channels, Both(VoiceUnder(categoryId), IsMainHallIgnoringCase), i) && st.channels[i] == r.value
  {
    FindAfterFilter(st.channels, VoiceUnder(categoryId), IsMainHallIgnoringCase);
    FindValue(Filter(st.channels, VoiceUnder(categoryId)), IsMainHallIgnoringCase)
  }

  /** The four checks of `moveAllToMainCore`; the first that fails decides the error. */
  function ResolveTarget(st: GuildState, requester: Member): (r: Result<Target, MoveError>)
    ensures r == Failure(NotHost) <==> !HostHeld(st, requester)
    ensures r == Failure(RolesMissing) <==> HostHeld(st, requester) && !RolesPresent(st)
    ensures r == Failure(CategoryMissing) <==>
      HostHeld(st, requester) && RolesPresent(st) && LooseCategory(st).None?
    ensures r == Failure(MainVcMissing) <==>
      HostHeld(st, requester) && RolesPresent(st) && LooseCategory(st).Some? &&
      MainHallUnder(st, LooseCategory(st).value.id).None?
    ensures r.Success? ==>
      && (exists p :: p in st.roles && p.name == PlayerRoleName && p.id == r.value.playerRole)
      && (exists s :: s in st.roles && s.name == SpectatorRoleName && s.id == r.value.spectatorRole)
      && exists c :: c in st.channels && c.id == r.value.mainHall && IsVoiceBased(c) && Lower(c.name) == "main hall"
    ensures r.Success? ==>
      && RolesPresent(st)
      && r.value.playerRole == RoleByName(st.roles, PlayerRoleName).value.id
      && r.value.spectatorRole == RoleByName(st.roles, SpectatorRoleName).value.id
    ensures r.Success? ==>
      && LooseCategory(st).Some?
      && MainHallUnder(st, LooseCategory(st).value.id).Some?
      && r.value.mainHall == MainHallUnder(st, LooseCategory(st).value.id).value.id
  {
    var host := RoleByName(st.roles, HostRoleName);
    if host.None? || host.value.id !in requester.roles then Failure(NotHost)
    else
      var player := RoleByName(st.roles, PlayerRoleName);
      var spectator := RoleByName(st.roles, SpectatorRoleName);
      if player.None? || spectator.None? then Failure(RolesMissing)
      else
        var category := LooseCategory(st);
        if category.None? then Failure(CategoryMissing)
        else
          var main := MainHallUnder(st, category.value.id);
          if main.None? then Failure(MainVcMissing)
          else Success(Target(player.value.id, spectator.value.id, main.value.id))
  }

  /** Holds Player or Spectator. */
  predicate InGame(m: Member, t: Target) {
    t.playerRole in m.roles || t.spectatorRole in m.roles
  }

  /** The loop's test: in the game, connected to voice, and not already in the main hall. */
  predicate Eligible(m: Member, t: Target) {
    InGame(m, t) && InVoice(m) && m.voice != Some(t.mainHall)
  }

  function EligibleFor(t: Target): Member -> bool {
    (m: Member) => Eligible(m, t)
  }

  function Relocate(m: Member, t: Target): Member {
    if Eligible(m, t) then m.(voice := Some(t.mainHall)) else m
  }

  /** The member cache after the loop: every in-game member in voice ends in the main hall. */
  function RelocateAll(ms: seq<Member>, t: Target): (r: seq<Member>)
    ensures |r| == |ms|
    ensures forall i :: 0 <= i < |ms| ==>
      r[i].voice == if InGame(ms[i], t) && InVoice(ms[i]) then Some(t.mainHall) else ms[i].voice
    ensures forall i :: 0 <= i < |ms| ==> r[i] == ms[i].(voice := r[i].voice)
  {
    seq(|ms|, i requires 0 <= i < |ms| => Relocate(ms[i], t))
  }

  /** Number of positions at which a member's voice channel differs between two caches. */
  function VoiceChanges(before: seq<Member>, after: seq<Member>): nat
    requires |before| == |after|
  {
    if |before| == 0 then 0
    else
      var n := |before| - 1;
      VoiceChanges(before[..n], after[..n]) + (if before[n].voice != after[n].voice then 1 else 0)
  }

  /** The returned count is exactly the number of members whose voice channel changed. */
  lemma {:induction false} CountIsRelocations(ms: seq<Member>, t: Target)
    ensures Count(ms, EligibleFor(t)) == VoiceChanges(ms, RelocateAll(ms, t))
  {
    if |ms| > 0 {
      var n := |ms| - 1;
      assert RelocateAll(ms, t)[..n] == RelocateAll(ms[..n], t);
      CountIsRelocations(ms[..n], t);
    }
  }

  /** A second pass finds nobody left to move, and changes nothing. */
  lemma MoveAllSettles(ms: seq<Member>, t: Target)
    ensures Count(RelocateAll(ms, t), EligibleFor(t)) == 0
    ensures RelocateAll(RelocateAll(ms, t), t) == RelocateAll(ms, t)
  {
    var r := RelocateAll(ms, t);
    assert forall i :: 0 <= i < |r| ==> !EligibleFor(t)(r[i]);
  }

  /**
   * `moveAllToMainCore(guild, requester)`. On an error no member moves; on
   * success the eligible members move and their number is returned.
   */
  method MoveAllToMainCore(guild: Guild, requester: Member) returns (r: Result<nat, MoveError>)
    modifies guild
    ensures guild.roles == old(guild.roles) && guild.channels == old(guild.channels)
    ensures match ResolveTarget(old(guild.State()), requester)
      case Failure(e) => r == Failure(e) && guild.members == old(guild.members)
      case Success(t) =>
        r == Success(Count(old(guild.members), EligibleFor(t))) &&
        guild.members == RelocateAll(old(guild.members), t)
  {
    var resolved := ResolveTarget(guild.State(), requester);
    if resolved.Failure? {
      return Failure(resolved.error);
    }
    var moved := MoveEligible(guild, resolved.value);
    r := Success(moved);
  }

  /** The loop of `moveAllToMainCore`: each eligible member is moved to the main hall and counted. */
  method MoveEligible(guild: Guild, t: Target) returns (moved: nat)
    modifies guild
    ensures guild.roles == old(guild.roles) && guild.channels == old(guild.channels)
    ensures guild.members == RelocateAll(old(guild.members), t)
    ensures moved == Count(old(guild.members), EligibleFor(t))
  {
    ghost var before := guild.members;
    moved := 0;
    var i := 0;
    while i < |guild.members|
      invariant i <= |guild.members| == |before|
      invariant guild.roles == old(guild.roles) && guild.channels == old(guild.channels)
      invariant forall k :: 0 <= k < i ==> guild.members[k] == Relocate(before[k], t)
      invariant forall k :: i <= k < |before| ==> guild.members[k] == before[k]
      invariant moved == Count(before[..i], EligibleFor(t))
    {
      if Eligible(guild.members[i], t) {
        guild.SetChannel(i, t.mainHall);
        moved := moved + 1;
      }
      assert before[..i + 1][..i] == before[..i];
      i := i + 1;
    }
    assert before[..i] == before;
    assert guild.members == RelocateAll(before, t);
  }
}
