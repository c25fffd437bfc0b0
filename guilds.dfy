/**
 * The guild snapshot the bot reads and changes through the platform: roles,
 * members and channels, each in the order the platform's caches enumerate
 * them. A platform call (`setChannel`, `roles.add`/`remove`, `setMute`, creating
 * or deleting a role or channel) is an update of this snapshot.
 */
module Guilds {
  import opened Wrappers
  import opened Seqs
  import opened Text

  /** Platform identifiers (snowflakes), kept as the strings the platform hands out. */
  type Id = string

  /** The `ChannelType` values the bot distinguishes. */
  datatype ChannelKind = GuildCategory | GuildVoice | GuildStageVoice | GuildText

  datatype Role = Role(id: Id, name: string, color: nat)

  /** A cached guild member; `voice` is the channel its voice state is connected to. */
  datatype Member = Member(
    id: Id,
    username: string,
    isBot: bool,
    roles: set<Id>,
    voice: Option<Id>,
    muted: bool)

  datatype Channel = Channel(id: Id, kind: ChannelKind, name: string, parent: Option<Id>)

  datatype GuildState = GuildState(roles: seq<Role>, members: seq<Member>, channels: seq<Channel>)

  const HostRoleName: string := "Host"
  const PlayerRoleName: string := "Player"
  const SpectatorRoleName: string := "Spectator"
  const CategoryName: string := "Townsquare"
  const MainHallName: string := "Main Hall"
  const PrivateRoomPrefix: string := "private-room-"
  const ControlChannelName: string := "townsquare-control"

  /** The member is connected to some voice channel. */
  predicate InVoice(m: Member) {
    m.voice.Some?
  }

  /** A channel members can connect to by voice: a voice or a stage channel. */
  predicate IsVoiceBased(c: Channel) {
    c.kind == GuildVoice || c.kind == GuildStageVoice
  }

  function NamedRole(name: string): Role -> bool {
    (r: Role) => r.name == name
  }

  /** The first role in cache order whose name equals `name`, case-sensitive. */
  function RoleByName(roles: seq<Role>, name: string): (r: Option<Role>)
    ensures r.Some? ==> r.value in roles && r.value.name == name
    ensures r.Some? ==> exists i: nat :: FirstAt(roles, NamedRole(name), i) && roles[i] == r.value
    ensures r.None? <==> forall x :: x in roles ==> x.name != name
  {
    FindValue(roles, NamedRole(name))
  }

  /** The member holds the role `roleId`. */
  function Holds(roleId: Id): Member -> bool {
    (m: Member) => roleId in m.roles
  }

  /** The members a voice channel's `members` collection holds. */
  function InChannel(channelId: Id): Member -> bool {
    (m: Member) => m.voice == Some(channelId)
  }

  /** The number of cached members connected to the voice channel `channelId`. */
  function Occupancy(members: seq<Member>, channelId: Id): nat {
    Count(members, InChannel(channelId))
  }

  /** The member's username equals `name` once both are lower-cased. */
  function UsernameMatches(name: string): Member -> bool {
    (m: Member) => Lower(m.username) == Lower(name)
  }

  /** The first cached member whose username equals `name` ignoring case. */
  function MemberNamed(members: seq<Member>, name: string): (r: Option<nat>)
    ensures r.Some? ==> FirstNamed(members, r.value, name)
    ensures r.None? ==> forall j :: 0 <= j < |members| ==> Lower(members[j].username) != Lower(name)
  {
    FindIndex(members, UsernameMatches(name))
  }

  /** MOVE, MOVEPRIVATE and RETURN find the same member whether the name arrives lower-cased or not. */
  lemma MemberNamedIgnoresCase(members: seq<Member>, name: string)
    ensures MemberNamed(members, Lower(name)) == MemberNamed(members, name)
  {
    LowerIdempotent(name);
  }

  /** Member `i` is the first whose username equals `name` ignoring case. */
  predicate FirstNamed(members: seq<Member>, i: nat, name: string) {
    && i < |members|
    && Lower(members[i].username) == Lower(name)
    && forall j :: 0 <= j < i ==> Lower(members[j].username) != Lower(name)
  }

  /** The category the control handlers, setup and uninstall look for: named exactly "Townsquare". */
  predicate IsTownsquare(c: Channel) {
    c.kind == GuildCategory && c.name == CategoryName
  }

  /** The first channel in cache order that is a category named exactly "Townsquare". */
  function TownsquareCategory(channels: seq<Channel>): (r: Option<Channel>)
    ensures r.Some? ==> r.value in channels && IsTownsquare(r.value)
    ensures r.Some? ==> exists i: nat :: FirstAt(channels, IsTownsquare, i) && channels[i] == r.value
    ensures r.None? <==> forall c :: c in channels ==> !IsTownsquare(c)
  {
    FindValue(channels, IsTownsquare)
  }

  /** Member `i` is moved to the voice channel `channelId`. */
  function MoveMember(members: seq<Member>, i: nat, channelId: Id): (r: seq<Member>)
    requires i < |members|
    ensures |r| == |members| && r[i].voice == Some(channelId)
    ensures forall k :: 0 <= k < |members| ==> r[k] == (if k == i then members[k].(voice := Some(channelId)) else members[k])
  {
    members[i := members[i].(voice := Some(channelId))]
  }

  /** A guild as the platform holds it; the bot changes it only through the methods below. */
  class Guild {
    const id: Id
    var roles: seq<Role>
    var members: seq<Member>
    var channels: seq<Channel>

    constructor (id: Id, initial: GuildState)
      ensures this.id == id && State() == initial
    {
      this.id := id;
      roles, members, channels := initial.roles, initial.members, initial.channels;
    }

    function State(): GuildState
      reads this
    {
      GuildState(roles, members, channels)
    }

    /** The platform moves member `i` to another voice channel. */
    method SetChannel(i: nat, channelId: Id)
      requires i < |members|
      modifies this`members
      ensures members == MoveMember(old(members), i, channelId)
    {
      members := MoveMember(members, i, channelId);
    }

    /** The platform grants member `i` the roles `add`, then takes away the roles `remove`. */
    method UpdateRoles(i: nat, add: set<Id>, remove: set<Id>)
      requires i < |members|
      modifies this`members
      ensures members == old(members)[i := old(members)[i].(roles := old(members)[i].roles + add - remove)]
    {
      members := members[i := members[i].(roles := members[i].roles + add - remove)];
    }

    /** The platform sets member `i`'s server mute flag. */
    method SetMute(i: nat, muted: bool)
      requires i < |members|
      modifies this`members
      ensures members == old(members)[i := old(members)[i].(muted := muted)]
    {
      members := members[i := members[i].(muted := muted)];
    }

    /** The platform creates a role; it is appended to the role cache. */
    method CreateRole(r: Role)
      modifies this`roles
      ensures roles == old(roles) + [r]
    {
      roles := roles + [r];
    }

    /** The platform creates a channel; it is appended to the channel cache. */
    method CreateChannel(c: Channel)
      modifies this`channels
      ensures channels == old(channels) + [c]
    {
      channels := channels + [c];
    }

    /** The platform deletes every channel whose id is in `ids`. */
    method DeleteChannels(ids: set<Id>)
      modifies this`channels
      ensures channels == Filter(old(channels), IdOutside(ids))
    {
      channels := Filter(channels, IdOutside(ids));
    }

    /** The platform deletes role `i`. */
    method DeleteRole(i: nat)
      requires i < |roles|
      modifies this`roles
      ensures roles == old(roles)[..i] + old(roles)[i + 1..]
    {
      roles := roles[..i] + roles[i + 1..];
    }
  }

  function IdOutside(ids: set<Id>): Channel -> bool {
    (c: Channel) => c.id !in ids
  }
}
