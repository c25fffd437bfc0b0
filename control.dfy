/**
 * The `messageCreate` handler: messages posted to the control text channel
 * carry a JSON payload whose `type` selects MOVEALL, MOVE, MOVEPRIVATE or
 * RETURN. Every other message is ignored. Each handler runs as one step.
 */
module Control {
  import opened Wrappers
  import opened Seqs
  import opened Text
  import opened Guilds
  import opened Movement

  /**
   * What `JSON.parse` yields, seen through the fields the handler reads. A
   * field that is absent or not a string is None.
   */
  datatype Payload = Payload(
    kind: Option<string>,
    discordUsername: Option<string>,
    discordUsername2: Option<string>,
    channelName: Option<string>)

  datatype Body = Unparseable | Parsed(payload: Payload)

  datatype Message = Message(
    authorIsBot: bool,
    webhookId: Option<Id>,
    inGuild: bool,
    channelKind: ChannelKind,
    channelName: string,
    body: Body)

  datatype Command =
    | MoveAll
    | Move(username: string, channelName: string)
    | MovePrivate(username: string, username2: string)
    | Return(username: string, username2: string)

  /** Bots are ignored unless the message came through a webhook. */
  predicate FromAcceptedAuthor(msg: Message) {
    !msg.authorIsBot || msg.webhookId.Some?
  }

  /** Posted in a guild, in a text channel named exactly "townsquare-control". */
  predicate InControlChannel(msg: Message) {
    msg.inGuild && msg.channelKind == GuildText && msg.channelName == ControlChannelName
  }

  predicate Accepted(msg: Message) {
    FromAcceptedAuthor(msg) && InControlChannel(msg) && msg.body.Parsed?
  }

  predicate KnownKind(kind: string) {
    kind == "MOVEALL" || kind == "MOVE" || kind == "MOVEPRIVATE" || kind == "RETURN"
  }

  /**
   * The dispatch on `payload.type`. A command whose handler reads a field
   * that is missing throws inside that handler before changing anything, so
   * it decodes to None like an unknown `type`.
   */
  function Decode(p: Payload): (r: Option<Command>)
    ensures r.Some? ==> p.kind.Some? && KnownKind(p.kind.value)
    ensures p.kind == Some("MOVEALL") <==> r == Some(MoveAll)
    ensures forall u, c :: r == Some(Move(u, c)) <==>
      p.kind == Some("MOVE") && p.discordUsername == Some(u) && p.channelName == Some(c)
    ensures forall u, v :: r == Some(MovePrivate(u, v)) <==>
      p.kind == Some("MOVEPRIVATE") && p.discordUsername == Some(u) && p.discordUsername2 == Some(v)
    ensures forall u, v :: r == Some(Return(u, v)) <==>
      p.kind == Some("RETURN") && p.discordUsername == Some(u) && p.discordUsername2 == Some(v)
  {
    match p.kind
    case None => None
    case Some(k) =>
      if k == "MOVEALL" then Some(MoveAll)
      else if k == "MOVE" then
        if p.discordUsername.Some? && p.channelName.Some?
        then Some(Move(p.discordUsername.value, p.channelName.value)) else None
      else if k == "MOVEPRIVATE" then
        if p.discordUsername.Some? && p.discordUsername2.Some?
        then Some(MovePrivate(p.discordUsername.value, p.discordUsername2.value)) else None
      else if k == "RETURN" then
        if p.discordUsername.Some? && p.discordUsername2.Some?
        then Some(Return(p.discordUsername.value, p.discordUsername2.value)) else None
      else None
  }

  // ---- MOVEALL ----

  /** The requester MOVEALL hands to `moveAllToMainCore`: the first cached member holding Host. */
  function HostMember(st: GuildState): (r: Option<nat>)
    ensures r.Some? ==> r.value < |st.members| && HostHeld(st, st.members[r.value])
    ensures r.Some? ==> forall j :: 0 <= j < r.value ==> !HostHeld(st, st.members[j])
    ensures r.None? ==> forall j :: 0 <= j < |st.members| ==> !HostHeld(st, st.members[j])
    ensures r.Some? ==> ResolveTarget(st, st.members[r.value]) != Failure(NotHost)
  {
    var host := RoleByName(st.roles, HostRoleName);
    if host.None? then None else FindIndex(st.members, Holds(host.value.id))
  }

  /** MOVEALL: `moveAllToMainCore` for the first Host holder; its errors are swallowed. */
  function MoveAllEffect(st: GuildState): (r: seq<Member>)
    ensures |r| == |st.members|
    ensures forall k :: 0 <= k < |r| ==> r[k] == st.members[k].(voice := r[k].voice)
    ensures HostMember(st).None? ==> r == st.members
    ensures forall k :: 0 <= k < |r| && r[k] != st.members[k] ==> InVoice(st.members[k])
    ensures HostMember(st).Some? && ResolveTarget(st, st.members[HostMember(st).value]).Failure? ==> r == st.members
    ensures HostMember(st).Some? && ResolveTarget(st, st.members[HostMember(st).value]).Success? ==>
      r == RelocateAll(st.members, ResolveTarget(st, st.members[HostMember(st).value]).value)
  {
    match HostMember(st)
    case None => st.members
    case Some(h) =>
      match ResolveTarget(st, st.members[h])
      case Failure(_) => st.members
      case Success(t) => RelocateAll(st.members, t)
  }

  // ---- MOVE ----

  /** A voice or stage channel whose parent is the first category named exactly "Townsquare". */
  predicate IsTownsquareRoom(st: GuildState, c: Channel) {
    var category := TownsquareCategory(st.channels);
    category.Some? && IsVoiceBased(c) && c.parent == Some(category.value.id)
  }

  function RoomNamed(categoryId: Id, name: string): Channel -> bool {
    (c: Channel) => IsVoiceBased(c) && c.parent == Some(categoryId) && Lower(c.name) == Lower(name)
  }

  /** MOVE's target: the first room under "Townsquare" named `name` ignoring case. */
  function MoveTargetRoom(st: GuildState, name: string): (r: Option<Channel>)
    ensures r.Some? ==> r.value in st.channels && IsTownsquareRoom(st, r.value) && Lower(r.value.name) == Lower(name)
    ensures r.None? ==> forall c :: c in st.channels && IsTownsquareRoom(st, c) ==> Lower(c.name) != Lower(name)
    ensures r.Some? ==>
      && TownsquareCategory(st.channels).Some?
      && exists i: nat :: FirstAt(st.channels, RoomNamed(TownsquareCategory(st.channels).value.id, name), i) && st.channels[i] == r.value
  {
    match TownsquareCategory(st.channels)
    case None => None
    case Some(category) => FindValue(st.channels, RoomNamed(category.id, name))
  }

  /** MOVE: relocate the first member named `username` (ignoring case) if it is in voice. */
  function MoveOneEffect(st: GuildState, username: string, channelName: string): (r: seq<Member>)
    ensures |r| == |st.members|
    ensures forall k :: 0 <= k < |r| ==>
      r[k] == st.members[k] ||
      (&& FirstNamed(st.members, k, username)
       && InVoice(st.members[k])
       && MoveTargetRoom(st, channelName).Some?
       && r[k] == st.members[k].(voice := Some(MoveTargetRoom(st, channelName).value.id)))
    ensures forall k :: 0 <= k < |r| ==>
      (FirstNamed(st.members, k, username) && InVoice(st.members[k]) && MoveTargetRoom(st, channelName).Some?) ==>
        r[k].voice == Some(MoveTargetRoom(st, channelName).value.id)
  {
    var i := MemberNamed(st.members, username);
    if i.None? || !InVoice(st.members[i.value]) then st.members
    else
      match MoveTargetRoom(st, channelName)
      case None => st.members
      case Some(room) => MoveMember(st.members, i.value, room.id)
  }

  // ---- MOVEPRIVATE ----

  /** A voice or stage channel under the category whose name starts with "private-room-". */
  predicate IsPrivateRoom(c: Channel, categoryId: Id) {
    IsVoiceBased(c) && c.parent == Some(categoryId) && StartsWith(c.name, PrivateRoomPrefix)
  }

  function PrivateRoomUnder(categoryId: Id): Channel -> bool {
    (c: Channel) => IsPrivateRoom(c, categoryId)
  }

  function EmptyIn(members: seq<Member>): Channel -> bool {
    (c: Channel) => Occupancy(members, c.id) == 0
  }

  /** No member's voice state is connected to channel `id`. */
  predicate Unoccupied(members: seq<Member>, id: Id) {
    forall x :: 0 <= x < |members| ==> members[x].voice != Some(id)
  }

  /** Channel `k` is a private room under the category, empty, and every earlier private room is occupied. */
  predicate EarliestEmptyPrivateRoom(st: GuildState, categoryId: Id, k: nat) {
    && k < |st.channels|
    && IsPrivateRoom(st.channels[k], categoryId)
    && Unoccupied(st.members, st.channels[k].id)
    && forall j :: 0 <= j < k && IsPrivateRoom(st.channels[j], categoryId) ==>
         !Unoccupied(st.members, st.channels[j].id)
  }

  /** The first private room under the category, in cache order, that nobody is connected to. */
  function FirstEmptyPrivateRoom(st: GuildState, categoryId: Id): (r: Option<Channel>)
    ensures r.Some? ==> exists k: nat :: EarliestEmptyPrivateRoom(st, categoryId, k) && st.channels[k] == r.value
    ensures r.None? ==> forall k :: 0 <= k < |st.channels| && IsPrivateRoom(st.channels[k], categoryId) ==>
      !Unoccupied(st.members, st.channels[k].id)
  {
    FirstEmptyPrivateRoomIsEarliest(st, categoryId);
    FindValue(Filter(st.channels, PrivateRoomUnder(categoryId)), EmptyIn(st.members))
  }

  /** A room whose member count is zero is exactly a room nobody is connected to. */
  lemma EmptyInIffUnoccupied(members: seq<Member>, c: Channel)
    ensures EmptyIn(members)(c) <==> Unoccupied(members, c.id)
  {
    var n := Count(members, InChannel(c.id));
    assert n == 0 <==> forall j :: 0 <= j < |members| ==> !InChannel(c.id)(members[j]);
  }

  lemma FirstEmptyPrivateRoomIsEarliest(st: GuildState, categoryId: Id)
    ensures var r := FindValue(Filter(st.channels, PrivateRoomUnder(categoryId)), EmptyIn(st.members));
      && (r.Some? ==> exists k: nat :: EarliestEmptyPrivateRoom(st, categoryId, k) && st.channels[k] == r.value)
      && (r.None? ==> forall k :: 0 <= k < |st.channels| && IsPrivateRoom(st.channels[k], categoryId) ==>
            !Unoccupied(st.members, st.channels[k].id))
  {
    var s := st.channels;
    var p := Both(PrivateRoomUnder(categoryId), EmptyIn(st.members));
    FindAfterFilter(s, PrivateRoomUnder(categoryId), EmptyIn(st.members));
    var r := FindValue(s, p);
    forall j | 0 <= j < |s|
      ensures p(s[j]) <==> IsPrivateRoom(s[j], categoryId) && Unoccupied(st.members, s[j].id)
    {
      EmptyInIffUnoccupied(st.members, s[j]);
    }
    if r.Some? {
      var i :| 0 <= i < |s| && s[i] == r.value && FirstAt(s, p, i);
      assert EarliestEmptyPrivateRoom(st, categoryId, i);
    } else {
      assert forall k :: 0 <= k < |s| ==> !p(s[k]);
    }
  }

  /** MOVEPRIVATE's room: the earliest empty private room under the "Townsquare" category. */
  function PrivateTarget(st: GuildState): (r: Option<Channel>)
    ensures r.Some? ==>
      && TownsquareCategory(st.channels).Some?
      && exists k: nat :: EarliestEmptyPrivateRoom(st, TownsquareCategory(st.channels).value.id, k) && st.channels[k] == r.value
    ensures r.None? && TownsquareCategory(st.channels).Some? ==>
      forall k :: 0 <= k < |st.channels| && IsPrivateRoom(st.channels[k], TownsquareCategory(st.channels).value.id) ==>
        !Unoccupied(st.members, st.channels[k].id)
  {
    match TownsquareCategory(st.channels)
    case None => None
    case Some(category) => FirstEmptyPrivateRoom(st, category.id)
  }

  /** Both named members exist and are connected to voice. */
  predicate PairInVoice(ms: seq<Member>, u1: string, u2: string) {
    var i := MemberNamed(ms, u1);
    var j := MemberNamed(ms, u2);
    i.Some? && InVoice(ms[i.value]) && j.Some? && InVoice(ms[j.value])
  }

  /** Move the first members named `u1` and `u2` into `room`, in that order. */
  function MovePair(ms: seq<Member>, u1: string, u2: string, room: Id): (r: seq<Member>)
    requires PairInVoice(ms, u1, u2)
    ensures |r| == |ms|
    ensures forall k :: 0 <= k < |ms| ==>
      if FirstNamed(ms, k, u1) || FirstNamed(ms, k, u2) then r[k] == ms[k].(voice := Some(room)) else r[k] == ms[k]
  {
    MoveMember(MoveMember(ms, MemberNamed(ms, u1).value, room), MemberNamed(ms, u2).value, room)
  }

  /** MOVEPRIVATE: both users into the earliest empty private room, or nobody moves. */
  function MovePrivateEffect(st: GuildState, u1: string, u2: string): (r: seq<Member>)
    ensures |r| == |st.members|
    ensures r != st.members ==> PairInVoice(st.members, u1, u2)
    ensures PrivateTarget(st).None? ==> r == st.members
    ensures forall k :: 0 <= k < |r| ==>
      r[k] == st.members[k] ||
      (&& (FirstNamed(st.members, k, u1) || FirstNamed(st.members, k, u2))
       && TownsquareCategory(st.channels).Some?
       && exists c: nat :: EarliestEmptyPrivateRoom(st, TownsquareCategory(st.channels).value.id, c) &&
            r[k] == st.members[k].(voice := Some(st.channels[c].id)))
    ensures PairInVoice(st.members, u1, u2) && PrivateTarget(st).Some? ==>
      forall k :: 0 <= k < |r| && (FirstNamed(st.members, k, u1) || FirstNamed(st.members, k, u2)) ==>
        r[k].voice == Some(PrivateTarget(st).value.id)
  {
    if !PairInVoice(st.members, u1, u2) then st.members
    else
      match PrivateTarget(st)
      case None => st.members
      case Some(room) => MovePair(st.members, u1, u2, room.id)
  }

  // ---- RETURN ----

  /** RETURN's target test: voice or stage, under the category, named exactly "Main Hall". */
  predicate IsExactMainHall(c: Channel, categoryId: Id) {
    IsVoiceBased(c) && c.parent == Some(categoryId) && c.name == MainHallName
  }

  function ExactMainHallUnder(categoryId: Id): Channel -> bool {
    (c: Channel) => IsExactMainHall(c, categoryId)
  }

  /** RETURN's room: the first "Main Hall" under the "Townsquare" category. */
  function ReturnTarget(st: GuildState): (r: Option<Channel>)
    ensures r.Some? ==> r.value in st.channels && TownsquareCategory(st.channels).Some?
    ensures r.Some? ==> IsExactMainHall(r.value, TownsquareCategory(st.channels).value.id)
    ensures r.None? && TownsquareCategory(st.channels).Some? ==>
      forall c :: c in st.channels ==> !IsExactMainHall(c, TownsquareCategory(st.channels).value.id)
    ensures r.Some? ==> exists i: nat ::
      FirstAt(st.channels, ExactMainHallUnder(TownsquareCategory(st.channels).value.id), i) && st.channels[i] == r.value
  {
    match TownsquareCategory(st.channels)
    case None => None
    case Some(category) => FindValue(st.channels, ExactMainHallUnder(category.id))
  }

  /** RETURN: both users into "Main Hall", or nobody moves. */
  function ReturnEffect(st: GuildState, u1: string, u2: string): (r: seq<Member>)
    ensures |r| == |st.members|
    ensures r != st.members ==> PairInVoice(st.members, u1, u2) && ReturnTarget(st).Some?
    ensures forall k :: 0 <= k < |r| ==>
      r[k] == st.members[k] ||
      (&& (FirstNamed(st.members, k, u1) || FirstNamed(st.members, k, u2))
       && ReturnTarget(st).Some?
       && r[k] == st.members[k].(voice := Some(ReturnTarget(st).value.id)))
    ensures PairInVoice(st.members, u1, u2) && ReturnTarget(st).Some? ==>
      forall k :: 0 <= k < |r| && (FirstNamed(st.members, k, u1) || FirstNamed(st.members, k, u2)) ==>
        r[k].voice == Some(ReturnTarget(st).value.id)
  {
    if !PairInVoice(st.members, u1, u2) then st.members
    else
      match ReturnTarget(st)
      case None => st.members
      case Some(room) => MovePair(st.members, u1, u2, room.id)
  }

  // ---- the whole handler ----

  /** The member cache after one decoded command: only voice channels change. */
  function CommandEffect(st: GuildState, cmd: Command): (r: seq<Member>)
    ensures |r| == |st.members|
    ensures forall k :: 0 <= k < |r| ==> r[k] == st.members[k].(voice := r[k].voice)
  {
    match cmd
    case MoveAll => MoveAllEffect(st)
    case Move(u, c) => MoveOneEffect(st, u, c)
    case MovePrivate(u1, u2) => MovePrivateEffect(st, u1, u2)
    case Return(u1, u2) => ReturnEffect(st, u1, u2)
  }

  /** The guild after one control message. Only voice channels of members ever change. */
  function ControlEffect(st: GuildState, msg: Message): (r: GuildState)
    ensures msg.authorIsBot && msg.webhookId.None? ==> r == st
    ensures msg.channelKind != GuildText || msg.channelName != ControlChannelName ==> r == st
    ensures msg.body == Unparseable ==> r == st
    ensures msg.body.Parsed? && (msg.body.payload.kind.None? || !KnownKind(msg.body.payload.kind.value)) ==> r == st
    ensures r.roles == st.roles && r.channels == st.channels && |r.members| == |st.members|
    ensures forall k :: 0 <= k < |r.members| ==> r.members[k] == st.members[k].(voice := r.members[k].voice)
  {
    if !Accepted(msg) then st
    else
      match Decode(msg.body.payload)
      case None => st
      case Some(cmd) => st.(members := CommandEffect(st, cmd))
  }

  /** MOVEALL: `moveAllToMainCore` on behalf of the first Host holder, if any. */
  method RunMoveAll(guild: Guild)
    modifies guild
    ensures guild.State() == old(guild.State()).(members := MoveAllEffect(old(guild.State())))
  {
    var st := guild.State();
    var host := HostMember(st);
    if host.Some? {
      var _ := MoveAllToMainCore(guild, st.members[host.value]);
    }
  }

  /** MOVE: move the first member whose username matches ignoring case into the target room. */
  method RunMove(guild: Guild, u: string, c: string)
    modifies guild
    ensures guild.State() == old(guild.State()).(members := MoveOneEffect(old(guild.State()), u, c))
  {
    var st := guild.State();
    var i := MemberNamed(st.members, u);
    if i.Some? && InVoice(st.members[i.value]) {
      var room := MoveTargetRoom(st, c);
      if room.Some? {
        guild.SetChannel(i.value, room.value.id);
      }
    }
  }

  /** MOVEPRIVATE and RETURN: both members into `room`, first `u1`, then `u2`. */
  method RunPair(guild: Guild, u1: string, u2: string, room: Option<Channel>)
    modifies guild
    ensures guild.State() == old(guild.State()).(members :=
      if PairInVoice(old(guild.members), u1, u2) && room.Some? then MovePair(old(guild.members), u1, u2, room.value.id)
      else old(guild.members))
  {
    var ms := guild.members;
    if PairInVoice(ms, u1, u2) && room.Some? {
      guild.SetChannel(MemberNamed(ms, u1).value, room.value.id);
      guild.SetChannel(MemberNamed(ms, u2).value, room.value.id);
    }
  }

  /** The `messageCreate` handler, step by step through the platform's calls. */
  method HandleMessage(guild: Guild, msg: Message)
    modifies guild
    ensures guild.State() == ControlEffect(old(guild.State()), msg)
  {
    if !Accepted(msg) {
      return;
    }
    var cmd := Decode(msg.body.payload);
    if cmd.None? {
      return;
    }
    var st := guild.State();
    match cmd.value {
      case MoveAll =>
        RunMoveAll(guild);
      case Move(u, c) =>
        RunMove(guild, u, c);
      case MovePrivate(u1, u2) =>
        RunPair(guild, u1, u2, PrivateTarget(st));
      case Return(u1, u2) =>
        RunPair(guild, u1, u2, ReturnTarget(st));
    }
  }
}
