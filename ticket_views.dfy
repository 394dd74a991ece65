/**
 * The button handlers of the ticket panel and of a ticket channel: creating a
 * ticket, publishing its transcript, closing it, the permission check they
 * share and the closing procedure. Each handler returns the platform calls it
 * makes, in order; what the platform answers is passed in.
 */
module TicketViews {
  import opened Wrappers
  import opened Platform
  import opened TicketModels
  import opened ConfigHandler
  import Decimal

  const ChannelPrefix: string := "отзыв-"
  const ClosedPrefix: string := "закрыто-"
  /** How many characters of the user name go into a ticket channel's name. */
  const NameLimit: nat := 15
  /** How many messages of the channel history the publish flow reads. */
  const HistoryLimit: nat := 200
  const Separator: string := "\n\n"
  const DefaultAdminRoleName: string := "Admin"
  /** Delays, in seconds, before closing after a publish, after a close request, and before deletion. */
  const PublishDelay: nat := 5
  const CloseDelay: nat := 3
  const GraceDelay: nat := 60

  function Min(a: nat, b: nat): nat
  {
    if a < b then a else b
  }

  // ---------------------------------------------------------------------------
  // Naming and lookups

  /** The ticket channel's name: the prefix, then at most the first 15 characters of the user name. */
  function ChannelName(userName: string): (name: string)
    ensures |name| == |ChannelPrefix| + Min(NameLimit, |userName|)
    ensures name[..|ChannelPrefix|] == ChannelPrefix
    ensures name[|ChannelPrefix|..] == userName[..|name| - |ChannelPrefix|]
  {
    ChannelPrefix + userName[..Min(NameLimit, |userName|)]
  }

  /** The topic the ticket channel is created with. */
  function Topic(user: Member): string
  {
    "Отзыв от " + user.name + " | ID: " + Decimal.IntToDecimal(user.id)
  }

  /** How a configured id resolves: unset (falsy), not a number (int() raises), or a known or unknown id. */
  datatype Lookup = NotSet | BadId | NotFound(id: int) | Found(id: int)

  /** A configured id looked up among the ids the guild has. */
  function Resolve(v: Value, known: set<int>): (r: Lookup)
    ensures r.NotSet? <==> !Truthy(v)
    ensures r.BadId? <==> Truthy(v) && Decimal.ParseInt(v.s).None?
    ensures r.Found? ==> Truthy(v) && Decimal.ParseInt(v.s) == Some(r.id) && r.id in known
    ensures r.NotFound? ==> Truthy(v) && Decimal.ParseInt(v.s) == Some(r.id) && r.id !in known
  {
    if !Truthy(v) then NotSet
    else
      match Decimal.ParseInt(v.s)
      case None => BadId
      case Some(n) => if n in known then Found(n) else NotFound(n)
  }

  /** The index of the first role with the given name, or the number of roles if there is none. */
  function FirstNamed(roles: seq<Role>, name: string): (i: nat)
    ensures i <= |roles|
    ensures forall j :: 0 <= j < i ==> roles[j].name != name
    ensures i < |roles| ==> roles[i].name == name
  {
    if roles == [] then 0
    else if roles[0].name == name then 0
    else 1 + FirstNamed(roles[1..], name)
  }

  /** The configured admin role name, "Admin" when the setting is absent. */
  function AdminRoleName(settings: Settings): Value
  {
    GetOr(settings, "admin_role_name", Text(DefaultAdminRoleName))
  }

  /** The role the guild lists first under the configured admin role name, if any. */
  function AdminRole(settings: Settings, roles: seq<Role>): (r: Option<Role>)
    ensures r.Some? <==> (AdminRoleName(settings).Text? &&
      exists i :: 0 <= i < |roles| && roles[i].name == AdminRoleName(settings).s)
    ensures r.Some? ==> exists i :: 0 <= i < |roles| && roles[i] == r.value && IsFirstNamed(roles, i, AdminRoleName(settings).s)
  {
    match AdminRoleName(settings)
    case Null => None
    case Text(name) =>
      var i := FirstNamed(roles, name);
      if i < |roles| then Some(roles[i]) else None
  }

  /** The role at index i carries the name and no earlier role does. */
  predicate IsFirstNamed(roles: seq<Role>, i: int, name: string)
    requires 0 <= i < |roles|
  {
    roles[i].name == name && forall j :: 0 <= j < i ==> roles[j].name != name
  }

  /**
   * The permission check of the ticket controls: the member is a guild
   * administrator, or the admin role exists and the member has it.
   */
  function HasPermission(user: Member, guild: Guild, settings: Settings): (ok: bool)
    ensures ok <==> (user.isAdministrator ||
      (AdminRoleName(settings).Text? &&
       exists i :: 0 <= i < |guild.roles| && IsFirstNamed(guild.roles, i, AdminRoleName(settings).s) &&
         guild.roles[i].id in user.roleIds))
  {
    var role := AdminRole(settings, guild.roles);
    if user.isAdministrator then true
    else if role.Some? then
      AdminRoleIsFirst(settings, guild.roles);
      role.value.id in user.roleIds
    else false
  }

  lemma AdminRoleIsFirst(settings: Settings, roles: seq<Role>)
    ensures AdminRole(settings, roles).Some? ==>
      var name := AdminRoleName(settings).s;
      var i := FirstNamed(roles, name);
      i < |roles| && AdminRole(settings, roles).value == roles[i] && IsFirstNamed(roles, i, name) &&
      forall j :: 0 <= j < |roles| && IsFirstNamed(roles, j, name) ==> j == i
  {
  }

  /** When role names are unique in the guild, the check is simply "administrator or has a role with that name". */
  lemma PermissionWithUniqueRoleNames(user: Member, guild: Guild, settings: Settings)
    requires forall i, j :: 0 <= i < j < |guild.roles| ==> guild.roles[i].name != guild.roles[j].name
    ensures HasPermission(user, guild, settings) <==> (user.isAdministrator ||
      exists r :: r in guild.roles && Text(r.name) == AdminRoleName(settings) && r.id in user.roleIds)
  {
  }

  // ---------------------------------------------------------------------------
  // Creating a ticket

  const HiddenOverwrite: Overwrite := map["view_channel" := false]
  const CreatorOverwrite: Overwrite :=
    map["view_channel" := true, "send_messages" := true, "read_messages" := true, "attach_files" := true]
  const AdminOverwrite: Overwrite :=
    map["view_channel" := true, "send_messages" := true, "read_messages" := true,
        "manage_messages" := true, "manage_channels" := true, "attach_files" := true]

  /**
   * The overwrites of a new ticket channel: the everyone role cannot see it,
   * the creator can see and write, and the admin role, if it exists, can also
   * manage it (an admin role that is the everyone role replaces its entry).
   */
  function TicketOverwrites(guild: Guild, user: Member, adminRole: Option<Role>): (o: map<Target, Overwrite>)
    ensures o.Keys == {RoleTarget(guild.defaultRoleId), MemberTarget(user.id)} +
      (if adminRole.Some? then {RoleTarget(adminRole.value.id)} else {})
    ensures o[MemberTarget(user.id)] == CreatorOverwrite
    ensures adminRole.Some? ==> o[RoleTarget(adminRole.value.id)] == AdminOverwrite
    ensures adminRole.None? || adminRole.value.id != guild.defaultRoleId ==>
      o[RoleTarget(guild.defaultRoleId)] == HiddenOverwrite
  {
    var base := map[RoleTarget(guild.defaultRoleId) := HiddenOverwrite, MemberTarget(user.id) := CreatorOverwrite];
    if adminRole.Some? then base[RoleTarget(adminRole.value.id) := AdminOverwrite] else base
  }

  /**
   * The channel the create flow asks for, or None when the configured ticket
   * category is not a number (int() raises before anything is created). An
   * unset or unknown category creates the channel outside any category.
   */
  function TicketRequest(settings: Settings, guild: Guild, user: Member): (r: Option<ChannelRequest>)
    ensures r.None? <==> Resolve(Get(settings, "ticket_category_id"), guild.categoryIds).BadId?
    ensures r.Some? ==> r.value.name == ChannelName(user.name) && r.value.topic == Topic(user)
    ensures r.Some? ==> r.value.overwrites == TicketOverwrites(guild, user, AdminRole(settings, guild.roles))
    ensures r.Some? ==>
      match Resolve(Get(settings, "ticket_category_id"), guild.categoryIds)
      case Found(id) => r.value.categoryId == Some(id)
      case _ => r.value.categoryId == None
  {
    var lookup := Resolve(Get(settings, "ticket_category_id"), guild.categoryIds);
    if lookup.BadId? then None
    else
      var category := if lookup.Found? then Some(lookup.id) else None;
      var overwrites := TicketOverwrites(guild, user, AdminRole(settings, guild.roles));
      Some(ChannelRequest(ChannelName(user.name), category, overwrites, Topic(user)))
  }

  /**
   * The create button. A member who already has an open ticket in the guild
   * is turned away before anything is read or created; otherwise the channel
   * is requested, and only when the platform creates it is a ticket filed
   * under the new channel.
   */
  method CreateTicket(
    manager: TicketManager, config: Config, guild: Guild, user: Member, now: Timestamp,
    createChannel: ChannelRequest -> Option<int>)
    returns (effects: seq<Effect>, registered: Option<int>)
    requires manager.Valid()
    modifies manager, config
    ensures manager.Valid()
    ensures old(manager.OneOpenPerUser()) ==> manager.OneOpenPerUser()
    ensures old(manager.HasActiveTicket(user.id, guild.id)) ==>
      effects == [Respond(AlreadyHasTicket)] && registered == None &&
      config.guildSettings == old(config.guildSettings)
    ensures !old(manager.HasActiveTicket(user.id, guild.id)) ==>
      config.guildSettings == WithRecord(old(config.guildSettings), config.defaultSettings, GuildKey(GuildNumber(guild.id)))
    ensures !old(manager.HasActiveTicket(user.id, guild.id)) ==>
      var request := TicketRequest(config.guildSettings[GuildKey(GuildNumber(guild.id))], guild, user);
      && (request.None? ==> effects == [HandlerError] && registered == None)
      && (request.Some? && createChannel(request.value).None? ==>
            effects == [CreateTextChannel(request.value), Respond(CreateFailed)] && registered == None)
      && (request.Some? && createChannel(request.value).Some? ==>
            var c := createChannel(request.value).value;
            registered == Some(c) &&
            effects == [CreateTextChannel(request.value), PostWelcome(c, user.id),
                        Respond(TicketCreatedReply(c)), LogAction(TicketCreatedEvent)])
    ensures registered.None? ==> manager.activeTickets == old(manager.activeTickets)
    ensures registered.Some? ==>
      var c := registered.value;
      && manager.activeTickets.Keys == old(manager.activeTickets).Keys + {c}
      && (forall k :: k in old(manager.activeTickets) && k != c ==> manager.activeTickets[k] == old(manager.activeTickets)[k])
      && fresh(manager.activeTickets[c])
      && IsOpenFor(manager.activeTickets[c], user.id, guild.id)
      && manager.activeTickets[c].messages == [] && manager.activeTickets[c].createdAt == now
      && manager.OpenChannels(user.id, guild.id) == {c}
    ensures unchanged(old(manager.activeTickets).Values)
  {
    var active := manager.UserHasActiveTicket(user.id, guild.id);
    if active {
      return [Respond(AlreadyHasTicket)], None;
    }
    var settings := config.GetGuildSettings(GuildNumber(guild.id));
    var request := TicketRequest(settings, guild, user);
    if request.None? {
      return [HandlerError], None;
    }
    var created := createChannel(request.value);
    if created.None? {
      return [CreateTextChannel(request.value), Respond(CreateFailed)], None;
    }
    var channelId := created.value;
    var ticket := manager.CreateTicket(channelId, user.id, guild.id, now);
    effects := [CreateTextChannel(request.value), PostWelcome(channelId, ticket.creatorId),
                Respond(TicketCreatedReply(channelId)), LogAction(TicketCreatedEvent)];
    registered := Some(channelId);
  }

  // ---------------------------------------------------------------------------
  // The permission check

  /** Reads the guild's settings (creating them if needed) and refuses, with a reply, a member without permission. */
  method CheckAdminPermissions(config: Config, guild: Guild, user: Member) returns (ok: bool, effects: seq<Effect>)
    modifies config
    ensures config.guildSettings == WithRecord(old(config.guildSettings), config.defaultSettings, GuildKey(GuildNumber(guild.id)))
    ensures ok == HasPermission(user, guild, config.guildSettings[GuildKey(GuildNumber(guild.id))])
    ensures effects == if ok then [] else [Respond(NoPermission)]
  {
    var settings := config.GetGuildSettings(GuildNumber(guild.id));
    var role := AdminRole(settings, guild.roles);
    ok := user.isAdministrator || (role.Some? && role.value.id in user.roleIds);
    effects := if ok then [] else [Respond(NoPermission)];
  }

  // ---------------------------------------------------------------------------
  // The transcript

  /** A history message that goes into the transcript: by the creator, not by a bot, not empty. */
  predicate Qualifies(m: ChatMessage, creatorId: int)
  {
    m.authorId == creatorId && m.content != "" && !m.authorIsBot
  }

  /** The contents of the qualifying messages, in history order. */
  function CreatorTranscript(history: seq<ChatMessage>, creatorId: int): (t: seq<string>)
    ensures |t| <= |history|
    ensures forall i :: 0 <= i < |t| ==> t[i] != ""
  {
    if history == [] then []
    else
      (if Qualifies(history[0], creatorId) then [history[0].content] else []) +
      CreatorTranscript(history[1..], creatorId)
  }

  lemma {:induction false} CreatorTranscriptAppend(a: seq<ChatMessage>, b: seq<ChatMessage>, creatorId: int)
    ensures CreatorTranscript(a + b, creatorId) == CreatorTranscript(a, creatorId) + CreatorTranscript(b, creatorId)
    decreases |a|
  {
    if a != [] {
      assert (a + b)[0] == a[0] && (a + b)[1..] == a[1..] + b;
      CreatorTranscriptAppend(a[1..], b, creatorId);
    } else {
      assert a + b == b;
    }
  }

  /** The transcript is empty exactly when no message of the history qualifies. */
  lemma {:induction false} CreatorTranscriptEmpty(history: seq<ChatMessage>, creatorId: int)
    ensures CreatorTranscript(history, creatorId) == [] <==>
      forall i :: 0 <= i < |history| ==> !Qualifies(history[i], creatorId)
    decreases |history|
  {
    if history != [] {
      CreatorTranscriptEmpty(history[1..], creatorId);
      assert forall i :: 1 <= i < |history| ==> history[i] == history[1..][i - 1];
    }
  }

  /** Every transcript entry is the content of a qualifying message. */
  lemma {:induction false} CreatorTranscriptSound(history: seq<ChatMessage>, creatorId: int, k: int)
    requires 0 <= k < |CreatorTranscript(history, creatorId)|
    ensures exists i :: (0 <= i < |history| && Qualifies(history[i], creatorId) &&
      history[i].content == CreatorTranscript(history, creatorId)[k])
    decreases |history|
  {
    var head := if Qualifies(history[0], creatorId) then [history[0].content] else [];
    if k >= |head| {
      CreatorTranscriptSound(history[1..], creatorId, k - |head|);
      var i :| 0 <= i < |history[1..]| && Qualifies(history[1..][i], creatorId) &&
        history[1..][i].content == CreatorTranscript(history[1..], creatorId)[k - |head|];
      assert history[i + 1] == history[1..][i];
    }
  }

  /** The bot's loop over the channel history, collecting the qualifying contents. */
  method CollectCreatorMessages(history: seq<ChatMessage>, creatorId: int) returns (creatorMessages: seq<string>)
    ensures creatorMessages == CreatorTranscript(history, creatorId)
  {
    creatorMessages := [];
    var i := 0;
    while i < |history|
      invariant 0 <= i <= |history|
      invariant creatorMessages == CreatorTranscript(history[..i], creatorId)
    {
      CreatorTranscriptAppend(history[..i], [history[i]], creatorId);
      assert history[..i + 1] == history[..i] + [history[i]];
      if Qualifies(history[i], creatorId) {
        creatorMessages := creatorMessages + [history[i].content];
      }
      i := i + 1;
    }
    assert history[..i] == history;
  }

  /** sep.join(parts). */
  function Join(parts: seq<string>, sep: string): string
  {
    if |parts| == 0 then ""
    else if |parts| == 1 then parts[0]
    else parts[0] + sep + Join(parts[1..], sep)
  }

  /** Joining two non-empty lists puts one separator between their joins. */
  lemma {:induction false} JoinAppend(a: seq<string>, b: seq<string>, sep: string)
    requires a != [] && b != []
    ensures Join(a + b, sep) == Join(a, sep) + sep + Join(b, sep)
    decreases |a|
  {
    if |a| > 1 {
      assert (a + b)[1..] == a[1..] + b;
      JoinAppend(a[1..], b, sep);
    }
  }

  /**
   * The text published for a history given oldest first: the transcript of
   * its oldest 200 messages, joined with blank lines.
   */
  function ReviewText(history: seq<ChatMessage>, creatorId: int): string
  {
    Join(CreatorTranscript(history[..Min(HistoryLimit, |history|)], creatorId), Separator)
  }

  /** A single qualifying message is published as it is. */
  lemma SingleMessageReview(m: ChatMessage, creatorId: int)
    requires Qualifies(m, creatorId)
    ensures ReviewText([m], creatorId) == m.content
  {
  }

  // ---------------------------------------------------------------------------
  // Publishing

  /** The outcome of the publish flow's checks, taken in the order the bot takes them. */
  datatype PublishDecision =
    | Denied
    | NoTicket
    | NoMessages
    | DestinationUnset
    | DestinationInvalid
    | DestinationMissing
    | CreatorUnavailable
    | Ready(destination: int)

  /**
   * The abort ordering of the publish flow: permission, then the ticket, then
   * the transcript, then the destination, then the creator's member record.
   */
  function DecidePublish(
    permitted: bool, tracked: bool, transcript: seq<string>, destination: Lookup, creatorFetched: bool)
    : (d: PublishDecision)
    ensures d.Ready? <==> permitted && tracked && transcript != [] && destination.Found? && creatorFetched
    ensures d.Ready? ==> d.destination == destination.id
    ensures !permitted ==> d == Denied
    ensures permitted && !tracked ==> d == NoTicket
    ensures permitted && tracked && transcript == [] ==> d == NoMessages
    ensures permitted && tracked && transcript != [] ==>
      (destination.NotSet? ==> d == DestinationUnset) &&
      (destination.BadId? ==> d == DestinationInvalid) &&
      (destination.NotFound? ==> d == DestinationMissing)
    ensures permitted && tracked && transcript != [] && destination.Found? && !creatorFetched ==>
      d == CreatorUnavailable
  {
    if !permitted then Denied
    else if !tracked then NoTicket
    else if transcript == [] then NoMessages
    else match destination
      case NotSet => DestinationUnset
      case BadId => DestinationInvalid
      case NotFound(_) => DestinationMissing
      case Found(id) => if creatorFetched then Ready(id) else CreatorUnavailable
  }

  /** What the member sees when the publish flow stops at a check. */
  function AbortEffect(d: PublishDecision): Effect
    requires !d.Ready?
  {
    match d
    case Denied => Respond(NoPermission)
    case NoTicket => Respond(TicketNotFound)
    case NoMessages => Respond(NothingToPublish)
    case DestinationUnset => Respond(PublishChannelUnset)
    case DestinationMissing => Respond(PublishChannelMissing)
    case DestinationInvalid => HandlerError
    case CreatorUnavailable => HandlerError
  }

  /**
   * The publish button. Every failed check stops the flow with no status
   * change; the transcript is sent first and the ticket is marked published
   * only once the send went through; then the closing procedure runs.
   * `history` is the channel's messages oldest first, so its first 200 are
   * the ones the bot reads.
   */
  method PublishTicket(
    manager: TicketManager, config: Config, guild: Guild, user: Member, channel: Channel, creatorId: int,
    history: seq<ChatMessage>, creatorFetched: bool, sendSucceeds: bool,
    publishedAt: Timestamp, closedAt: Timestamp)
    returns (effects: seq<Effect>)
    requires manager.Valid()
    modifies config, manager.activeTickets.Values
    ensures manager.Valid() && manager.activeTickets == old(manager.activeTickets)
    ensures config.guildSettings == WithRecord(old(config.guildSettings), config.defaultSettings, GuildKey(GuildNumber(guild.id)))
    ensures
      var settings := config.guildSettings[GuildKey(GuildNumber(guild.id))];
      var d := DecidePublish(
        HasPermission(user, guild, settings), channel.id in manager.activeTickets,
        CreatorTranscript(history[..Min(HistoryLimit, |history|)], creatorId),
        Resolve(Get(settings, "publish_channel_id"), guild.channelIds), creatorFetched);
      && (!d.Ready? ==> effects == [AbortEffect(d)] && unchanged(manager.activeTickets.Values))
      && (d.Ready? && !sendSucceeds ==>
            effects == [SendReview(d.destination, ReviewText(history, creatorId)), Respond(PublishFailed)] &&
            unchanged(manager.activeTickets.Values))
      && (d.Ready? && sendSucceeds ==>
            effects ==
              [SendReview(d.destination, ReviewText(history, creatorId)), MarkPublished(channel.id),
               Respond(PublishedReply), LogAction(ReviewPublishedEvent), Sleep(PublishDelay)] +
              ClosePlan(true, Resolve(Get(settings, "closed_category_id"), guild.categoryIds), guild.botId, channel) &&
            manager.activeTickets[channel.id].status == Closed &&
            manager.activeTickets[channel.id].closedAt == Some(closedAt) &&
            manager.activeTickets[channel.id].messages == old(manager.activeTickets[channel.id].messages))
    ensures forall c :: c in manager.activeTickets && c != channel.id ==> unchanged(manager.activeTickets[c])
  {
    var ok, denied := CheckAdminPermissions(config, guild, user);
    if !ok {
      return denied;
    }
    var found := manager.GetTicket(channel.id);
    if found.None? {
      return [Respond(TicketNotFound)];
    }
    var window := history[..Min(HistoryLimit, |history|)];
    var creatorMessages := CollectCreatorMessages(window, creatorId);
    if creatorMessages == [] {
      return [Respond(NothingToPublish)];
    }
    var settings := config.GetGuildSettings(GuildNumber(guild.id));
    var destination := Resolve(Get(settings, "publish_channel_id"), guild.channelIds);
    if destination.NotSet? {
      return [Respond(PublishChannelUnset)];
    }
    if destination.BadId? {
      return [HandlerError];
    }
    if destination.NotFound? {
      return [Respond(PublishChannelMissing)];
    }
    if !creatorFetched {
      return [HandlerError];
    }
    var text := Join(creatorMessages, Separator);
    effects := PublishAndClose(manager, config, guild, channel, destination.id, text, sendSucceeds, publishedAt, closedAt);
  }

  /**
   * The publish flow once every check has passed: send and mark, then reply,
   * log, wait and run the closing procedure. A failed send stops after the
   * failure reply and changes nothing.
   */
  method PublishAndClose(
    manager: TicketManager, config: Config, guild: Guild, channel: Channel, destination: int, text: string,
    sendSucceeds: bool, publishedAt: Timestamp, closedAt: Timestamp)
    returns (effects: seq<Effect>)
    requires manager.Valid() && channel.id in manager.activeTickets
    modifies config, manager.activeTickets.Values
    ensures manager.Valid() && manager.activeTickets == old(manager.activeTickets)
    ensures !sendSucceeds ==>
      effects == [SendReview(destination, text), Respond(PublishFailed)] &&
      unchanged(manager.activeTickets.Values) && config.guildSettings == old(config.guildSettings)
    ensures sendSucceeds ==>
      config.guildSettings == WithRecord(old(config.guildSettings), config.defaultSettings, GuildKey(GuildNumber(guild.id))) &&
      effects ==
        [SendReview(destination, text), MarkPublished(channel.id),
         Respond(PublishedReply), LogAction(ReviewPublishedEvent), Sleep(PublishDelay)] +
        ClosePlan(true,
          Resolve(Get(config.guildSettings[GuildKey(GuildNumber(guild.id))], "closed_category_id"), guild.categoryIds),
          guild.botId, channel) &&
      manager.activeTickets[channel.id].status == Closed &&
      manager.activeTickets[channel.id].closedAt == Some(closedAt) &&
      manager.activeTickets[channel.id].messages == old(manager.activeTickets[channel.id].messages)
    ensures forall c :: c in manager.activeTickets && c != channel.id ==> unchanged(manager.activeTickets[c])
  {
    var ticket := manager.activeTickets[channel.id];
    effects := SendAndMark(ticket, channel.id, destination, text, sendSucceeds, publishedAt);
    if !sendSucceeds {
      return;
    }
    effects := effects + [Respond(PublishedReply), LogAction(ReviewPublishedEvent), Sleep(PublishDelay)];
    var closing := CloseChannel(manager, config, guild, channel, closedAt);
    effects := effects + closing;
  }

  /**
   * The publish flow's protected step: the transcript is sent, and only when
   * the send went through is the ticket marked published; a failed send
   * leaves the ticket as it was and ends with the failure reply.
   */
  method SendAndMark(ticket: Ticket, channelId: int, destination: int, text: string, sendSucceeds: bool, publishedAt: Timestamp)
    returns (effects: seq<Effect>)
    modifies ticket
    ensures !sendSucceeds ==> effects == [SendReview(destination, text), Respond(PublishFailed)] && unchanged(ticket)
    ensures sendSucceeds ==>
      effects == [SendReview(destination, text), MarkPublished(channelId)] &&
      ticket.Valid() && ticket.status == Published && ticket.closedAt == Some(publishedAt) &&
      ticket.messages == old(ticket.messages)
  {
    if !sendSucceeds {
      return [SendReview(destination, text), Respond(PublishFailed)];
    }
    ticket.Publish(publishedAt);
    effects := [SendReview(destination, text), MarkPublished(channelId)];
  }

  // ---------------------------------------------------------------------------
  // Closing

  /** The close button: permission, a notice, the audit event, the delay, then the closing procedure. */
  method CloseTicket(manager: TicketManager, config: Config, guild: Guild, user: Member, channel: Channel, now: Timestamp)
    returns (effects: seq<Effect>)
    requires manager.Valid()
    modifies config, manager.activeTickets.Values
    ensures manager.Valid() && manager.activeTickets == old(manager.activeTickets)
    ensures config.guildSettings == WithRecord(old(config.guildSettings), config.defaultSettings, GuildKey(GuildNumber(guild.id)))
    ensures
      var settings := config.guildSettings[GuildKey(GuildNumber(guild.id))];
      && (!HasPermission(user, guild, settings) ==>
            effects == [Respond(NoPermission)] && unchanged(manager.activeTickets.Values))
      && (HasPermission(user, guild, settings) ==>
            effects == [Respond(ClosingSoon), LogAction(TicketClosedEvent), Sleep(CloseDelay)] +
              ClosePlan(channel.id in manager.activeTickets,
                        Resolve(Get(settings, "closed_category_id"), guild.categoryIds), guild.botId, channel) &&
            (channel.id in manager.activeTickets ==>
               manager.activeTickets[channel.id].status == Closed &&
               manager.activeTickets[channel.id].closedAt == Some(now) &&
               manager.activeTickets[channel.id].messages == old(manager.activeTickets[channel.id].messages)))
    ensures forall c :: c in manager.activeTickets && c != channel.id ==> unchanged(manager.activeTickets[c])
  {
    var ok, denied := CheckAdminPermissions(config, guild, user);
    if !ok {
      return denied;
    }
    effects := [Respond(ClosingSoon), LogAction(TicketClosedEvent), Sleep(CloseDelay)];
    var closing := CloseChannel(manager, config, guild, channel, now);
    effects := effects + closing;
  }

  /** The send permission taken away from every member overwrite except the bot's own, in overwrite order. */
  function StripSendPlan(channelId: int, overwrites: seq<(Target, Overwrite)>, botId: int): (plan: seq<Effect>)
    ensures |plan| <= |overwrites|
  {
    if overwrites == [] then []
    else
      (if IsSilenced(overwrites[0].0, botId)
       then [SetPermissions(channelId, overwrites[0].0, overwrites[0].1["send_messages" := false])]
       else []) +
      StripSendPlan(channelId, overwrites[1..], botId)
  }

  /** The overwrite holders whose send permission is taken away: members other than the bot. */
  predicate IsSilenced(target: Target, botId: int)
  {
    target.MemberTarget? && target.id != botId
  }

  /** Every step of the plan silences a member other than the bot, on this channel. */
  lemma {:induction false} StripSendPlanSound(channelId: int, overwrites: seq<(Target, Overwrite)>, botId: int, k: int)
    requires 0 <= k < |StripSendPlan(channelId, overwrites, botId)|
    ensures var e := StripSendPlan(channelId, overwrites, botId)[k];
      e.SetPermissions? && e.channelId == channelId && IsSilenced(e.target, botId) &&
      "send_messages" in e.overwrite && !e.overwrite["send_messages"]
    decreases |overwrites|
  {
    var head := if IsSilenced(overwrites[0].0, botId)
      then [SetPermissions(channelId, overwrites[0].0, overwrites[0].1["send_messages" := false])] else [];
    if k >= |head| {
      StripSendPlanSound(channelId, overwrites[1..], botId, k - |head|);
    }
  }

  /** Every member overwrite other than the bot's is silenced, keeping its other permissions. */
  lemma {:induction false} StripSendPlanComplete(channelId: int, overwrites: seq<(Target, Overwrite)>, botId: int, i: int)
    requires 0 <= i < |overwrites| && IsSilenced(overwrites[i].0, botId)
    ensures SetPermissions(channelId, overwrites[i].0, overwrites[i].1["send_messages" := false])
      in StripSendPlan(channelId, overwrites, botId)
    decreases |overwrites|
  {
    if i > 0 {
      StripSendPlanComplete(channelId, overwrites[1..], botId, i - 1);
    }
  }

  lemma {:induction false} StripSendPlanAppend(channelId: int, a: seq<(Target, Overwrite)>, b: seq<(Target, Overwrite)>, botId: int)
    ensures StripSendPlan(channelId, a + b, botId) == StripSendPlan(channelId, a, botId) + StripSendPlan(channelId, b, botId)
    decreases |a|
  {
    if a != [] {
      assert (a + b)[0] == a[0] && (a + b)[1..] == a[1..] + b;
      StripSendPlanAppend(channelId, a[1..], b, botId);
    } else {
      assert a + b == b;
    }
  }

  /** The bot's loop over the channel's overwrites. */
  method StripSendPermissions(channelId: int, overwrites: seq<(Target, Overwrite)>, botId: int)
    returns (effects: seq<Effect>)
    ensures effects == StripSendPlan(channelId, overwrites, botId)
  {
    effects := [];
    var i := 0;
    while i < |overwrites|
      invariant 0 <= i <= |overwrites|
      invariant effects == StripSendPlan(channelId, overwrites[..i], botId)
    {
      var (target, overwrite) := overwrites[i];
      StripSendPlanAppend(channelId, overwrites[..i], [overwrites[i]], botId);
      assert overwrites[..i + 1] == overwrites[..i] + [overwrites[i]];
      if target.MemberTarget? && target.id != botId {
        effects := effects + [SetPermissions(channelId, target, overwrite["send_messages" := false])];
      }
      i := i + 1;
    }
    assert overwrites[..i] == overwrites;
  }

  /**
   * The closing procedure's steps: mark a tracked ticket closed; then, with a
   * closed category that resolves, move and rename the channel, silence the
   * members, wait and delete; with none configured or none found, delete at
   * once; with a configured id that is not a number, stop (int() raises).
   */
  function ClosePlan(tracked: bool, closedCategory: Lookup, botId: int, channel: Channel): (plan: seq<Effect>)
    ensures plan != []
  {
    (if tracked then [MarkClosed(channel.id)] else []) +
    match closedCategory
    case NotSet => [DeleteChannel(channel.id)]
    case NotFound(_) => [DeleteChannel(channel.id)]
    case BadId => [HandlerError]
    case Found(category) =>
      [MoveAndRename(channel.id, category, ClosedPrefix + channel.name)] +
      StripSendPlan(channel.id, channel.overwrites, botId) +
      [Sleep(GraceDelay), DeleteChannel(channel.id)]
  }

  /** How often an effect occurs in a list of effects. */
  function Occurrences(effects: seq<Effect>, e: Effect): nat
  {
    if effects == [] then 0 else (if effects[0] == e then 1 else 0) + Occurrences(effects[1..], e)
  }

  lemma {:induction false} OccurrencesAppend(a: seq<Effect>, b: seq<Effect>, e: Effect)
    ensures Occurrences(a + b, e) == Occurrences(a, e) + Occurrences(b, e)
    decreases |a|
  {
    if a != [] {
      assert (a + b)[0] == a[0] && (a + b)[1..] == a[1..] + b;
      OccurrencesAppend(a[1..], b, e);
    } else {
      assert a + b == b;
    }
  }

  lemma {:induction false} StripSendPlanDeletesNothing(channelId: int, overwrites: seq<(Target, Overwrite)>, botId: int, e: Effect)
    requires !e.SetPermissions?
    ensures Occurrences(StripSendPlan(channelId, overwrites, botId), e) == 0
    decreases |overwrites|
  {
    if overwrites != [] {
      var head := if IsSilenced(overwrites[0].0, botId)
        then [SetPermissions(channelId, overwrites[0].0, overwrites[0].1["send_messages" := false])] else [];
      OccurrencesAppend(head, StripSendPlan(channelId, overwrites[1..], botId), e);
      StripSendPlanDeletesNothing(channelId, overwrites[1..], botId, e);
    }
  }

  /**
   * Unless the configured closed category is not a number, the channel is
   * deleted exactly once, as the last step, and the ticket (if tracked) is
   * marked closed first.
   */
  lemma ClosePlanDeletesOnceAtTheEnd(tracked: bool, closedCategory: Lookup, botId: int, channel: Channel)
    requires !closedCategory.BadId?
    ensures var plan := ClosePlan(tracked, closedCategory, botId, channel);
      plan[|plan| - 1] == DeleteChannel(channel.id) &&
      Occurrences(plan, DeleteChannel(channel.id)) == 1 &&
      (tracked ==> plan[0] == MarkClosed(channel.id))
  {
    var marks := if tracked then [MarkClosed(channel.id)] else [];
    var del := DeleteChannel(channel.id);
    if closedCategory.Found? {
      var move := [MoveAndRename(channel.id, closedCategory.id, ClosedPrefix + channel.name)];
      var strip := StripSendPlan(channel.id, channel.overwrites, botId);
      StripSendPlanDeletesNothing(channel.id, channel.overwrites, botId, del);
      OccurrencesAppend(marks, move, del);
      OccurrencesAppend(marks + move, strip, del);
      OccurrencesAppend(marks + move + strip, [Sleep(GraceDelay), del], del);
      assert ClosePlan(tracked, closedCategory, botId, channel) == marks + move + strip + [Sleep(GraceDelay), del];
    } else {
      OccurrencesAppend(marks, [del], del);
    }
  }

  /** Without a usable closed category the channel is deleted at once: no move, no silencing, no delay. */
  lemma ClosePlanImmediateDelete(tracked: bool, closedCategory: Lookup, botId: int, channel: Channel)
    requires closedCategory.NotSet? || closedCategory.NotFound?
    ensures ClosePlan(tracked, closedCategory, botId, channel) ==
      (if tracked then [MarkClosed(channel.id), DeleteChannel(channel.id)] else [DeleteChannel(channel.id)])
  {
  }

  /**
   * The closing procedure: close the tracked ticket, read the guild's
   * settings, and leave the channel according to the closed category.
   */
  method CloseChannel(manager: TicketManager, config: Config, guild: Guild, channel: Channel, now: Timestamp)
    returns (effects: seq<Effect>)
    requires manager.Valid()
    modifies config, manager.activeTickets.Values
    ensures manager.Valid() && manager.activeTickets == old(manager.activeTickets)
    ensures config.guildSettings == WithRecord(old(config.guildSettings), config.defaultSettings, GuildKey(GuildNumber(guild.id)))
    ensures effects == ClosePlan(channel.id in manager.activeTickets,
      Resolve(Get(config.guildSettings[GuildKey(GuildNumber(guild.id))], "closed_category_id"), guild.categoryIds),
      guild.botId, channel)
    ensures channel.id in manager.activeTickets ==>
      manager.activeTickets[channel.id].status == Closed &&
      manager.activeTickets[channel.id].closedAt == Some(now) &&
      manager.activeTickets[channel.id].messages == old(manager.activeTickets[channel.id].messages)
    ensures channel.id !in manager.activeTickets ==> unchanged(manager.activeTickets.Values)
    ensures forall c :: c in manager.activeTickets && c != channel.id ==> unchanged(manager.activeTickets[c])
  {
    var found := manager.GetTicket(channel.id);
    effects := [];
    if found.Some? {
      found.value.Close(now);
      effects := [MarkClosed(channel.id)];
    }
    var settings := config.GetGuildSettings(GuildNumber(guild.id));
    var closedCategory := Resolve(Get(settings, "closed_category_id"), guild.categoryIds);
    match closedCategory {
      case NotSet =>
        effects := effects + [DeleteChannel(channel.id)];
      case NotFound(_) =>
        effects := effects + [DeleteChannel(channel.id)];
      case BadId =>
        effects := effects + [HandlerError];
      case Found(category) =>
        effects := effects + [MoveAndRename(channel.id, category, ClosedPrefix + channel.name)];
        var silenced := StripSendPermissions(channel.id, channel.overwrites, guild.botId);
        effects := effects + silenced + [Sleep(GraceDelay), DeleteChannel(channel.id)];
    }
  }
}
