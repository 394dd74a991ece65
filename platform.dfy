/**
 * The chat platform as the handlers see it: what they read about a guild, a
 * channel, a member and a message, and the calls they issue, recorded in order
 * as effects. What the platform does with a call is not modelled.
 */
module Platform {
  import opened Wrappers
  import opened TicketModels

  datatype Role = Role(id: int, name: string)

  /** The holder of a channel permission overwrite. */
  datatype Target = RoleTarget(id: int) | MemberTarget(id: int) | ObjectTarget(id: int)

  /** A permission overwrite: each permission it names, allowed (true) or denied (false). */
  type Overwrite = map<string, bool>

  /** The member who pressed a button. */
  datatype Member = Member(id: int, name: string, isAdministrator: bool, roleIds: set<int>)

  /**
   * The guild a handler runs in: its id, the id of its everyone role, the
   * bot's own member id, its roles in the platform's order, and the ids of
   * its categories and channels.
   */
  datatype Guild = Guild(
    id: int,
    defaultRoleId: int,
    botId: int,
    roles: seq<Role>,
    categoryIds: set<int>,
    channelIds: set<int>)

  /** A channel as the closing procedure finds it, with its overwrites in the platform's order. */
  datatype Channel = Channel(id: int, name: string, overwrites: seq<(Target, Overwrite)>)

  /** A chat message: where, by whom (and whether by a bot), what, when. */
  datatype ChatMessage = ChatMessage(
    channelId: int,
    authorId: int,
    authorIsBot: bool,
    content: string,
    createdAt: Timestamp)

  /** What the create flow asks the platform to make. */
  datatype ChannelRequest = ChannelRequest(
    name: string,
    categoryId: Option<int>,
    overwrites: map<Target, Overwrite>,
    topic: string)

  /** The replies a handler sends to the member who pressed the button. */
  datatype Reply =
    | AlreadyHasTicket
    | CreateFailed
    | TicketCreatedReply(channelId: int)
    | NoPermission
    | TicketNotFound
    | NothingToPublish
    | PublishChannelUnset
    | PublishChannelMissing
    | PublishedReply
    | PublishFailed
    | ClosingSoon
    | MainSettingsSaved
    | InterfaceSettingsSaved

  /** The audit events handed to the log sink. */
  datatype AuditEvent = TicketCreatedEvent | TicketClosedEvent | ReviewPublishedEvent

  /** One step a handler takes, in the order it takes them. */
  datatype Effect =
    | CreateTextChannel(request: ChannelRequest)
    | PostWelcome(channelId: int, creatorId: int)
    | Respond(reply: Reply)
    | SendReview(channelId: int, text: string)
    | LogAction(event: AuditEvent)
    | Sleep(seconds: nat)
    | MarkPublished(channelId: int)
    | MarkClosed(channelId: int)
    | MoveAndRename(channelId: int, categoryId: int, name: string)
    | SetPermissions(channelId: int, target: Target, overwrite: Overwrite)
    | DeleteChannel(channelId: int)
    | HandlerError
}
