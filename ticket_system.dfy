/**
 * The cog's event hooks: recording every human message posted in a tracked
 * ticket channel, and creating a guild's settings record when the bot joins.
 * The cog owns its own registry and its own settings copy.
 */
module TicketSystem {
  import opened Wrappers
  import opened Platform
  import opened TicketModels
  import opened ConfigHandler

  class TicketSystemCog {
    const ticketManager: TicketManager
    const config: Config

    ghost predicate Valid()
      reads this, ticketManager, ticketManager.activeTickets.Values
    {
      ticketManager.Valid()
    }

    /** A new cog starts with an empty registry and a settings copy of its own. */
    constructor (storedTemplate: Option<Settings>, storedGuilds: map<string, Settings>)
      ensures Valid() && fresh(ticketManager) && fresh(config)
      ensures ticketManager.activeTickets == map[]
      ensures config.guildSettings == storedGuilds
    {
      ticketManager := new TicketManager();
      config := new Config(storedTemplate, storedGuilds);
    }

    /**
     * A message by a human in a tracked channel is appended to that channel's
     * ticket, whatever its status; anything else changes nothing.
     */
    method OnMessage(message: ChatMessage)
      requires Valid()
      modifies ticketManager.activeTickets.Values
      ensures Valid()
      ensures ticketManager.activeTickets == old(ticketManager.activeTickets)
      ensures message.authorIsBot || message.channelId !in ticketManager.activeTickets ==>
        unchanged(ticketManager.activeTickets.Values)
      ensures !message.authorIsBot && message.channelId in ticketManager.activeTickets ==>
        var t := ticketManager.activeTickets[message.channelId];
        t.messages == old(t.messages) + [MessageRecord(message.authorId, message.content, message.createdAt)] &&
        t.status == old(t.status) && t.closedAt == old(t.closedAt)
      ensures forall c :: c in ticketManager.activeTickets && c != message.channelId ==>
        unchanged(ticketManager.activeTickets[c])
    {
      if message.authorIsBot {
        return;
      }
      var ticket := ticketManager.GetTicket(message.channelId);
      if ticket.Some? {
        ticket.value.AddMessage(message.authorId, message.content, message.createdAt);
      }
    }

    /** Joining a guild makes sure the guild has a settings record. */
    method OnGuildJoin(guildId: int)
      modifies config
      ensures config.guildSettings == WithRecord(old(config.guildSettings), config.defaultSettings, GuildKey(GuildNumber(guildId)))
      ensures GuildKey(GuildNumber(guildId)) in config.guildSettings
    {
      var _ := config.GetGuildSettings(GuildNumber(guildId));
    }
  }
}
