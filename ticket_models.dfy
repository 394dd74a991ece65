/**
 * The ticket registry: a ticket per conversation channel, its status, its
 * closing time and its append-only transcript, and the manager that maps
 * channel ids to tickets.
 */
module TicketModels {
  import opened Wrappers

  /** A clock reading handed in by the caller (the Python code reads the wall clock). */
  type Timestamp = int

  datatype Status = Open | Closed | Published

  /** One transcript entry: who wrote it, what was written, and when. */
  datatype MessageRecord = MessageRecord(authorId: int, content: string, timestamp: Timestamp)

  class Ticket {
    const channelId: int
    const creatorId: int
    const guildId: int
    const createdAt: Timestamp
    var closedAt: Option<Timestamp>
    var status: Status
    var messages: seq<MessageRecord>

    /** The closing time is stamped exactly when the ticket is no longer open. */
    ghost predicate Valid()
      reads this
    {
      status == Open <==> closedAt == None
    }

    /** A new ticket is open, has no closing time and an empty transcript. */
    constructor (channelId: int, creatorId: int, guildId: int, createdAt: Timestamp)
      ensures Valid()
      ensures this.channelId == channelId && this.creatorId == creatorId
      ensures this.guildId == guildId && this.createdAt == createdAt
      ensures status == Open && closedAt == None && messages == []
    {
      this.channelId := channelId;
      this.creatorId := creatorId;
      this.guildId := guildId;
      this.createdAt := createdAt;
      closedAt := None;
      status := Open;
      messages := [];
    }

    /** Appends one record at the end; the rest of the ticket is untouched. */
    method AddMessage(authorId: int, content: string, timestamp: Timestamp)
      modifies this
      ensures messages == old(messages) + [MessageRecord(authorId, content, timestamp)]
      ensures status == old(status) && closedAt == old(closedAt)
    {
      messages := messages + [MessageRecord(authorId, content, timestamp)];
    }

    /** Marks the ticket closed at `now`, whatever its status was. */
    method Close(now: Timestamp)
      modifies this
      ensures Valid()
      ensures status == Closed && closedAt == Some(now)
      ensures messages == old(messages)
    {
      status := Closed;
      closedAt := Some(now);
    }

    /** Marks the ticket published at `now`, whatever its status was. */
    method Publish(now: Timestamp)
      modifies this
      ensures Valid()
      ensures status == Published && closedAt == Some(now)
      ensures messages == old(messages)
    {
      status := Published;
      closedAt := Some(now);
    }
  }

  /** A non-empty set has an element to pick. */
  lemma NonEmptyHasElement(s: set<int>)
    requires s != {}
    ensures exists x :: x in s
  {
    assert (forall x :: x !in s) ==> s == {};
  }

  /** The ticket is an open one of this user in this guild. */
  predicate IsOpenFor(t: Ticket, userId: int, guildId: int)
    reads t
  {
    t.creatorId == userId && t.guildId == guildId && t.status == Open
  }

  class TicketManager {
    var activeTickets: map<int, Ticket>

    /**
     * Every entry is filed under its own channel id (so two keys never share
     * a ticket object) and every ticket keeps its own invariant.
     */
    ghost predicate Valid()
      reads this, activeTickets.Values
    {
      forall c :: c in activeTickets ==> activeTickets[c].channelId == c && activeTickets[c].Valid()
    }

    /** Some tracked ticket is an open one of this user in this guild. */
    ghost predicate HasActiveTicket(userId: int, guildId: int)
      reads this, activeTickets.Values
    {
      exists c :: c in activeTickets && IsOpenFor(activeTickets[c], userId, guildId)
    }

    /** The channels whose tickets are open ones of this user in this guild. */
    ghost function OpenChannels(userId: int, guildId: int): set<int>
      reads this, activeTickets.Values
    {
      set c | c in activeTickets && IsOpenFor(activeTickets[c], userId, guildId)
    }

    /** No user has two open tickets in the same guild. */
    ghost predicate OneOpenPerUser()
      reads this, activeTickets.Values
    {
      forall c, d ::
        c in activeTickets && d in activeTickets &&
        activeTickets[c].status == Open && activeTickets[d].status == Open &&
        activeTickets[c].creatorId == activeTickets[d].creatorId &&
        activeTickets[c].guildId == activeTickets[d].guildId
        ==> c == d
    }

    constructor ()
      ensures Valid() && OneOpenPerUser()
      ensures activeTickets == map[]
    {
      activeTickets := map[];
    }

    /**
     * Files a fresh open ticket under `channelId`, replacing whatever was
     * there; no other entry and no existing ticket changes.
     */
    method CreateTicket(channelId: int, creatorId: int, guildId: int, now: Timestamp) returns (ticket: Ticket)
      requires Valid()
      modifies this
      ensures Valid() && fresh(ticket)
      ensures activeTickets == old(activeTickets)[channelId := ticket]
      ensures old(activeTickets).Keys <= activeTickets.Keys
      ensures unchanged(old(activeTickets).Values)
      ensures ticket.channelId == channelId && ticket.creatorId == creatorId
      ensures ticket.guildId == guildId && ticket.createdAt == now
      ensures ticket.status == Open && ticket.closedAt == None && ticket.messages == []
      ensures HasActiveTicket(creatorId, guildId)
      ensures !old(HasActiveTicket(creatorId, guildId)) ==> OpenChannels(creatorId, guildId) == {channelId}
      ensures old(OneOpenPerUser()) && !old(HasActiveTicket(creatorId, guildId)) ==> OneOpenPerUser()
    {
      ghost var before := activeTickets;
      ticket := new Ticket(channelId, creatorId, guildId, now);
      activeTickets := activeTickets[channelId := ticket];
      assert IsOpenFor(activeTickets[channelId], creatorId, guildId);
      if !old(HasActiveTicket(creatorId, guildId)) {
        forall c | c in before && c != channelId
          ensures !IsOpenFor(activeTickets[c], creatorId, guildId)
        {
          assert activeTickets[c] == before[c];
          assert !old(IsOpenFor(before[c], creatorId, guildId));
        }
      }
    }

    /** The lookup the Python code does with dict.get: the entry for the channel, or None. */
    function GetTicket(channelId: int): (t: Option<Ticket>)
      reads this
      ensures t.Some? <==> channelId in activeTickets
      ensures t.Some? ==> t.value == activeTickets[channelId]
    {
      if channelId in activeTickets then Some(activeTickets[channelId]) else None
    }

    /**
     * Closes the channel's ticket if there is one; the entry stays in the
     * registry and no other ticket changes.
     */
    method CloseTicket(channelId: int, now: Timestamp)
      requires Valid()
      modifies activeTickets.Values
      ensures Valid()
      ensures activeTickets == old(activeTickets)
      ensures channelId !in activeTickets ==> unchanged(activeTickets.Values)
      ensures channelId in activeTickets ==>
        activeTickets[channelId].status == Closed &&
        activeTickets[channelId].closedAt == Some(now) &&
        activeTickets[channelId].messages == old(activeTickets[channelId].messages)
      ensures forall c :: c in activeTickets && c != channelId ==> unchanged(activeTickets[c])
      ensures forall u, g :: OpenChannels(u, g) == old(OpenChannels(u, g)) - {channelId}
      ensures old(OneOpenPerUser()) ==> OneOpenPerUser()
    {
      var found := GetTicket(channelId);
      if found.Some? {
        found.value.Close(now);
      }
    }

    /**
     * The bot's scan over the tracked tickets, stopping at the first open
     * ticket of the user in the guild (visited here through their channels).
     */
    method UserHasActiveTicket(userId: int, guildId: int) returns (active: bool)
      ensures active <==> HasActiveTicket(userId, guildId)
    {
      var pending := activeTickets.Keys;
      while pending != {}
        invariant pending <= activeTickets.Keys
        invariant forall c :: c in activeTickets && c !in pending ==> !IsOpenFor(activeTickets[c], userId, guildId)
        decreases pending
      {
        NonEmptyHasElement(pending);
        var c :| c in pending;
        var ticket := activeTickets[c];
        if ticket.creatorId == userId && ticket.guildId == guildId && ticket.status == Open {
          return true;
        }
        pending := pending - {c};
      }
      return false;
    }
  }

  /**
   * A fresh open ticket makes the user active; closing that same channel
   * makes them inactive again, and the entry is still tracked.
   */
  method CreateThenClose(manager: TicketManager, channelId: int, userId: int, guildId: int, openedAt: Timestamp, closedAt: Timestamp)
    returns (activeAfterCreate: bool, activeAfterClose: bool)
    requires manager.Valid() && !manager.HasActiveTicket(userId, guildId)
    modifies manager, manager.activeTickets.Values
    ensures manager.Valid()
    ensures activeAfterCreate && !activeAfterClose
    ensures channelId in manager.activeTickets && manager.activeTickets[channelId].status == Closed
  {
    var _ := manager.CreateTicket(channelId, userId, guildId, openedAt);
    activeAfterCreate := manager.UserHasActiveTicket(userId, guildId);
    manager.CloseTicket(channelId, closedAt);
    activeAfterClose := manager.UserHasActiveTicket(userId, guildId);
  }

  /** Publishing and then closing leaves a closed ticket stamped with the closing time. */
  method PublishThenClose(t: Ticket, publishedAt: Timestamp, closedAt: Timestamp)
    modifies t
    ensures t.Valid() && t.status == Closed && t.closedAt == Some(closedAt)
    ensures t.messages == old(t.messages)
  {
    t.Publish(publishedAt);
    t.Close(closedAt);
  }

  /**
   * Publishing has no status guard: a ticket that was already closed can
   * still be published, and the closing time is stamped again.
   */
  method CloseThenPublish(t: Ticket, closedAt: Timestamp, publishedAt: Timestamp)
    modifies t
    ensures t.Valid() && t.status == Published && t.closedAt == Some(publishedAt)
    ensures t.messages == old(t.messages)
  {
    t.Close(closedAt);
    t.Publish(publishedAt);
  }
}
