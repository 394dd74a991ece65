# Review-ticket bot: a verified model of the ticket lifecycle

This project models a chat bot that runs "review tickets" in a chat guild. A member presses a button. The bot opens a private channel for the member, named after them. The member writes their review there. An administrator then either publishes the member's messages to a configured channel or closes the ticket. Closing moves the channel to a "closed" category, mutes the members and deletes the channel after a grace period. If no closed category is configured, or the configured one is not found, the channel is deleted at once.

The model has these parts:

- **Ticket registry** (`ticket_models.dfy`, module `TicketModels`). `Ticket` is a class with fixed ids, a status (`Open`, `Closed` or `Published`), an optional closing time and an append-only transcript. `TicketManager` is a class over a `map<int, Ticket>` from channel id to ticket. It creates and looks up tickets, closes them, and scans for an open ticket of a user in a guild.
- **Settings store** (`config_handler.dfy`, module `ConfigHandler`). `Config` is a class holding a default template and a map from guild key to settings record.
  - A guild's record is created lazily, as a copy of the template.
  - Updates are merged into the record key by key.
  - Guild ids are turned into their decimal text before they are used as keys (`decimal.dfy`, module `Decimal`).
  - The pure functions `WithRecord`, `Merge` and `Updated` specify the two methods. The lemmas are stated about those functions.
- **Button handlers** (`ticket_views.dfy`, module `TicketViews`): the create, publish and close buttons, the permission check they share, and the closing procedure.
  - Each handler is a method that returns the ordered list of platform calls it makes, as `Effect` values (`platform.dfy`, module `Platform`).
  - What the platform answers is passed in as parameters: whether channel creation succeeds, whether the send succeeds, whether the creator's member record can be fetched, and the channel history.
  - An exception that escapes a handler appears as the effect `HandlerError`, and nothing follows it.
- **Settings forms** (`setup_views.dfy`, module `SetupViews`). A submitted form is turned into a partial update that is merged into the guild's record. A stored id is rendered as a channel mention.
- **Event hooks** (`ticket_system.dfy`, module `TicketSystem`). Every human message in a tracked ticket channel is recorded. A guild gets a settings record when the bot joins it.

Every reading of the wall clock becomes a `Timestamp` parameter.

Registries and settings objects are built in several places, and only some of them are shared:

- Registries are built by the event-hook cog (cogs/ticket_system.py:10), the panel command (cogs/setup_cog.py:55) and the panel button (views/setup_views.py:67).
- Settings objects are built by the event-hook cog (cogs/ticket_system.py:11), the setup cog (cogs/setup_cog.py:10) and each logger (utils/logger.py:8).
- The panels, the settings forms and the ticket views they create all use the setup cog's settings object (cogs/setup_cog.py:33, cogs/setup_cog.py:56, views/setup_views.py:13-17, views/setup_views.py:68).
- The control view attached to a new ticket shares the create view's registry and settings (views/ticket_views.py:92).

So the message hook never sees tickets filed by the create button, and the logger reads its own copy of the settings. The model takes the registry and the settings object as parameters of each handler, so any of these sharings can be expressed. It never assumes that two handlers see the same registry.

The intended lifecycle is forward-only: open to closed, or open to published to closed. The code differs, and the model follows the code:

- **Closed tickets can be published.** Publishing has no status guard, so a closed ticket can still become `Published`, and the closing time is stamped again (`TicketModels.CloseThenPublish`).
- **Publishing always ends closed.** A successful publish runs the closing procedure, which sets the status back to `Closed` (`TicketModels.PublishThenClose`, `TicketViews.PublishTicket`).
- **Closed and published tickets stay in the registry.** Transcript recording ignores the status, so such tickets keep recording messages.

## Model

| member | source | states |
|---|---|---|
| TicketModels.Ticket.constructor | models/ticket_models.py:5-18 | A new ticket carries the given ids and creation time, is open, has no closing time and an empty transcript. |
| TicketModels.Ticket.AddMessage | models/ticket_models.py:20-26 | Exactly one record (author, content, time) is appended at the end; earlier records, status and closing time are unchanged. |
| TicketModels.Ticket.Close | models/ticket_models.py:28-31 | Status becomes closed and the closing time is the given time, whatever the status was; the transcript is unchanged. |
| TicketModels.Ticket.Publish | models/ticket_models.py:33-36 | Status becomes published and the closing time is the given time, whatever the status was; the transcript is unchanged. |
| TicketModels.IsOpenFor | models/ticket_models.py:69 | Defines the condition the scan tests: the ticket is open and was created by this user in this guild. |
| TicketModels.TicketManager.HasActiveTicket | models/ticket_models.py:66-71 | Defines, independently of the scan, that some tracked ticket is open for this user and guild. |
| TicketModels.TicketManager.OneOpenPerUser | models/ticket_models.py:66-71 | Defines the invariant the create guard protects: no user has two open tickets in the same guild. |
| TicketModels.TicketManager.constructor | models/ticket_models.py:40-41 | A new registry is empty (and trivially has at most one open ticket per user and guild). |
| TicketModels.TicketManager.CreateTicket | models/ticket_models.py:43-52 | The registry maps the channel to a fresh open ticket with the given creator, guild and time and an empty transcript, replacing any previous entry; no other entry or ticket changes; no key is lost; the user now has an active ticket, and if they had none before, exactly this channel is open for them and "one open ticket per user and guild" is preserved. |
| TicketModels.TicketManager.GetTicket | models/ticket_models.py:54-56 | Returns the channel's entry exactly when there is one, reading nothing but the map. |
| TicketModels.TicketManager.CloseTicket | models/ticket_models.py:58-62 | An untracked channel changes nothing; a tracked one is closed at the given time with its transcript kept; the map is unchanged (no entry is removed); no other ticket changes; the open channels of every user and guild lose exactly this channel; "one open ticket per user and guild" is preserved. |
| TicketModels.TicketManager.UserHasActiveTicket | models/ticket_models.py:66-71 | True if and only if some tracked ticket is open, by this user, in this guild. |
| TicketModels.CreateThenClose | models/ticket_models.py:43-71 | For a user without an active ticket: after creating one they are active, after closing it they are not, and the entry is still tracked as closed. |
| TicketModels.PublishThenClose | models/ticket_models.py:28-36 | Publishing and then closing leaves a closed ticket stamped with the closing time and its transcript intact. |
| TicketModels.CloseThenPublish | models/ticket_models.py:28-36 | Closing and then publishing leaves a published ticket: publishing has no status guard and re-stamps the closing time. |
| ConfigHandler.BuiltInDefaults | utils/config_handler.py:23-37 | The built-in template has the four channel and category ids unset, admin role name "Admin" and embed colour "#3498db". |
| ConfigHandler.Get | views/ticket_views.py:28 | A lookup without a default yields the stored value, or nothing when the key is absent. |
| ConfigHandler.GetOr | views/ticket_views.py:45 | A lookup with a default yields the stored value whenever the key is present (even an unset one), the default only when it is absent. |
| ConfigHandler.GuildKey | utils/config_handler.py:52 | Defines the record key of a guild: the decimal text of a numeric id, or the text as given. |
| ConfigHandler.NumberAndTextShareKey | utils/config_handler.py:52 | A numeric guild id and its decimal text address the same record, and the key reads back as the number. |
| ConfigHandler.DistinctGuildsDistinctKeys | utils/config_handler.py:52 | Different numeric guild ids never share a record. |
| ConfigHandler.Merge | utils/config_handler.py:64 | The merged record has the union of the keys, every updated key takes the new value and every other key keeps its value. |
| ConfigHandler.WithRecord | utils/config_handler.py:53-54 | After the lazy insertion the guild has a record, it is the template when the guild had none, and every existing record is unchanged. |
| ConfigHandler.Updated | utils/config_handler.py:60-64 | The guild's record becomes its previous record (or the template, for a new guild) merged with the updates; every other guild's record is unchanged. |
| ConfigHandler.GetIsIdempotent | utils/config_handler.py:53-56 | Reading a guild's settings again changes nothing more. |
| ConfigHandler.GetThenUpdate | utils/config_handler.py:50-64 | Reading before updating makes no difference to the update. |
| ConfigHandler.EmptyUpdateIsGet | utils/config_handler.py:58-64 | An empty update only creates the record. |
| ConfigHandler.UpdatesCompose | utils/config_handler.py:58-64 | Two updates of the same guild equal one update with their merge, the later value winning. |
| ConfigHandler.MergeAssociative | utils/config_handler.py:64 | Merging is associative. |
| ConfigHandler.Config.constructor | utils/config_handler.py:16-47 | The template is the stored one when a configuration exists, otherwise the built-in one; the guild records are the stored ones. |
| ConfigHandler.Config.GetGuildSettings | utils/config_handler.py:50-56 | The store becomes the lazy insertion for the guild's key; the result is the stored record, or the template for a guild seen the first time. |
| ConfigHandler.Config.UpdateGuildSettings | utils/config_handler.py:58-66 | The store becomes the merged update for the guild's key, and the result is the new record. |
| ConfigHandler.UpdateThenFirstRead | utils/config_handler.py:54-62 | After updating one guild, a guild read for the first time receives the template unaltered: the record was a copy. |
| Decimal.NatToDecimal | utils/config_handler.py:52 | The decimal text of a natural number is non-empty, all digits and has no leading zero. |
| Decimal.IntToDecimal | utils/config_handler.py:52 | The decimal text of an integer is non-empty and starts with "-" exactly for negative numbers. |
| Decimal.ParseInt | views/ticket_views.py:31 | Parsing succeeds exactly on an optional sign followed by at least one digit. |
| Decimal.DigitsValueOfNatToDecimal | utils/config_handler.py:52 | The digits of a natural number's text read back as that number. |
| Decimal.ParseIntOfIntToDecimal | utils/config_handler.py:52 | Converting an integer to text and parsing it again gives the integer back. |
| Decimal.IntToDecimalInjective | utils/config_handler.py:52 | Different integers have different decimal texts. |
| TicketViews.ChannelName | views/ticket_views.py:58 | The name is the ticket prefix followed by the first min(15, length) characters of the user name. |
| TicketViews.Topic | views/ticket_views.py:64 | Defines the channel topic: "Отзыв от ", the user name, a vertical-bar separator with "ID: ", and the decimal user id. |
| TicketViews.Resolve | views/ticket_views.py:28-31 | A configured id is unset when falsy, invalid when it does not parse, and otherwise found or not found among the guild's ids. |
| TicketViews.FirstNamed | views/ticket_views.py:46 | Finds the first role with the name: no earlier role has it, and the index is past the end when none does. |
| TicketViews.AdminRole | views/ticket_views.py:45-46 | Some role exactly when the configured name (default "Admin") is text and some guild role carries it, and then it is the first such role. |
| TicketViews.HasPermission | views/ticket_views.py:232-238 | Permission holds if and only if the member is an administrator, or the first role named as configured exists and the member has it. |
| TicketViews.PermissionWithUniqueRoleNames | views/ticket_views.py:232-238 | With unique role names, permission is: administrator, or a member of a role with the configured name. |
| TicketViews.TicketOverwrites | views/ticket_views.py:34-55 | The everyone role is hidden, the creator can view and write, and the admin role (if any) can also manage the channel; no other holder appears. |
| TicketViews.TicketRequest | views/ticket_views.py:28-64 | An invalid ticket category aborts before the request; otherwise the request carries the truncated name, the topic, the overwrites and the category when it was found. |
| TicketViews.CreateTicket | views/ticket_views.py:15-114 | A member with an open ticket is refused and nothing is read or changed; an invalid category raises before anything is created; a failed creation registers nothing; a created channel is registered as the member's only open ticket with the welcome, the reply and the audit event in that order; "one open ticket per user and guild" is preserved and no existing ticket changes. |
| TicketViews.CheckAdminPermissions | views/ticket_views.py:229-247 | Creates the guild's record if needed, answers the permission predicate, and refuses with a reply exactly when it does not hold. |
| TicketViews.Qualifies | views/ticket_views.py:139 | Defines which history messages go into the transcript: by the creator, not by a bot, with non-empty content. |
| TicketViews.CreatorTranscript | views/ticket_views.py:137-140 | The transcript has at most as many entries as the history, none of them empty. |
| TicketViews.CreatorTranscriptAppend | views/ticket_views.py:137-140 | The transcript of a concatenated history is the concatenation of their transcripts, so history order is kept. |
| TicketViews.CreatorTranscriptEmpty | views/ticket_views.py:137-144 | The transcript is empty if and only if no message is a non-empty, non-bot message by the creator. |
| TicketViews.CreatorTranscriptSound | views/ticket_views.py:137-140 | Every transcript entry is the content of such a qualifying message. |
| TicketViews.CollectCreatorMessages | views/ticket_views.py:137-140 | The loop over the history yields exactly the transcript. |
| TicketViews.Join | views/ticket_views.py:166 | Defines joining texts with a separator between consecutive texts. |
| TicketViews.JoinAppend | views/ticket_views.py:166 | Joining two non-empty lists puts exactly one separator between their joins. |
| TicketViews.ReviewText | views/ticket_views.py:138-166 | Defines the published text: the transcript of the oldest 200 history messages, joined with blank lines. |
| TicketViews.SingleMessageReview | views/ticket_views.py:137-166 | A single qualifying message is published as it is. |
| TicketViews.DecidePublish | views/ticket_views.py:127-160 | Publishing proceeds exactly when permission, ticket, transcript, destination and creator are all present, and each failing check stops it in the order the bot checks them. |
| TicketViews.AbortEffect | views/ticket_views.py:127-160 | Defines the step a stopped publish ends with: the refusal, the ticket-not-found, nothing-to-publish, unset-channel or missing-channel reply, or the escaping error for an unparsable channel id or an unfetchable creator. |
| TicketViews.SendAndMark | views/ticket_views.py:180-184 | A failed send leaves the ticket untouched and ends with the failure reply; only after a successful send is the ticket published at the given time, with its transcript kept. |
| TicketViews.PublishAndClose | views/ticket_views.py:180-205 | Once every check has passed: a failed send ends with the failure reply and changes nothing; a successful one is followed by the published mark, the reply, the audit event, the delay and the closing plan, leaving the ticket closed with its transcript kept and no other ticket changed. |
| TicketViews.PublishTicket | views/ticket_views.py:125-205 | Each failed check yields only its reply (or the escaping error) and changes no ticket; a failed send changes no ticket; only after a successful send is the ticket marked published, then the reply, the audit event and the delay follow and the closing procedure leaves it closed; no other ticket changes. |
| TicketViews.CloseTicket | views/ticket_views.py:208-227 | Without permission only the refusal is sent; with it, the notice, the audit event and the delay precede the closing procedure, which closes a tracked ticket and keeps its transcript; no other ticket changes. |
| TicketViews.StripSendPlan | views/ticket_views.py:266-270 | Defines the permission changes of the closing procedure, one per member overwrite other than the bot's, in overwrite order; there are never more changes than overwrites. |
| TicketViews.StripSendPlanSound | views/ticket_views.py:266-270 | Every permission change denies sending to a member other than the bot, on this channel. |
| TicketViews.StripSendPlanComplete | views/ticket_views.py:266-270 | Every member overwrite other than the bot's is changed, keeping its other permissions. |
| TicketViews.StripSendPlanAppend | views/ticket_views.py:267-270 | The permission changes for concatenated overwrites are the concatenation of theirs, so overwrite order is kept. |
| TicketViews.StripSendPermissions | views/ticket_views.py:266-270 | The loop over the overwrites makes exactly the planned permission changes. |
| TicketViews.StripSendPlanDeletesNothing | views/ticket_views.py:266-270 | Stripping send permission never deletes or otherwise acts other than by setting permissions. |
| TicketViews.ClosePlan | views/ticket_views.py:251-280 | Defines the steps of the closing procedure: mark a tracked ticket closed, then move, rename, mute, wait and delete for a found closed category, delete at once for an unset or unknown one, or stop with the error for an unparsable id; the plan is never empty. |
| TicketViews.ClosePlanDeletesOnceAtTheEnd | views/ticket_views.py:249-280 | Unless the closed category id is invalid, the channel is deleted exactly once, as the last step, and a tracked ticket is marked closed first. |
| TicketViews.ClosePlanImmediateDelete | views/ticket_views.py:259-280 | With no closed category configured, or none found, the channel is deleted at once with no move, muting or delay. |
| TicketViews.CloseChannel | views/ticket_views.py:249-280 | A tracked ticket is closed at the given time with its transcript kept; the steps are the closing plan for the guild's closed category; no other ticket changes and an untracked channel changes no ticket. |
| SetupViews.MainUpdateIsUnique | views/setup_views.py:131-145 | The description of the main form's update fixes it completely. |
| SetupViews.BuildMainSettingsUpdate | views/setup_views.py:131-145 | The update holds the admin role name always and each id field exactly when it was filled in, and nothing else. |
| SetupViews.MainUpdateMerged | views/setup_views.py:131-147 | Merged into the record, filled-in ids and the admin role name are overwritten, and a blank id field keeps the guild's previous value (the template's for a new guild). |
| SetupViews.MainUpdateKeepsOtherSettings | views/setup_views.py:131-147 | The main form leaves every other setting of the record as it was. |
| SetupViews.SubmitMainSettings | views/setup_views.py:129-152 | The store becomes the merged update of the built partial settings and a confirmation is sent. |
| SetupViews.InterfaceUpdate | views/setup_views.py:195-200 | The interface update has exactly the four text keys with the form's values. |
| SetupViews.InterfaceUpdateKeepsMainSettings | views/setup_views.py:195-202 | The interface form never changes the ids or the admin role name. |
| SetupViews.InterfaceResubmitIsIdempotent | views/setup_views.py:195-202 | Submitting the same interface form twice leaves the store as one submission did. |
| SetupViews.SubmitInterfaceSettings | views/setup_views.py:194-207 | The store becomes the merged interface update and a confirmation is sent. |
| SetupViews.FormatChannel | views/setup_views.py:77-81 | An unset or empty id renders as "Не настроено", any other as the mention "<#id>". |
| SetupViews.FormatChannelDistinguishes | views/setup_views.py:77-81 | Two values render alike if and only if both are unset or both hold the same id. |
| TicketSystem.TicketSystemCog.constructor | cogs/ticket_system.py:8-11 | The cog starts with a fresh empty registry and a settings object of its own. |
| TicketSystem.TicketSystemCog.OnMessage | cogs/ticket_system.py:66-80 | A bot's message, or one in an untracked channel, changes nothing; otherwise exactly one record (author, content, time) is appended to that channel's ticket, whatever its status, with status and closing time kept and no other ticket changed. |
| TicketSystem.TicketSystemCog.OnGuildJoin | cogs/ticket_system.py:30-33 | After joining, the guild has a settings record, created from the template if it had none. |

## Left out

- Platform calls are not modelled: channel creation, edits, deletion, sends, history, member fetches and permission overwrites. The model records them as `Effect` values, and their outcomes are parameters. A handler proceeds as if every call it makes returns, except where a parameter says it fails.
- Embeds, colours and display texts are left out, including `Color.from_str`. The model assumes the configured embed colour parses; a colour that does not would raise after the ticket is registered.
- The delays of 5, 3 and 60 seconds appear as `Sleep` steps, not as time.
- Cooperative concurrency between suspended handlers is not modelled. This includes the check-then-create race across channel creation. Each handler runs alone.
- File persistence of the settings is left out: loading, saving and directory creation. Stored data comes in as constructor parameters.
- Stored settings values that are neither a string nor unset are left out, such as numbers written into the file by hand.
- The logger appears only as a `LogAction` step. Its copy of the settings, its own early returns and its id conversion are not modelled. A non-numeric log channel id makes the logger raise inside the publish `try` block, which would skip the closing procedure; the model assumes the logger returns normally.
- The closing procedure's swallowed failures (`except: pass`) are left out: the move, rename, permission changes and deletion are assumed to succeed. The same applies to the logger's swallowed failures.
- TicketViews.PublishTicket: an exception raised after the publish reply leads the bot's handler to try a second reply, which the platform refuses. The model does not follow that path; it also treats an unparsable closed category there as the plain `HandlerError` of the closing procedure.
- Message timestamps are stored as the opaque `Timestamp` handed in, not as the ISO-8601 text the bot writes into each transcript record; the text formatting is left out.
- ParseInt: accepts only an optional sign and ASCII digits. Python's `int()` also accepts surrounding whitespace, underscores between digits and other Unicode digits, so such ids count as invalid in the model.
- The guild-join welcome loop over text channels and the join log entry are left out. Only the settings initialisation of that hook is modelled.
- The form constructors that pre-fill the interface form from the current settings are left out (a lazy settings read at form creation). So are the settings overview display and the panel creation message.
- Bot start-up, extension loading and command registration are left out; they set up state and hold no ticket logic.
