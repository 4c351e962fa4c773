# Listing and ticket engine of a marketplace chat bot

This project models the core of a chat bot for Discord guilds. Members publish buy and sell
listings into a guild's announce channel. An interested member can press a button on a
listing. The button opens a private "ticket" channel between that member and the listing's
seller. The seller or an administrator can close the ticket again.

The platform is reduced to plain values:

- actors: an id, the account's username (`member.name`, not a nickname) and an administrator
  flag;
- a guild: its channels (a map from channel id to name, permission overwrites, category
  and messages), its roles and categories (id and name, in platform order), and its member
  ids;
- one id source shared by all guilds. Every new channel, message and role takes the next id
  from it, so an id is never handed out twice, as with the platform's global ids.

The bot's two global dictionaries become the fields of a `Bot` object:

- `config`: the announce map, guild id to channel id;
- `posts`: the listing registry, message id to seller id and kind. Its invariant is that
  every key is an id already handed out, so a new listing never replaces an existing one.

Each command or button handler is a method that changes these fields and the guild. The
method returns a tag for the reply the user sees.

Modules:

- `Wrappers`: `Option` and `Result`.
- `Text`: lower-casing the kind, the ticket channel name, the listing title and its inverse.
- `Platform`: the guild, lookup by name, and the platform effects the bot uses: create a
  channel, send a message, delete a channel, create a role.
- `Tickets`: the overwrites of a ticket channel, what they let a member see, the ticket
  session and its guarded close action.
- `TicketBot`: the `Bot` class with the configuration command, the listing publisher and
  ticket opening, and the role bootstrap commands.

Ids are integers. The source keys both stores by `str(id)`, and `str` is injective on
integers, so the model keys them by the integer.

Two handlers can raise and leave the interaction unanswered. Both are modelled as a `Fault`
outcome with no change of state:

- `post` raises when the configuration has no announce map at all (main.py:231). It also
  raises when the configured channel no longer exists: the channel lookup yields nothing and
  the send fails on it (main.py:238, 259).
- `open_ticket` raises when the seller has left the guild. The member lookup yields nothing
  (main.py:104), and the platform library fails on that overwrite target before it creates
  any channel.

A stored announce id of 0 counts as not configured (`Configured`), because `post` tests
`not announce_id` (main.py:233).

## Model

| member | source | states |
|---|---|---|
| `Text.Lower` | main.py:222 | The lower-cased kind has the input's length, each character lower-cased, and no upper-case ASCII letter is left |
| `Text.ReplaceSpaces` | main.py:78 | Same length, every space becomes a hyphen, every other character is kept, and no space is left |
| `Text.ReplaceSpacesKeepsSpaceFree` | main.py:78 | A name without spaces is kept unchanged |
| `Text.MakeTicketName` | main.py:77-78 | The ticket name is "ticket-" followed by the member name with spaces turned into hyphens. It is 7 longer than the name and contains no space |
| `Text.TicketNamesCollide` | main.py:77-78 | "Ann Lee" and "Ann-Lee" get the same channel name, so names do not identify tickets |
| `Text.RenderTitle` | main.py:246-248 | The card title is an 11-character marker then the title; the marker starts with the red circle exactly for sell |
| `Text.ParseTitle` | main.py:246-248 | Any title it accepts is a rendered title of a valid kind, and it returns that kind and bare title |
| `Text.TitleRoundTrip` | main.py:246-248 | Parsing a rendered title gives back its kind and title |
| `Platform.FirstNamed` | main.py:71 | The lookup by name finds the first entry with that name, and finds none exactly when no entry has it |
| `Platform.FirstNamedAfterInsert` | main.py:285 | Inserting a role of a name no role had, at any position, makes that new role the one a lookup finds |
| `Platform.Guild.CreateTextChannel` | main.py:121-123 | Exactly one channel is added, with the given name, overwrites and category and no messages. Its id is the next from the shared id source, which no channel of the guild has |
| `Platform.Guild.Send` | main.py:259 | The message is appended to that channel; no other channel changes. Its id is the next from the shared id source, above every id handed out before in any guild |
| `Platform.Guild.DeleteChannel` | main.py:134 | Exactly that channel is removed |
| `Platform.Guild.CreateRole` | main.py:74 | One role with the given name is inserted just above the default role, and the other roles keep their order. Its id is the next from the shared id source, which no existing role has |
| `Tickets.TicketOverwrites` | main.py:106-115 | The targets are exactly the default role, the bot, the seller and the requester: at most four, and fewer when the seller is the requester or the bot, since equal members merge as dictionary keys do. The default role is denied view; every other target is allowed view and send |
| `Tickets.OnlyParticipantsSee` | main.py:106-115 | Among non-administrators, exactly the bot, the seller and the requester see the ticket channel, whatever their roles grant, and those three can write in it |
| `Tickets.Close` | main.py:125-137 | Closing succeeds if and only if the invoker is the seller or an administrator. Success deletes exactly the ticket channel; a refusal leaves the channels unchanged |
| `TicketBot.CheckPost` | main.py:222-243 | The checks run in this order, and the first failure wins: kind not sell or buy, then no announce channel configured (absent or 0), then a sell listing without an image. Success means all three pass and the configured channel exists |
| `TicketBot.KindCheckedFirst` | main.py:222-236 | A bad kind is refused before the configuration is read, whatever it holds |
| `TicketBot.ImageOnlyForSell` | main.py:240-243 | A buy listing's outcome does not depend on the image; a sell listing without an image is never published |
| `TicketBot.SetAnnounce` | main.py:169-171 | The guild maps to the new channel; every other guild keeps its entry, and none is added |
| `TicketBot.Bot.constructor` | main.py:32 | The bot starts with the configuration and registry read at start-up, every registry key an id already handed out |
| `TicketBot.Bot.SetAnnounceChannel` | main.py:157-176 | A non-administrator changes nothing. An administrator sets the guild's channel (the announce map is created if missing) and no other guild's lookup changes. Afterwards the guild's lookup yields that channel |
| `TicketBot.Bot.Post` | main.py:215-267 | A refused post changes no registry entry and no channel. A published one appends the rendered card to the announce channel. It adds the registry entry for the sent message (the author's id and the lower-cased kind) under an id new to the registry, and every existing listing is kept unchanged |
| `TicketBot.Bot.OpenTicket` | main.py:92-142 | Without a registry entry, and when the seller has left, no channel is created. Otherwise exactly one new channel is added, under an id no channel had; no other channel changes. It is named after the requester, carries the least-privilege overwrites and the Tickets category, and holds the opening notice for seller and requester |
| `TicketBot.OpenTwice` | main.py:99-123 | Two non-administrators, neither of them the bot or the listing's seller, open tickets on the same listing one after the other. Each gets a distinct channel and sees their own channel but not the other's, whatever their roles grant |
| `TicketBot.GetOrCreateRole` | main.py:70-74 | An existing role of that name is returned, and the roles and the id source are unchanged. Otherwise one role of that name is inserted just above the default role. Either way a lookup then finds one |
| `TicketBot.EnsureRole` | main.py:273-287 | A non-administrator changes nothing. If the role exists, nothing changes. Otherwise one role of that name is inserted just above the default role, so a second call is a no-op |
| `TicketBot.SellerRoleCreate` | main.py:271-287 | For the role "Seller": a non-administrator changes nothing. If the role exists, the reply is that it exists and nothing changes. Otherwise the role is created and the reply names it. Afterwards a lookup finds the role, so a second call is a no-op |
| `TicketBot.BuyerRoleCreate` | main.py:291-307 | For the role "Buyer": a non-administrator changes nothing. If the role exists, the reply is that it exists and nothing changes. Otherwise the role is created and the reply names it. Afterwards a lookup finds the role, so a second call is a no-op |

## Left out

- Loading and saving the configuration and the registry as JSON files is file I/O. The
  stores are in-memory fields, and the constructor takes their loaded contents.
- The failure path of the configuration command (stack trace, timestamp, appending to the
  error log, fallback replies) is I/O. Saving happens after the in-memory update, so the
  modelled state change stands even when saving fails.
- Platform calls are modelled only through their effect on the guild, or as a returned
  reply tag. This covers deferring, replies and follow-ups, the opening notice's mentions,
  rebinding the button to the sent message id, command sync and login.
- The one-second pause before a ticket channel is deleted is timing only.
- Of a listing card, only the title, description and price are kept. The colour, the
  author line and the image URL are presentation; the image is reduced to whether one was
  attached.
- Text.Lower: lower-cases ASCII letters only, where the source uses full Unicode
  lower-casing. No non-ASCII character lower-cases into the letters of "sell" or "buy", so
  the kind check accepts the same inputs.
- Tickets.CanView: models only member and default-role overwrites, the administrator bypass,
  and a single flag for what the member's roles grant. Role overwrites and every other
  permission bit are not modelled.
- Tickets.Close: the close button is built without `timeout=None` (main.py:125, 140). The
  library's default view timeout of 180 seconds therefore applies: after three idle minutes
  the button stops answering, even for the seller or an administrator. The button also has
  no custom id and is not re-registered at start-up, so it stops working when the bot
  restarts. The model lets the seller or an administrator close a session at any time.
- TicketBot.Bot.OpenTicket: the open button (main.py:86-87) never times out, but it has no
  custom id and is not re-registered at start-up. After a restart, listings from the
  registry read at start-up can no longer be opened. The model opens a ticket for any
  registry entry, including those the constructor loads.
- Platform.Guild.Send: every platform call is modelled as succeeding whenever the handler
  reaches it. The platform can refuse a call, and the handler then raises with no change of
  state. The model does not cover:
  - a listing card over the platform's embed limits (a title over 256 characters, which is
    any user title over 245 after the marker; a description over 4096; a price over 1024;
    6000 characters in all). Sending fails and nothing is registered, where `Bot.Post`
    publishes;
  - creating a ticket channel when the category already holds the platform's maximum
    number of channels, or when the bot lacks the permission to manage channels;
  - creating a role when the bot lacks the permission to manage roles;
  - normalisation of channel names by the platform. The model stores the requested name.

  The model's only platform failures are the two where the source hands the platform
  nothing: a missing channel and a departed seller.
- Platform.Guild.CreateRole: the new role's place in the list is the platform's placement
  at the bottom of the hierarchy, just above the default role. The other roles' position
  numbers are not modelled, only their order.
- Tickets.Close: a second close after the channel is gone makes the platform raise; the
  model treats it as removing nothing.
- Commands invoked outside a guild are not modelled; every handler here runs in a guild.
- Concurrency: handlers are modelled one at a time. The source's last-writer-wins races on
  the two stores are not modelled.
