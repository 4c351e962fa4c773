/**
 * The bot's own state and its command and button handlers: the per-guild
 * announce-channel configuration, the registry of published listings, the
 * listing publisher, ticket opening, and the role bootstrap commands.
 */
module TicketBot {
  import opened Wrappers
  import opened Text
  import opened Platform
  import opened Tickets

  const SellerRoleName: string := "Seller"
  const BuyerRoleName: string := "Buyer"
  const TicketCategoryName: string := "Tickets"

  /** A registry entry: who published the listing and its kind, lower-cased. */
  datatype Listing = Listing(sellerId: int, kind: string)

  /** A stored announce channel id counts only when it is not zero, the one falsy id. */
  predicate Configured(announce: map<int, int>, guildId: int) {
    guildId in announce && announce[guildId] != 0
  }

  /** Why a post is not published. */
  datatype PostFailure =
    | BadKind            // the kind is neither sell nor buy
    | NoAnnounceChannel  // the guild has no usable announce channel configured
    | ImageRequired      // a sell listing came without an image
    | Fault              // the handler raises: no announce map at all, or the configured channel is gone

  /**
   * The checks a post passes through, first failure wins: the kind, then the
   * configuration (`config` is None when the configuration holds no announce
   * map at all), then the image, then whether the configured channel is among
   * the guild's `live` channels. On success, the channel to publish to.
   */
  function CheckPost(kind: string, config: Option<map<int, int>>, guildId: int,
                     hasImage: bool, live: set<int>): (r: Result<int, PostFailure>)
    ensures r == Failure(BadKind) <==> !ValidKind(Lower(kind))
    ensures r == Failure(NoAnnounceChannel) <==>
      ValidKind(Lower(kind)) && config.Some? && !Configured(config.value, guildId)
    ensures r == Failure(ImageRequired) <==>
      ValidKind(Lower(kind)) && config.Some? && Configured(config.value, guildId)
      && Lower(kind) == "sell" && !hasImage
    ensures r.Success? <==>
      ValidKind(Lower(kind)) && config.Some? && Configured(config.value, guildId)
      && (Lower(kind) == "sell" ==> hasImage) && config.value[guildId] in live
    ensures r.Success? ==> r.value == config.value[guildId] && r.value != 0
  {
    var k := Lower(kind);
    if !ValidKind(k) then Failure(BadKind)
    else if config.None? then Failure(Fault)
    else if !Configured(config.value, guildId) then Failure(NoAnnounceChannel)
    else if k == "sell" && !hasImage then Failure(ImageRequired)
    else if config.value[guildId] !in live then Failure(Fault)
    else Success(config.value[guildId])
  }

  /** A bad kind is refused whatever the configuration, the image and the channels are. */
  lemma KindCheckedFirst(kind: string, c1: Option<map<int, int>>, c2: Option<map<int, int>>,
                         g1: int, g2: int, i1: bool, i2: bool, l1: set<int>, l2: set<int>)
    requires !ValidKind(Lower(kind))
    ensures CheckPost(kind, c1, g1, i1, l1) == CheckPost(kind, c2, g2, i2, l2) == Failure(BadKind)
  {
  }

  /** A buy listing never depends on an image; a sell listing without one is never published. */
  lemma ImageOnlyForSell(kind: string, config: Option<map<int, int>>, g: int, live: set<int>)
    ensures Lower(kind) == "buy" ==> CheckPost(kind, config, g, false, live) == CheckPost(kind, config, g, true, live)
    ensures Lower(kind) == "sell" ==> !CheckPost(kind, config, g, false, live).Success?
  {
  }

  datatype PostReply = Refused(reason: PostFailure) | Posted(messageId: int)
  datatype SetReply = OnlyAdmins | ChannelSet(channelId: int)
  datatype OpenReply = SellerNotFound | OpenFault | Opened(session: Session)
  datatype RoleReply = NotAdmin | AlreadyExists | RoleCreated(role: Role)

  /** The announce map after `guildId` is pointed at `channelId`, made empty first when absent. */
  function SetAnnounce(config: Option<map<int, int>>, guildId: int, channelId: int): (r: map<int, int>)
    ensures guildId in r && r[guildId] == channelId
    ensures forall g :: g != guildId ==> (g in r <==> config.Some? && g in config.value)
    ensures forall g :: g != guildId && g in r ==> r[g] == config.value[g]
  {
    match config
    case None => map[guildId := channelId]
    case Some(m) => m[guildId := channelId]
  }

  /** The bot's in-memory stores. */
  class Bot {
    /** The announce map of the configuration, guild id to channel id; None when it has none. */
    var config: Option<map<int, int>>
    /** The listing registry, keyed by the id of the published message. */
    var posts: map<int, Listing>
    /** The platform's id source, the one every guild draws from. */
    const ids: Snowflakes

    /** Every listing is keyed by an id the platform has already handed out. */
    ghost predicate Valid()
      reads this, ids
    {
      forall m :: m in posts ==> m < ids.next
    }

    /** The bot as it starts, with the stores read at start-up. */
    constructor (config: Option<map<int, int>>, posts: map<int, Listing>, ids: Snowflakes)
      requires forall m :: m in posts ==> m < ids.next
      ensures Valid()
      ensures this.config == config && this.posts == posts && this.ids == ids
    {
      this.config := config;
      this.posts := posts;
      this.ids := ids;
    }

    /** The announce channel stored for a guild, if any. */
    function AnnounceChannelOf(guildId: int): (r: Option<int>)
      reads this
    {
      if config.Some? && guildId in config.value then Some(config.value[guildId]) else None
    }

    /**
     * Points a guild's listings at a channel. Only administrators may; for them
     * the guild's entry is set, the announce map created if missing, and every
     * other guild's entry kept.
     */
    method SetAnnounceChannel(guild: Guild, invoker: Actor, channelId: int) returns (r: SetReply)
      modifies this`config
      ensures r == (if invoker.isAdmin then ChannelSet(channelId) else OnlyAdmins)
      ensures !invoker.isAdmin ==> config == old(config)
      ensures invoker.isAdmin ==> config == Some(SetAnnounce(old(config), guild.id, channelId))
      ensures invoker.isAdmin ==> AnnounceChannelOf(guild.id) == Some(channelId)
      ensures forall g :: g != guild.id ==> AnnounceChannelOf(g) == old(AnnounceChannelOf(g))
    {
      if !invoker.isAdmin {
        return OnlyAdmins;
      }
      var m := if config.Some? then config.value else map[];
      config := Some(m[guild.id := channelId]);
      r := ChannelSet(channelId);
    }

    /**
     * Publishes a listing. A post that fails a check sends nothing and changes
     * no store; one that passes sends the card to the announce channel and
     * registers the sent message under the author's id and the lower-cased kind.
     */
    method Post(guild: Guild, author: Actor, kind: string, title: string, description: string,
                price: string, hasImage: bool) returns (r: PostReply)
      requires Valid() && guild.Valid() && guild.ids == ids
      modifies this`posts, guild`channels, ids
      ensures Valid() && guild.Valid()
      ensures CheckPost(kind, config, guild.id, hasImage, old(guild.channels).Keys).Failure? ==>
        && r == Refused(CheckPost(kind, config, guild.id, hasImage, old(guild.channels).Keys).error)
        && posts == old(posts)
        && guild.channels == old(guild.channels)
        && ids.next == old(ids.next)
      ensures CheckPost(kind, config, guild.id, hasImage, old(guild.channels).Keys).Success? ==>
        var ch := CheckPost(kind, config, guild.id, hasImage, old(guild.channels).Keys).value;
        && r.Posted?
        && r.messageId == old(ids.next) && ids.next == r.messageId + 1
        && r.messageId !in old(posts)
        && (forall m :: m in old(posts) ==> m in posts && posts[m] == old(posts)[m])
        && posts == old(posts)[r.messageId := Listing(author.id, Lower(kind))]
        && guild.channels == old(guild.channels)[ch := WithMessage(old(guild.channels)[ch],
             Message(r.messageId, Card(RenderTitle(Lower(kind), title), description, price)))]
    {
      var k := Lower(kind);
      if !ValidKind(k) {
        return Refused(BadKind);
      }
      if config.None? {
        return Refused(Fault);
      }
      var announceId := if guild.id in config.value then config.value[guild.id] else 0;
      if announceId == 0 {
        return Refused(NoAnnounceChannel);
      }
      if k == "sell" && !hasImage {
        return Refused(ImageRequired);
      }
      if announceId !in guild.channels {
        return Refused(Fault);
      }
      var card := Card(RenderTitle(k, title), description, price);
      var sent := guild.Send(announceId, card);
      posts := posts[sent := Listing(author.id, k)];
      r := Posted(sent);
    }

    /**
     * The open-ticket button of the listing published as message `messageId`.
     * Without a registry entry nothing is created; when the seller has left the
     * guild the handler raises before any channel exists. Otherwise exactly one
     * new channel is added, named after the requester, visible to the bot, the
     * seller and the requester only, holding the opening notice.
     */
    method OpenTicket(guild: Guild, user: Actor, messageId: int) returns (r: OpenReply)
      requires Valid() && guild.Valid() && guild.ids == ids
      modifies guild`channels, ids
      ensures Valid() && guild.Valid()
      ensures messageId !in posts ==> r == SellerNotFound && guild.channels == old(guild.channels)
      ensures messageId in posts && posts[messageId].sellerId !in guild.members ==>
        r == OpenFault && guild.channels == old(guild.channels)
      ensures messageId in posts && posts[messageId].sellerId in guild.members ==>
        && r.Opened?
        && r.session.sellerId == posts[messageId].sellerId
        && r.session.requesterId == user.id
        && r.session.channelId !in old(guild.channels)
        && guild.channels.Keys == old(guild.channels).Keys + {r.session.channelId}
        && (forall c :: c in old(guild.channels) ==> guild.channels[c] == old(guild.channels)[c])
        && var t := guild.channels[r.session.channelId];
           && t.name == MakeTicketName(user.name)
           && t.overwrites == TicketOverwrites(guild.me, posts[messageId].sellerId, user.id)
           && t.category == IdOfFirstNamed(guild.categories, TicketCategoryName)
           && |t.messages| == 1
           && t.messages[0].body == OpenNotice(posts[messageId].sellerId, user.id)
    {
      if messageId !in posts {
        return SellerNotFound;
      }
      var seller := posts[messageId].sellerId;
      if seller !in guild.members {
        return OpenFault;
      }
      var overwrites := TicketOverwrites(guild.me, seller, user.id);
      var category := IdOfFirstNamed(guild.categories, TicketCategoryName);
      var ticket := guild.CreateTextChannel(MakeTicketName(user.name), overwrites, category);
      var _ := guild.Send(ticket, OpenNotice(seller, user.id));
      r := Opened(Session(ticket, seller, user.id));
    }
  }

  /**
   * Two members press the open button of the same listing one after the
   * other: each gets a channel of their own, and neither can see the other's
   * ticket, whatever their roles grant.
   */
  method OpenTwice(bot: Bot, guild: Guild, a: Actor, b: Actor, messageId: int)
    returns (first: OpenReply, second: OpenReply)
    requires bot.Valid() && guild.Valid() && guild.ids == bot.ids
    requires messageId in bot.posts && bot.posts[messageId].sellerId in guild.members
    requires !a.isAdmin && !b.isAdmin && a.id != b.id
    requires a.id != guild.me && b.id != guild.me
    requires a.id != bot.posts[messageId].sellerId && b.id != bot.posts[messageId].sellerId
    modifies guild`channels, bot.ids
    ensures first.Opened? && second.Opened?
    ensures first.session.channelId != second.session.channelId
    ensures first.session.channelId in guild.channels && second.session.channelId in guild.channels
    ensures forall fromRoles: bool ::
      && CanView(guild.channels[first.session.channelId].overwrites, a, fromRoles)
      && !CanView(guild.channels[first.session.channelId].overwrites, b, fromRoles)
      && CanView(guild.channels[second.session.channelId].overwrites, b, fromRoles)
      && !CanView(guild.channels[second.session.channelId].overwrites, a, fromRoles)
  {
    var seller := bot.posts[messageId].sellerId;
    first := bot.OpenTicket(guild, a, messageId);
    second := bot.OpenTicket(guild, b, messageId);
    forall fromRoles: bool
      ensures CanView(TicketOverwrites(guild.me, seller, a.id), a, fromRoles)
      ensures !CanView(TicketOverwrites(guild.me, seller, a.id), b, fromRoles)
      ensures CanView(TicketOverwrites(guild.me, seller, b.id), b, fromRoles)
      ensures !CanView(TicketOverwrites(guild.me, seller, b.id), a, fromRoles)
    {
      OnlyParticipantsSee(guild.me, seller, a.id, a, fromRoles);
      OnlyParticipantsSee(guild.me, seller, a.id, b, fromRoles);
      OnlyParticipantsSee(guild.me, seller, b.id, b, fromRoles);
      OnlyParticipantsSee(guild.me, seller, b.id, a, fromRoles);
    }
  }

  /** Finds the first role called `name`, creating it only when there is none. */
  method GetOrCreateRole(guild: Guild, name: string) returns (role: Role)
    requires guild.Valid()
    modifies guild`roles, guild.ids
    ensures guild.Valid()
    ensures role.name == name
    ensures FirstNamed(guild.roles, name).Some?
    ensures FirstNamed(old(guild.roles), name).Some? ==>
      && guild.roles == old(guild.roles)
      && guild.ids.next == old(guild.ids.next)
      && role == old(guild.roles)[FirstNamed(old(guild.roles), name).value]
    ensures FirstNamed(old(guild.roles), name).None? ==>
      && role == Named(old(guild.ids.next), name)
      && guild.roles == WithNewRole(old(guild.roles), role)
  {
    var found := FirstNamed(guild.roles, name);
    if found.Some? {
      return guild.roles[found.value];
    }
    ghost var before := guild.roles;
    role := guild.CreateRole(name);
    FirstNamedAfterInsert(before, RoleSlot(before), role);
  }

  /**
   * A role bootstrap command: administrators only, and the role is created
   * only when no role of that name exists, so a repeated call changes nothing.
   */
  method EnsureRole(guild: Guild, invoker: Actor, name: string) returns (r: RoleReply)
    requires guild.Valid()
    modifies guild`roles, guild.ids
    ensures guild.Valid()
    ensures !invoker.isAdmin ==> r == NotAdmin && guild.roles == old(guild.roles)
    ensures invoker.isAdmin && FirstNamed(old(guild.roles), name).Some? ==>
      r == AlreadyExists && guild.roles == old(guild.roles)
    ensures invoker.isAdmin && FirstNamed(old(guild.roles), name).None? ==>
      && r == RoleCreated(Named(old(guild.ids.next), name))
      && guild.roles == WithNewRole(old(guild.roles), r.role)
    ensures invoker.isAdmin ==> FirstNamed(guild.roles, name).Some?
  {
    if !invoker.isAdmin {
      return NotAdmin;
    }
    if FirstNamed(guild.roles, name).Some? {
      return AlreadyExists;
    }
    ghost var before := guild.roles;
    var role := guild.CreateRole(name);
    FirstNamedAfterInsert(before, RoleSlot(before), role);
    r := RoleCreated(role);
  }

  method SellerRoleCreate(guild: Guild, invoker: Actor) returns (r: RoleReply)
    requires guild.Valid()
    modifies guild`roles, guild.ids
    ensures guild.Valid()
    ensures !invoker.isAdmin ==> r == NotAdmin && guild.roles == old(guild.roles)
    ensures invoker.isAdmin && FirstNamed(old(guild.roles), SellerRoleName).Some? ==>
      r == AlreadyExists && guild.roles == old(guild.roles)
    ensures invoker.isAdmin && FirstNamed(old(guild.roles), SellerRoleName).None? ==>
      && r == RoleCreated(Named(old(guild.ids.next), SellerRoleName))
      && guild.roles == WithNewRole(old(guild.roles), r.role)
    ensures invoker.isAdmin ==> FirstNamed(guild.roles, SellerRoleName).Some?
  {
    r := EnsureRole(guild, invoker, SellerRoleName);
  }

  method BuyerRoleCreate(guild: Guild, invoker: Actor) returns (r: RoleReply)
    requires guild.Valid()
    modifies guild`roles, guild.ids
    ensures guild.Valid()
    ensures !invoker.isAdmin ==> r == NotAdmin && guild.roles == old(guild.roles)
    ensures invoker.isAdmin && FirstNamed(old(guild.roles), BuyerRoleName).Some? ==>
      r == AlreadyExists && guild.roles == old(guild.roles)
    ensures invoker.isAdmin && FirstNamed(old(guild.roles), BuyerRoleName).None? ==>
      && r == RoleCreated(Named(old(guild.ids.next), BuyerRoleName))
      && guild.roles == WithNewRole(old(guild.roles), r.role)
    ensures invoker.isAdmin ==> FirstNamed(guild.roles, BuyerRoleName).Some?
  {
    r := EnsureRole(guild, invoker, BuyerRoleName);
  }
}
