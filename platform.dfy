/**
 * The chat platform as the bot's handlers see it, reduced to plain values:
 * actors with an administrator flag, roles and categories by name, channels
 * with their permission overwrites and messages, and the one id source, shared
 * by every guild, that hands out the ids of new channels, messages and roles.
 */
module Platform {
  import opened Wrappers

  /** The user who invokes a command or presses a button; `name` is the account's username. */
  datatype Actor = Actor(id: int, name: string, isAdmin: bool)

  /** A role or a channel category: an id and a display name. */
  datatype Named = Named(id: int, name: string)
  type Role = Named
  type Category = Named

  /** Whom a permission overwrite applies to: the guild's default role, or one member. */
  datatype Target = DefaultRole | Member(id: int)

  /** One permission of an overwrite: granted, denied, or left to what the roles give. */
  datatype Bit = Allow | Deny | Inherit

  /** The two permissions a ticket channel sets: seeing the channel and sending to it. */
  datatype Overwrite = Overwrite(view: Bit, send: Bit)

  /** What the bot posts: a listing card, or the notice that opens a ticket. */
  datatype Body =
    | Card(title: string, description: string, price: string)
    | OpenNotice(sellerId: int, requesterId: int)

  datatype Message = Message(id: int, body: Body)

  datatype Channel = Channel(
    name: string,
    overwrites: map<Target, Overwrite>,
    category: Option<int>,
    messages: seq<Message>)

  function WithMessage(c: Channel, m: Message): (r: Channel) {
    c.(messages := c.messages + [m])
  }

  /** The position of the first entry called `name`, as a lookup by name on the platform finds it. */
  function FirstNamed(xs: seq<Named>, name: string): (r: Option<nat>)
    ensures r.Some? ==> r.value < |xs| && xs[r.value].name == name
    ensures r.Some? ==> forall j :: 0 <= j < r.value ==> xs[j].name != name
    ensures r.None? <==> forall j :: 0 <= j < |xs| ==> xs[j].name != name
  {
    if xs == [] then None
    else if xs[0].name == name then Some(0)
    else match FirstNamed(xs[1..], name)
      case None => None
      case Some(i) => Some(i + 1)
  }

  /** The id of the first entry called `name`, if there is one. */
  function IdOfFirstNamed(xs: seq<Named>, name: string): (r: Option<int>) {
    match FirstNamed(xs, name)
    case None => None
    case Some(i) => Some(xs[i].id)
  }

  /**
   * Where a new role goes in the guild's role list, which is ordered from the
   * bottom of the hierarchy up: just above the default role, which is first.
   */
  function RoleSlot(roles: seq<Role>): (k: nat) {
    if roles == [] then 0 else 1
  }

  /** The role list after a new role is created: the role sits in its slot, every other role keeps its order. */
  function WithNewRole(roles: seq<Role>, role: Role): (r: seq<Role>) {
    roles[..RoleSlot(roles)] + [role] + roles[RoleSlot(roles)..]
  }

  /** Inserting an entry called `name` into a list that had none makes that entry the one found. */
  lemma FirstNamedAfterInsert(xs: seq<Named>, k: nat, x: Named)
    requires k <= |xs|
    requires FirstNamed(xs, x.name).None?
    ensures FirstNamed(xs[..k] + [x] + xs[k..], x.name) == Some(k)
  {
    var ys := xs[..k] + [x] + xs[k..];
    assert ys[k].name == x.name;
    assert forall j :: 0 <= j < k ==> ys[j] == xs[j];
    var r := FirstNamed(ys, x.name);
    assert r.Some?;
    assert r.value <= k;
    assert r.value >= k;
  }

  /** The platform's id source: every id it hands out is above all ids handed out before. */
  class Snowflakes {
    var next: int

    constructor (next: int)
      ensures this.next == next
    {
      this.next := next;
    }

    method Take() returns (n: int)
      modifies this
      ensures n == old(next) && next == n + 1
    {
      n := next;
      next := next + 1;
    }
  }

  /** One guild: what the bot reads from it and the effects the bot has on it. */
  class Guild {
    const id: int
    /** The bot's own member id in this guild. */
    const me: int
    /** The ids of the current members; a member who left is absent. */
    const members: set<int>
    const categories: seq<Category>
    var channels: map<int, Channel>
    var roles: seq<Role>
    /** The id source shared by all guilds. */
    const ids: Snowflakes

    /** Every channel, message and role of the guild has an id the id source has already handed out. */
    ghost predicate Valid()
      reads this, ids
    {
      && (forall c :: c in channels ==> c < ids.next)
      && (forall c, i :: c in channels && 0 <= i < |channels[c].messages| ==> channels[c].messages[i].id < ids.next)
      && (forall i :: 0 <= i < |roles| ==> roles[i].id < ids.next)
    }

    constructor (id: int, me: int, members: set<int>, categories: seq<Category>,
                 channels: map<int, Channel>, roles: seq<Role>, ids: Snowflakes)
      requires forall c :: c in channels ==> c < ids.next
      requires forall c, i :: c in channels && 0 <= i < |channels[c].messages| ==> channels[c].messages[i].id < ids.next
      requires forall i :: 0 <= i < |roles| ==> roles[i].id < ids.next
      ensures Valid()
      ensures this.id == id && this.me == me && this.members == members
      ensures this.categories == categories && this.channels == channels
      ensures this.roles == roles && this.ids == ids
    {
      this.id := id;
      this.me := me;
      this.members := members;
      this.categories := categories;
      this.channels := channels;
      this.roles := roles;
      this.ids := ids;
    }

    /** Takes an id from the shared source; no channel, message or role of the guild has it. */
    method NewId() returns (n: int)
      requires Valid()
      modifies ids
      ensures Valid()
      ensures n == old(ids.next) && ids.next == n + 1
      ensures n !in channels
    {
      n := ids.Take();
    }

    /** Creates a text channel with no messages yet. */
    method CreateTextChannel(name: string, overwrites: map<Target, Overwrite>, category: Option<int>)
      returns (cid: int)
      requires Valid()
      modifies this`channels, ids
      ensures Valid()
      ensures cid == old(ids.next) && ids.next == cid + 1
      ensures cid !in old(channels)
      ensures channels == old(channels)[cid := Channel(name, overwrites, category, [])]
    {
      cid := NewId();
      channels := channels[cid := Channel(name, overwrites, category, [])];
    }

    /** Sends a message to a live channel, under an id above every id handed out before. */
    method Send(cid: int, body: Body) returns (mid: int)
      requires Valid() && cid in channels
      modifies this`channels, ids
      ensures Valid()
      ensures mid == old(ids.next) && ids.next == mid + 1
      ensures channels == old(channels)[cid := WithMessage(old(channels)[cid], Message(mid, body))]
    {
      mid := NewId();
      channels := channels[cid := WithMessage(channels[cid], Message(mid, body))];
    }

    /** Deletes a channel; deleting one that is already gone changes nothing. */
    method DeleteChannel(cid: int)
      requires Valid()
      modifies this`channels
      ensures Valid()
      ensures channels == old(channels) - {cid}
    {
      channels := channels - {cid};
    }

    /**
     * Creates a role at the bottom of the hierarchy, just above the default
     * role; the platform does not refuse a name that is already taken.
     */
    method CreateRole(name: string) returns (role: Role)
      requires Valid()
      modifies this`roles, ids
      ensures Valid()
      ensures role == Named(old(ids.next), name) && ids.next == role.id + 1
      ensures forall i :: 0 <= i < |old(roles)| ==> old(roles)[i].id != role.id
      ensures roles == WithNewRole(old(roles), role)
    {
      var rid := NewId();
      role := Named(rid, name);
      roles := WithNewRole(roles, role);
    }
  }
}
