/**
 * Ticket sessions: the permission overwrites of a ticket channel, who can
 * see such a channel, and the guarded close action bound to one session.
 */
module Tickets {
  import opened Platform

  /**
   * The overwrites a ticket channel is created with: the default role may not
   * see it; the bot, the seller and the requester may see it and send to it.
   */
  function TicketOverwrites(me: int, seller: int, requester: int): (r: map<Target, Overwrite>)
    ensures r.Keys == {DefaultRole, Member(me), Member(seller), Member(requester)}
    ensures r[DefaultRole] == Overwrite(Deny, Inherit)
    ensures forall t :: t in r && t != DefaultRole ==> r[t] == Overwrite(Allow, Allow)
  {
    map[DefaultRole := Overwrite(Deny, Inherit),
        Member(me) := Overwrite(Allow, Allow),
        Member(seller) := Overwrite(Allow, Allow),
        Member(requester) := Overwrite(Allow, Allow)]
  }

  /**
   * Whether `a` sees a channel with overwrites `ow`: administrators see every
   * channel; otherwise the member's own overwrite decides, then the default
   * role's, and failing both `fromRoles`, what the member's roles grant.
   */
  predicate CanView(ow: map<Target, Overwrite>, a: Actor, fromRoles: bool) {
    if a.isAdmin then true
    else if Member(a.id) in ow && ow[Member(a.id)].view != Inherit then ow[Member(a.id)].view == Allow
    else if DefaultRole in ow && ow[DefaultRole].view != Inherit then ow[DefaultRole].view == Allow
    else fromRoles
  }

  /** Likewise for sending messages, which also needs the channel to be visible. */
  predicate CanSend(ow: map<Target, Overwrite>, a: Actor, fromRoles: bool) {
    CanView(ow, a, fromRoles) &&
    if a.isAdmin then true
    else if Member(a.id) in ow && ow[Member(a.id)].send != Inherit then ow[Member(a.id)].send == Allow
    else if DefaultRole in ow && ow[DefaultRole].send != Inherit then ow[DefaultRole].send == Allow
    else fromRoles
  }

  /**
   * Least privilege: of the members who are not administrators, exactly the
   * bot, the seller and the requester see a ticket channel, and they may also
   * write in it, whatever their roles grant.
   */
  lemma OnlyParticipantsSee(me: int, seller: int, requester: int, a: Actor, fromRoles: bool)
    requires !a.isAdmin
    ensures CanView(TicketOverwrites(me, seller, requester), a, fromRoles) <==> a.id in {me, seller, requester}
    ensures a.id in {me, seller, requester} ==> CanSend(TicketOverwrites(me, seller, requester), a, fromRoles)
  {
    var ow := TicketOverwrites(me, seller, requester);
    if a.id !in {me, seller, requester} {
      assert Member(a.id) !in ow;
    }
  }

  /** What the close action closes over: the ticket channel and the two parties. */
  datatype Session = Session(channelId: int, sellerId: int, requesterId: int)

  /** A session is open while its channel exists. */
  predicate IsOpen(guild: Guild, s: Session)
    reads guild
  {
    s.channelId in guild.channels
  }

  datatype CloseReply = Closing | NoRights

  /**
   * The close button of a ticket: the seller or an administrator deletes the
   * channel; anyone else is refused and the channel stays.
   */
  method Close(guild: Guild, session: Session, invoker: Actor) returns (r: CloseReply)
    requires guild.Valid()
    modifies guild`channels
    ensures guild.Valid()
    ensures r == Closing <==> invoker.id == session.sellerId || invoker.isAdmin
    ensures r == Closing ==> guild.channels == old(guild.channels) - {session.channelId}
    ensures r == Closing ==> !IsOpen(guild, session)
    ensures r == NoRights ==> guild.channels == old(guild.channels)
  {
    if invoker.id == session.sellerId || invoker.isAdmin {
      r := Closing;
      guild.DeleteChannel(session.channelId);
    } else {
      r := NoRights;
    }
  }
}
