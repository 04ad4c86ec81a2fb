/** The web socket gateway: the events of a socket on their way into the channels. */
module PresenceGateway {
  import opened Prelude
  import P = PresenceState
  import A = PresenceAtomic
  import E = PresenceEffects
  import opened PresenceService

  const USER_STATUS_CHANNEL := "user_status"

  /** A message as parsed: the channel it names and the rest. */
  datatype Parsed = Parsed(channel: string, message: WebsocketSubscribeMessage)

  class StayWebSocketGateway {
    const userStatusMessage: UserStatusMessage
    var channelGateways: map<string, UserStatusMessage>

    constructor (userStatusMessage: UserStatusMessage)
      ensures this.userStatusMessage == userStatusMessage && channelGateways == map[] && OnlyUserStatus()
    {
      this.userStatusMessage := userStatusMessage;
      channelGateways := map[];
    }

    method RegisterChannel(channel: string, gateway: UserStatusMessage)
      modifies this
      ensures channelGateways == old(channelGateways)[channel := gateway]
    {
      channelGateways := channelGateways[channel := gateway];
    }

    method OnModuleInit()
      modifies this
      ensures channelGateways == old(channelGateways)["user_status" := userStatusMessage]
      ensures old(OnlyUserStatus()) ==> OnlyUserStatus()
    {
      RegisterChannel(USER_STATUS_CHANNEL, userStatusMessage);
    }

    lemma DropTwice<V>(m: map<P.Socket, V>, s: P.Socket)
      ensures m - {s} - {s} == m - {s}
    {
    }

    /** Every channel forgets the socket, and nothing else. */
    method HandleDisconnect(client: P.Socket)
      requires forall g :: g in channelGateways.Values ==> g.Valid()
      modifies channelGateways.Values
      ensures forall g :: g in channelGateways.Values ==> g.Valid()
      ensures forall g :: g in channelGateways.Values ==>
                && g.clients == old(g.clients) - {client}
                && g.since == old(g.since) - {client} && g.joinedAt == old(g.joinedAt) - {client}
    {
      var todo := channelGateways.Keys;
      ghost var visited: set<UserStatusMessage> := {};
      while todo != {}
        invariant todo <= channelGateways.Keys && visited <= channelGateways.Values
        invariant forall c :: c in channelGateways && c !in todo ==> channelGateways[c] in visited
        invariant forall g :: g in channelGateways.Values ==> g.Valid()
        invariant forall g :: g in channelGateways.Values && g !in visited ==>
                    g.clients == old(g.clients) && g.since == old(g.since) && g.joinedAt == old(g.joinedAt)
        invariant forall g :: g in visited ==>
                    && g.clients == old(g.clients) - {client}
                    && g.since == old(g.since) - {client} && g.joinedAt == old(g.joinedAt) - {client}
        decreases todo
      {
        var channel :| channel in todo;
        todo := todo - {channel};
        var gateway := channelGateways[channel];
        DropTwice(old(gateway.clients), client);
        DropTwice(old(gateway.since), client);
        DropTwice(old(gateway.joinedAt), client);
        gateway.DeleteClient(client);
        visited := visited + {gateway};
      }
    }

    /** Whatever names are registered, they name the user-status channel: no other object is ever registered. */
    ghost predicate OnlyUserStatus()
      reads this
    {
      forall c :: c in channelGateways ==> channelGateways[c] == userStatusMessage
    }

    method HandlePong(client: P.Socket)
      requires userStatusMessage.Valid()
      modifies userStatusMessage.clients.Values, userStatusMessage.service.redis
      ensures userStatusMessage.World() == A.PongNow(old(userStatusMessage.World()), client)
      ensures E.Ponged(old(userStatusMessage.World()), userStatusMessage.World(), client)
    {
      userStatusMessage.Pong(client);
    }

    /** `data` is `None` when it does not parse. */
    method HandleMessage(client: P.Socket, data: Option<Parsed>, check: UserCheck)
      requires userStatusMessage.Valid() && client.inst == userStatusMessage.inst
      requires OnlyUserStatus()
      requires data.Some? && data.value.message.userUid.Some? && check == Exists ==>
                 ':' !in data.value.message.userUid.value
      modifies userStatusMessage, userStatusMessage.service.redis, userStatusMessage.net
      ensures userStatusMessage.Valid()
      ensures var was := old(userStatusMessage.World());
              userStatusMessage.World() ==
              if data.None? || data.value.channel !in channelGateways
                 || (data.value.message.userUid.Some? && check == Throws)
              then was.(open := was.open - {client})
              else HandleNow(was, client, data.value.message, check)
      ensures data.Some? && data.value.channel in channelGateways
              && (data.value.message.userUid.None? || check != Throws) ==>
                Handled(old(userStatusMessage.World()), userStatusMessage.World(), client, data.value.message, check)
      ensures var codes := old(userStatusMessage.net.closeCodes);
              userStatusMessage.net.closeCodes ==
              if data.None? then codes[client := 1011]
              else if data.value.channel !in channelGateways then codes[client := 4004]
              else if data.value.message.userUid.None? || check == Exists then codes
              else codes[client := match check
                                   case NoAnswer => 4001
                                   case NotFound => 4004
                                   case _ => 1011]
    {
      hide A.SubscribeNow, A.UnsubscribeNow, Handled;
      if data.None? {
        userStatusMessage.net.Close(client, SERVER_ERROR);
        return;
      }
      var message := data.value;
      if message.channel in channelGateways {
        var gateway := channelGateways[message.channel];
        var thrown := gateway.HandleMessage(client, message.message, check);
        if thrown {
          userStatusMessage.net.Close(client, SERVER_ERROR);
        }
      } else {
        userStatusMessage.net.Close(client, BAD_CHANNEL);
      }
    }
  }
}
