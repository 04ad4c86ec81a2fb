/**
The presence handlers as the objects they are. Each method is a whole handler,
run without interruption, and is proved against the atomic machine.
*/
module PresenceService {
  import opened Prelude
  import opened TtlKeys
  import P = PresenceState
  import A = PresenceAtomic
  import E = PresenceEffects

  /** The Redis server, as far as the presence protocol sees it. */
  class Redis {
    var hash: set<Uid>
    var ttl: map<Uid, nat>
    var now: nat
    ghost var trace: seq<P.Event>

    constructor ()
      ensures hash == {} && ttl == map[] && now == 0 && trace == []
    {
      hash, ttl, now, trace := {}, map[], 0, [];
    }

    method HSet(uid: Uid, ghost cause: P.Cause) returns (added: nat)
      modifies this
      ensures hash == old(hash) + {uid} && ttl == old(ttl) && now == old(now)
      ensures added == if uid in old(hash) then 0 else 1
      ensures trace == if uid in old(hash) then old(trace) else old(trace) + [P.Inserted(uid, cause)]
    {
      added := if uid in hash then 0 else 1;
      if uid !in hash {
        trace := trace + [P.Inserted(uid, cause)];
      }
      hash := hash + {uid};
    }

    /** `SET key status EX seconds`. */
    method SetEx(uid: Uid, milliseconds: nat)
      modifies this
      ensures ttl == old(ttl)[uid := now + milliseconds]
      ensures hash == old(hash) && now == old(now) && trace == old(trace)
    {
      ttl := ttl[uid := now + milliseconds];
    }

    method HDel(uid: Uid, ghost cause: P.Cause) returns (removed: nat)
      modifies this
      ensures hash == old(hash) - {uid} && ttl == old(ttl) && now == old(now)
      ensures removed == if uid in old(hash) then 1 else 0
      ensures trace == if uid in old(hash) then old(trace) + [P.Removed(uid, cause)] else old(trace)
    {
      removed := if uid in hash then 1 else 0;
      if uid in hash {
        trace := trace + [P.Removed(uid, cause)];
      }
      hash := hash - {uid};
    }

    /** One answer per field asked for, in the order asked. */
    method HMGet(uids: seq<Uid>) returns (values: seq<Option<P.Status>>)
      ensures |values| == |uids|
      ensures forall i :: 0 <= i < |uids| ==> values[i] == if uids[i] in hash then Some(P.Online) else None
    {
      values := seq(|uids|, i requires 0 <= i < |uids| reads this => if uids[i] in hash then Some(P.Online) else None);
    }
  }

  class UserStatusService {
    const redis: Redis

    constructor (redis: Redis)
      ensures this.redis == redis
    {
      this.redis := redis;
    }

    /** Exactly the users among those asked for who are online. */
    method SearchStatuses(uids: seq<Uid>) returns (result: map<Uid, P.Status>)
      ensures result.Keys == set u | u in uids && u in redis.hash
      ensures forall u :: u in result ==> result[u] == P.Online
    {
      result := map[];
      if |uids| == 0 {
        return;
      }
      var statuses := redis.HMGet(uids);
      for i := 0 to |uids|
        invariant result.Keys == set u | u in uids[..i] && u in redis.hash
        invariant forall u :: u in result ==> result[u] == P.Online
      {
        if statuses[i].Some? {
          result := result[uids[i] := P.Online];
        }
        assert uids[..i + 1] == uids[..i] + [uids[i]];
      }
      assert uids[..|uids|] == uids;
    }

    /** Every user in the hash, and no one else. */
    method GetOnlineUsers() returns (results: map<Uid, P.Status>)
      ensures results == map u | u in redis.hash :: P.Online
    {
      results := map[];
      var fields := redis.hash;
      while fields != {}
        invariant fields <= redis.hash
        invariant results == map u | u in redis.hash - fields :: P.Online
        decreases |fields|
      {
        var field :| field in fields;
        fields := fields - {field};
        results := results[field := P.Online];
      }
    }

    method GetStatus(uid: Uid) returns (r: Option<Uid>)
      ensures r == if uid in redis.hash then Some(uid) else None
    {
      r := if uid in redis.hash then Some(uid) else None;
    }

    method SetStatus(uid: Uid, ghost cause: P.Cause) returns (info: map<Uid, P.Status>)
      modifies redis
      ensures redis.hash == old(redis.hash) + {uid} && redis.now == old(redis.now)
      ensures redis.ttl == old(redis.ttl)[uid := redis.now + 15000]
      ensures redis.trace ==
              if uid in old(redis.hash) then old(redis.trace) else old(redis.trace) + [P.Inserted(uid, cause)]
      ensures info == map[uid := P.Online]
    {
      var _ := redis.HSet(uid, cause);
      redis.SetEx(uid, P.TTL_EXPIRATION_TIME);
      info := map[uid := P.Online];
    }

    method DelStatus(uid: Uid, ghost cause: P.Cause) returns (removed: nat)
      modifies redis
      ensures redis.hash == old(redis.hash) - {uid} && redis.ttl == old(redis.ttl) && redis.now == old(redis.now)
      ensures removed == if uid in old(redis.hash) then 1 else 0
      ensures redis.trace ==
              if uid in old(redis.hash) then old(redis.trace) + [P.Removed(uid, cause)] else old(redis.trace)
    {
      removed := redis.HDel(uid, cause);
    }
  }

  /** The web sockets of one server process. */
  class Network {
    var open: set<P.Socket>
    var inbox: map<P.Socket, seq<P.Message>>
    var pings: multiset<P.Socket>
    var closeCodes: map<P.Socket, nat>

    constructor (sockets: set<P.Socket>)
      ensures open == sockets && inbox == map[] && pings == multiset{} && closeCodes == map[]
    {
      open, inbox, pings, closeCodes := sockets, map[], multiset{}, map[];
    }

    method Send(s: P.Socket, m: P.Message)
      modifies this`inbox
      ensures inbox == if s in open then P.SendTo(old(inbox), {s}, m) else old(inbox)
    {
      if s in open {
        inbox := inbox[s := P.Inbox(inbox, s) + [m]];
      }
    }

    method Ping(s: P.Socket)
      modifies this`pings
      ensures pings == old(pings) + multiset{s}
    {
      pings := pings + multiset{s};
    }

    method Close(s: P.Socket, code: nat)
      modifies this`open, this`closeCodes
      ensures open == old(open) - {s} && closeCodes == old(closeCodes)[s := code]
    {
      open, closeCodes := open - {s}, closeCodes[s := code];
    }
  }

  class TrackedClient {
    const socket: P.Socket
    const userUid: Option<Uid>
    var isAlive: bool

    constructor (socket: P.Socket, userUid: Option<Uid>)
      ensures this.socket == socket && this.userUid == userUid && isAlive
    {
      this.socket, this.userUid, isAlive := socket, userUid, true;
    }
  }

  datatype ConnectType = ConnectSubscribe | ConnectUnsubscribe | ConnectOther

  datatype WebsocketSubscribeMessage =
    WebsocketSubscribeMessage(connectType: ConnectType, userUid: Option<string>, reset: bool)

  /** What looking the user up came to. */
  datatype UserCheck = Exists | NotFound | NoAnswer | Throws

  const INVALID_UID: nat := 4001
  const UID_NOT_FOUND: nat := 4004
  const BAD_CHANNEL: nat := 4004
  const SERVER_ERROR: nat := 1011

  lemma SendToTwice(inbox: map<P.Socket, seq<P.Message>>, targets: set<P.Socket>, s: P.Socket, m: P.Message)
    requires s !in targets
    ensures P.SendTo(P.SendTo(inbox, targets, m), {s}, m) == P.SendTo(inbox, targets + {s}, m)
  {
  }

  lemma SendToNobody(inbox: map<P.Socket, seq<P.Message>>, m: P.Message)
    ensures P.SendTo(inbox, {}, m) == inbox
  {
  }

  /** The clients in the middle of a ping round that has yet to visit `todo`. */
  ghost function Pinging(was: map<P.Socket, P.Meta>, todo: set<P.Socket>): map<P.Socket, P.Meta>
  {
    map s | s in was && (s in todo || was[s].isAlive) :: if s in todo then was[s] else was[s].(isAlive := false)
  }

  /** The clients that such a round has pinged so far. */
  ghost function Asked(was: map<P.Socket, P.Meta>, todo: set<P.Socket>): set<P.Socket>
  {
    set s | s in was && s !in todo && was[s].isAlive
  }

  lemma PingingStart(was: map<P.Socket, P.Meta>)
    ensures Pinging(was, was.Keys) == was && Asked(was, was.Keys) == {}
  {
  }

  lemma PingingStep(was: map<P.Socket, P.Meta>, todo: set<P.Socket>, s: P.Socket)
    requires s in todo && todo <= was.Keys
    ensures s in Pinging(was, todo) && Pinging(was, todo)[s] == was[s]
    ensures Pinging(was, todo - {s}) ==
            if was[s].isAlive then Pinging(was, todo)[s := was[s].(isAlive := false)] else Pinging(was, todo) - {s}
    ensures multiset(Asked(was, todo - {s})) ==
            multiset(Asked(was, todo)) + if was[s].isAlive then multiset{s} else multiset{}
  {
    assert Asked(was, todo - {s}) == Asked(was, todo) + if was[s].isAlive then {s} else {};
  }

  lemma PingingEnd(was: map<P.Socket, P.Meta>, inst: nat)
    requires forall s :: s in was ==> s.inst == inst
    ensures Pinging(was, {}) == P.Pinged(was, inst)
    ensures Asked(was, {}) == Pinging(was, {}).Keys
  {
  }

  /** The user-status channel of server instance `inst`, one of `n`: UserStatusMessage with what it inherits. */
  class UserStatusMessage {
    const inst: nat
    const n: nat
    const service: UserStatusService
    const net: Network
    var clients: map<P.Socket, TrackedClient>
    ghost var since: map<P.Socket, nat>
    ghost var joinedAt: map<P.Socket, nat>

    constructor (inst: nat, n: nat, service: UserStatusService, net: Network)
      requires inst < n
      ensures Valid() && clients == map[]
      ensures this.inst == inst && this.n == n && this.service == service && this.net == net
    {
      this.inst, this.n, this.service, this.net := inst, n, service, net;
      clients, since, joinedAt := map[], map[], map[];
    }

    ghost predicate Valid()
      reads this
    {
      inst < n && forall s :: s in clients ==> clients[s].socket == s && s.inst == inst
    }

    ghost function Clients(): map<P.Socket, P.Meta>
      reads this`clients, clients.Values
    {
      map s | s in clients :: P.Meta(clients[s].userUid, clients[s].isAlive)
    }

    /** The state of the machine that this object is in. */
    ghost function World(): P.State
      reads this, clients.Values, service.redis, net
    {
      P.State(n, Clients(), net.open, net.inbox, service.redis.hash, service.redis.ttl, service.redis.now, [],
              service.redis.trace, since, joinedAt)
    }

    /** The history of the world goes on. */
    ghost method Record(e: P.Event)
      modifies service.redis`trace
      ensures World() == P.Note(old(World()), e)
    {
      service.redis.trace := service.redis.trace + [e];
    }

    lemma TrackedHere(client: P.Socket)
      ensures client in World().clients <==> client in clients
    {
    }

    // ------------------------------------------------------------ WebsocketChannel

    method DeleteClient(client: P.Socket)
      requires Valid()
      modifies this
      ensures Valid() && clients.Values <= old(clients.Values)
      ensures clients == old(clients) - {client}
      ensures since == old(since) - {client} && joinedAt == old(joinedAt) - {client}
      ensures World() == P.Untrack(old(World()), client)
    {
      if client in clients {
        clients := clients - {client};
      }
      since, joinedAt := since - {client}, joinedAt - {client};
    }

    /** The clients that a broadcast is sent to. */
    ghost function Recipients(connectedClient: Option<P.Socket>): set<P.Socket>
      reads this, net`open
    {
      set s | s in clients && Some(s) != connectedClient && s in net.open
    }

    method BroadcastStatus(connectedClient: Option<P.Socket>, m: P.Message)
      requires Valid()
      modifies net`inbox
      ensures net.inbox == P.SendTo(old(net.inbox), Recipients(connectedClient), m)
      ensures World() == P.Broadcast(old(World()), inst, connectedClient, m)
    {
      ghost var before := World();
      SendToAll(connectedClient, m);
      assert Recipients(connectedClient) == P.Audience(before, inst, connectedClient);
    }

    /** The loop of broadcastStatus. */
    method SendToAll(connectedClient: Option<P.Socket>, m: P.Message)
      requires Valid()
      modifies net`inbox
      ensures net.inbox == P.SendTo(old(net.inbox), Recipients(connectedClient), m)
    {
      hide P.SendTo;
      ghost var was := net.inbox;
      var todo := clients.Keys;
      ghost var reached: set<P.Socket> := {};
      SendToNobody(was, m);
      while todo != {}
        invariant todo <= clients.Keys
        invariant forall s :: s in reached <==> s in Recipients(connectedClient) && s !in todo
        invariant net.inbox == P.SendTo(was, reached, m)
        decreases todo
      {
        var s :| s in todo;
        todo := todo - {s};
        if connectedClient != Some(clients[s].socket) && clients[s].socket in net.open {
          SendToTwice(was, reached, s, m);
          net.Send(clients[s].socket, m);
          reached := reached + {s};
        }
      }
      assert reached == Recipients(connectedClient);
    }

    method SendClientMessage(client: P.Socket, m: P.Message)
      modifies net`inbox
      ensures World() == P.Send(old(World()), client, m)
    {
      net.Send(client, m);
    }

    /** `this.clients.set(client, {socket: client, userUid, isAlive: true})`. */
    method SetClient(client: P.Socket, userUid: Option<Uid>)
      requires Valid() && client.inst == inst
      modifies this
      ensures Valid() && fresh(clients.Values - old(clients.Values))
      ensures World() == P.Track(old(World()), client, P.Meta(userUid, true))
    {
      var meta := new TrackedClient(client, userUid);
      if client !in clients {
        since := since[client := |P.Inbox(net.inbox, client)|];
        joinedAt := joinedAt[client := |service.redis.trace|];
      }
      clients := clients[client := meta];
      assert Clients() == old(Clients())[client := P.Meta(userUid, true)];
    }

    // ------------------------------------------------------------ handlers

    /** The first part of subscribeMessage: the user goes online and the other clients are told. */
    method GoOnline(client: P.Socket, uid: Uid) returns (dataInfo: map<Uid, P.Status>)
      requires Valid() && client.inst == inst
      modifies service.redis, net`inbox
      ensures dataInfo == map[uid := P.Online]
      ensures World() == P.Broadcast(A.SetStatus(old(World()), uid, P.BySubscribe), client.inst, Some(client),
                                     P.OneUser(uid, P.Online))
    {
      hide P.Broadcast;
      ghost var before := World();
      dataInfo := service.SetStatus(uid, P.BySubscribe);
      assert World() == A.SetStatus(before, uid, P.BySubscribe);
      BroadcastStatus(Some(client), P.StatusInfo(map[uid := P.Online]));
    }

    /** The last part of subscribeMessage for a client that asked for everyone. */
    method SendOnlineUsers(client: P.Socket)
      modifies service.redis`trace, net`inbox
      ensures World() == P.Snapshot(old(World()), client, service.redis.hash)
    {
      hide P.Send;
      ghost var before := World();
      var onlineUsers := service.GetOnlineUsers();
      SendClientMessage(client, P.StatusInfo(onlineUsers));
      P.SendFrame(before, client, P.AllOnline(service.redis.hash));
      Record(P.Listed(client, service.redis.hash));
    }

    /** subscribeMessage up to the answer, which a client that asked for everyone gets later. */
    method Welcome(client: P.Socket, userUid: Option<Uid>, reset: bool)
      requires Valid() && client.inst == inst
      modifies this, service.redis, net`inbox
      ensures Valid() && fresh(clients.Values - old(clients.Values))
      ensures World() == P.Greet(
                if userUid.Some? then A.SetStatus(old(World()), userUid.value, P.BySubscribe) else old(World()),
                client, userUid, reset)
    {
      hide P.Broadcast, P.Send, P.Track, A.SetStatus;
      var dataInfo: map<Uid, P.Status> := map[];
      if userUid.Some? {
        dataInfo := GoOnline(client, userUid.value);
      }
      SetClient(client, userUid);
      if !reset {
        ghost var joined := World();
        SendClientMessage(client, P.StatusInfo(dataInfo));
        P.SendFrame(joined, client, P.StatusInfo(dataInfo));
      }
      if userUid.Some? {
        Record(P.Announced(client, userUid.value, !reset));
      }
    }

    method SubscribeMessage(client: P.Socket, userUid: Option<Uid>, reset: bool)
      requires Valid() && client.inst == inst
      modifies this, service.redis, net`inbox
      ensures Valid() && fresh(clients.Values - old(clients.Values))
      ensures World() == A.SubscribeNow(old(World()), client, userUid, reset)
      ensures E.Subscribed(old(World()), World(), client, userUid, reset)
    {
      hide P.Greet, P.Snapshot, A.SetStatus, E.Subscribed;
      E.SubscribeHas(World(), client, userUid, reset);
      Welcome(client, userUid, reset);
      if reset {
        SendOnlineUsers(client);
      }
    }

    /** The user goes offline and the other clients are told. */
    method GoOffline(client: P.Socket, uid: Uid)
      requires Valid() && client.inst == inst
      modifies service.redis, net`inbox
      ensures World() == P.Broadcast(P.HDel(old(World()), uid, P.ByUnsubscribe), client.inst, Some(client),
                                     P.OneUser(uid, P.Offline))
    {
      hide P.Broadcast;
      ghost var before := World();
      var _ := service.DelStatus(uid, P.ByUnsubscribe);
      assert World() == P.HDel(before, uid, P.ByUnsubscribe);
      BroadcastStatus(Some(client), P.StatusInfo(map[uid := P.Offline]));
    }

    method UnsubscribeMessage(client: P.Socket, userUid: Option<Uid>)
      requires Valid()
      modifies this, service.redis, net`inbox
      ensures Valid() && clients.Values <= old(clients.Values)
      ensures World() == A.UnsubscribeNow(old(World()), client, userUid)
      ensures E.Unsubscribed(old(World()), World(), client, userUid)
    {
      hide P.Broadcast, P.Send, P.Untrack, P.HDel, P.Note, World, Clients, E.Unsubscribed;
      E.UnsubscribeHas(World(), client, userUid);
      TrackedHere(client);
      ghost var told := client in clients && userUid.Some?;
      if client in clients {
        if userUid.Some? {
          GoOffline(client, userUid.value);
        }
        DeleteClient(client);
      }
      SendClientMessage(client, P.UnsubscribeAck);
      if told {
        Record(P.OfflineSent(inst, userUid.value, P.ByUnsubscribe));
      }
    }

    /** What a ping round does with one client. */
    method PingClient(client: TrackedClient)
      requires Valid() && client.socket in clients && clients[client.socket] == client
      modifies this`clients, client`isAlive, net`pings
      ensures Valid() && forall s :: s in clients ==> s in old(clients) && clients[s] == old(clients)[s]
      ensures var s := client.socket;
              if old(client.isAlive) then
                && clients == old(clients) && Clients() == old(Clients())[s := P.Meta(client.userUid, false)]
                && net.pings == old(net.pings) + multiset{s}
              else
                && clients == old(clients) - {s} && Clients() == old(Clients()) - {s}
                && net.pings == old(net.pings)
    {
      if !client.isAlive {
        clients := clients - {client.socket};
        return;
      }
      client.isAlive := false;
      net.Ping(client.socket);
    }

    /** A client that the round has yet to visit is in the map as it was. */
    lemma VisitedClient(was: map<P.Socket, P.Meta>, todo: set<P.Socket>, s: P.Socket)
      requires Clients() == Pinging(was, todo) && s in todo && todo <= was.Keys
      ensures s in clients && was[s] == P.Meta(clients[s].userUid, clients[s].isAlive)
    {
      ClientsEntries();
      PingingStep(was, todo, s);
    }

    /** The loop of ping. */
    method PingAll()
      requires Valid()
      modifies this`clients, clients.Values, net`pings
      ensures Valid() && forall s :: s in clients ==> s in old(clients) && clients[s] == old(clients)[s]
      ensures Clients() == P.Pinged(old(Clients()), inst)
      ensures net.pings == old(net.pings) + multiset(clients.Keys)
    {
      hide Pinging, Asked, Clients, P.Pinged;
      ghost var was := Clients();
      var todo := clients.Keys;
      ClientsEntries();
      PingingStart(was);
      while todo != {}
        invariant Valid() && todo <= was.Keys
        invariant forall s :: s in clients ==> s in old(clients) && clients[s] == old(clients)[s]
        invariant Clients() == Pinging(was, todo)
        invariant net.pings == old(net.pings) + multiset(Asked(was, todo))
        decreases todo
      {
        var s :| s in todo;
        VisitedClient(was, todo, s);
        PingClient(clients[s]);
        PingingStep(was, todo, s);
        todo := todo - {s};
      }
      ClientsEntries();
      PingingEnd(was, inst);
    }

    lemma ClientsEntries()
      ensures Clients().Keys == clients.Keys
      ensures forall s :: s in clients ==> Clients()[s] == P.Meta(clients[s].userUid, clients[s].isAlive)
    {
    }

    /** The history of evicted clients goes with them. */
    ghost method ForgetEvicted()
      modifies this`since, this`joinedAt
      ensures since == map s | s in old(since) && s in Clients() :: old(since)[s]
      ensures joinedAt == map s | s in old(joinedAt) && s in Clients() :: old(joinedAt)[s]
    {
      since := map s | s in since && s in Clients() :: since[s];
      joinedAt := map s | s in joinedAt && s in Clients() :: joinedAt[s];
    }

    method Ping()
      requires Valid()
      modifies this, clients.Values, net`pings
      ensures Valid() && forall s :: s in clients ==> s in old(clients) && clients[s] == old(clients)[s]
      ensures World() == P.PingRound(old(World()), inst) && E.Pruned(old(World()), World(), inst)
      ensures net.pings == old(net.pings) + multiset(clients.Keys)
    {
      hide P.Pinged, Clients, E.Pruned;
      E.PingHas(World(), inst);
      PingAll();
      ForgetEvicted();
    }

    method Pong(client: P.Socket)
      requires Valid()
      modifies clients.Values, service.redis
      ensures World() == A.PongNow(old(World()), client) && E.Ponged(old(World()), World(), client)
    {
      hide E.Ponged;
      E.PongHas(World(), client);
      if client !in clients {
        return;
      }
      var meta := clients[client];
      meta.isAlive := true;
      assert Clients() == old(Clients())[client := P.Meta(meta.userUid, true)];
      if meta.userUid.Some? {
        var _ := service.SetStatus(meta.userUid.value, P.ByPong);
      }
    }

    /** Called with the name of every key that expires in the database. */
    method HandleRedisExpiration(expiredKey: string)
      requires Valid()
      modifies service.redis, net`inbox
      ensures World() ==
              if IsTtlKey(expiredKey) then A.ExpiryNow(old(World()), inst, UidOfKey(expiredKey)) else old(World())
      ensures !("stay:user:status:ttl:" <= expiredKey) ==> World() == old(World())
      ensures forall uid: Uid :: expiredKey == "stay:user:status:ttl:" + uid ==>
                E.Expired(old(World()), World(), inst, uid)
    {
      hide E.Expired, IsTtlKey, UidOfKey;
      StatusKey(expiredKey);
      if IsTtlKey(expiredKey) {
        hide P.Broadcast;
        ghost var w0 := World();
        var userUid := UidOfKey(expiredKey);
        E.ExpiryHas(w0, inst, userUid);
        var result := service.DelStatus(userUid, P.ByExpiry);
        assert World() == P.HDel(w0, userUid, P.ByExpiry);
        if result > 0 {
          BroadcastStatus(None, P.StatusInfo(map[userUid := P.Offline]));
          Record(P.OfflineSent(inst, userUid, P.ByExpiry));
        }
      }
    }

    /** The expiry of a user's own key reaches that user. */
    method HandleOwnExpiration(uid: Uid)
      requires Valid()
      modifies service.redis, net`inbox
      ensures World() == A.ExpiryNow(old(World()), inst, uid)
    {
      KeyRoundTrip(uid);
      HandleRedisExpiration(TtlKey(uid));
    }

    /** `thrown` when looking the user up failed; the gateway closes the socket then. */
    method HandleMessage(client: P.Socket, message: WebsocketSubscribeMessage, check: UserCheck) returns (thrown: bool)
      requires Valid() && client.inst == inst
      requires message.userUid.Some? && check == Exists ==> ':' !in message.userUid.value
      modifies this, service.redis, net
      ensures Valid() && fresh(clients.Values - old(clients.Values))
      ensures thrown <==> message.userUid.Some? && check == Throws
      ensures World() == HandleNow(old(World()), client, message, check)
      ensures Handled(old(World()), World(), client, message, check)
      ensures net.pings == old(net.pings)
      ensures net.closeCodes ==
              if message.userUid.Some? && check == NoAnswer then old(net.closeCodes)[client := 4001]
              else if message.userUid.Some? && check == NotFound then old(net.closeCodes)[client := 4004]
              else old(net.closeCodes)
    {
      hide A.SubscribeNow, A.UnsubscribeNow, Clients, Handled;
      HandleNowHas(World(), client, message, check);
      thrown := false;
      if message.userUid.None? {
        match message.connectType {
          case ConnectSubscribe => SubscribeMessage(client, None, true);
          case ConnectUnsubscribe => UnsubscribeMessage(client, None);
          case ConnectOther =>
        }
        return;
      }
      match check {
        case Throws => thrown := true;
        case NoAnswer => net.Close(client, INVALID_UID);
        case NotFound => net.Close(client, UID_NOT_FOUND);
        case Exists =>
          match message.connectType {
            case ConnectSubscribe => SubscribeMessage(client, Some(message.userUid.value), message.reset);
            case ConnectUnsubscribe => UnsubscribeMessage(client, Some(message.userUid.value));
            case ConnectOther =>
          }
      }
    }
  }

  /** The handler that one message reaches. */
  function HandleNow(st: P.State, client: P.Socket, message: WebsocketSubscribeMessage, check: UserCheck): P.State
    requires message.userUid.Some? && check == Exists ==> ':' !in message.userUid.value
  {
    match message.userUid
    case None =>
      (match message.connectType
       case ConnectSubscribe => A.SubscribeNow(st, client, None, true)
       case ConnectUnsubscribe => A.UnsubscribeNow(st, client, None)
       case ConnectOther => st)
    case Some(uid) =>
      match check
      case Throws => st
      case NoAnswer => st.(open := st.open - {client})
      case NotFound => st.(open := st.open - {client})
      case Exists =>
        match message.connectType
        case ConnectSubscribe => A.SubscribeNow(st, client, Some(uid), message.reset)
        case ConnectUnsubscribe => A.UnsubscribeNow(st, client, Some(uid))
        case ConnectOther => st
  }

  /**
  What a message does. Without a user it subscribes for the full list, or
  unsubscribes. With one that exists it subscribes or unsubscribes that user; one
  that does not, or whose id is malformed, has the socket closed. Nothing else has
  any effect.
  */
  ghost predicate Handled(
        was: P.State, g: P.State, client: P.Socket, message: WebsocketSubscribeMessage, check: UserCheck)
    requires message.userUid.Some? && check == Exists ==> ':' !in message.userUid.value
  {
    var known := message.userUid.Some? && check == Exists;
    var anonymous := message.userUid.None?;
    var sub, unsub := message.connectType == ConnectSubscribe, message.connectType == ConnectUnsubscribe;
    && (known && sub ==> E.Subscribed(was, g, client, Some(message.userUid.value), message.reset))
    && (known && unsub ==> E.Unsubscribed(was, g, client, Some(message.userUid.value)))
    && (anonymous && sub ==> E.Subscribed(was, g, client, None, true))
    && (anonymous && unsub ==> E.Unsubscribed(was, g, client, None))
    && (!anonymous && (check == NoAnswer || check == NotFound) ==> g == was.(open := was.open - {client}))
    && ((!anonymous && check == Throws) || ((known || anonymous) && !sub && !unsub) ==> g == was)
  }

  lemma HandleNowHas(st: P.State, client: P.Socket, message: WebsocketSubscribeMessage, check: UserCheck)
    requires message.userUid.Some? && check == Exists ==> ':' !in message.userUid.value
    ensures Handled(st, HandleNow(st, client, message, check), client, message, check)
  {
    hide A.SubscribeNow, A.UnsubscribeNow, E.Subscribed, E.Unsubscribed;
    var uid: Option<Uid> := if message.userUid.Some? && check == Exists then Some(message.userUid.value) else None;
    E.SubscribeHas(st, client, uid, message.userUid.None? || message.reset);
    E.UnsubscribeHas(st, client, uid);
  }

  /** The step of the machine that a message stands for; one without effect is the passing of no time. */
  function StepOf(client: P.Socket, message: WebsocketSubscribeMessage, check: UserCheck): P.Step
    requires message.userUid.Some? && check == Exists ==> ':' !in message.userUid.value
  {
    var known := message.userUid.Some? && check == Exists;
    if !known && message.userUid.Some? then if check == Throws then P.Advance(0) else P.Close(client)
    else
      var uid: Option<Uid> := if known then Some(message.userUid.value) else None;
      match message.connectType
      case ConnectSubscribe => P.Subscribe(client, uid, !known || message.reset)
      case ConnectUnsubscribe => P.Unsubscribe(client, uid)
      case ConnectOther => P.Advance(0)
  }

  /** Every message that reaches the handler is one step of the atomic machine, so its theorems speak about them all. */
  lemma MessageIsAStep(st: P.State, client: P.Socket, message: WebsocketSubscribeMessage, check: UserCheck)
    requires client.inst < st.n
    requires message.userUid.Some? && check == Exists ==> ':' !in message.userUid.value
    ensures var g := A.NextNow(st, StepOf(client, message, check));
            g == HandleNow(st, client, message, check) && Handled(st, g, client, message, check)
  {
    hide A.SubscribeNow, A.UnsubscribeNow, Handled;
    HandleNowHas(st, client, message, check);
  }
}
