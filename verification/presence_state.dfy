/**
The presence protocol as a machine over values, one Redis command per step.

`handleMessage` starts `subscribeMessage` and `unsubscribeMessage` without
awaiting them and `setStatus` is two commands, so handlers interleave at every
`await`. A suspended handler is a `Task`: the command it has in flight, or the
reply it is about to continue with. Any number of server instances share Redis;
each has its own sockets, and each receives its own copy of an expiry event.

What is assumed of the surroundings: Redis commands succeed, an expiry event
reaches every instance at some later time, a key never expires before its
deadline, and a server process does not die with handlers suspended.

A step that the current state does not allow changes nothing, so any sequence of
steps is a run.
*/
module PresenceState {
  import opened Prelude
  import opened TtlKeys

  const TTL_EXPIRATION_TIME: nat := 15000   // milliseconds
  const PING_INTERVAL: nat := 10000

  datatype Status = Online | Offline

  datatype Message = StatusInfo(info: map<Uid, Status>) | UnsubscribeAck

  /** A web socket, and the server instance that holds it. */
  datatype Socket = Socket(inst: nat, id: nat)

  /** A tracked client; one without a user only watches. */
  datatype Meta = Meta(userUid: Option<Uid>, isAlive: bool)

  datatype Task =
    | SubHSet(client: Socket, uid: Uid, reset: bool)    // subscribe: hSet in flight
    | SubSet(client: Socket, uid: Uid, reset: bool)     // subscribe: set in flight
    | SubTail(client: Socket, uid: Uid, reset: bool)    // subscribe: setStatus has resolved
    | SubGetAll(client: Socket)                         // subscribe: hGetAll in flight
    | SubReply(client: Socket, users: set<Uid>)         // subscribe: hGetAll has resolved
    | UnsubHDel(client: Socket, uid: Uid)               // unsubscribe: hDel in flight
    | UnsubTail(client: Socket, uid: Uid)               // unsubscribe: hDel has resolved
    | PongHSet(uid: Uid)                                // pong: hSet in flight
    | PongSet(uid: Uid)                                 // pong: set in flight
    | Notify(inst: nat, uid: Uid)                       // expiry event not yet delivered to `inst`
    | ExpHDel(inst: nat, uid: Uid)                      // expiry handler: hDel in flight
    | ExpTail(inst: nat, uid: Uid, removed: bool)       // expiry handler: hDel has resolved

  datatype Cause = BySubscribe | ByPong | ByUnsubscribe | ByExpiry

  /** What happened to a user's presence, in the order in which Redis and the broadcasts saw it. */
  datatype Event =
    | Inserted(uid: Uid, cause: Cause)     // an hSet that found no field
    | Removed(uid: Uid, cause: Cause)      // an hDel that returned 1
    // The subscribe of `client` told the other open clients of its instance, and `client` itself if `self`.
    | Announced(client: Socket, uid: Uid, self: bool)
    | OfflineSent(inst: nat, uid: Uid, cause: Cause)    // an OFFLINE broadcast to the clients of `inst`
    | Listed(client: Socket, users: set<Uid>)           // the list of all online users, sent to `client`

  datatype State = State(
    n: nat,                            // server instances
    clients: map<Socket, Meta>,        // the `clients` maps of all instances
    open: set<Socket>,                 // sockets that are, or will be, open; a closed one never reopens
    inbox: map<Socket, seq<Message>>,  // what each socket was sent while open
    hash: set<Uid>,                    // fields of the status hash
    ttl: map<Uid, nat>,                // deadlines of the live keys
    now: nat,                          // milliseconds
    tasks: seq<Task>,                  // suspended handlers and undelivered events, in no particular order
    // What happened so far; the code keeps none of it.
    trace: seq<Event>,
    since: map<Socket, nat>,           // length of the inbox when the socket was last newly tracked
    joinedAt: map<Socket, nat>)        // length of the trace then

  function Init(n: nat, sockets: set<Socket>): State
  {
    State(n, map[], sockets, map[], {}, map[], 0, [], [], map[], map[])
  }

  datatype Step =
    | Subscribe(client: Socket, userUid: Option<Uid>, reset: bool)
    | Unsubscribe(client: Socket, userUid: Option<Uid>)
    | Pong(client: Socket)
    | Ping(inst: nat)
    | Disconnect(client: Socket)
    | Close(client: Socket)
    | Expire(uid: Uid)
    | Run(i: nat)
    | Advance(ms: nat)

  // ---------------------------------------------------------------- sending

  function Inbox(inbox: map<Socket, seq<Message>>, s: Socket): seq<Message>
  {
    if s in inbox then inbox[s] else []
  }

  function SendTo(inbox: map<Socket, seq<Message>>, targets: set<Socket>, m: Message): map<Socket, seq<Message>>
  {
    map s | s in inbox.Keys + targets :: if s in targets then Inbox(inbox, s) + [m] else inbox[s]
  }

  /** Whom a broadcast of instance `inst` reaches. */
  function Audience(st: State, inst: nat, connected: Option<Socket>): set<Socket>
  {
    set s | s in st.clients && s.inst == inst && Some(s) != connected && s in st.open
  }

  function Broadcast(st: State, inst: nat, connected: Option<Socket>, m: Message): State
  {
    st.(inbox := SendTo(st.inbox, Audience(st, inst, connected), m))
  }

  /** What is sent to a socket that is not open is lost. */
  function Send(st: State, s: Socket, m: Message): State
  {
    if s in st.open then st.(inbox := SendTo(st.inbox, {s}, m)) else st
  }

  function AllOnline(users: set<Uid>): Message
  {
    StatusInfo(map u | u in users :: Online)
  }

  function OneUser(uid: Uid, status: Status): Message
  {
    StatusInfo(map[uid := status])
  }

  // ---------------------------------------------------------------- tracking

  function Track(st: State, s: Socket, meta: Meta): State
  {
    if s in st.clients then st.(clients := st.clients[s := meta])
    else st.(clients := st.clients[s := meta],
             since := st.since[s := |Inbox(st.inbox, s)|],
             joinedAt := st.joinedAt[s := |st.trace|])
  }

  function Untrack(st: State, s: Socket): State
  {
    st.(clients := st.clients - {s}, since := st.since - {s}, joinedAt := st.joinedAt - {s})
  }

  /** A ping round of instance `inst` drops its silent clients and asks the others. */
  function Pinged(clients: map<Socket, Meta>, inst: nat): map<Socket, Meta>
  {
    map s | s in clients && (s.inst == inst ==> clients[s].isAlive) ::
      if s.inst == inst then clients[s].(isAlive := false) else clients[s]
  }

  function PingRound(st: State, inst: nat): State
  {
    var clients := Pinged(st.clients, inst);
    st.(clients := clients,
        since := map s | s in st.since && s in clients :: st.since[s],
        joinedAt := map s | s in st.joinedAt && s in clients :: st.joinedAt[s])
  }

  // ---------------------------------------------------------------- Redis commands

  function HSet(st: State, uid: Uid, cause: Cause): State
  {
    st.(hash := st.hash + {uid},
        trace := if uid in st.hash then st.trace else st.trace + [Inserted(uid, cause)])
  }

  function SetEx(st: State, uid: Uid): State
  {
    st.(ttl := st.ttl[uid := st.now + TTL_EXPIRATION_TIME])
  }

  function HDel(st: State, uid: Uid, cause: Cause): State
  {
    st.(hash := st.hash - {uid},
        trace := if uid in st.hash then st.trace + [Removed(uid, cause)] else st.trace)
  }

  // ---------------------------------------------------------------- the stretches of code between awaits

  function Note(st: State, e: Event): State
  {
    st.(trace := st.trace + [e])
  }

  /** The answer to a subscriber that did not ask for the full list. */
  function Own(userUid: Option<Uid>): Message
  {
    match userUid
    case None => StatusInfo(map[])
    case Some(uid) => OneUser(uid, Online)
  }

  /** subscribeMessage from the ONLINE broadcast to the answer; one that asked for the full list gets it later. */
  function Greet(st: State, client: Socket, userUid: Option<Uid>, reset: bool): State
  {
    var told := if userUid.Some? then Broadcast(st, client.inst, Some(client), OneUser(userUid.value, Online)) else st;
    var joined := Track(told, client, Meta(userUid, true));
    var answered := if reset then joined else Send(joined, client, Own(userUid));
    if userUid.Some? then Note(answered, Announced(client, userUid.value, !reset)) else answered
  }

  /** The answer to a subscriber that did. */
  function Snapshot(st: State, client: Socket, users: set<Uid>): State
  {
    Note(Send(st, client, AllOnline(users)), Listed(client, users))
  }

  /** The end of unsubscribeMessage. */
  function Leave(st: State, client: Socket): State
  {
    Send(Untrack(st, client), client, UnsubscribeAck)
  }

  function TellOffline(st: State, client: Socket, uid: Uid): State
  {
    var told := Broadcast(st, client.inst, Some(client), OneUser(uid, Offline));
    Note(Leave(told, client), OfflineSent(client.inst, uid, ByUnsubscribe))
  }

  /** The end of handleRedisExpiration. */
  function ExpiryTail(st: State, inst: nat, uid: Uid, removed: bool): State
  {
    if removed then Note(Broadcast(st, inst, None, OneUser(uid, Offline)), OfflineSent(inst, uid, ByExpiry)) else st
  }

  // ---------------------------------------------------------------- steps

  function Add(st: State, t: Task): State
  {
    st.(tasks := st.tasks + [t])
  }

  function StartSubscribe(st: State, client: Socket, userUid: Option<Uid>, reset: bool): State
  {
    match userUid
    case Some(uid) => Add(st, SubHSet(client, uid, reset))
    case None =>
      var g := Greet(st, client, None, reset);
      if reset then Add(g, SubGetAll(client)) else g
  }

  function StartUnsubscribe(st: State, client: Socket, userUid: Option<Uid>): State
  {
    if client !in st.clients then Send(st, client, UnsubscribeAck)
    else match userUid
      case Some(uid) => Add(st, UnsubHDel(client, uid))
      case None => Leave(st, client)
  }

  function StartPong(st: State, client: Socket): State
  {
    if client !in st.clients then st
    else
      var alive := st.(clients := st.clients[client := st.clients[client].(isAlive := true)]);
      match st.clients[client].userUid
      case None => alive
      case Some(uid) => Add(alive, PongHSet(uid))
  }

  /** The expiry event of `uid`, once for each of `n` instances. */
  function Notices(n: nat, uid: Uid): seq<Task>
  {
    if n == 0 then [] else Notices(n - 1, uid) + [Notify(n - 1, uid)]
  }

  lemma {:induction false} NoticesName(n: nat, uid: Uid, t: Task)
    requires t in Notices(n, uid)
    ensures t.Notify? && t.uid == uid && t.inst < n
  {
    if t in Notices(n - 1, uid) {
      NoticesName(n - 1, uid, t);
    }
  }

  function ExpireKey(st: State, uid: Uid): State
  {
    if uid in st.ttl && st.ttl[uid] <= st.now
    then st.(ttl := st.ttl - {uid}, tasks := st.tasks + Notices(st.n, uid))
    else st
  }

  /** What a task becomes once its command is executed or its reply has been handled. */
  function Successor(st: State, t: Task): Option<Task>
  {
    match t
    case SubHSet(client, uid, reset) => Some(SubSet(client, uid, reset))
    case SubSet(client, uid, reset) => Some(SubTail(client, uid, reset))
    case SubTail(client, uid, reset) => if reset then Some(SubGetAll(client)) else None
    case SubGetAll(client) => Some(SubReply(client, st.hash))
    case SubReply(client, users) => None
    case UnsubHDel(client, uid) => Some(UnsubTail(client, uid))
    case UnsubTail(client, uid) => None
    case PongHSet(uid) => Some(PongSet(uid))
    case PongSet(uid) => None
    case Notify(inst, uid) => Some(ExpHDel(inst, uid))
    case ExpHDel(inst, uid) => Some(ExpTail(inst, uid, uid in st.hash))
    case ExpTail(inst, uid, removed) => None
  }

  /** The command, or the stretch of code, that the task stands for. */
  function Work(st: State, t: Task): State
  {
    match t
    case SubHSet(client, uid, reset) => HSet(st, uid, BySubscribe)
    case SubSet(client, uid, reset) => SetEx(st, uid)
    case SubTail(client, uid, reset) => Greet(st, client, Some(uid), reset)
    case SubGetAll(client) => st
    case SubReply(client, users) => Snapshot(st, client, users)
    case UnsubHDel(client, uid) => HDel(st, uid, ByUnsubscribe)
    case UnsubTail(client, uid) => TellOffline(st, client, uid)
    case PongHSet(uid) => HSet(st, uid, ByPong)
    case PongSet(uid) => SetEx(st, uid)
    case Notify(inst, uid) => st
    case ExpHDel(inst, uid) => HDel(st, uid, ByExpiry)
    case ExpTail(inst, uid, removed) => ExpiryTail(st, inst, uid, removed)
  }

  /** The bag after task `i` has moved on. */
  function Moved(st: State, i: nat): seq<Task>
    requires i < |st.tasks|
  {
    match Successor(st, st.tasks[i])
    case Some(t) => st.tasks[i := t]
    case None => Drop(st.tasks, i)
  }

  function RunTask(st: State, i: nat): State
    requires i < |st.tasks|
  {
    Work(st, st.tasks[i]).(tasks := Moved(st, i))
  }

  function Next(st: State, step: Step): State
  {
    match step
    case Subscribe(client, userUid, reset) =>
      if client.inst < st.n then StartSubscribe(st, client, userUid, reset) else st
    case Unsubscribe(client, userUid) => StartUnsubscribe(st, client, userUid)
    case Pong(client) => StartPong(st, client)
    case Ping(inst) => PingRound(st, inst)
    case Disconnect(client) => Untrack(st.(open := st.open - {client}), client)
    case Close(client) => st.(open := st.open - {client})
    case Expire(uid) => ExpireKey(st, uid)
    case Run(i) => if i < |st.tasks| then RunTask(st, i) else st
    case Advance(ms) => st.(now := st.now + ms)
  }

  /** The state after the first `k` steps of a run from `st`. */
  function At(st: State, steps: seq<Step>, k: nat): State
    requires k <= |steps|
  {
    if k == 0 then st else Next(At(st, steps, k - 1), steps[k - 1])
  }

  // ---------------------------------------------------------------- what the steps do to Redis, the bag and the trace

  function Emitted(hash: set<Uid>, t: Task): seq<Event>
  {
    match t
    case SubHSet(_, uid, _) => if uid in hash then [] else [Inserted(uid, BySubscribe)]
    case PongHSet(uid) => if uid in hash then [] else [Inserted(uid, ByPong)]
    case UnsubHDel(_, uid) => if uid in hash then [Removed(uid, ByUnsubscribe)] else []
    case ExpHDel(_, uid) => if uid in hash then [Removed(uid, ByExpiry)] else []
    case SubTail(client, uid, reset) => [Announced(client, uid, !reset)]
    case SubReply(client, users) => [Listed(client, users)]
    case UnsubTail(client, uid) => [OfflineSent(client.inst, uid, ByUnsubscribe)]
    case ExpTail(inst, uid, removed) => if removed then [OfflineSent(inst, uid, ByExpiry)] else []
    case _ => []
  }

  function HashAfter(hash: set<Uid>, t: Task): set<Uid>
  {
    match t
    case SubHSet(_, uid, _) => hash + {uid}
    case PongHSet(uid) => hash + {uid}
    case UnsubHDel(_, uid) => hash - {uid}
    case ExpHDel(_, uid) => hash - {uid}
    case _ => hash
  }

  function TtlAfter(ttl: map<Uid, nat>, now: nat, t: Task): map<Uid, nat>
  {
    match t
    case SubSet(_, uid, _) => ttl[uid := now + TTL_EXPIRATION_TIME]
    case PongSet(uid) => ttl[uid := now + TTL_EXPIRATION_TIME]
    case _ => ttl
  }

  function ClientsAfter(clients: map<Socket, Meta>, t: Task): map<Socket, Meta>
  {
    match t
    case SubTail(client, uid, _) => clients[client := Meta(Some(uid), true)]
    case UnsubTail(client, _) => clients - {client}
    case _ => clients
  }

  lemma BroadcastFrame(st: State, inst: nat, connected: Option<Socket>, m: Message)
    ensures var g := Broadcast(st, inst, connected, m); g == st.(inbox := g.inbox)
  {
  }

  lemma SendFrame(st: State, client: Socket, m: Message)
    ensures var g := Send(st, client, m); g == st.(inbox := g.inbox)
  {
  }

  lemma TrackFrame(st: State, client: Socket, meta: Meta)
    ensures var g := Track(st, client, meta);
            g == st.(clients := st.clients[client := meta], since := g.since, joinedAt := g.joinedAt)
  {
  }

  lemma GreetFrame(st: State, client: Socket, userUid: Option<Uid>, reset: bool)
    ensures var g := Greet(st, client, userUid, reset);
            && g == st.(clients := st.clients[client := Meta(userUid, true)],
                        inbox := g.inbox, since := g.since, joinedAt := g.joinedAt, trace := g.trace)
            && g.trace == st.trace + if userUid.Some? then [Announced(client, userUid.value, !reset)] else []
  {
    hide Broadcast, Track, Send;
    var told := st;
    if userUid.Some? {
      BroadcastFrame(st, client.inst, Some(client), OneUser(userUid.value, Online));
      told := Broadcast(st, client.inst, Some(client), OneUser(userUid.value, Online));
    }
    TrackFrame(told, client, Meta(userUid, true));
    SendFrame(Track(told, client, Meta(userUid, true)), client, Own(userUid));
  }

  lemma SnapshotFrame(st: State, client: Socket, users: set<Uid>)
    ensures var g := Snapshot(st, client, users);
            g == st.(inbox := g.inbox, trace := st.trace + [Listed(client, users)])
  {
    hide Send;
    SendFrame(st, client, AllOnline(users));
  }

  lemma LeaveFrame(st: State, client: Socket)
    ensures var g := Leave(st, client);
            && g == st.(clients := g.clients, inbox := g.inbox, since := g.since, joinedAt := g.joinedAt)
            && g.clients == st.clients - {client}
  {
  }

  lemma TellOfflineFrame(st: State, client: Socket, uid: Uid)
    ensures var g := TellOffline(st, client, uid);
            && g == st.(clients := g.clients, inbox := g.inbox, since := g.since, joinedAt := g.joinedAt,
                        trace := g.trace)
            && g.clients == st.clients - {client}
            && g.trace == st.trace + [OfflineSent(client.inst, uid, ByUnsubscribe)]
  {
    hide Leave, Broadcast;
    BroadcastFrame(st, client.inst, Some(client), OneUser(uid, Offline));
    LeaveFrame(Broadcast(st, client.inst, Some(client), OneUser(uid, Offline)), client);
  }

  lemma WorkFrame(st: State, t: Task)
    ensures var g := Work(st, t);
            && g.tasks == st.tasks && g.n == st.n && g.open == st.open && g.now == st.now
            && g.clients == ClientsAfter(st.clients, t)
            && g.hash == HashAfter(st.hash, t) && g.ttl == TtlAfter(st.ttl, st.now, t)
            && g.trace == st.trace + Emitted(st.hash, t)
  {
    hide Greet, Snapshot, TellOffline, Broadcast;
    match t
    case SubTail(client, uid, reset) => GreetFrame(st, client, Some(uid), reset);
    case SubReply(client, users) => SnapshotFrame(st, client, users);
    case UnsubTail(client, uid) => TellOfflineFrame(st, client, uid);
    case ExpTail(inst, uid, removed) => BroadcastFrame(st, inst, None, OneUser(uid, Offline));
    case _ =>
  }

  /** The tasks that a step other than `Run` adds to the bag. */
  function Spawned(st: State, step: Step): seq<Task>
  {
    match step
    case Subscribe(client, userUid, reset) =>
      if client.inst >= st.n then []
      else (match userUid
            case Some(uid) => [SubHSet(client, uid, reset)]
            case None => if reset then [SubGetAll(client)] else [])
    case Unsubscribe(client, userUid) =>
      if client in st.clients && userUid.Some? then [UnsubHDel(client, userUid.value)] else []
    case Pong(client) =>
      if client in st.clients && st.clients[client].userUid.Some?
      then [PongHSet(st.clients[client].userUid.value)] else []
    case Expire(uid) => if uid in st.ttl && st.ttl[uid] <= st.now then Notices(st.n, uid) else []
    case _ => []
  }

  /** The step executes no task. */
  predicate NoTask(st: State, step: Step)
  {
    step.Run? ==> step.i >= |st.tasks|
  }

  /** What such a step makes of the clients. */
  function ClientsThen(st: State, step: Step): map<Socket, Meta>
  {
    match step
    case Subscribe(client, userUid, _) =>
      if client.inst < st.n && userUid.None? then st.clients[client := Meta(None, true)] else st.clients
    case Unsubscribe(client, userUid) =>
      if client in st.clients && userUid.None? then st.clients - {client} else st.clients
    case Pong(client) =>
      if client in st.clients then st.clients[client := st.clients[client].(isAlive := true)] else st.clients
    case Ping(inst) => Pinged(st.clients, inst)
    case Disconnect(client) => st.clients - {client}
    case _ => st.clients
  }

  /** What a step that executes no task leaves of Redis and the trace, and what it adds to the bag. */
  ghost predicate Framed(st: State, step: Step, g: State)
  {
    && g.n == st.n && g.hash == st.hash && g.trace == st.trace
    && g.tasks == st.tasks + Spawned(st, step) && g.clients == ClientsThen(st, step)
    && g.now == (if step.Advance? then st.now + step.ms else st.now)
    && g.open == (if step.Disconnect? || step.Close? then st.open - {step.client} else st.open)
    && g.ttl == (if step.Expire? && step.uid in st.ttl && st.ttl[step.uid] <= st.now
                 then st.ttl - {step.uid} else st.ttl)
  }

  lemma SubscribeStepFrame(st: State, client: Socket, userUid: Option<Uid>, reset: bool)
    ensures Framed(st, Subscribe(client, userUid, reset), Next(st, Subscribe(client, userUid, reset)))
  {
    hide Greet;
    if userUid.None? {
      GreetFrame(st, client, None, reset);
    }
  }

  lemma UnsubscribeStepFrame(st: State, client: Socket, userUid: Option<Uid>)
    ensures Framed(st, Unsubscribe(client, userUid), Next(st, Unsubscribe(client, userUid)))
  {
    hide Leave, Send;
    LeaveFrame(st, client);
    SendFrame(st, client, UnsubscribeAck);
  }

  lemma PongStepFrame(st: State, client: Socket)
    ensures Framed(st, Pong(client), Next(st, Pong(client)))
  {
  }

  lemma OtherStepFrame(st: State, step: Step)
    requires step.Ping? || step.Disconnect? || step.Close? || step.Expire? || step.Advance?
    ensures Framed(st, step, Next(st, step))
  {
    hide Pinged;
  }

  lemma StepFrame(st: State, step: Step)
    requires NoTask(st, step)
    ensures Framed(st, step, Next(st, step))
  {
    match step
    case Subscribe(client, userUid, reset) =>
      hide Next, Framed;
      SubscribeStepFrame(st, client, userUid, reset);
    case Unsubscribe(client, userUid) =>
      hide Next, Framed;
      UnsubscribeStepFrame(st, client, userUid);
    case Pong(client) =>
      hide Next, Framed;
      PongStepFrame(st, client);
    case Run(_) =>
    case _ =>
      hide Next, Framed;
      OtherStepFrame(st, step);
  }

  lemma RunFrame(st: State, i: nat)
    requires i < |st.tasks|
    ensures var g, t := Next(st, Run(i)), st.tasks[i];
            && g.n == st.n && g.open == st.open && g.now == st.now
            && g.tasks == Moved(st, i) && g.clients == ClientsAfter(st.clients, t)
            && g.hash == HashAfter(st.hash, t) && g.ttl == TtlAfter(st.ttl, st.now, t)
            && g.trace == st.trace + Emitted(st.hash, t)
  {
    hide Work;
    WorkFrame(st, st.tasks[i]);
  }
}
