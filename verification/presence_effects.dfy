/**
What each handler does, run from its first line to its last: every field it
changes and every message it sends, spelled out.
*/
module PresenceEffects {
  import opened Prelude
  import opened TtlKeys
  import opened PresenceState
  import opened PresenceAtomic
  import opened PresenceViews

  /** What no handler changes. */
  ghost predicate SameSurroundings(was: State, g: State)
  {
    g.n == was.n && g.open == was.open && g.now == was.now && g.tasks == was.tasks
  }

  /** `s` is another open tracked socket of the instance of `client`. */
  ghost predicate Bystander(was: State, client: Socket, s: Socket)
  {
    s != client && s in was.clients && s in was.open && s.inst == client.inst
  }

  /**
  A subscribe leaves the client tracked and alive; with a user it puts the user
  into the hash, sets its key for 15 s and tells the bystanders. An open client is
  answered: with everyone online if it asked for that, else with its own status.
  */
  ghost predicate Subscribed(was: State, g: State, client: Socket, userUid: Option<Uid>, reset: bool)
  {
    && SameSurroundings(was, g)
    && g.clients == was.clients[client := Meta(userUid, true)]
    && g.hash == (if userUid.Some? then was.hash + {userUid.value} else was.hash)
    && g.ttl == (if userUid.Some? then was.ttl[userUid.value := was.now + 15000] else was.ttl)
    && forall s :: Inbox(g.inbox, s) == Inbox(was.inbox, s) +
         if s == client && s in was.open then
           if reset then [StatusInfo(map u | u in g.hash :: Online)]
           else [StatusInfo(if userUid.Some? then map[userUid.value := Online] else map[])]
         else if userUid.Some? && Bystander(was, client, s) then [StatusInfo(map[userUid.value := Online])]
         else []
  }

  /**
  An unsubscribe leaves the client untracked and acknowledges that, whether it was
  tracked or not. If it was, and names a user, that user leaves the hash and the
  bystanders are told; the key stays.
  */
  ghost predicate Unsubscribed(was: State, g: State, client: Socket, userUid: Option<Uid>)
  {
    var tells := client in was.clients && userUid.Some?;
    && SameSurroundings(was, g)
    && g.clients == was.clients - {client}
    && g.hash == (if tells then was.hash - {userUid.value} else was.hash)
    && g.ttl == was.ttl
    && forall s :: Inbox(g.inbox, s) == Inbox(was.inbox, s) +
         if s == client && s in was.open then [UnsubscribeAck]
         else if tells && Bystander(was, client, s) then [StatusInfo(map[userUid.value := Offline])]
         else []
  }

  /** A pong of a tracked socket marks it alive and renews its user's status and key; of another, it does nothing. */
  ghost predicate Ponged(was: State, g: State, client: Socket)
  {
    if client !in was.clients then g == was
    else
      var userUid := was.clients[client].userUid;
      && SameSurroundings(was, g) && g.inbox == was.inbox
      && g.clients == was.clients[client := Meta(userUid, true)]
      && g.hash == (if userUid.Some? then was.hash + {userUid.value} else was.hash)
      && g.ttl == if userUid.Some? then was.ttl[userUid.value := was.now + 15000] else was.ttl
  }

  /** An expiry takes the user out of the hash, and tells the open clients of the instance if the user was in it. */
  ghost predicate Expired(was: State, g: State, inst: nat, uid: Uid)
  {
    && SameSurroundings(was, g) && g.clients == was.clients && g.ttl == was.ttl
    && g.hash == was.hash - {uid}
    && forall s :: Inbox(g.inbox, s) == Inbox(was.inbox, s) +
         if uid in was.hash && s in was.clients && s in was.open && s.inst == inst
         then [StatusInfo(map[uid := Offline])] else []
  }

  /** A ping round drops the silent clients of the instance and marks the others non-alive. */
  ghost predicate Pruned(was: State, g: State, inst: nat)
  {
    && SameSurroundings(was, g) && g.inbox == was.inbox && g.hash == was.hash && g.ttl == was.ttl
    && forall s :: if s in was.clients && (s.inst != inst || was.clients[s].isAlive)
                   then s in g.clients && g.clients[s] == Meta(was.clients[s].userUid,
                                                               s.inst != inst && was.clients[s].isAlive)
                   else s !in g.clients
  }

  // ---------------------------------------------------------------- the handlers do that

  lemma SlotInbox(st: State, s: Socket)
    ensures SlotOf(st, s).inbox == Inbox(st.inbox, s)
    ensures SlotOf(st, s).tracked <==> s in st.clients
    ensures SlotOf(st, s).open <==> s in st.open
  {
  }

  lemma CommandSlot(st: State, uid: Uid, cause: Cause, s: Socket)
    ensures SlotOf(SetStatus(st, uid, cause), s) == SlotOf(st, s)
    ensures SlotOf(HDel(st, uid, cause), s) == SlotOf(st, s)
  {
  }

  /**
  A subscribe sends each socket at most one message: the subscriber its own
  status or the full list, the other open clients of the instance the news.
  */
  lemma {:induction false} SubscribeHeard(st: State, client: Socket, userUid: Option<Uid>, reset: bool, s: Socket)
    ensures var slot, g := SlotOf(st, s), SubscribeNow(st, client, userUid, reset);
            Inbox(g.inbox, s) == slot.inbox +
            if s == client then
              (if !slot.open then [] else if reset then [AllOnline(g.hash)] else [Own(userUid)])
            else if userUid.Some? && slot.tracked && slot.open && s.inst == client.inst
            then [OneUser(userUid.value, Online)] else []
  {
    hide Greet, Snapshot, SetStatus, SlotOf;
    var base := if userUid.Some? then SetStatus(st, userUid.value, BySubscribe) else st;
    if userUid.Some? {
      CommandSlot(st, userUid.value, BySubscribe, s);
    }
    var g := Greet(base, client, userUid, reset);
    GreetSlot(base, client, userUid, reset, s);
    SnapshotSlot(g, client, g.hash, s);
    SnapshotFrame(g, client, g.hash);
    SlotInbox(st, s);
    SlotInbox(SubscribeNow(st, client, userUid, reset), s);
  }

  lemma {:induction false} SubscribeHas(st: State, client: Socket, userUid: Option<Uid>, reset: bool)
    ensures Subscribed(st, SubscribeNow(st, client, userUid, reset), client, userUid, reset)
  {
    hide SubscribeNow, SlotOf, Inbox;
    var g := SubscribeNow(st, client, userUid, reset);
    SubscribeFrame(st, client, userUid, reset);
    assert SameSurroundings(st, g);
    forall s
      ensures SlotOf(st, s).inbox == Inbox(st.inbox, s)
      ensures Inbox(g.inbox, s) == Inbox(st.inbox, s) +
                if s == client && s in st.open then
                  if reset then [StatusInfo(map u | u in g.hash :: Online)]
                  else [StatusInfo(if userUid.Some? then map[userUid.value := Online] else map[])]
                else if userUid.Some? && Bystander(st, client, s) then [StatusInfo(map[userUid.value := Online])]
                else []
    {
      SubscribeHeard(st, client, userUid, reset, s);
      SlotInbox(st, s);
    }
  }

  /** An unsubscribe acknowledges to the client, tracked or not; the others learn of it only if it was. */
  lemma {:induction false} UnsubscribeHeard(st: State, client: Socket, userUid: Option<Uid>, s: Socket)
    ensures Inbox(UnsubscribeNow(st, client, userUid).inbox, s) == Inbox(st.inbox, s) +
            if s == client && s in st.open then [UnsubscribeAck]
            else if client in st.clients && userUid.Some? && Bystander(st, client, s)
            then [StatusInfo(map[userUid.value := Offline])] else []
  {
    hide Send, Broadcast, HDel;
    var told := st;
    if client in st.clients && userUid.Some? {
      var removed := HDel(st, userUid.value, ByUnsubscribe);
      told := Broadcast(removed, client.inst, Some(client), OneUser(userUid.value, Offline));
      CommandSlot(st, userUid.value, ByUnsubscribe, s);
      BroadcastSlot(removed, client.inst, Some(client), OneUser(userUid.value, Offline), s);
    }
    SendSlot(st, client, UnsubscribeAck, s);
    SendSlot(Untrack(told, client), client, UnsubscribeAck, s);
  }

  lemma {:induction false} UnsubscribeHas(st: State, client: Socket, userUid: Option<Uid>)
    ensures Unsubscribed(st, UnsubscribeNow(st, client, userUid), client, userUid)
  {
    hide UnsubscribeNow, Inbox, Bystander;
    UnsubscribeFrame(st, client, userUid);
    forall s
      ensures Inbox(UnsubscribeNow(st, client, userUid).inbox, s) == Inbox(st.inbox, s) +
                if s == client && s in st.open then [UnsubscribeAck]
                else if client in st.clients && userUid.Some? && Bystander(st, client, s)
                then [StatusInfo(map[userUid.value := Offline])] else []
    {
      UnsubscribeHeard(st, client, userUid, s);
    }
  }

  lemma PongHas(st: State, client: Socket)
    ensures Ponged(st, PongNow(st, client), client)
  {
  }

  lemma ExpirySlot(st: State, inst: nat, uid: Uid, s: Socket)
    ensures var slot := SlotOf(st, s);
            SlotOf(ExpiryNow(st, inst, uid), s) ==
            if uid in st.hash && slot.tracked && slot.open && s.inst == inst
            then Receive(slot, OneUser(uid, Offline)) else slot
  {
    hide Broadcast;
    var removed := HDel(st, uid, ByExpiry);
    BroadcastSlot(removed, inst, None, OneUser(uid, Offline), s);
    CommandSlot(st, uid, ByExpiry, s);
  }

  lemma {:induction false} ExpiryHas(st: State, inst: nat, uid: Uid)
    ensures Expired(st, ExpiryNow(st, inst, uid), inst, uid)
  {
    hide ExpiryNow, SlotOf, Inbox;
    var g := ExpiryNow(st, inst, uid);
    ExpiryFrame(st, inst, uid);
    forall s
      ensures Inbox(g.inbox, s) == Inbox(st.inbox, s) +
                if uid in st.hash && s in st.clients && s in st.open && s.inst == inst
                then [StatusInfo(map[uid := Offline])] else []
    {
      ExpirySlot(st, inst, uid, s);
      SlotInbox(st, s);
      SlotInbox(g, s);
    }
  }

  lemma PingHas(st: State, inst: nat)
    ensures Pruned(st, PingRound(st, inst), inst)
  {
  }

  // ---------------------------------------------------------------- what happens around the handlers

  /** How many copies of the expiry event of `uid` to `n` instances equal `t`. */
  function Copies(n: nat, uid: Uid, t: Task): nat
  {
    if t.Notify? && t.uid == uid && t.inst < n then 1 else 0
  }

  lemma {:induction false} NoticesCount(n: nat, uid: Uid, t: Task)
    ensures multiset(Notices(n, uid))[t] == Copies(n, uid, t)
  {
    if n > 0 {
      NoticesCount(n - 1, uid, t);
    }
  }

  /** A key that has reached its deadline goes, and each instance is sent the event once; no other key expires. */
  lemma {:induction false} ExpireHas(st: State, uid: Uid, t: Task)
    ensures var due, g := uid in st.ttl && st.ttl[uid] <= st.now, Next(st, Expire(uid));
            && g == st.(ttl := if due then st.ttl - {uid} else st.ttl, tasks := g.tasks)
            && multiset(g.tasks)[t] == multiset(st.tasks)[t] + if due then Copies(st.n, uid, t) else 0
  {
    hide Notices;
    NoticesCount(st.n, uid, t);
  }

  /** A socket that disconnects is closed and no longer tracked; one that only closes stays tracked until a round. */
  lemma CloseHas(st: State, s: Socket)
    ensures var g := Next(st, Disconnect(s));
            && g == st.(open := st.open - {s}, clients := st.clients - {s}, since := g.since, joinedAt := g.joinedAt)
    ensures Next(st, Close(s)) == st.(open := st.open - {s})
  {
  }

  // ---------------------------------------------------------------- one command at a time

  /** A handler starts with its first command under way; a pong has by then marked its client alive. */
  lemma StartHas(st: State, client: Socket, uid: Uid, reset: bool)
    ensures client.inst < st.n ==>
              Next(st, Subscribe(client, Some(uid), reset)) == st.(tasks := st.tasks + [SubHSet(client, uid, reset)])
    ensures client in st.clients ==>
              Next(st, Unsubscribe(client, Some(uid))) == st.(tasks := st.tasks + [UnsubHDel(client, uid)])
    ensures client in st.clients && st.clients[client].userUid == Some(uid) ==>
              Next(st, Pong(client)) == st.(clients := st.clients[client := Meta(Some(uid), true)],
                                            tasks := st.tasks + [PongHSet(uid)])
  {
  }

  /** `next` is what follows `t`, a command that changes the hash, the keys and nothing else. */
  ghost predicate Commanded(
        was: State, g: State, hash: set<Uid>, ttl: map<Uid, nat>, next: Option<Task>, follows: Option<Task>)
  {
    g.hash == hash && g.ttl == ttl && g.clients == was.clients && g.inbox == was.inbox && next == follows
  }

  /** A stretch of code that leaves Redis alone, and sends `s` the given messages. */
  ghost predicate Ran(
        was: State, g: State, clients: map<Socket, Meta>, s: Socket, sent: seq<Message>,
        next: Option<Task>, follows: Option<Task>)
  {
    && g.hash == was.hash && g.ttl == was.ttl && g.clients == clients
    && Inbox(g.inbox, s) == Inbox(was.inbox, s) + sent && next == follows
  }

  /** What executing `t` does to Redis, to the clients and to the inbox of `s`, and what the handler does next. */
  ghost predicate Executed(was: State, g: State, t: Task, next: Option<Task>, s: Socket)
  {
    g.n == was.n && g.open == was.open && g.now == was.now &&
    match t
    case SubHSet(client, uid, reset) =>
      Commanded(was, g, was.hash + {uid}, was.ttl, next, Some(SubSet(client, uid, reset)))
    case SubSet(client, uid, reset) =>
      Commanded(was, g, was.hash, was.ttl[uid := was.now + 15000], next, Some(SubTail(client, uid, reset)))
    case SubTail(client, uid, reset) =>
      Ran(was, g, was.clients[client := Meta(Some(uid), true)], s,
          if (s == client && s in was.open && !reset) || Bystander(was, client, s)
          then [StatusInfo(map[uid := Online])] else [],
          next, if reset then Some(SubGetAll(client)) else None)
    case SubGetAll(client) => Commanded(was, g, was.hash, was.ttl, next, Some(SubReply(client, was.hash)))
    case SubReply(client, users) =>
      Ran(was, g, was.clients, s,
          if s == client && s in was.open then [StatusInfo(map u | u in users :: Online)] else [], next, None)
    case UnsubHDel(client, uid) =>
      Commanded(was, g, was.hash - {uid}, was.ttl, next, Some(UnsubTail(client, uid)))
    case UnsubTail(client, uid) =>
      Ran(was, g, was.clients - {client}, s,
          if s == client && s in was.open then [UnsubscribeAck]
          else if Bystander(was, client, s) then [StatusInfo(map[uid := Offline])] else [],
          next, None)
    case PongHSet(uid) => Commanded(was, g, was.hash + {uid}, was.ttl, next, Some(PongSet(uid)))
    case PongSet(uid) => Commanded(was, g, was.hash, was.ttl[uid := was.now + 15000], next, None)
    case Notify(inst, uid) => Commanded(was, g, was.hash, was.ttl, next, Some(ExpHDel(inst, uid)))
    case ExpHDel(inst, uid) =>
      Commanded(was, g, was.hash - {uid}, was.ttl, next, Some(ExpTail(inst, uid, uid in was.hash)))
    case ExpTail(inst, uid, removed) =>
      Ran(was, g, was.clients, s,
          if removed && s in was.clients && s in was.open && s.inst == inst
          then [StatusInfo(map[uid := Offline])] else [],
          next, None)
  }

  lemma CommandHas(st: State, t: Task, s: Socket)
    requires !t.SubTail? && !t.SubReply? && !t.UnsubTail? && !t.ExpTail?
    ensures Executed(st, Work(st, t), t, Successor(st, t), s)
  {
  }

  lemma TailHas(st: State, t: Task, s: Socket)
    requires t.SubTail? || t.SubReply? || t.UnsubTail? || t.ExpTail?
    ensures Executed(st, Work(st, t), t, Successor(st, t), s)
  {
    hide Greet, Snapshot, Broadcast, Leave, Send, SlotOf, Inbox;
    WorkFrame(st, t);
    SlotInbox(st, s);
    SlotInbox(Work(st, t), s);
    match t
    case SubTail(client, uid, reset) => GreetSlot(st, client, Some(uid), reset, s);
    case SubReply(client, users) => SnapshotSlot(st, client, users, s);
    case UnsubTail(client, uid) => TailAcknowledges(st, client, uid, s);
    case ExpTail(inst, uid, _) =>
      BroadcastSlot(st, inst, None, OneUser(uid, Offline), s);
      NoteSlot(Broadcast(st, inst, None, OneUser(uid, Offline)), OfflineSent(inst, uid, ByExpiry), s);
    case _ =>
  }

  lemma TailAcknowledges(st: State, client: Socket, uid: Uid, s: Socket)
    ensures Inbox(TellOffline(st, client, uid).inbox, s) == Inbox(st.inbox, s) +
            if s == client && s in st.open then [UnsubscribeAck]
            else if Bystander(st, client, s) then [StatusInfo(map[uid := Offline])] else []
  {
    hide Send, Broadcast;
    var told := Broadcast(st, client.inst, Some(client), OneUser(uid, Offline));
    BroadcastSlot(st, client.inst, Some(client), OneUser(uid, Offline), s);
    SendSlot(Untrack(told, client), client, UnsubscribeAck, s);
  }

  /** Executing any task does what its command or stretch of code says, and moves that one handler on. */
  lemma RunHas(st: State, i: nat, s: Socket)
    requires i < |st.tasks|
    ensures var t, g, next := st.tasks[i], Next(st, Run(i)), Successor(st, st.tasks[i]);
            && Executed(st, g, t, next, s)
            && g.tasks == if next.Some? then st.tasks[i := next.value] else st.tasks[..i] + st.tasks[i + 1..]
  {
    hide Work, Inbox;
    var t := st.tasks[i];
    if t.SubTail? || t.SubReply? || t.UnsubTail? || t.ExpTail? {
      TailHas(st, t, s);
    } else {
      CommandHas(st, t, s);
    }
    hide Successor;
    assert Next(st, Run(i)) == Work(st, t).(tasks := Moved(st, i));
  }
}
