/**
The presence handlers run one at a time: each from its first line to its last
with nothing in between. This is the coarser machine of the two, and every run
of it is a run of the fine one, in which a handler's tasks happen to be executed
at once.
*/
module PresenceAtomic {
  import opened Prelude
  import opened TtlKeys
  import opened PresenceSafety
  import opened PresenceState

  function SetStatus(st: State, uid: Uid, cause: Cause): State
  {
    SetEx(HSet(st, uid, cause), uid)
  }

  function SubscribeNow(st: State, client: Socket, userUid: Option<Uid>, reset: bool): State
  {
    var online := if userUid.Some? then SetStatus(st, userUid.value, BySubscribe) else st;
    var g := Greet(online, client, userUid, reset);
    if reset then Snapshot(g, client, g.hash) else g
  }

  function UnsubscribeNow(st: State, client: Socket, userUid: Option<Uid>): State
  {
    if client !in st.clients then Send(st, client, UnsubscribeAck)
    else match userUid
      case None => Leave(st, client)
      case Some(uid) => TellOffline(HDel(st, uid, ByUnsubscribe), client, uid)
  }

  function MarkAlive(st: State, client: Socket): State
    requires client in st.clients
  {
    st.(clients := st.clients[client := st.clients[client].(isAlive := true)])
  }

  function PongNow(st: State, client: Socket): State
  {
    if client !in st.clients then st
    else match st.clients[client].userUid
      case None => MarkAlive(st, client)
      case Some(uid) => SetStatus(MarkAlive(st, client), uid, ByPong)
  }

  function ExpiryNow(st: State, inst: nat, uid: Uid): State
  {
    ExpiryTail(HDel(st, uid, ByExpiry), inst, uid, uid in st.hash)
  }

  /** `Run(i)` delivers the expiry event `i` and runs its handler. */
  function NextNow(st: State, step: Step): State
  {
    match step
    case Subscribe(client, userUid, reset) =>
      if client.inst < st.n then SubscribeNow(st, client, userUid, reset) else st
    case Unsubscribe(client, userUid) => UnsubscribeNow(st, client, userUid)
    case Pong(client) => PongNow(st, client)
    case Run(i) =>
      if i < |st.tasks| && st.tasks[i].Notify?
      then ExpiryNow(st.(tasks := Drop(st.tasks, i)), st.tasks[i].inst, st.tasks[i].uid)
      else st
    case _ => Next(st, step)
  }

  function AtNow(st: State, steps: seq<Step>, k: nat): State
    requires k <= |steps|
  {
    if k == 0 then st else NextNow(AtNow(st, steps, k - 1), steps[k - 1])
  }

  // ---------------------------------------------------------------- what the handlers do, inboxes and history apart

  lemma SubscribeFrame(st: State, client: Socket, userUid: Option<Uid>, reset: bool)
    ensures var g := SubscribeNow(st, client, userUid, reset);
            && g.n == st.n && g.open == st.open && g.now == st.now && g.tasks == st.tasks
            && g.clients == st.clients[client := Meta(userUid, true)]
            && g.hash == st.hash + (if userUid.Some? then {userUid.value} else {})
            && g.ttl == if userUid.Some? then st.ttl[userUid.value := st.now + TTL_EXPIRATION_TIME] else st.ttl
  {
    hide Greet, Snapshot;
    var base := if userUid.Some? then SetStatus(st, userUid.value, BySubscribe) else st;
    var g := Greet(base, client, userUid, reset);
    GreetFrame(base, client, userUid, reset);
    SnapshotFrame(g, client, g.hash);
  }

  lemma UnsubscribeFrame(st: State, client: Socket, userUid: Option<Uid>)
    ensures var g := UnsubscribeNow(st, client, userUid);
            && g.n == st.n && g.open == st.open && g.now == st.now && g.tasks == st.tasks
            && g.clients == st.clients - {client} && g.ttl == st.ttl
            && g.hash == st.hash - (if client in st.clients && userUid.Some? then {userUid.value} else {})
  {
    hide Send, Leave, TellOffline;
    SendFrame(st, client, UnsubscribeAck);
    LeaveFrame(st, client);
    if userUid.Some? {
      TellOfflineFrame(HDel(st, userUid.value, ByUnsubscribe), client, userUid.value);
    }
    assert client !in st.clients ==> st.clients - {client} == st.clients;
  }

  lemma ExpiryFrame(st: State, inst: nat, uid: Uid)
    ensures var g := ExpiryNow(st, inst, uid);
            && g.n == st.n && g.open == st.open && g.now == st.now && g.tasks == st.tasks
            && g.clients == st.clients && g.ttl == st.ttl && g.hash == st.hash - {uid}
  {
    hide Broadcast;
    BroadcastFrame(HDel(st, uid, ByExpiry), inst, None, OneUser(uid, Offline));
  }

  // ---------------------------------------------------------------- atomic steps are schedules of fine ones

  /** The fine steps that carry one handler through without interruption. */
  function Schedule(st: State, step: Step): seq<Step>
  {
    var go := Run(|st.tasks|);
    match step
    case Subscribe(client, userUid, reset) =>
      if client.inst >= st.n then []
      else [step] + (if userUid.Some? then [go, go, go] else []) + (if reset then [go, go] else [])
    case Unsubscribe(client, userUid) =>
      if client in st.clients && userUid.Some? then [step, go, go] else [step]
    case Pong(client) =>
      if client in st.clients && st.clients[client].userUid.Some? then [step, go, go] else [step]
    case Run(i) =>
      if i < |st.tasks| && st.tasks[i].Notify? then [step, step, step] else []
    case _ => [step]
  }

  function Rebagged(st: State, bag: seq<Task>): State
  {
    st.(tasks := bag)
  }

  lemma SendIgnoresBag(st: State, bag: seq<Task>, client: Socket, m: Message)
    ensures Send(Rebagged(st, bag), client, m) == Rebagged(Send(st, client, m), bag)
  {
  }

  lemma BroadcastIgnoresBag(st: State, bag: seq<Task>, inst: nat, connected: Option<Socket>, m: Message)
    ensures Broadcast(Rebagged(st, bag), inst, connected, m) == Rebagged(Broadcast(st, inst, connected, m), bag)
  {
    hide SendTo;
    assert Audience(Rebagged(st, bag), inst, connected) == Audience(st, inst, connected);
  }

  lemma GreetIgnoresBag(st: State, bag: seq<Task>, client: Socket, userUid: Option<Uid>, reset: bool)
    ensures Greet(Rebagged(st, bag), client, userUid, reset) == Rebagged(Greet(st, client, userUid, reset), bag)
  {
    hide Broadcast, Send;
    var told := st;
    if userUid.Some? {
      BroadcastIgnoresBag(st, bag, client.inst, Some(client), OneUser(userUid.value, Online));
      told := Broadcast(st, client.inst, Some(client), OneUser(userUid.value, Online));
    }
    SendIgnoresBag(Track(told, client, Meta(userUid, true)), bag, client, Own(userUid));
  }

  lemma LeaveIgnoresBag(st: State, bag: seq<Task>, client: Socket)
    ensures Leave(Rebagged(st, bag), client) == Rebagged(Leave(st, client), bag)
  {
    hide Send;
    SendIgnoresBag(Untrack(st, client), bag, client, UnsubscribeAck);
  }

  /** What a task does, it does whatever else is in the bag. */
  lemma WorkIgnoresBag(st: State, bag: seq<Task>, t: Task)
    ensures Work(Rebagged(st, bag), t) == Rebagged(Work(st, t), bag)
  {
    hide Send, Broadcast, Greet, Leave;
    match t
    case SubTail(client, uid, reset) => GreetIgnoresBag(st, bag, client, Some(uid), reset);
    case SubReply(client, users) => SendIgnoresBag(st, bag, client, AllOnline(users));
    case UnsubTail(client, uid) =>
      BroadcastIgnoresBag(st, bag, client.inst, Some(client), OneUser(uid, Offline));
      LeaveIgnoresBag(Broadcast(st, client.inst, Some(client), OneUser(uid, Offline)), bag, client);
    case ExpTail(inst, uid, _) => BroadcastIgnoresBag(st, bag, inst, None, OneUser(uid, Offline));
    case _ =>
  }

  /** `st` with one more task. */
  function With(st: State, t: Task): State
  {
    st.(tasks := st.tasks + [t])
  }

  /** Executing the last task of the bag. */
  lemma RunLast(st: State, t: Task)
    ensures var next := Successor(st, t);
            Next(With(st, t), Run(|st.tasks|)) ==
            if next.Some? then With(Work(st, t), next.value) else Work(st, t)
  {
    hide Work;
    var bag := st.tasks + [t];
    WorkIgnoresBag(st, bag, t);
    WorkFrame(st, t);
    assert bag[|st.tasks|] == t;
    assert Drop(bag, |st.tasks|) == st.tasks;
    assert forall u :: bag[|st.tasks| := u] == st.tasks + [u];
  }

  lemma {:induction false} AtPrefix(st: State, a: seq<Step>, b: seq<Step>, k: nat)
    requires k <= |a|
    ensures At(st, a + b, k) == At(st, a, k)
  {
    hide Next;
    if k > 0 {
      AtPrefix(st, a, b, k - 1);
    }
  }

  lemma {:induction false} AtConcat(st: State, a: seq<Step>, b: seq<Step>, k: nat)
    requires k <= |b|
    ensures At(st, a + b, |a| + k) == At(At(st, a, |a|), b, k)
  {
    hide Next;
    if k == 0 {
      AtPrefix(st, a, b, |a|);
    } else {
      AtConcat(st, a, b, k - 1);
    }
  }

  /** A run of one more step. */
  lemma AtSnoc(st: State, steps: seq<Step>, step: Step)
    ensures At(st, steps + [step], |steps| + 1) == Next(At(st, steps, |steps|), step)
  {
    hide Next;
    AtPrefix(st, steps, [step], |steps|);
  }

  lemma AtNone(st: State)
    ensures At(st, [], 0) == st
  {
  }

  lemma AtOne(st: State, step: Step)
    ensures At(st, [step], 1) == Next(st, step)
  {
    assert At(st, [step], 0) == st;
  }

  /** From a run that ends with task `t` pending on top of `base`, executing it is one more step. */
  lemma Continue(st: State, steps: seq<Step>, base: State, t: Task)
    requires At(st, steps, |steps|) == With(base, t) && |base.tasks| == |st.tasks|
    ensures var next, more := Successor(base, t), steps + [Run(|st.tasks|)];
            At(st, more, |more|) ==
            if next.Some? then With(Work(base, t), next.value) else Work(base, t)
    ensures Work(base, t).tasks == base.tasks
  {
    hide Next, Work;
    AtSnoc(st, steps, Run(|st.tasks|));
    RunLast(base, t);
    WorkFrame(base, t);
  }

  // The tasks of each handler, one by one.

  lemma SubscribeTasks(st: State, client: Socket, uid: Uid, reset: bool)
    requires client.inst < st.n
    ensures Next(st, Subscribe(client, Some(uid), reset)) == With(st, SubHSet(client, uid, reset))
    ensures Work(st, SubHSet(client, uid, reset)) == HSet(st, uid, BySubscribe)
    ensures Work(st, SubSet(client, uid, reset)) == SetEx(st, uid)
    ensures Work(st, SubTail(client, uid, reset)) == Greet(st, client, Some(uid), reset)
    ensures Successor(st, SubHSet(client, uid, reset)) == Some(SubSet(client, uid, reset))
    ensures Successor(st, SubSet(client, uid, reset)) == Some(SubTail(client, uid, reset))
    ensures Successor(st, SubTail(client, uid, reset)) == if reset then Some(SubGetAll(client)) else None
  {
    hide Greet;
  }

  lemma WatchTasks(st: State, client: Socket, reset: bool)
    requires client.inst < st.n
    ensures Next(st, Subscribe(client, None, reset)) ==
            if reset then With(Greet(st, client, None, reset), SubGetAll(client)) else Greet(st, client, None, reset)
  {
    hide Greet;
  }

  lemma ListTasks(st: State, client: Socket)
    ensures Work(st, SubGetAll(client)) == st
    ensures Work(st, SubReply(client, st.hash)) == Snapshot(st, client, st.hash)
  {
    hide Snapshot;
  }

  lemma UnsubscribeTasks(st: State, client: Socket, uid: Uid)
    ensures client in st.clients ==> Next(st, Unsubscribe(client, Some(uid))) == With(st, UnsubHDel(client, uid))
    ensures Work(st, UnsubHDel(client, uid)) == HDel(st, uid, ByUnsubscribe)
    ensures Work(st, UnsubTail(client, uid)) == TellOffline(st, client, uid)
  {
    hide TellOffline;
  }

  lemma PongTasks(st: State, client: Socket, uid: Uid)
    ensures client in st.clients && st.clients[client].userUid == Some(uid) ==>
              Next(st, Pong(client)) == With(MarkAlive(st, client), PongHSet(uid))
    ensures Work(st, PongHSet(uid)) == HSet(st, uid, ByPong)
    ensures Work(st, PongSet(uid)) == SetEx(st, uid)
  {
  }

  lemma SameBag(st: State, uid: Uid, cause: Cause)
    ensures HSet(st, uid, cause).tasks == st.tasks
    ensures HDel(st, uid, cause).tasks == st.tasks
    ensures SetEx(HSet(st, uid, cause), uid) == SetStatus(st, uid, cause)
    ensures SetStatus(st, uid, cause).tasks == st.tasks
  {
  }

  /** The full list, fetched and sent at once. */
  lemma ScheduleList(st: State, steps: seq<Step>, base: State, client: Socket)
    requires At(st, steps, |steps|) == With(base, SubGetAll(client)) && |base.tasks| == |st.tasks|
    ensures var all := steps + [Run(|st.tasks|)] + [Run(|st.tasks|)];
            At(st, all, |all|) == Snapshot(base, client, base.hash)
  {
    hide Next, Work, With, Snapshot, At;
    var one := steps + [Run(|st.tasks|)];
    ListTasks(base, client);
    Continue(st, steps, base, SubGetAll(client));
    assert At(st, one, |one|) == With(base, SubReply(client, base.hash));
    Continue(st, one, base, SubReply(client, base.hash));
  }

  /** subscribeMessage after setStatus, carried through: `steps` ends before its first broadcast. */
  lemma ScheduleSubscribeTail(st: State, steps: seq<Step>, base: State, client: Socket, uid: Uid, reset: bool)
    requires At(st, steps, |steps|) == With(base, SubTail(client, uid, reset)) && |base.tasks| == |st.tasks|
    requires client.inst < base.n
    ensures var go := Run(|st.tasks|);
            var all := steps + [go] + if reset then [go] + [go] else [];
            var g := Greet(base, client, Some(uid), reset);
            At(st, all, |all|) == if reset then Snapshot(g, client, g.hash) else g
  {
    hide Next, Work, With, Greet, Snapshot, At;
    var go, g := Run(|st.tasks|), Greet(base, client, Some(uid), reset);
    SubscribeTasks(base, client, uid, reset);
    Continue(st, steps, base, SubTail(client, uid, reset));
    if reset {
      GreetFrame(base, client, Some(uid), reset);
      ScheduleList(st, steps + [go], g, client);
      assert steps + [go] + ([go] + [go]) == steps + [go] + [go] + [go];
    } else {
      assert steps + [go] + [] == steps + [go];
    }
  }

  lemma ScheduleWatch(st: State, client: Socket, reset: bool)
    requires client.inst < st.n
    ensures var steps := Schedule(st, Subscribe(client, None, reset));
            At(st, steps, |steps|) == SubscribeNow(st, client, None, reset)
  {
    hide Next, Work, With, Greet, Snapshot, At;
    var step, go := Subscribe(client, None, reset), Run(|st.tasks|);
    AtOne(st, step);
    WatchTasks(st, client, reset);
    if reset {
      GreetFrame(st, client, None, reset);
      ScheduleList(st, [step], Greet(st, client, None, reset), client);
      assert Schedule(st, step) == [step] + [go] + [go];
    } else {
      assert Schedule(st, step) == [step];
    }
  }

  /** setStatus of a subscribe, carried through. */
  lemma ScheduleSetStatus(st: State, client: Socket, uid: Uid, reset: bool)
    requires client.inst < st.n
    ensures var go := Run(|st.tasks|);
            At(st, [Subscribe(client, Some(uid), reset)] + [go] + [go], 3) ==
            With(SetStatus(st, uid, BySubscribe), SubTail(client, uid, reset))
  {
    hide Next, Work, With, At, HSet, SetEx, SetStatus, Successor;
    var step, go := Subscribe(client, Some(uid), reset), Run(|st.tasks|);
    var stored := HSet(st, uid, BySubscribe);
    SameBag(st, uid, BySubscribe);
    SubscribeTasks(st, client, uid, reset);
    SetStatusFrame(st, uid, BySubscribe);
    SubscribeTasks(stored, client, uid, reset);
    AtOne(st, step);
    Continue(st, [step], st, SubHSet(client, uid, reset));
    Continue(st, [step] + [go], stored, SubSet(client, uid, reset));
  }

  lemma ScheduleSubscribe(st: State, client: Socket, uid: Uid, reset: bool)
    requires client.inst < st.n
    ensures var steps := Schedule(st, Subscribe(client, Some(uid), reset));
            At(st, steps, |steps|) == SubscribeNow(st, client, Some(uid), reset)
  {
    hide Next, Work, With, Greet, Snapshot, At, SetStatus, Schedule;
    var go := Run(|st.tasks|);
    SetStatusFrame(st, uid, BySubscribe);
    SameBag(st, uid, BySubscribe);
    ScheduleSetStatus(st, client, uid, reset);
    var first, leased := [Subscribe(client, Some(uid), reset)] + [go] + [go], SetStatus(st, uid, BySubscribe);
    ScheduleSubscribeTail(st, first, leased, client, uid, reset);
    SubscribeSchedule(st, client, uid, reset);
  }

  lemma SubscribeSchedule(st: State, client: Socket, uid: Uid, reset: bool)
    requires client.inst < st.n
    ensures var step, go := Subscribe(client, Some(uid), reset), Run(|st.tasks|);
            Schedule(st, step) == [step] + [go] + [go] + [go] + if reset then [go] + [go] else []
  {
  }

  lemma SetStatusFrame(st: State, uid: Uid, cause: Cause)
    ensures SetStatus(st, uid, cause).n == HSet(st, uid, cause).n == st.n
  {
  }

  lemma ScheduleUnsubscribe(st: State, client: Socket, uid: Uid)
    requires client in st.clients
    ensures var steps := Schedule(st, Unsubscribe(client, Some(uid)));
            At(st, steps, |steps|) == UnsubscribeNow(st, client, Some(uid))
  {
    hide Next, Work, With, TellOffline, At, HDel;
    var step, go := Unsubscribe(client, Some(uid)), Run(|st.tasks|);
    var removed := HDel(st, uid, ByUnsubscribe);
    SameBag(st, uid, ByUnsubscribe);
    UnsubscribeTasks(st, client, uid);
    UnsubscribeTasks(removed, client, uid);
    AtOne(st, step);
    Continue(st, [step], st, UnsubHDel(client, uid));
    Continue(st, [step] + [go], removed, UnsubTail(client, uid));
    assert Schedule(st, step) == [step] + [go] + [go];
  }

  lemma PongParts(st: State, client: Socket, uid: Uid)
    requires client in st.clients && st.clients[client].userUid == Some(uid)
    ensures MarkAlive(st, client).tasks == st.tasks
    ensures PongNow(st, client) == SetStatus(MarkAlive(st, client), uid, ByPong)
    ensures Schedule(st, Pong(client)) == [Pong(client)] + [Run(|st.tasks|)] + [Run(|st.tasks|)]
  {
  }

  lemma SchedulePong(st: State, client: Socket, uid: Uid)
    requires client in st.clients && st.clients[client].userUid == Some(uid)
    ensures var steps := Schedule(st, Pong(client));
            At(st, steps, |steps|) == PongNow(st, client)
  {
    hide Next, Work, With, At, HSet, SetEx, SetStatus, MarkAlive, PongNow, Schedule;
    var one, go := [Pong(client)], Run(|st.tasks|);
    var alive := MarkAlive(st, client);
    var stored := HSet(alive, uid, ByPong);
    PongParts(st, client, uid);
    SameBag(alive, uid, ByPong);
    PongTasks(st, client, uid);
    PongTasks(alive, client, uid);
    PongTasks(stored, client, uid);
    AtOne(st, Pong(client));
    Continue(st, one, alive, PongHSet(uid));
    Continue(st, one + [go], stored, PongSet(uid));
  }

  lemma ScheduleExpiry(st: State, i: nat)
    requires i < |st.tasks| && st.tasks[i].Notify?
    ensures var steps := Schedule(st, Run(i));
            At(st, steps, |steps|) == NextNow(st, Run(i))
  {
    hide At, Broadcast, SendTo;
    var go := Run(i);
    var Notify(inst, uid) := st.tasks[i];
    var bag1 := st.tasks[i := ExpHDel(inst, uid)];
    var s1 := Rebagged(st, bag1);
    AtOne(st, go);
    assert Next(st, go) == s1;
    var removed := HDel(st, uid, ByExpiry);
    var bag2 := bag1[i := ExpTail(inst, uid, uid in st.hash)];
    var s2 := Rebagged(removed, bag2);
    AtSnoc(st, [go], go);
    assert Next(s1, go) == s2;
    AtSnoc(st, [go] + [go], go);
    var rest := Drop(st.tasks, i);
    assert Drop(bag2, i) == rest;
    BroadcastIgnoresBag(removed, bag2, inst, None, OneUser(uid, Offline));
    BroadcastIgnoresBag(removed, rest, inst, None, OneUser(uid, Offline));
    assert Schedule(st, go) == [go] + [go] + [go];
  }

  /** Every atomic step is a schedule of fine steps. */
  lemma {:induction false} AtomicIsASchedule(st: State, step: Step)
    ensures var steps := Schedule(st, step);
            At(st, steps, |steps|) == NextNow(st, step)
  {
    match step
    case Subscribe(client, userUid, reset) =>
      hide At, SubscribeNow;
      if client.inst >= st.n {
        AtNone(st);
      } else if userUid.Some? {
        ScheduleSubscribe(st, client, userUid.value, reset);
      } else {
        ScheduleWatch(st, client, reset);
      }
    case Unsubscribe(client, userUid) =>
      hide At;
      if client in st.clients && userUid.Some? {
        ScheduleUnsubscribe(st, client, userUid.value);
      } else {
        AtOne(st, step);
      }
    case Pong(client) =>
      hide At;
      if client in st.clients && st.clients[client].userUid.Some? {
        SchedulePong(st, client, st.clients[client].userUid.value);
      } else {
        AtOne(st, step);
      }
    case Run(i) =>
      if i < |st.tasks| && st.tasks[i].Notify? {
        ScheduleExpiry(st, i);
      }
    case _ =>
      AtOne(st, step);
  }

  /** Every run of the atomic machine is matched by a fine one: what holds of all fine runs holds here too. */
  lemma {:induction false} AtomicRunsAreRuns(st: State, steps: seq<Step>, k: nat) returns (fine: seq<Step>)
    requires k <= |steps|
    ensures At(st, fine, |fine|) == AtNow(st, steps, k)
  {
    hide Next, NextNow, Schedule;
    if k == 0 {
      fine := [];
    } else {
      var first := AtomicRunsAreRuns(st, steps, k - 1);
      var mid := AtNow(st, steps, k - 1);
      var last := Schedule(mid, steps[k - 1]);
      AtomicIsASchedule(mid, steps[k - 1]);
      AtConcat(st, first, last, |last|);
      fine := first + last;
    }
  }

  // ---------------------------------------------------------------- keys and presence

  /** Between handlers only expiry events wait. */
  ghost predicate OnlyNotices(st: State)
  {
    forall t :: t in st.tasks ==> t.Notify?
  }

  lemma {:induction false} AlwaysOnlyNotices(n: nat, sockets: set<Socket>, steps: seq<Step>, k: nat)
    requires k <= |steps|
    ensures OnlyNotices(AtNow(Init(n, sockets), steps, k))
  {
    hide NextNow, OnlyNotices;
    if k == 0 {
      InitOnlyNotices(n, sockets);
    } else {
      AlwaysOnlyNotices(n, sockets, steps, k - 1);
      NextOnlyNotices(AtNow(Init(n, sockets), steps, k - 1), steps[k - 1]);
    }
  }

  lemma InitOnlyNotices(n: nat, sockets: set<Socket>)
    ensures OnlyNotices(Init(n, sockets))
  {
  }

  lemma NextOnlyNotices(st: State, step: Step)
    requires OnlyNotices(st)
    ensures OnlyNotices(NextNow(st, step))
  {
    hide SubscribeNow, UnsubscribeNow, ExpiryNow, Notices;
    match step
    case Subscribe(client, userUid, reset) => SubscribeFrame(st, client, userUid, reset);
    case Unsubscribe(client, userUid) => UnsubscribeFrame(st, client, userUid);
    case Run(i) =>
      if i < |st.tasks| && st.tasks[i].Notify? {
        ExpiryFrame(st.(tasks := Drop(st.tasks, i)), st.tasks[i].inst, st.tasks[i].uid);
      }
    case Expire(u) =>
      forall t | t in NextNow(st, step).tasks
        ensures t.Notify?
      {
        if t !in st.tasks {
          NoticesName(st.n, u, t);
        }
      }
    case _ =>
  }

  /** With atomic handlers: whoever is online has a live key or an expiry event on its way. */
  lemma {:induction false} OnlineHasKeyOrEvent(n: nat, sockets: set<Socket>, steps: seq<Step>, k: nat, uid: Uid)
    requires n > 0 && k <= |steps|
    ensures var st := AtNow(Init(n, sockets), steps, k);
            uid in st.hash ==> uid in st.ttl || exists t :: t in st.tasks && t.Notify? && t.uid == uid
  {
    hide Next, NextNow;
    var fine := AtomicRunsAreRuns(Init(n, sockets), steps, k);
    NoPhantomOnline(n, sockets, fine, |fine|, uid);
    AlwaysOnlyNotices(n, sockets, steps, k);
  }
}
