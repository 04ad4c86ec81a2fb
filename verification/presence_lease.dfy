/**
The lease, with time and for every interleaving: pings every 10 s, keys that live
15 s. A client that answers every ping, and whose user's status is set within the
difference, never loses its key, whatever other clients and instances do.
*/
module PresenceLease {
  import opened Prelude
  import opened TtlKeys
  import opened PresenceState
  import opened PresenceAtomic

  /** Within how many milliseconds of a ping the key must be set again. */
  const SET_LIMIT: nat := TTL_EXPIRATION_TIME - PING_INTERVAL

  /**
  The clockwork around one socket: when its instance pings next, whether the
  socket has answered the last ping, and by when the key must be set again.
  */
  datatype Clock = Clock(nextPing: nat, answered: bool, keyDue: Option<nat>)

  /** The task is the second command of a setStatus for `uid`. */
  predicate SetsKey(t: Task, uid: Uid)
  {
    match t
    case SubSet(_, u, _) => u == uid
    case PongSet(u) => u == uid
    case _ => false
  }

  function Tick(clock: Clock, st: State, step: Step, s: Socket, uid: Uid): Clock
  {
    match step
    case Ping(inst) =>
      if inst == s.inst then Clock(clock.nextPing + PING_INTERVAL, false, Some(st.now + SET_LIMIT)) else clock
    case Pong(client) => if client == s then clock.(answered := true) else clock
    case Run(i) => if i < |st.tasks| && SetsKey(st.tasks[i], uid) then clock.(keyDue := None) else clock
    case _ => clock
  }

  /**
  The interval timer fires on time, `s` has answered each ping by the next one,
  the key is set strictly in time, and `s` stays subscribed as `uid`.
  */
  predicate OnTime(clock: Clock, st: State, step: Step, s: Socket, uid: Uid)
  {
    match step
    case Advance(ms) => st.now + ms <= clock.nextPing && (clock.keyDue.Some? ==> st.now + ms < clock.keyDue.value)
    case Ping(inst) => inst == s.inst ==> st.now == clock.nextPing && clock.answered
    case Subscribe(client, userUid, _) => client == s ==> userUid == Some(uid)
    case Unsubscribe(client, userUid) => client == s ==> userUid.Some?
    case Disconnect(client) => client != s
    case Run(i) =>
      i < |st.tasks| ==>
        (match st.tasks[i]
         case SubTail(client, u, _) => client == s ==> u == uid
         case UnsubTail(client, _) => client != s
         case _ => true)
    case _ => true
  }

  function ClockAt(clock: Clock, st: State, steps: seq<Step>, k: nat, s: Socket, uid: Uid): Clock
    requires k <= |steps|
  {
    if k == 0 then clock else Tick(ClockAt(clock, st, steps, k - 1, s, uid), At(st, steps, k - 1), steps[k - 1], s, uid)
  }

  /** What keeps the key alive: it outlasts the next ping by the time that setting it may take, or by what is left. */
  ghost predicate Leased(clock: Clock, st: State, s: Socket, uid: Uid)
  {
    && s in st.clients && st.clients[s].userUid == Some(uid) && (clock.answered ==> st.clients[s].isAlive)
    && uid in st.ttl && st.now <= clock.nextPing <= st.now + PING_INTERVAL
    && match clock.keyDue
       case None => clock.nextPing + SET_LIMIT <= st.ttl[uid]
       case Some(d) => d + SET_LIMIT == clock.nextPing && st.now < d <= st.ttl[uid]
  }

  /** `s` is tracked as `uid`, and the key of `uid` is live. */
  ghost predicate Alive(st: State, s: Socket, uid: Uid)
  {
    s in st.clients && st.clients[s].userUid == Some(uid) && uid in st.ttl && st.now < st.ttl[uid]
  }

  lemma LeasedIsAlive(clock: Clock, st: State, s: Socket, uid: Uid)
    requires Leased(clock, st, s, uid)
    ensures Alive(st, s, uid)
  {
  }

  lemma RunKeepsLease(clock: Clock, st: State, i: nat, s: Socket, uid: Uid)
    requires Leased(clock, st, s, uid) && OnTime(clock, st, Run(i), s, uid) && i < |st.tasks|
    ensures Leased(Tick(clock, st, Run(i), s, uid), Next(st, Run(i)), s, uid)
  {
    hide Next, Moved;
    RunFrame(st, i);
  }

  lemma LeaseStep(clock: Clock, st: State, step: Step, s: Socket, uid: Uid)
    requires Leased(clock, st, s, uid) && OnTime(clock, st, step, s, uid)
    ensures Leased(Tick(clock, st, step, s, uid), Next(st, step), s, uid)
  {
    hide Next, Spawned;
    if step.Run? && step.i < |st.tasks| {
      RunKeepsLease(clock, st, step.i, s, uid);
    } else {
      StepFrame(st, step);
    }
  }

  /** `s` is responsive up to step `k`. */
  ghost predicate Responsive(clock: Clock, st: State, steps: seq<Step>, k: nat, s: Socket, uid: Uid)
  {
    k <= |steps| &&
    forall j :: 0 <= j < k ==> OnTime(ClockAt(clock, st, steps, j, s, uid), At(st, steps, j), steps[j], s, uid)
  }

  /** The key of `uid` outlasts the next ping by the time that setting it again may take. */
  ghost predicate Covered(st: State, nextPing: nat, uid: Uid)
  {
    uid in st.ttl && st.now <= nextPing <= st.now + PING_INTERVAL && nextPing + SET_LIMIT <= st.ttl[uid]
  }

  lemma CoverStep(st: State, step: Step, nextPing: nat, uid: Uid)
    requires Covered(st, nextPing, uid) && Next(st, step).now <= nextPing
    ensures Covered(Next(st, step), nextPing, uid)
  {
    hide Next, Spawned;
    if step.Run? && step.i < |st.tasks| {
      RunFrame(st, step.i);
    } else {
      StepFrame(st, step);
    }
  }

  lemma {:induction false} CoveredUntilPing(st: State, steps: seq<Step>, k: nat, nextPing: nat, uid: Uid)
    requires Covered(st, nextPing, uid) && k <= |steps|
    requires forall j :: 0 <= j <= k ==> At(st, steps, j).now <= nextPing
    ensures Covered(At(st, steps, k), nextPing, uid)
  {
    hide Next, Covered;
    if k > 0 {
      CoveredUntilPing(st, steps, k - 1, nextPing, uid);
      assert At(st, steps, k).now <= nextPing;
      CoverStep(At(st, steps, k - 1), steps[k - 1], nextPing, uid);
    }
  }

  lemma SetCovers(st: State, i: nat, nextPing: nat, uid: Uid)
    requires i < |st.tasks| && SetsKey(st.tasks[i], uid) && st.now <= nextPing <= st.now + PING_INTERVAL
    ensures Covered(Next(st, Run(i)), nextPing, uid)
  {
    hide Next;
    RunFrame(st, i);
  }

  lemma GreetingLeases(st: State, i: nat, nextPing: nat, s: Socket, uid: Uid)
    requires i < |st.tasks| && st.tasks[i].SubTail? && st.tasks[i].client == s && st.tasks[i].uid == uid
    requires Covered(st, nextPing, uid)
    ensures Leased(Clock(nextPing, true, None), Next(st, Run(i)), s, uid)
  {
    hide Next;
    RunFrame(st, i);
  }

  /**
  A lease is taken by a subscribe. Its SET is executed at most one interval before
  the next ping; whatever happens until then, once its last stretch of code puts
  the socket into the map, the socket is leased.
  */
  lemma {:induction false} LeaseStarts(st: State, i: nat, steps: seq<Step>, j: nat, nextPing: nat, s: Socket, uid: Uid)
    requires i < |st.tasks| && SetsKey(st.tasks[i], uid) && st.now <= nextPing <= st.now + PING_INTERVAL
    requires var stored := Next(st, Run(i));
             && (forall k :: 0 <= k <= |steps| ==> At(stored, steps, k).now <= nextPing)
             && var ready := At(stored, steps, |steps|);
                j < |ready.tasks| && ready.tasks[j].SubTail? && ready.tasks[j].client == s && ready.tasks[j].uid == uid
    ensures Leased(Clock(nextPing, true, None), Next(At(Next(st, Run(i)), steps, |steps|), Run(j)), s, uid)
  {
    hide Next, Covered, Leased;
    SetCovers(st, i, nextPing, uid);
    CoveredUntilPing(Next(st, Run(i)), steps, |steps|, nextPing, uid);
    GreetingLeases(At(Next(st, Run(i)), steps, |steps|), j, nextPing, s, uid);
  }

  /**
  A socket that answers every ping, and whose user's key is set within 5 s of
  each, is never evicted, and the key is live at every instant.
  */
  lemma {:induction false} LeaseNeverLapses(clock: Clock, st: State, steps: seq<Step>, k: nat, s: Socket, uid: Uid)
    requires Leased(clock, st, s, uid) && Responsive(clock, st, steps, k, s, uid)
    ensures Leased(ClockAt(clock, st, steps, k, s, uid), At(st, steps, k), s, uid)
    ensures Alive(At(st, steps, k), s, uid)
  {
    hide Next, OnTime, Alive, Leased;
    if k > 0 {
      LeaseNeverLapses(clock, st, steps, k - 1, s, uid);
      LeaseStep(ClockAt(clock, st, steps, k - 1, s, uid), At(st, steps, k - 1), steps[k - 1], s, uid);
    }
    LeasedIsAlive(ClockAt(clock, st, steps, k, s, uid), At(st, steps, k), s, uid);
  }

  // ---------------------------------------------------------------- staying online

  /** An expiry event of `uid` on its way to a handler, or about to be acted upon. */
  predicate Expiring(t: Task, uid: Uid)
  {
    match t
    case Notify(_, u) => u == uid
    case ExpHDel(_, u) => u == uid
    case _ => false
  }

  ghost predicate NothingPending(st: State, uid: Uid)
  {
    forall t :: t in st.tasks ==> !Expiring(t, uid)
  }

  ghost predicate Safe(st: State, uid: Uid)
  {
    uid in st.hash && NothingPending(st, uid)
  }

  /** The step executes the hDel of an unsubscribe of `uid`, by whatever client. */
  predicate TakesOffline(st: State, step: Step, uid: Uid)
  {
    step.Run? && step.i < |st.tasks| && st.tasks[step.i].UnsubHDel? && st.tasks[step.i].uid == uid
  }

  lemma SafeStep(st: State, step: Step, s: Socket, uid: Uid)
    requires Safe(st, uid) && Alive(st, s, uid)
    ensures Safe(Next(st, step), uid) <==> !TakesOffline(st, step, uid)
    ensures uid in Next(st, step).hash <==> !TakesOffline(st, step, uid)
  {
    hide Next, Notices;
    var after := Next(st, step);
    if step.Run? && step.i < |st.tasks| {
      RunFrame(st, step.i);
      assert st.tasks[step.i] in st.tasks;
      forall t | t in after.tasks
        ensures !Expiring(t, uid)
      {
        MovedFrom(st, step.i, t);
      }
    } else {
      StepFrame(st, step);
      forall t | t in Spawned(st, step)
        ensures !Expiring(t, uid)
      {
        if step.Expire? {
          NoticesName(st.n, step.uid, t);
        }
      }
    }
  }

  lemma MovedFrom(st: State, i: nat, t: Task)
    requires i < |st.tasks| && t in Moved(st, i)
    ensures t in st.tasks || Successor(st, st.tasks[i]) == Some(t)
  {
  }

  ghost predicate OnlineThroughout(st: State, steps: seq<Step>, k: nat, uid: Uid)
    requires k <= |steps|
  {
    forall j :: 0 <= j <= k ==> uid in At(st, steps, j).hash
  }

  ghost predicate NobodyUnsubscribes(st: State, steps: seq<Step>, k: nat, uid: Uid)
    requires k <= |steps|
  {
    forall j :: 0 <= j < k ==> !TakesOffline(At(st, steps, j), steps[j], uid)
  }

  lemma {:induction false} SafeThroughout(clock: Clock, st: State, steps: seq<Step>, k: nat, s: Socket, uid: Uid)
    requires Leased(clock, st, s, uid) && Responsive(clock, st, steps, k, s, uid) && Safe(st, uid)
    ensures OnlineThroughout(st, steps, k, uid) <==> NobodyUnsubscribes(st, steps, k, uid)
    ensures NobodyUnsubscribes(st, steps, k, uid) ==> Safe(At(st, steps, k), uid)
  {
    hide Next, OnTime, Alive, Leased, NothingPending, TakesOffline, ClockAt;
    if k == 0 {
      assert At(st, steps, 0) == st;
    } else {
      var m := k - 1;
      SafeThroughout(clock, st, steps, m, s, uid);
      LeaseNeverLapses(clock, st, steps, m, s, uid);
      assert At(st, steps, k) == Next(At(st, steps, m), steps[m]);
      if NobodyUnsubscribes(st, steps, m, uid) {
        SafeStep(At(st, steps, m), steps[m], s, uid);
      }
    }
  }

  /**
  A responsive user that is online, with no expiry event pending, is online
  throughout a run if and only if no unsubscribe of that user is executed.
  */
  lemma {:induction false} OnlineIffNobodyUnsubscribes(
        clock: Clock, st: State, steps: seq<Step>, k: nat, s: Socket, uid: Uid)
    requires Leased(clock, st, s, uid) && Responsive(clock, st, steps, k, s, uid) && Safe(st, uid)
    ensures OnlineThroughout(st, steps, k, uid) <==> NobodyUnsubscribes(st, steps, k, uid)
  {
    SafeThroughout(clock, st, steps, k, s, uid);
  }

  /** Whatever else happens, a responsive user whom nobody unsubscribes stays online. */
  ghost predicate StaysOnline(clock: Clock, st: State, s: Socket, uid: Uid)
  {
    forall steps: seq<Step>, k: nat ::
      k <= |steps| && Responsive(clock, st, steps, k, s, uid) && NobodyUnsubscribes(st, steps, k, uid) ==>
        OnlineThroughout(st, steps, k, uid)
  }

  /** An event still pending removes the user as soon as it is delivered and acted upon. */
  lemma PendingEventStrikes(clock: Clock, st: State, i: nat, s: Socket, uid: Uid) returns (steps: seq<Step>)
    requires i < |st.tasks| && Expiring(st.tasks[i], uid)
    ensures Responsive(clock, st, steps, |steps|, s, uid) && NobodyUnsubscribes(st, steps, |steps|, uid)
    ensures uid !in At(st, steps, |steps|).hash
  {
    hide Next;
    assert forall x :: At(st, x, 0) == st;
    RunFrame(st, i);
    if st.tasks[i].ExpHDel? {
      steps := [Run(i)];
    } else {
      steps := [Run(i), Run(i)];
      var mid := Next(st, Run(i));
      assert mid.tasks[i] == ExpHDel(st.tasks[i].inst, uid);
      assert At(st, steps, 1) == mid;
      RunFrame(mid, i);
    }
  }

  lemma NotThroughout(st: State, steps: seq<Step>, k: nat, uid: Uid)
    requires k <= |steps| && uid !in At(st, steps, k).hash
    ensures !OnlineThroughout(st, steps, k, uid)
  {
  }

  /**
  Being responsive keeps a leased user online, whatever else happens short of an
  unsubscribe of that user, if and only if the user is online now and no expiry
  event of the user is pending.
  */
  lemma {:induction false} StaysOnlineIffSafe(clock: Clock, st: State, s: Socket, uid: Uid)
    requires Leased(clock, st, s, uid)
    ensures StaysOnline(clock, st, s, uid) <==> Safe(st, uid)
  {
    hide Next, Responsive, OnlineThroughout, NobodyUnsubscribes;
    if Safe(st, uid) {
      forall steps: seq<Step>, k: nat | k <= |steps| && Responsive(clock, st, steps, k, s, uid)
                                        && NobodyUnsubscribes(st, steps, k, uid)
        ensures OnlineThroughout(st, steps, k, uid)
      {
        SafeThroughout(clock, st, steps, k, s, uid);
      }
    } else if uid !in st.hash {
      NothingHappens(clock, st, s, uid);
      NotThroughout(st, [], 0, uid);
    } else {
      var t :| t in st.tasks && Expiring(t, uid);
      var i :| 0 <= i < |st.tasks| && st.tasks[i] == t;
      var steps := PendingEventStrikes(clock, st, i, s, uid);
      NotThroughout(st, steps, |steps|, uid);
    }
  }

  lemma NothingHappens(clock: Clock, st: State, s: Socket, uid: Uid)
    ensures Responsive(clock, st, [], 0, s, uid) && NobodyUnsubscribes(st, [], 0, uid) && At(st, [], 0) == st
  {
  }

  // ---------------------------------------------------------------- a live key is not enough

  /** The key of `uid` is live and `s` tracked as `uid`, yet `uid` is not online. */
  ghost predicate LiveButOffline(st: State, s: Socket, uid: Uid)
  {
    Alive(st, s, uid) && uid !in st.hash
  }

  /** A user goes silent for the life of its key and subscribes again before the expiry event is delivered. */
  function LateExpiry(s: Socket, uid: Uid): seq<Step>
  {
    [Subscribe(s, Some(uid), false), Advance(TTL_EXPIRATION_TIME), Expire(uid), Subscribe(s, Some(uid), false), Run(0)]
  }

  /** From the first subscribe to the undelivered event. */
  lemma {:induction false} UpToExpiry(s: Socket, uid: Uid)
    requires s.inst == 0
    ensures var expired := AtNow(Init(1, {s}), LateExpiry(s, uid), 3);
            expired.tasks == [Notify(0, uid)] && expired.n == 1
  {
    hide SubscribeNow, Next, Notices;
    var st, steps := Init(1, {s}), LateExpiry(s, uid);
    assert AtNow(st, steps, 0) == st;
    SubscribeFrame(st, s, Some(uid), false);
    var first, waited := AtNow(st, steps, 1), AtNow(st, steps, 2);
    StepFrame(first, Advance(TTL_EXPIRATION_TIME));
    StepFrame(waited, Expire(uid));
    OneNotice(uid);
  }

  lemma {:induction false} LateExpiryRuns(s: Socket, uid: Uid)
    requires s.inst == 0
    ensures LiveButOffline(AtNow(Init(1, {s}), LateExpiry(s, uid), 5), s, uid)
  {
    hide SubscribeNow, ExpiryNow, Next;
    var st, steps := Init(1, {s}), LateExpiry(s, uid);
    var expired := AtNow(st, steps, 3);
    UpToExpiry(s, uid);
    SubscribeFrame(expired, s, Some(uid), false);
    var back := AtNow(st, steps, 4);
    assert back == SubscribeNow(expired, s, Some(uid), false);
    ExpiryFrame(back.(tasks := Drop(back.tasks, 0)), 0, uid);
  }

  lemma OneNotice(uid: Uid)
    ensures Notices(1, uid) == [Notify(0, uid)]
  {
    assert Notices(0, uid) == [];
  }

  /** Another client, which never named a user, unsubscribes the user of `s`. */
  function OthersUnsubscribe(s: Socket, c: Socket, uid: Uid): seq<Step>
  {
    [Subscribe(s, Some(uid), false), Subscribe(c, None, true), Unsubscribe(c, Some(uid))]
  }

  lemma {:induction false} OthersUnsubscribeRuns(s: Socket, c: Socket, uid: Uid)
    requires s.inst == 0 && c.inst == 0 && s != c
    ensures LiveButOffline(AtNow(Init(1, {s, c}), OthersUnsubscribe(s, c, uid), 3), s, uid)
  {
    hide SubscribeNow, UnsubscribeNow;
    var st, steps := Init(1, {s, c}), OthersUnsubscribe(s, c, uid);
    assert AtNow(st, steps, 0) == st;
    SubscribeFrame(st, s, Some(uid), false);
    SubscribeFrame(AtNow(st, steps, 1), c, None, true);
    UnsubscribeFrame(AtNow(st, steps, 2), c, Some(uid));
  }

  /**
  A live key does not make a user online: an expiry event still on its way when
  the user comes back removes the user, and so does an unsubscribe by anyone.
  */
  lemma {:induction false} LiveKeyButOffline(s: Socket, c: Socket, uid: Uid)
    requires s.inst == 0 && c.inst == 0 && s != c
    ensures LiveButOffline(AtNow(Init(1, {s}), LateExpiry(s, uid), 5), s, uid)
    ensures LiveButOffline(AtNow(Init(1, {s, c}), OthersUnsubscribe(s, c, uid), 3), s, uid)
  {
    hide AtNow, LiveButOffline;
    LateExpiryRuns(s, uid);
    OthersUnsubscribeRuns(s, c, uid);
  }
}
