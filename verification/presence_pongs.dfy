/**
The lease measured by pongs, with handlers run one at a time: what a client has
to do is answer, and each answer renews its user's status and key. Times are in
milliseconds: a ping every 10000, a pong due within 5000, a key for 15000.
*/
module PresencePongs {
  import opened Prelude
  import opened TtlKeys
  import opened PresenceState
  import opened PresenceAtomic
  import L = PresenceLease

  /** The clockwork around one socket: when its instance pings next, and by when a pong is due. */
  datatype Clock = Clock(nextPing: nat, due: Option<nat>)

  function Tick(clock: Clock, st: State, step: Step, s: Socket): Clock
  {
    match step
    case Ping(inst) =>
      if inst == s.inst then Clock(clock.nextPing + 10000, Some(st.now + 5000)) else clock
    case Pong(client) => if client == s then clock.(due := None) else clock
    case _ => clock
  }

  /** The interval timer fires on time, every pong of `s` is strictly in time, and `s` stays subscribed as `uid`. */
  predicate OnTime(clock: Clock, st: State, step: Step, s: Socket, uid: Uid)
  {
    match step
    case Advance(ms) => st.now + ms <= clock.nextPing && (clock.due.Some? ==> st.now + ms < clock.due.value)
    case Ping(inst) => inst == s.inst ==> st.now == clock.nextPing
    case Subscribe(client, userUid, _) => client == s ==> userUid == Some(uid)
    case Unsubscribe(client, _) => client != s
    case Disconnect(client) => client != s
    case _ => true
  }

  function ClockAt(clock: Clock, st: State, steps: seq<Step>, k: nat, s: Socket): Clock
    requires k <= |steps|
  {
    if k == 0 then clock else Tick(ClockAt(clock, st, steps, k - 1, s), AtNow(st, steps, k - 1), steps[k - 1], s)
  }

  /** What keeps the key alive: it outlasts the next ping by the time a pong may take, or the pong that is due. */
  ghost predicate Leased(clock: Clock, st: State, s: Socket, uid: Uid)
  {
    && s in st.clients && st.clients[s].userUid == Some(uid) && uid in st.ttl
    && st.now <= clock.nextPing <= st.now + 10000
    && match clock.due
       case None => st.clients[s].isAlive && clock.nextPing + 5000 <= st.ttl[uid]
       case Some(d) => d + 5000 == clock.nextPing && st.now < d <= st.ttl[uid]
  }

  /** What a handler leaves of the entry of `s`, the keys and the time. */
  lemma HandlerKeeps(st: State, step: Step, s: Socket, uid: Uid)
    requires s in st.clients && st.clients[s].userUid == Some(uid) && uid in st.ttl
    requires step.Subscribe? || step.Unsubscribe? || step.Run?
    requires step.Subscribe? && step.client == s ==> step.userUid == Some(uid)
    requires step.Unsubscribe? ==> step.client != s
    ensures var g := NextNow(st, step);
            && s in g.clients && g.clients[s].userUid == Some(uid) && uid in g.ttl
            && g.now == st.now
            && (g.clients[s].isAlive || !st.clients[s].isAlive)
            && (g.ttl[uid] == st.ttl[uid] || g.ttl[uid] == st.now + 15000)
  {
    hide SubscribeNow, UnsubscribeNow, ExpiryNow;
    match step
    case Subscribe(client, userUid, reset) => SubscribeFrame(st, client, userUid, reset);
    case Unsubscribe(client, userUid) => UnsubscribeFrame(st, client, userUid);
    case Run(i) =>
      if i < |st.tasks| && st.tasks[i].Notify? {
        ExpiryFrame(st.(tasks := Drop(st.tasks, i)), st.tasks[i].inst, st.tasks[i].uid);
      }
  }

  /** A pong renews the status and the key of the user that its socket is tracked as. */
  lemma PongRenews(st: State, s: Socket, uid: Uid)
    requires s in st.clients && st.clients[s].userUid == Some(uid)
    ensures var g := NextNow(st, Pong(s));
            && g.clients == st.clients[s := Meta(Some(uid), true)] && g.now == st.now && g.tasks == st.tasks
            && g.hash == st.hash + {uid} && g.ttl == st.ttl[uid := st.now + 15000]
  {
  }

  lemma PongKeeps(clock: Clock, st: State, client: Socket, s: Socket, uid: Uid)
    requires Leased(clock, st, s, uid)
    ensures Leased(Tick(clock, st, Pong(client), s), NextNow(st, Pong(client)), s, uid)
  {
    if client in st.clients {
      match st.clients[client].userUid
      case Some(v) =>
        hide NextNow;
        PongRenews(st, client, v);
      case None =>
    }
  }

  lemma LeaseStep(clock: Clock, st: State, step: Step, s: Socket, uid: Uid)
    requires Leased(clock, st, s, uid) && OnTime(clock, st, step, s, uid)
    ensures Leased(Tick(clock, st, step, s), NextNow(st, step), s, uid)
  {
    if step.Subscribe? || step.Unsubscribe? || step.Run? {
      hide NextNow;
      HandlerKeeps(st, step, s, uid);
    } else if step.Pong? {
      hide NextNow, Leased, OnTime, Tick;
      PongKeeps(clock, st, step.client, s, uid);
    } else {
      hide Next;
      StepFrame(st, step);
      assert NextNow(st, step) == Next(st, step);
    }
  }

  /** A subscribe takes the lease, if the next ping is at most one interval away. */
  lemma SubscribeLeases(st: State, nextPing: nat, s: Socket, uid: Uid, reset: bool)
    requires s.inst < st.n && st.now <= nextPing <= st.now + 10000
    ensures var g := NextNow(st, Subscribe(s, Some(uid), reset));
            && Leased(Clock(nextPing, None), g, s, uid)
            && (Safe(g, uid) <==> NothingPending(st, uid))
  {
    hide SubscribeNow;
    SubscribeFrame(st, s, Some(uid), reset);
  }

  /** `s` answers every ping in time, up to step `k`. */
  ghost predicate Responsive(clock: Clock, st: State, steps: seq<Step>, k: nat, s: Socket, uid: Uid)
  {
    k <= |steps| &&
    forall j :: 0 <= j < k ==> OnTime(ClockAt(clock, st, steps, j, s), AtNow(st, steps, j), steps[j], s, uid)
  }

  lemma LeasedIsAlive(clock: Clock, st: State, s: Socket, uid: Uid)
    requires Leased(clock, st, s, uid)
    ensures L.Alive(st, s, uid)
  {
  }

  /**
  A leased socket whose pongs land strictly within 5 s of each ping is never
  evicted and its user's key is live at every instant, whatever others do.
  */
  lemma {:induction false} TimelyPongsKeepTheLease(
        clock: Clock, st: State, steps: seq<Step>, k: nat, s: Socket, uid: Uid)
    requires Leased(clock, st, s, uid) && Responsive(clock, st, steps, k, s, uid)
    ensures Leased(ClockAt(clock, st, steps, k, s), AtNow(st, steps, k), s, uid)
    ensures L.Alive(AtNow(st, steps, k), s, uid)
  {
    hide NextNow, OnTime, L.Alive, Leased;
    if k > 0 {
      TimelyPongsKeepTheLease(clock, st, steps, k - 1, s, uid);
      LeaseStep(ClockAt(clock, st, steps, k - 1, s), AtNow(st, steps, k - 1), steps[k - 1], s, uid);
    }
    LeasedIsAlive(ClockAt(clock, st, steps, k, s), AtNow(st, steps, k), s, uid);
  }

  // ---------------------------------------------------------------- staying online

  /** No expiry event of `uid` is on its way. */
  ghost predicate NothingPending(st: State, uid: Uid)
  {
    forall t :: t in st.tasks && t.Notify? ==> t.uid != uid
  }

  ghost predicate Safe(st: State, uid: Uid)
  {
    uid in st.hash && NothingPending(st, uid)
  }

  /** The step is an unsubscribe of `uid`, sent by any tracked client. */
  predicate TakesOffline(st: State, step: Step, uid: Uid)
  {
    step.Unsubscribe? && step.client in st.clients && step.userUid == Some(uid)
  }

  lemma SafeStep(st: State, step: Step, s: Socket, uid: Uid)
    requires Safe(st, uid) && L.Alive(st, s, uid)
    ensures Safe(NextNow(st, step), uid) <==> !TakesOffline(st, step, uid)
    ensures uid in NextNow(st, step).hash <==> !TakesOffline(st, step, uid)
  {
    hide SubscribeNow, UnsubscribeNow, ExpiryNow, Notices;
    match step
    case Subscribe(client, userUid, reset) => SubscribeFrame(st, client, userUid, reset);
    case Unsubscribe(client, userUid) => UnsubscribeFrame(st, client, userUid);
    case Run(i) =>
      if i < |st.tasks| && st.tasks[i].Notify? {
        assert st.tasks[i] in st.tasks;
        ExpiryFrame(st.(tasks := Drop(st.tasks, i)), st.tasks[i].inst, st.tasks[i].uid);
      }
    case Expire(u) =>
      forall t | t in NextNow(st, step).tasks && t.Notify?
        ensures t.uid != uid
      {
        if t !in st.tasks {
          NoticesName(st.n, u, t);
        }
      }
    case _ =>
  }

  ghost predicate OnlineThroughout(st: State, steps: seq<Step>, k: nat, uid: Uid)
    requires k <= |steps|
  {
    forall j :: 0 <= j <= k ==> uid in AtNow(st, steps, j).hash
  }

  ghost predicate NobodyUnsubscribes(st: State, steps: seq<Step>, k: nat, uid: Uid)
    requires k <= |steps|
  {
    forall j :: 0 <= j < k ==> !TakesOffline(AtNow(st, steps, j), steps[j], uid)
  }

  lemma {:induction false} SafeThroughout(clock: Clock, st: State, steps: seq<Step>, k: nat, s: Socket, uid: Uid)
    requires Leased(clock, st, s, uid) && Responsive(clock, st, steps, k, s, uid) && Safe(st, uid)
    ensures OnlineThroughout(st, steps, k, uid) <==> NobodyUnsubscribes(st, steps, k, uid)
    ensures NobodyUnsubscribes(st, steps, k, uid) ==> Safe(AtNow(st, steps, k), uid)
  {
    hide NextNow, OnTime, L.Alive, Leased, NothingPending, TakesOffline;
    if k == 0 {
      assert AtNow(st, steps, 0) == st;
    } else {
      var m := k - 1;
      SafeThroughout(clock, st, steps, m, s, uid);
      TimelyPongsKeepTheLease(clock, st, steps, m, s, uid);
      assert AtNow(st, steps, k) == NextNow(AtNow(st, steps, m), steps[m]);
      if NobodyUnsubscribes(st, steps, m, uid) {
        SafeStep(AtNow(st, steps, m), steps[m], s, uid);
      }
    }
  }

  /**
  From a subscribe on, with the next ping at most one interval away: a socket whose
  pongs are timely stays tracked with a live key, and with no expiry event pending
  at the subscribe its user is online throughout if and only if no tracked client
  unsubscribes that user.
  */
  lemma {:induction false} TimelyPongsKeepOnline(
        st: State, nextPing: nat, reset: bool, steps: seq<Step>, k: nat, s: Socket, uid: Uid)
    requires s.inst < st.n && st.now <= nextPing <= st.now + 10000 && k <= |steps|
    requires Responsive(Clock(nextPing, None), NextNow(st, Subscribe(s, Some(uid), reset)), steps, k, s, uid)
    ensures var back := NextNow(st, Subscribe(s, Some(uid), reset));
            && L.Alive(AtNow(back, steps, k), s, uid)
            && (NothingPending(st, uid) ==>
                  (OnlineThroughout(back, steps, k, uid) <==> NobodyUnsubscribes(back, steps, k, uid)))
  {
    hide NextNow, Responsive, Leased, Safe, L.Alive, OnlineThroughout, NobodyUnsubscribes, NothingPending;
    var back := NextNow(st, Subscribe(s, Some(uid), reset));
    SubscribeLeases(st, nextPing, s, uid, reset);
    TimelyPongsKeepTheLease(Clock(nextPing, None), back, steps, k, s, uid);
    if NothingPending(st, uid) {
      SafeThroughout(Clock(nextPing, None), back, steps, k, s, uid);
    }
  }
}
