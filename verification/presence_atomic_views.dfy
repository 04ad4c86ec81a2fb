/**
Views against the hash when handlers run one at a time, on any number of server
instances: a change of a user's presence keeps a watcher informed exactly if it
is broadcast where the watcher is.
*/
module PresenceAtomicViews {
  import opened Prelude
  import opened TtlKeys
  import opened PresenceState
  import opened PresenceAtomic
  import opened PresenceEffects
  import opened PresenceViews
  import opened PresenceStandpoint
  import opened PresenceSettled
  import opened PresenceDrift

  // ---------------------------------------------------------------- between handlers

  /** The watcher believes only what is so, and with a full list misses exactly whom a pong brought back unheard. */
  ghost predicate Fits(p: Standpoint, online: bool)
  {
    (p.told ==> online) && (p.listed ==> (online && !p.told <==> p.missed))
  }

  ghost predicate Informed(st: State, s: Socket, u: Uid)
  {
    Watching(st, s) ==> Fits(StandOf(st, s, u), u in st.hash)
  }

  lemma InformedAgrees(st: State, s: Socket, u: Uid)
    requires ExactAt(st, s, u)
    ensures Informed(st, s, u) <==> Agrees(st, s, u)
  {
    hide SeenBy, EventsFor, LastTold, Missed, GotList;
    SeenIsTold(st, s, u);
  }

  ghost predicate ExactAt(st: State, s: Socket, u: Uid)
  {
    Exact(SlotOf(st, s), st.trace, s, u)
  }

  /**
  If the handler changes whether `u` is online, it broadcasts that where `s` is,
  or there is nothing to tell: no list that the user is missing from, no belief
  to correct.
  */
  ghost predicate Heard(st: State, step: Step, s: Socket, u: Uid)
  {
    match step
    case Subscribe(client, userUid, reset) =>
      client.inst < st.n && userUid == Some(u) && u !in st.hash ==>
        client.inst == s.inst || !Watching(st, s) || !GotList(Events(st, s), s)
    case Unsubscribe(client, userUid) =>
      client in st.clients && userUid == Some(u) && u in st.hash ==>
        client.inst == s.inst || !Watching(st, s) || u !in Seen(st, s)
    case Run(i) =>
      i < |st.tasks| && st.tasks[i].Notify? && st.tasks[i].uid == u && u in st.hash ==>
        st.tasks[i].inst == s.inst || !Watching(st, s) || u !in Seen(st, s)
    case _ => true
  }

  // ---------------------------------------------------------------- the handlers

  /** The standpoint of a watcher, or of a newcomer. */
  function Standpoint0(st: State, s: Socket, u: Uid): Standpoint
  {
    if Watching(st, s) then StandOf(st, s, u) else NEWCOMER
  }

  lemma SetExSlot(st: State, uid: Uid, s: Socket, u: Uid)
    ensures SlotOf(SetEx(st, uid), s) == SlotOf(st, s) && SetEx(st, uid).trace == st.trace
    ensures Watching(SetEx(st, uid), s) <==> Watching(st, s)
  {
  }

  /** setStatus: the slot is as before, the trace may be longer by an insertion. */
  lemma SetStatusStand(st: State, uid: Uid, cause: Cause, s: Socket, u: Uid)
    requires ExactAt(st, s, u) && (cause == BySubscribe || cause == ByPong)
    ensures var after := SetStatus(st, uid, cause);
            && ExactAt(after, s, u) && after.hash == st.hash + {uid} && (Watching(after, s) <==> Watching(st, s))
            && (Watching(st, s) ==>
                  StandOf(after, s, u) ==
                  if uid in st.hash then StandOf(st, s, u) else After(StandOf(st, s, u), Inserted(uid, cause), s, u))
  {
    hide Exact, Stand, After, SlotOf;
    var t := if cause == ByPong then PongHSet(uid) else SubHSet(Socket(0, 0), uid, false);
    var stored := HSet(st, uid, cause);
    assert Work(st, t) == stored;
    StoredWatching(st, uid, cause, s);
    WorkExact(st, t, s, u);
    if Watching(st, s) {
      StandAfterWork(st, t, s, u);
    }
    SetExSlot(stored, uid, s, u);
  }

  lemma StoredWatching(st: State, uid: Uid, cause: Cause, s: Socket)
    ensures Watching(HSet(st, uid, cause), s) <==> Watching(st, s)
    ensures Watching(HDel(st, uid, cause), s) <==> Watching(st, s)
    ensures HSet(st, uid, cause).hash == st.hash + {uid} && HDel(st, uid, cause).hash == st.hash - {uid}
  {
  }

  lemma SubscribeStand(st: State, client: Socket, uid: Uid, reset: bool, s: Socket, u: Uid)
    requires ExactAt(st, s, u) && Watching(SubscribeNow(st, client, Some(uid), reset), s)
    ensures var before := Standpoint0(st, s, u);
            var stored := if uid in st.hash || !Watching(st, s) then before
                          else After(before, Inserted(uid, BySubscribe), s, u);
            var told := After(stored, Announced(client, uid, !reset), s, u);
            && (Watching(st, s) || client == s)
            && StandOf(SubscribeNow(st, client, Some(uid), reset), s, u) ==
               if reset then After(told, Listed(client, st.hash + {uid}), s, u) else told
  {
    hide Exact, Stand, After, SlotOf, Greet, Snapshot, SetStatus;
    var base := SetStatus(st, uid, BySubscribe);
    SetStatusStand(st, uid, BySubscribe, s, u);
    var t := SubTail(client, uid, reset);
    var g := Greet(base, client, Some(uid), reset);
    assert Work(base, t) == g;
    GreetFrame(base, client, Some(uid), reset);
    WorkExact(base, t, s, u);
    if reset {
      ListTasks(g, client);
      SnapshotFrame(g, client, g.hash);
      StandAfterWork(g, SubReply(client, g.hash), s, u);
    }
    StandAfterWork(base, t, s, u);
  }

  lemma SubscribeInforms(st: State, client: Socket, uid: Uid, reset: bool, s: Socket, u: Uid)
    requires ExactAt(st, s, u) && Informed(st, s, u) && client.inst < st.n
    ensures Informed(SubscribeNow(st, client, Some(uid), reset), s, u) <==>
            Heard(st, Subscribe(client, Some(uid), reset), s, u)
  {
    hide LastTold, Missed, GotList, EventsFor, SubscribeNow, Exact, Watching;
    SubscribeFrame(st, client, Some(uid), reset);
    var after := SubscribeNow(st, client, Some(uid), reset);
    SubscribeWatching(st, client, Some(uid), reset, s);
    if Watching(after, s) {
      SubscribeStand(st, client, uid, reset, s, u);
    }
  }

  lemma SubscribeWatching(st: State, client: Socket, userUid: Option<Uid>, reset: bool, s: Socket)
    ensures Watching(st, s) ==> Watching(SubscribeNow(st, client, userUid, reset), s)
  {
    hide SubscribeNow;
    SubscribeFrame(st, client, userUid, reset);
  }

  /** A step that is the same in both machines. */
  lemma PlainInforms(st: State, step: Step, s: Socket, u: Uid)
    requires NoTask(st, step) && ExactAt(st, s, u) && Informed(st, s, u)
    ensures Informed(Next(st, step), s, u)
  {
    hide Next, Stand, Exact, Watching, EventsFor;
    StepFrame(st, step);
    if Watching(Next(st, step), s) {
      StandAfterStep(st, step, s, u);
    }
  }

  lemma BagHidden(st: State, t: Task, s: Socket, u: Uid)
    ensures ExactAt(With(st, t), s, u) <==> ExactAt(st, s, u)
    ensures Informed(With(st, t), s, u) <==> Informed(st, s, u)
  {
    assert SlotOf(With(st, t), s) == SlotOf(st, s);
  }

  /** The full list puts everything right. */
  lemma ListInforms(st: State, client: Socket, s: Socket, u: Uid)
    requires ExactAt(st, s, u) && Informed(st, s, u)
    ensures Informed(Snapshot(st, client, st.hash), s, u)
  {
    hide Snapshot, LastTold, Missed, GotList, EventsFor, Exact, SlotOf;
    ListTasks(st, client);
    SnapshotFrame(st, client, st.hash);
    if Watching(st, s) {
      StandAfterWork(st, SubReply(client, st.hash), s, u);
    }
  }

  lemma WatchInforms(st: State, client: Socket, reset: bool, s: Socket, u: Uid)
    requires ExactAt(st, s, u) && Informed(st, s, u) && client.inst < st.n
    ensures Informed(SubscribeNow(st, client, None, reset), s, u)
  {
    hide Next, Greet, Snapshot, Informed, With, Exact, SlotOf;
    var step, g := Subscribe(client, None, reset), Greet(st, client, None, reset);
    WatchTasks(st, client, reset);
    PlainInforms(st, step, s, u);
    NextExact(st, step, s, u);
    if reset {
      BagHidden(g, SubGetAll(client), s, u);
      ListInforms(g, client, s, u);
    }
  }

  lemma HDelStand(st: State, uid: Uid, cause: Cause, s: Socket, u: Uid)
    requires ExactAt(st, s, u) && (cause == ByUnsubscribe || cause == ByExpiry)
    ensures var after := HDel(st, uid, cause);
            && ExactAt(after, s, u) && after.hash == st.hash - {uid} && (Watching(after, s) <==> Watching(st, s))
            && (Watching(st, s) ==>
                  StandOf(after, s, u) ==
                  if uid in st.hash then After(StandOf(st, s, u), Removed(uid, cause), s, u) else StandOf(st, s, u))
  {
    hide Exact, Stand, After, SlotOf;
    var t := if cause == ByExpiry then ExpHDel(0, uid) else UnsubHDel(Socket(0, 0), uid);
    assert Work(st, t) == HDel(st, uid, cause);
    StoredWatching(st, uid, cause, s);
    WorkExact(st, t, s, u);
    if Watching(st, s) {
      StandAfterWork(st, t, s, u);
    }
  }

  /** An unsubscribe that names its user, by a tracked socket. */
  lemma UnsubscribeInforms(st: State, client: Socket, uid: Uid, s: Socket, u: Uid)
    requires ExactAt(st, s, u) && Informed(st, s, u) && client in st.clients
    ensures Informed(UnsubscribeNow(st, client, Some(uid)), s, u) <==>
            Heard(st, Unsubscribe(client, Some(uid)), s, u)
  {
    hide LastTold, Missed, GotList, EventsFor, SeenBy, TellOffline, HDel, Watching, SlotOf;
    var removed := HDel(st, uid, ByUnsubscribe);
    HDelStand(st, uid, ByUnsubscribe, s, u);
    UnsubscribeTasks(removed, client, uid);
    TellOfflineFrame(removed, client, uid);
    LeavesOnly(st, client, uid, s);
    SeenIsTold(st, s, u);
    if Watching(UnsubscribeNow(st, client, Some(uid)), s) {
      StandAfterWork(removed, UnsubTail(client, uid), s, u);
    }
  }

  lemma LeavesOnly(st: State, client: Socket, uid: Uid, s: Socket)
    requires client in st.clients
    ensures Watching(UnsubscribeNow(st, client, Some(uid)), s) <==> Watching(st, s) && s != client
  {
    hide UnsubscribeNow;
    UnsubscribeFrame(st, client, Some(uid));
  }

  lemma ExpiryInforms(st: State, inst: nat, uid: Uid, s: Socket, u: Uid)
    requires ExactAt(st, s, u) && Informed(st, s, u)
    ensures Informed(ExpiryNow(st, inst, uid), s, u) <==>
            (uid == u && u in st.hash ==> inst == s.inst || !Watching(st, s) || u !in Seen(st, s))
  {
    hide LastTold, Missed, GotList, EventsFor, SeenBy, Broadcast, HDel, Watching, SlotOf;
    var removed, t := HDel(st, uid, ByExpiry), ExpTail(inst, uid, uid in st.hash);
    HDelStand(st, uid, ByExpiry, s, u);
    assert Work(removed, t) == ExpiryNow(st, inst, uid);
    ExpiryWatching(st, inst, uid, s);
    SeenIsTold(st, s, u);
    if Watching(st, s) {
      StandAfterWork(removed, t, s, u);
    }
    BroadcastFrame(removed, inst, None, OneUser(uid, Offline));
  }

  lemma ExpiryWatching(st: State, inst: nat, uid: Uid, s: Socket)
    ensures Watching(ExpiryNow(st, inst, uid), s) <==> Watching(st, s)
  {
    hide ExpiryNow;
    ExpiryFrame(st, inst, uid);
  }

  lemma PongInforms(st: State, client: Socket, uid: Uid, s: Socket, u: Uid)
    requires ExactAt(st, s, u) && Informed(st, s, u)
    requires client in st.clients && st.clients[client].userUid == Some(uid)
    ensures Informed(PongNow(st, client), s, u)
  {
    hide LastTold, Missed, GotList, EventsFor, Exact, SetStatus, Watching;
    var alive := MarkAlive(st, client);
    AliveSlot(st, client, s);
    SetStatusStand(alive, uid, ByPong, s, u);
  }

  lemma AliveSlot(st: State, client: Socket, s: Socket)
    requires client in st.clients
    ensures SlotOf(MarkAlive(st, client), s) == SlotOf(st, s)
    ensures Watching(MarkAlive(st, client), s) <==> Watching(st, s)
  {
  }

  /** A handler keeps the watcher informed exactly if what it changes is heard. */
  lemma NextInforms(st: State, step: Step, s: Socket, u: Uid)
    requires ExactAt(st, s, u) && Informed(st, s, u)
    ensures Informed(NextNow(st, step), s, u) <==> Heard(st, step, s, u)
  {
    hide Informed, SubscribeNow, ExpiryNow, ExactAt, Watching, Seen, GotList, Events;
    match step
    case Subscribe(client, userUid, reset) =>
      if client.inst < st.n {
        if userUid.Some? {
          SubscribeInforms(st, client, userUid.value, reset, s, u);
        } else {
          WatchInforms(st, client, reset, s, u);
        }
      }
    case Unsubscribe(client, userUid) =>
      if client in st.clients && userUid.Some? {
        hide UnsubscribeNow;
        UnsubscribeInforms(st, client, userUid.value, s, u);
      } else {
        PlainInforms(st, step, s, u);
      }
    case Pong(client) =>
      if client in st.clients && st.clients[client].userUid.Some? {
        PongInforms(st, client, st.clients[client].userUid.value, s, u);
      } else {
        PlainInforms(st, step, s, u);
      }
    case Run(i) =>
      if i < |st.tasks| && st.tasks[i].Notify? {
        var popped := st.(tasks := Drop(st.tasks, i));
        PoppedInformed(st, popped, s, u);
        ExpiryInforms(popped, st.tasks[i].inst, st.tasks[i].uid, s, u);
      }
    case _ => PlainInforms(st, step, s, u);
  }

  lemma PoppedInformed(st: State, popped: State, s: Socket, u: Uid)
    requires popped == st.(tasks := popped.tasks)
    ensures ExactAt(popped, s, u) <==> ExactAt(st, s, u)
    ensures Informed(popped, s, u) <==> Informed(st, s, u)
    ensures (Watching(popped, s) <==> Watching(st, s)) && Seen(popped, s) == Seen(st, s)
  {
    assert SlotOf(popped, s) == SlotOf(st, s);
  }

  // ---------------------------------------------------------------- whole runs

  ghost predicate AllInformed(st: State, steps: seq<Step>, m: nat, s: Socket, u: Uid)
    requires m <= |steps|
  {
    forall k :: 0 <= k <= m ==> Informed(AtNow(st, steps, k), s, u)
  }

  ghost predicate AllHeard(st: State, steps: seq<Step>, m: nat, s: Socket, u: Uid)
    requires m <= |steps|
  {
    forall k :: 0 <= k < m ==> Heard(AtNow(st, steps, k), steps[k], s, u)
  }

  lemma {:induction false} ExactNow(n: nat, sockets: set<Socket>, steps: seq<Step>, k: nat, s: Socket, u: Uid)
    requires k <= |steps|
    ensures ExactAt(AtNow(Init(n, sockets), steps, k), s, u)
  {
    hide Next, NextNow, Exact, SlotOf;
    var fine := AtomicRunsAreRuns(Init(n, sockets), steps, k);
    AlwaysExact(n, sockets, fine, |fine|, s, u);
  }

  lemma InitInformed(n: nat, sockets: set<Socket>, s: Socket, u: Uid)
    ensures Informed(Init(n, sockets), s, u)
  {
  }

  lemma {:induction false} InformedIffHeard(
        n: nat, sockets: set<Socket>, steps: seq<Step>, m: nat, s: Socket, u: Uid)
    requires m <= |steps|
    ensures AllInformed(Init(n, sockets), steps, m, s, u) <==> AllHeard(Init(n, sockets), steps, m, s, u)
  {
    hide NextNow, Informed, Heard, ExactAt;
    var st := Init(n, sockets);
    if m == 0 {
      InitInformed(n, sockets, s, u);
      assert AtNow(st, steps, 0) == st;
    } else {
      var k := m - 1;
      InformedIffHeard(n, sockets, steps, k, s, u);
      ExactNow(n, sockets, steps, k, s, u);
      assert AtNow(st, steps, m) == NextNow(AtNow(st, steps, k), steps[k]);
      if AllInformed(st, steps, k, s, u) {
        assert Informed(AtNow(st, steps, k), s, u);
        NextInforms(AtNow(st, steps, k), steps[k], s, u);
      }
    }
  }

  ghost predicate AllAgree(st: State, steps: seq<Step>, m: nat, s: Socket, u: Uid)
    requires m <= |steps|
  {
    forall k :: 0 <= k <= m ==> Agrees(AtNow(st, steps, k), s, u)
  }

  /**
  For any number of instances: view and hash of a watcher and a user agree between
  all handlers of a run if and only if every change of the user's presence is
  heard, that is, made by a handler on the watcher's instance, or by a pong, or of
  no interest to it.
  */
  lemma {:induction false} AgreesIffHeard(
        n: nat, sockets: set<Socket>, steps: seq<Step>, m: nat, s: Socket, u: Uid)
    requires m <= |steps|
    ensures AllAgree(Init(n, sockets), steps, m, s, u) <==> AllHeard(Init(n, sockets), steps, m, s, u)
  {
    hide NextNow, Informed, Agrees, ExactAt, AllHeard;
    InformedIffHeard(n, sockets, steps, m, s, u);
    forall k | 0 <= k <= m
      ensures Informed(AtNow(Init(n, sockets), steps, k), s, u) <==> Agrees(AtNow(Init(n, sockets), steps, k), s, u)
    {
      ExactNow(n, sockets, steps, k, s, u);
      InformedAgrees(AtNow(Init(n, sockets), steps, k), s, u);
    }
  }

  /** Between handlers nothing is outstanding, so there a view that comes right is one that is right. */
  lemma {:induction false} BetweenHandlers(
        n: nat, sockets: set<Socket>, steps: seq<Step>, k: nat, s: Socket, u: Uid)
    requires k <= |steps|
    ensures var st := AtNow(Init(n, sockets), steps, k);
            AtRest(st, s, u) && (ComesRight(st, s, u) <==> Agrees(st, s, u))
  {
    hide Next, NextNow, ComesRight, Agrees, OnlyNotices;
    var fine := AtomicRunsAreRuns(Init(n, sockets), steps, k);
    AlwaysOnlyNotices(n, sockets, steps, k);
    NoticesAtRest(AtNow(Init(n, sockets), steps, k), s, u);
    RestingComesRight(n, sockets, fine, s, u);
  }

  lemma NoticesAtRest(st: State, s: Socket, u: Uid)
    requires OnlyNotices(st)
    ensures AtRest(st, s, u)
  {
  }

  ghost predicate AllComeRightNow(st: State, steps: seq<Step>, m: nat, s: Socket, u: Uid)
    requires m <= |steps|
  {
    forall k :: 0 <= k <= m ==> ComesRight(AtNow(st, steps, k), s, u)
  }

  /** So, handlers running one at a time, views come right throughout if and only if every change is heard. */
  lemma {:induction false} ComesRightIffHeard(
        n: nat, sockets: set<Socket>, steps: seq<Step>, m: nat, s: Socket, u: Uid)
    requires m <= |steps|
    ensures AllComeRightNow(Init(n, sockets), steps, m, s, u) <==> AllHeard(Init(n, sockets), steps, m, s, u)
  {
    hide NextNow, ComesRight, Agrees, AllHeard;
    AgreesIffHeard(n, sockets, steps, m, s, u);
    forall k | 0 <= k <= m
      ensures ComesRight(AtNow(Init(n, sockets), steps, k), s, u) <==> Agrees(AtNow(Init(n, sockets), steps, k), s, u)
    {
      BetweenHandlers(n, sockets, steps, k, s, u);
    }
  }

  // ---------------------------------------------------------------- one instance

  lemma {:induction false} PlacedNow(n: nat, sockets: set<Socket>, steps: seq<Step>, k: nat)
    requires k <= |steps|
    ensures Placed(AtNow(Init(n, sockets), steps, k)) && AtNow(Init(n, sockets), steps, k).n == n
  {
    hide Next, NextNow, Placed;
    var fine := AtomicRunsAreRuns(Init(n, sockets), steps, k);
    AlwaysPlaced(n, sockets, fine, |fine|);
  }

  lemma AloneHeard(st: State, step: Step, s: Socket, u: Uid)
    requires Placed(st) && st.n == 1
    ensures Heard(st, step, s, u)
  {
    hide SeenBy, EventsFor, GotList;
    assert s in st.clients ==> s.inst == 0;
    if step.Run? && step.i < |st.tasks| {
      assert st.tasks[step.i] in st.tasks;
    }
  }

  lemma {:induction false} AlwaysInformed(sockets: set<Socket>, steps: seq<Step>, k: nat, s: Socket, u: Uid)
    requires k <= |steps|
    ensures Informed(AtNow(Init(1, sockets), steps, k), s, u)
  {
    hide NextNow, Informed, Heard, Placed;
    forall j | 0 <= j < k
      ensures Heard(AtNow(Init(1, sockets), steps, j), steps[j], s, u)
    {
      PlacedNow(1, sockets, steps, j);
      AloneHeard(AtNow(Init(1, sockets), steps, j), steps[j], s, u);
    }
    InformedIffHeard(1, sockets, steps, k, s, u);
  }

  /**
  What an open tracked client believes is part of the hash; with a full list it
  is the hash without exactly those users whom a pong brought back unheard.
  */
  ghost predicate FollowsTheHash(st: State, s: Socket)
  {
    Watching(st, s) ==>
      && Seen(st, s) <= st.hash
      && (GotList(Events(st, s), s) ==> st.hash - Seen(st, s) == set u | u in st.hash && Missed(Events(st, s), s, u))
  }

  lemma InformedFollows(st: State, s: Socket)
    requires forall u :: ExactAt(st, s, u) && Informed(st, s, u)
    ensures FollowsTheHash(st, s)
  {
    hide SeenBy, EventsFor, LastTold, Missed, GotList, SlotOf;
    if Watching(st, s) {
      forall u
        ensures u in Seen(st, s) ==> u in st.hash
        ensures GotList(Events(st, s), s) && u in st.hash ==> (u !in Seen(st, s) <==> Missed(Events(st, s), s, u))
      {
        assert ExactAt(st, s, u) && Informed(st, s, u);
        SeenIsTold(st, s, u);
      }
    }
  }

  /** View theorem for one instance, handlers one at a time. */
  lemma {:induction false} ViewsFollowTheHash(sockets: set<Socket>, steps: seq<Step>, k: nat, s: Socket)
    requires k <= |steps|
    ensures FollowsTheHash(AtNow(Init(1, sockets), steps, k), s)
  {
    hide NextNow, Informed, ExactAt, FollowsTheHash;
    forall u
      ensures var st := AtNow(Init(1, sockets), steps, k); ExactAt(st, s, u) && Informed(st, s, u)
    {
      AlwaysInformed(sockets, steps, k, s, u);
      ExactNow(1, sockets, steps, k, s, u);
    }
    InformedFollows(AtNow(Init(1, sockets), steps, k), s);
  }

  /** `s` is open and tracked, and since its last full list no pong inserted an absent user. */
  ghost predicate NoPongSinceList(st: State, s: Socket)
  {
    Watching(st, s) &&
    var events := Events(st, s);
    exists i :: 0 <= i < |events| && FullList(s)(events[i]) &&
                forall j :: i < j < |events| ==> !(events[j].Inserted? && events[j].cause == ByPong)
  }

  lemma NobodyMissed(st: State, s: Socket, u: Uid)
    requires NoPongSinceList(st, s)
    ensures !Missed(Events(st, s), s, u)
  {
    hide EventsFor;
    MissedMeaning(Events(st, s), s, u);
  }

  lemma ListGot(st: State, s: Socket)
    requires NoPongSinceList(st, s)
    ensures GotList(Events(st, s), s) && Watching(st, s)
  {
    hide EventsFor;
    StandingMeaning(Events(st, s), FullList(s), Never());
  }

  ghost predicate ViewExact(st: State, s: Socket)
  {
    Seen(st, s) == st.hash
  }

  /** If no pong inserted an absent user since the full list, the view is the hash. */
  lemma {:induction false} ViewIsTheHash(sockets: set<Socket>, steps: seq<Step>, k: nat, s: Socket)
    requires k <= |steps|
    requires NoPongSinceList(AtNow(Init(1, sockets), steps, k), s)
    ensures ViewExact(AtNow(Init(1, sockets), steps, k), s)
  {
    hide NextNow, Missed, SeenBy, EventsFor, GotList, NoPongSinceList;
    var st := AtNow(Init(1, sockets), steps, k);
    ViewsFollowTheHash(sockets, steps, k, s);
    ListGot(st, s);
    forall u
      ensures !Missed(Events(st, s), s, u)
    {
      NobodyMissed(st, s, u);
    }
    var seen := Seen(st, s);
    assert st.hash - seen == {};
    assert forall u :: u in st.hash && u !in seen ==> u in st.hash - seen;
  }

  // ---------------------------------------------------------------- two instances

  /** A watcher that has just got the list of nobody. */
  lemma FirstList(n: nat, sockets: set<Socket>, s: Socket)
    requires s in sockets && s.inst < n
    ensures var st := AtNow(Init(n, sockets), [Subscribe(s, None, true)], 1);
            && st == SubscribeNow(Init(n, sockets), s, None, true)
            && st.hash == {} && st.tasks == [] && st.n == n && st.now == 0 && Watching(st, s)
            && (forall u :: StandOf(st, s, u) == Standpoint(false, false, true))
  {
    hide Stand;
    var st := Init(n, sockets);
    assert AtNow(st, [Subscribe(s, None, true)], 0) == st;
    var after := SubscribeNow(st, s, None, true);
    assert Events(after, s) == [Listed(s, {})];
    forall u
      ensures StandOf(after, s, u) == Standpoint(false, false, true)
    {
      StandNext([], Listed(s, {}), s, u);
      assert [] + [Listed(s, {})] == [Listed(s, {})];
    }
  }

  /** One more atomic step. */
  lemma NowSnoc(st: State, steps: seq<Step>, step: Step)
    ensures AtNow(st, steps + [step], |steps| + 1) == NextNow(AtNow(st, steps, |steps|), step)
  {
    hide NextNow;
    NowPrefix(st, steps, [step], |steps|);
  }

  lemma {:induction false} NowPrefix(st: State, steps: seq<Step>, more: seq<Step>, k: nat)
    requires k <= |steps|
    ensures AtNow(st, steps + more, k) == AtNow(st, steps, k)
  {
    hide NextNow;
    if k > 0 {
      NowPrefix(st, steps, more, k - 1);
    }
  }

  /**
  With a second instance a watcher that has the full list is never told of a user
  who signs in there.
  */
  lemma {:induction false} SecondInstanceIsNotHeard(s: Socket, other: Socket, u: Uid)
    requires s.inst == 0 && other.inst == 1
    ensures var st := AtNow(Init(2, {s, other}), [Subscribe(s, None, true)] + [Subscribe(other, Some(u), false)], 2);
            && st.tasks == [] && u in st.hash && Watching(st, s) && u !in Seen(st, s) && !Agrees(st, s, u)
  {
    hide NextNow, Stand, SubscribeNow, SeenBy, EventsFor, Exact;
    var first, second := [Subscribe(s, None, true)], Subscribe(other, Some(u), false);
    var st1 := AtNow(Init(2, {s, other}), first, 1);
    FirstList(2, {s, other}, s);
    NowSnoc(Init(2, {s, other}), first, second);
    var st2 := SubscribeNow(st1, other, Some(u), false);
    assert NextNow(st1, second) == st2 by {
      NextIsSubscribe(st1, other, Some(u), false);
    }
    SubscribeFrame(st1, other, Some(u), false);
    ExactNow(2, {s, other}, first, 1, s, u);
    ExactNow(2, {s, other}, first + [second], 2, s, u);
    SubscribeStand(st1, other, u, false, s, u);
    SeenIsTold(st2, s, u);
    StandParts(st2, s, u);
  }

  lemma NextIsSubscribe(st: State, client: Socket, userUid: Option<Uid>, reset: bool)
    requires client.inst < st.n
    ensures NextNow(st, Subscribe(client, userUid, reset)) == SubscribeNow(st, client, userUid, reset)
  {
  }

  lemma StandParts(st: State, s: Socket, u: Uid)
    ensures StandOf(st, s, u).missed == Missed(Events(st, s), s, u)
    ensures StandOf(st, s, u).listed == GotList(Events(st, s), s)
  {
  }

  /** An expiry handled elsewhere first leaves the watcher untold and its own instance nothing to tell. */
  lemma ExpiredElsewhere(st: State, inst: nat, s: Socket, u: Uid)
    requires OnlyNotices(st) && Watching(st, s) && u in Seen(st, s) && inst != s.inst
    ensures var after := ExpiryNow(st, inst, u);
            Forgotten(after, s, u) && after.tasks == st.tasks && after.n == st.n
  {
    hide SeenBy, ExpiryNow, SlotOf;
    ExpirySlot(st, inst, u, s);
    ExpiryFrame(st, inst, u);
  }

  lemma NothingToExpire(st: State, inst: nat, s: Socket, u: Uid)
    requires Forgotten(st, s, u)
    ensures var after := ExpiryNow(st, inst, u);
            Forgotten(after, s, u) && after.tasks == st.tasks
  {
    hide SeenBy, ExpiryNow, SlotOf;
    ExpirySlot(st, inst, u, s);
    ExpiryFrame(st, inst, u);
  }

  /** The key of `u` expires, the other instance gets the event first. */
  function ExpiryElsewhereFirst(u: Uid): seq<Step>
  {
    [Advance(TTL_EXPIRATION_TIME), Expire(u), Run(1), Run(0)]
  }

  lemma {:induction false} ExpiryElsewhereFirstRuns(st: State, s: Socket, u: Uid)
    requires st.tasks == [] && st.n == 2 && s.inst == 0 && Watching(st, s) && u in Seen(st, s)
    requires u in st.ttl && st.ttl[u] <= st.now + TTL_EXPIRATION_TIME
    ensures var after := AtNow(st, ExpiryElsewhereFirst(u), 4);
            after.tasks == [] && Forgotten(after, s, u)
  {
    hide ExpiryNow, SeenBy, Forgotten, SlotOf;
    var steps := ExpiryElsewhereFirst(u);
    assert AtNow(st, steps, 0) == st;
    var due := AtNow(st, steps, 2);
    SilentlyDue(st, s, u);
    var first := due.(tasks := [Notify(0, u)]);
    assert Drop(due.tasks, 1) == [Notify(0, u)];
    PoppedInformed(due, first, s, u);
    ExpiredElsewhere(first, 1, s, u);
    var third := AtNow(st, steps, 3);
    assert third == ExpiryNow(first, 1, u);
    var last := third.(tasks := []);
    assert Drop(third.tasks, 0) == [];
    PoppedForgotten(third, last, s, u);
    NothingToExpire(last, 0, s, u);
    assert AtNow(st, steps, 4) == ExpiryNow(last, 0, u);
  }

  lemma PoppedForgotten(st: State, popped: State, s: Socket, u: Uid)
    requires Forgotten(st, s, u) && popped == st.(tasks := [])
    ensures Forgotten(popped, s, u)
  {
    assert SlotOf(popped, s) == SlotOf(st, s);
  }

  /** Time passes and the key expires; the watcher sees nothing of it. */
  lemma SilentlyDue(st: State, s: Socket, u: Uid)
    requires st.tasks == [] && st.n == 2 && u in st.ttl && st.ttl[u] <= st.now + TTL_EXPIRATION_TIME
    ensures var due := AtNow(st, ExpiryElsewhereFirst(u), 2);
            && due.tasks == [Notify(0, u), Notify(1, u)] && due.n == 2
            && SlotOf(due, s) == SlotOf(st, s) && (Watching(due, s) <==> Watching(st, s))
  {
    hide Notices;
    assert AtNow(st, ExpiryElsewhereFirst(u), 0) == st;
    assert AtNow(st, ExpiryElsewhereFirst(u), 1) == st.(now := st.now + TTL_EXPIRATION_TIME);
    TwoNotices(u);
  }

  lemma TwoNotices(u: Uid)
    ensures Notices(2, u) == [Notify(0, u), Notify(1, u)]
  {
    assert Notices(0, u) == [];
    assert Notices(1, u) == [Notify(0, u)];
  }

  lemma {:induction false} NowConcat(st: State, a: seq<Step>, b: seq<Step>, k: nat)
    requires k <= |b|
    ensures AtNow(st, a + b, |a| + k) == AtNow(AtNow(st, a, |a|), b, k)
  {
    hide NextNow;
    if k == 0 {
      NowPrefix(st, a, b, |a|);
    } else {
      NowConcat(st, a, b, k - 1);
    }
  }

  /**
  With two instances a watcher can be left believing for good: of two expiry
  handlers the one elsewhere removes the user, and the watcher's own finds nothing
  to report.
  */
  lemma {:induction false} SecondInstanceForgets(s: Socket, a: Socket, u: Uid)
    returns (steps: seq<Step>, fine: seq<Step>)
    requires s.inst == 0 && a.inst == 0 && s != a
    ensures var st := AtNow(Init(2, {s, a}), steps, |steps|);
            st.tasks == [] && Forgotten(st, s, u) && st == At(Init(2, {s, a}), fine, |fine|)
  {
    hide Next, NextNow, Stand, SubscribeNow, SeenBy, EventsFor, Exact, Forgotten;
    var st0, first, second := Init(2, {s, a}), [Subscribe(s, None, true)], Subscribe(a, Some(u), false);
    FirstList(2, {s, a}, s);
    var st1 := AtNow(st0, first, 1);
    NowSnoc(st0, first, second);
    NextIsSubscribe(st1, a, Some(u), false);
    SubscribeFrame(st1, a, Some(u), false);
    ExactNow(2, {s, a}, first, 1, s, u);
    ExactNow(2, {s, a}, first + [second], 2, s, u);
    SubscribeStand(st1, a, u, false, s, u);
    var st2 := AtNow(st0, first + [second], 2);
    SeenIsTold(st2, s, u);
    ExpiryElsewhereFirstRuns(st2, s, u);
    NowConcat(st0, first + [second], ExpiryElsewhereFirst(u), 4);
    steps := first + [second] + ExpiryElsewhereFirst(u);
    fine := AtomicRunsAreRuns(st0, steps, |steps|);
  }
}
