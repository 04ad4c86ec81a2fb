/**
When views and hash agree although handlers interleave, for one watcher, one user
and any number of server instances. A state is on course if the news that is
outstanding will set the watcher's view right in whatever order it is delivered;
every step that leads off course is named by what can be seen before it.
*/
module PresenceSettled {
  import opened Prelude
  import opened TtlKeys
  import opened PresenceState
  import opened PresenceAtomic
  import opened PresenceSafety
  import opened PresenceViews
  import opened PresenceStandpoint

  // ---------------------------------------------------------------- outstanding news

  /** What is outstanding about `u` for `s`: in one task, or in a bag. */
  datatype News = News(
    on: bool,        // an ONLINE that `s` will hear
    off: bool,       // an OFFLINE that `s` will hear
    fetch: bool,     // a list of online users, yet to be fetched, for `s`
    with: bool,      // such a list, fetched, with `u`
    without: bool,   // such a list, fetched, without `u`
    leaving: bool)   // an unsubscribe by which `s` itself takes `u` offline and leaves

  const NO_NEWS := News(false, false, false, false, false, false)

  function Both(p: News, q: News): News
  {
    News(p.on || q.on, p.off || q.off, p.fetch || q.fetch, p.with || q.with, p.without || q.without,
         p.leaving || q.leaving)
  }

  predicate Lists(q: News)
  {
    q.fetch || q.with || q.without
  }

  /** A task once its command is under way that changed Redis; one that has yet to do so holds no news. */
  function NewsOf(t: Task, s: Socket, u: Uid): News
  {
    match t
    case SubSet(client, uid, reset) => SubscribeNews(client, uid, reset, s, u)
    case SubTail(client, uid, reset) => SubscribeNews(client, uid, reset, s, u)
    case SubGetAll(client) => NO_NEWS.(fetch := client == s)
    case SubReply(client, users) =>
      if client == s then NO_NEWS.(with := u in users, without := u !in users) else NO_NEWS
    case UnsubTail(client, uid) =>
      if uid == u && client.inst == s.inst then NO_NEWS.(off := client != s, leaving := client == s) else NO_NEWS
    case ExpTail(inst, uid, removed) => NO_NEWS.(off := uid == u && inst == s.inst && removed)
    case _ => NO_NEWS
  }

  /** A subscribe tells the others of its instance; its own socket it answers, with a list if asked to. */
  function SubscribeNews(client: Socket, uid: Uid, reset: bool, s: Socket, u: Uid): News
  {
    if uid != u || client.inst != s.inst then NO_NEWS
    else if client == s && reset then NO_NEWS.(fetch := true)
    else NO_NEWS.(on := true)
  }

  ghost function Outstanding(tasks: seq<Task>, s: Socket, u: Uid): News
  {
    News(exists t :: t in tasks && NewsOf(t, s, u).on,
         exists t :: t in tasks && NewsOf(t, s, u).off,
         exists t :: t in tasks && NewsOf(t, s, u).fetch,
         exists t :: t in tasks && NewsOf(t, s, u).with,
         exists t :: t in tasks && NewsOf(t, s, u).without,
         exists t :: t in tasks && NewsOf(t, s, u).leaving)
  }

  lemma OutstandingConcat(a: seq<Task>, b: seq<Task>, s: Socket, u: Uid)
    ensures Outstanding(a + b, s, u) == Both(Outstanding(a, s, u), Outstanding(b, s, u))
  {
    hide NewsOf;
  }

  lemma OutstandingOne(t: Task, s: Socket, u: Uid)
    ensures Outstanding([t], s, u) == NewsOf(t, s, u)
  {
    hide NewsOf;
    assert t in [t];
  }

  lemma OutstandingNone(s: Socket, u: Uid)
    ensures Outstanding([], s, u) == NO_NEWS
  {
  }

  /** What is outstanding with, without and instead of task `i`. */
  lemma OutstandingAt(tasks: seq<Task>, i: nat, next: Task, s: Socket, u: Uid)
    requires i < |tasks|
    ensures Outstanding(tasks, s, u) == Both(Outstanding(Drop(tasks, i), s, u), NewsOf(tasks[i], s, u))
    ensures Outstanding(tasks[i := next], s, u) == Both(Outstanding(Drop(tasks, i), s, u), NewsOf(next, s, u))
  {
    hide Outstanding, NewsOf;
    var a, b := tasks[..i], tasks[i + 1..];
    OutstandingConcat(a, b, s, u);
    OutstandingOne(tasks[i], s, u);
    OutstandingOne(next, s, u);
    OutstandingConcat(a + [tasks[i]], b, s, u);
    OutstandingConcat(a, [tasks[i]], s, u);
    OutstandingConcat(a + [next], b, s, u);
    OutstandingConcat(a, [next], s, u);
    SplitAt(tasks, i);
    assert tasks[i := next] == a + [next] + b;
  }

  /** What is outstanding besides task `i`. */
  ghost function Rest(st: State, i: nat, s: Socket, u: Uid): News
    requires i < |st.tasks|
  {
    Outstanding(Drop(st.tasks, i), s, u)
  }

  /** The news that task `i` turns into. */
  function Becomes(st: State, t: Task, s: Socket, u: Uid): News
  {
    match Successor(st, t)
    case Some(next) => NewsOf(next, s, u)
    case None => NO_NEWS
  }

  lemma OutstandingMoved(st: State, i: nat, s: Socket, u: Uid)
    requires i < |st.tasks|
    ensures Outstanding(st.tasks, s, u) == Both(Rest(st, i, s, u), NewsOf(st.tasks[i], s, u))
    ensures Outstanding(Moved(st, i), s, u) == Both(Rest(st, i, s, u), Becomes(st, st.tasks[i], s, u))
  {
    hide Outstanding, NewsOf, Drop;
    var next := Successor(st, st.tasks[i]);
    OutstandingAt(st.tasks, i, if next.Some? then next.value else st.tasks[i], s, u);
  }

  // ---------------------------------------------------------------- agreement

  ghost predicate AtRest(st: State, s: Socket, u: Uid)
  {
    Outstanding(st.tasks, s, u) == NO_NEWS
  }

  /** `s` believes `u` online only if it is, and with a full list misses it only if a pong hid it, and then always. */
  ghost predicate Agrees(st: State, s: Socket, u: Uid)
  {
    Watching(st, s) ==>
      && (u in Seen(st, s) ==> u in st.hash)
      && (GotList(Events(st, s), s) ==> (u in st.hash && u !in Seen(st, s) <==> Missed(Events(st, s), s, u)))
  }

  /** The step delivers outstanding news, without taking `s` into the map. */
  ghost predicate Delivery(st: State, step: Step, s: Socket, u: Uid)
  {
    && step.Run? && step.i < |st.tasks| && NewsOf(st.tasks[step.i], s, u) != NO_NEWS
    && (st.tasks[step.i].SubTail? && st.tasks[step.i].client == s ==> s in st.clients)
  }

  ghost predicate Delivers(st: State, steps: seq<Step>, s: Socket, u: Uid)
  {
    forall k :: 0 <= k < |steps| ==> Delivery(At(st, steps, k), steps[k], s, u)
  }

  /** In whatever order the outstanding news is delivered, in the end view and hash agree. */
  ghost predicate ComesRight(st: State, s: Socket, u: Uid)
  {
    forall steps: seq<Step> ::
      Delivers(st, steps, s, u) && AtRest(At(st, steps, |steps|), s, u) ==> Agrees(At(st, steps, |steps|), s, u)
  }

  /**
  When it does, for a watcher at standpoint `p`. Of a user who is online: if an
  OFFLINE is still to come, it may come last, and then only a watcher without a
  list is right, or one that misses the user by a pong anyway. Of a user who is
  not: no ONLINE and no list with the user may still come.
  */
  predicate Good(p: Standpoint, online: bool, q: News)
  {
    if !online then !q.on && !q.with && (p.told ==> q.off)
    else if q.off then !Lists(q) && (p.listed ==> p.missed && !q.on)
    else if p.told then p.listed && p.missed ==> q.on || Lists(q)
    else q.on || q.fetch || q.with || (!q.without && (p.listed ==> p.missed))
  }

  /** `s` watches and has no unsubscribe of its own under way. */
  ghost predicate Staying(st: State, s: Socket, u: Uid)
  {
    Watching(st, s) && !Outstanding(st.tasks, s, u).leaving
  }

  ghost predicate OnCourse(st: State, s: Socket, u: Uid)
  {
    Staying(st, s, u) ==> Good(StandOf(st, s, u), u in st.hash, Outstanding(st.tasks, s, u))
  }

  /** What holds of every reachable state. */
  ghost predicate Sound(st: State, s: Socket, u: Uid)
  {
    Exact(SlotOf(st, s), st.trace, s, u) && HashStands(st, u)
  }

  lemma NextSound(st: State, step: Step, s: Socket, u: Uid)
    requires Sound(st, s, u)
    ensures Sound(Next(st, step), s, u)
  {
    hide Next, Exact, HashStands, SlotOf;
    NextExact(st, step, s, u);
    NextHashStands(st, step, u);
  }

  lemma {:induction false} AlwaysSound(n: nat, sockets: set<Socket>, steps: seq<Step>, k: nat, s: Socket, u: Uid)
    requires k <= |steps|
    ensures Sound(At(Init(n, sockets), steps, k), s, u)
  {
    hide Next, Exact, HashStands, SlotOf;
    AlwaysExact(n, sockets, steps, k, s, u);
  }

  /** A missed user was inserted and not removed since. */
  lemma {:induction false} MissedWasInserted(trace: seq<Event>, from: nat, s: Socket, u: Uid)
    requires from <= |trace| && Missed(trace[from..], s, u)
    ensures Standing(trace, Inserts(u), Removes(u))
  {
    var last := |trace| - 1;
    var e, front := trace[last], trace[..last];
    assert trace == front + [e] && trace[from..] == front[from..] + [e];
    StandingNext(front[from..], e, PongInserts(u), Mends(s, u));
    StandingNext(front, e, Inserts(u), Removes(u));
    if !PongInserts(u)(e) {
      assert !Removes(u)(e);
      MissedWasInserted(front, from, s, u);
    }
  }

  lemma MissedIsOnline(st: State, s: Socket, u: Uid)
    requires HashStands(st, u)
    ensures StandOf(st, s, u).missed ==> u in st.hash
  {
    hide LastTold, GotList, Missed, Standing;
    var slot := SlotOf(st, s);
    NothingMissed(s, u);
    if Missed(Events(st, s), s, u) {
      MissedWasInserted(st.trace, slot.joinedAt.value, s, u);
    }
  }

  lemma NothingMissed(s: Socket, u: Uid)
    ensures !Missed([], s, u)
  {
  }

  lemma RestingOnCourse(st: State, s: Socket, u: Uid)
    requires Sound(st, s, u) && AtRest(st, s, u)
    ensures OnCourse(st, s, u) <==> Agrees(st, s, u)
  {
    hide Seen, Events, LastTold, Missed, GotList, Exact, HashStands;
    SeenIsTold(st, s, u);
    MissedIsOnline(st, s, u);
  }

  // ---------------------------------------------------------------- what leads off course

  /**
  An answer by which `s` joins, or, tracked already, asks for the list; `self` if
  it tells `s` that `u` is online, `list` if a full list is yet to follow. A
  newcomer gets what is outstanding from before; a list must not be followed by
  an OFFLINE that is no longer so.
  */
  ghost predicate AnswerHarmless(st: State, q: News, self: bool, list: bool, s: Socket, u: Uid)
  {
    s !in st.open || q.leaving ||
    if s in st.clients then !(list && u in st.hash && q.off)
    else if u in st.hash then
      if q.off then !list && !Lists(q) else self || list || q.on || q.fetch || q.with || !q.without
    else !q.on && !q.with && (self ==> q.off)
  }

  /**
  An hSet by a subscribe must not overtake an OFFLINE that a watcher with a list
  will hear; one that inserts the user elsewhere goes unheard. A pong's must not
  overtake a list, or with it an OFFLINE. An hDel that removes the user must not
  overtake an ONLINE or a list with the user; elsewhere it goes unheard.
  */
  ghost predicate TaskHarmless(st: State, i: nat, s: Socket, u: Uid)
    requires i < |st.tasks|
  {
    var p, q := StandOf(st, s, u), Rest(st, i, s, u);
    match st.tasks[i]
    case SubHSet(client, uid, reset) =>
      uid == u && Staying(st, s, u) ==>
        if client.inst == s.inst then q.off ==> !p.listed && !Lists(q) && !(client == s && reset)
        else u !in st.hash ==> if q.off then !p.listed && !Lists(q) else q.fetch || (!q.without && !p.listed)
    case PongHSet(uid) =>
      uid == u && u !in st.hash && Staying(st, s, u) ==> if q.off then !Lists(q) else q.fetch || !q.without
    case UnsubHDel(client, uid) =>
      uid == u && u in st.hash && Staying(st, s, u) && client != s ==>
        !q.on && !q.with && (client.inst == s.inst || !p.told || q.off)
    case ExpHDel(inst, uid) =>
      uid == u && u in st.hash && Staying(st, s, u) ==>
        !q.on && !q.with && (inst == s.inst || !p.told || q.off)
    case SubTail(client, uid, reset) =>
      client == s ==> AnswerHarmless(st, q, uid == u && !reset, reset, s, u)
    case _ => true
  }

  /** The step does not lead off course. */
  ghost predicate Harmless(st: State, step: Step, s: Socket, u: Uid)
  {
    match step
    case Run(i) => i < |st.tasks| ==> TaskHarmless(st, i, s, u)
    case Subscribe(client, userUid, reset) =>
      client == s && userUid.None? && client.inst < st.n ==>
        AnswerHarmless(st, Outstanding(st.tasks, s, u), false, reset, s, u)
    case _ => true
  }

  /** What the watcher makes of the event that task `i` leaves, if it leaves one. */
  function StandThen(st: State, i: nat, s: Socket, u: Uid): Standpoint
    requires i < |st.tasks|
  {
    var before := if Watching(st, s) then StandOf(st, s, u) else NEWCOMER;
    var emitted := Emitted(st.hash, st.tasks[i]);
    if emitted == [] then before else After(before, emitted[0], s, u)
  }

  /** Who watches after task `i`. */
  predicate WatchingThen(st: State, t: Task, s: Socket)
  {
    s in st.open && s in ClientsAfter(st.clients, t)
  }

  /** After task `i` the watcher, if it stays, is on course. */
  ghost predicate KeptBy(st: State, i: nat, s: Socket, u: Uid)
    requires i < |st.tasks|
  {
    var t, q := st.tasks[i], Both(Rest(st, i, s, u), Becomes(st, st.tasks[i], s, u));
    WatchingThen(st, t, s) && !q.leaving ==> Good(StandThen(st, i, s, u), u in HashAfter(st.hash, t), q)
  }

  lemma HSetKeeps(st: State, i: nat, s: Socket, u: Uid)
    requires i < |st.tasks| && (st.tasks[i].SubHSet? || st.tasks[i].PongHSet?)
    requires OnCourse(st, s, u) && (StandOf(st, s, u).missed ==> u in st.hash)
    ensures KeptBy(st, i, s, u) <==> TaskHarmless(st, i, s, u)
  {
    hide Outstanding, Rest, StandOf, Moved;
    OutstandingMoved(st, i, s, u);
  }

  lemma HDelKeeps(st: State, i: nat, s: Socket, u: Uid)
    requires i < |st.tasks| && (st.tasks[i].UnsubHDel? || st.tasks[i].ExpHDel?)
    requires OnCourse(st, s, u) && (StandOf(st, s, u).missed ==> u in st.hash)
    ensures KeptBy(st, i, s, u) <==> TaskHarmless(st, i, s, u)
  {
    hide Outstanding, Rest, StandOf, Moved;
    OutstandingMoved(st, i, s, u);
  }

  lemma AnswerKeeps(st: State, i: nat, s: Socket, u: Uid)
    requires i < |st.tasks| && st.tasks[i].SubTail?
    requires OnCourse(st, s, u) && (StandOf(st, s, u).missed ==> u in st.hash)
    ensures KeptBy(st, i, s, u) <==> TaskHarmless(st, i, s, u)
  {
    hide Outstanding, Rest, StandOf, Moved;
    OutstandingMoved(st, i, s, u);
  }

  lemma ListKeeps(st: State, i: nat, s: Socket, u: Uid)
    requires i < |st.tasks| && (st.tasks[i].SubGetAll? || st.tasks[i].SubReply?)
    requires OnCourse(st, s, u) && (StandOf(st, s, u).missed ==> u in st.hash)
    ensures KeptBy(st, i, s, u) <==> TaskHarmless(st, i, s, u)
  {
    hide Outstanding, Rest, StandOf, Moved;
    OutstandingMoved(st, i, s, u);
  }

  lemma OfflineKeeps(st: State, i: nat, s: Socket, u: Uid)
    requires i < |st.tasks| && (st.tasks[i].UnsubTail? || st.tasks[i].ExpTail?)
    requires OnCourse(st, s, u) && (StandOf(st, s, u).missed ==> u in st.hash)
    ensures KeptBy(st, i, s, u) <==> TaskHarmless(st, i, s, u)
  {
    hide Outstanding, Rest, StandOf, Moved;
    OutstandingMoved(st, i, s, u);
  }

  lemma QuietKeeps(st: State, i: nat, s: Socket, u: Uid)
    requires i < |st.tasks| && (st.tasks[i].SubSet? || st.tasks[i].PongSet? || st.tasks[i].Notify?)
    requires OnCourse(st, s, u) && (StandOf(st, s, u).missed ==> u in st.hash)
    ensures KeptBy(st, i, s, u) <==> TaskHarmless(st, i, s, u)
  {
    hide Outstanding, Rest, StandOf, Moved;
    OutstandingMoved(st, i, s, u);
  }

  lemma GoodThen(st: State, i: nat, s: Socket, u: Uid)
    requires i < |st.tasks| && OnCourse(st, s, u) && (StandOf(st, s, u).missed ==> u in st.hash)
    ensures KeptBy(st, i, s, u) <==> TaskHarmless(st, i, s, u)
  {
    hide OnCourse, KeptBy, TaskHarmless, StandOf;
    match st.tasks[i]
    case SubHSet(_, _, _) => HSetKeeps(st, i, s, u);
    case PongHSet(_) => HSetKeeps(st, i, s, u);
    case UnsubHDel(_, _) => HDelKeeps(st, i, s, u);
    case ExpHDel(_, _) => HDelKeeps(st, i, s, u);
    case SubTail(_, _, _) => AnswerKeeps(st, i, s, u);
    case SubGetAll(_) => ListKeeps(st, i, s, u);
    case SubReply(_, _) => ListKeeps(st, i, s, u);
    case UnsubTail(_, _) => OfflineKeeps(st, i, s, u);
    case ExpTail(_, _, _) => OfflineKeeps(st, i, s, u);
    case _ => QuietKeeps(st, i, s, u);
  }

  lemma KeptByIsNext(st: State, i: nat, s: Socket, u: Uid)
    requires i < |st.tasks| && Sound(st, s, u)
    ensures OnCourse(Next(st, Run(i)), s, u) <==> KeptBy(st, i, s, u)
  {
    hide Outstanding, Rest, Becomes, StandOf, Moved, Next, Good, After, Exact, HashStands, SlotOf, NewsOf;
    OutstandingMoved(st, i, s, u);
    RunFrame(st, i);
    if Watching(Next(st, Run(i)), s) {
      StandAfterRun(st, i, s, u);
    }
  }

  lemma RunOnCourse(st: State, i: nat, s: Socket, u: Uid)
    requires i < |st.tasks| && Sound(st, s, u) && OnCourse(st, s, u)
    ensures OnCourse(Next(st, Run(i)), s, u) <==> TaskHarmless(st, i, s, u)
  {
    hide StandOf, Next, TaskHarmless, KeptBy, OnCourse, Exact, HashStands, SlotOf;
    MissedIsOnline(st, s, u);
    GoodThen(st, i, s, u);
    KeptByIsNext(st, i, s, u);
  }

  /** A new handler holds no news before its first command; an anonymous subscriber's list is yet to be fetched. */
  lemma SpawnedNews(st: State, step: Step, s: Socket, u: Uid)
    requires NoTask(st, step)
    ensures Outstanding(Spawned(st, step), s, u) ==
            NO_NEWS.(fetch := step.Subscribe? && step.client == s && step.client.inst < st.n
                              && step.userUid.None? && step.reset)
  {
    OutstandingNone(s, u);
    if step.Expire? {
      forall t | t in Notices(st.n, step.uid)
        ensures NewsOf(t, s, u) == NO_NEWS
      {
        NoticesName(st.n, step.uid, t);
      }
    } else if Spawned(st, step) != [] {
      OutstandingOne(Spawned(st, step)[0], s, u);
    }
  }

  /** Who watches after a step that executes no task. */
  lemma WatchingAfterStep(st: State, step: Step, s: Socket)
    requires NoTask(st, step) && Watching(Next(st, step), s)
    ensures Watching(st, s) || (step.Subscribe? && step.client == s && s.inst < st.n && step.userUid.None?)
    ensures s in st.open
  {
    hide Next, Spawned;
    StepFrame(st, step);
  }

  /** Nor do other steps take a subscriber out of the map. */
  lemma SubscriberStays(st: State, step: Step, s: Socket)
    requires NoTask(st, step) && step.Subscribe? && step.client == s && s.inst < st.n && step.userUid.None?
    ensures Watching(Next(st, step), s) <==> s in st.open
  {
    hide Next, Spawned;
    StepFrame(st, step);
  }

  lemma StepOnCourse(st: State, step: Step, s: Socket, u: Uid)
    requires NoTask(st, step) && Sound(st, s, u) && OnCourse(st, s, u)
    ensures OnCourse(Next(st, step), s, u) <==> Harmless(st, step, s, u)
  {
    hide Outstanding, StandOf, Next, Exact, HashStands, SlotOf, NewsOf, Spawned, Watching;
    var after := Next(st, step);
    StepFrame(st, step);
    SpawnedNews(st, step, s, u);
    OutstandingConcat(st.tasks, Spawned(st, step), s, u);
    MissedIsOnline(st, s, u);
    if step.Subscribe? && step.client == s && s.inst < st.n && step.userUid.None? {
      SubscriberStays(st, step, s);
      WatchingIs(st, s);
    }
    if Watching(after, s) {
      WatchingAfterStep(st, step, s);
      StandAfterStep(st, step, s, u);
    }
  }

  lemma WatchingIs(st: State, s: Socket)
    ensures Watching(st, s) <==> s in st.clients && s in st.open
  {
  }

  /** A step leads off course exactly if it is not harmless, and that can be seen before it. */
  lemma NextOnCourse(st: State, step: Step, s: Socket, u: Uid)
    requires Sound(st, s, u) && OnCourse(st, s, u)
    ensures OnCourse(Next(st, step), s, u) <==> Harmless(st, step, s, u)
  {
    if step.Run? && step.i < |st.tasks| {
      hide Next, OnCourse, Sound, TaskHarmless;
      RunOnCourse(st, step.i, s, u);
    } else {
      hide Next, OnCourse, Sound, Harmless;
      StepOnCourse(st, step, s, u);
    }
  }

  // ---------------------------------------------------------------- on course is what comes right

  /** Delivering what is outstanding is harmless. */
  lemma DeliveryHarmless(st: State, step: Step, s: Socket, u: Uid)
    requires OnCourse(st, s, u) && Delivery(st, step, s, u)
    ensures Harmless(st, step, s, u)
  {
    hide Outstanding, Rest, StandOf, Moved;
    OutstandingMoved(st, step.i, s, u);
  }

  lemma {:induction false} DeliveredOnCourse(st: State, steps: seq<Step>, k: nat, s: Socket, u: Uid)
    requires Sound(st, s, u) && OnCourse(st, s, u) && Delivers(st, steps, s, u) && k <= |steps|
    ensures Sound(At(st, steps, k), s, u) && OnCourse(At(st, steps, k), s, u)
  {
    hide Next, Sound, OnCourse, Delivery, Harmless;
    if k > 0 {
      var j := k - 1;
      DeliveredOnCourse(st, steps, j, s, u);
      DeliveryHarmless(At(st, steps, j), steps[j], s, u);
      NextSound(At(st, steps, j), steps[j], s, u);
      NextOnCourse(At(st, steps, j), steps[j], s, u);
    }
  }

  /** How many commands and stretches of code a piece of news takes. */
  function Effort(s: Socket, u: Uid): Task -> nat
  {
    (t: Task) =>
      if NewsOf(t, s, u) == NO_NEWS then 0
      else match t
        case SubSet(_, _, _) => 4
        case SubTail(_, _, _) => 3
        case SubGetAll(_) => 2
        case _ => 1
  }

  /** The delivery to choose: of a user who is online an OFFLINE comes last, of one who is not an ONLINE. */
  predicate Chosen(t: Task, q: News, online: bool, s: Socket, u: Uid)
  {
    var k := NewsOf(t, s, u);
    k != NO_NEWS && !k.leaving &&
    if online then !(q.on || Lists(q)) || k.on || Lists(k)
    else !(q.off || q.fetch || q.without) || k.off || k.fetch || k.without
  }

  lemma SomeChosen(tasks: seq<Task>, online: bool, s: Socket, u: Uid) returns (i: nat)
    requires Outstanding(tasks, s, u) != NO_NEWS && !Outstanding(tasks, s, u).leaving
    ensures i < |tasks| && Chosen(tasks[i], Outstanding(tasks, s, u), online, s, u)
  {
    hide NewsOf;
    var q := Outstanding(tasks, s, u);
    var t: Task;
    if online && (q.on || Lists(q)) {
      t :| t in tasks && (NewsOf(t, s, u).on || Lists(NewsOf(t, s, u)));
      assert !Lists(NO_NEWS) && NewsOf(t, s, u) != NO_NEWS;
    } else if !online && (q.off || q.fetch || q.without) {
      t :| t in tasks && (NewsOf(t, s, u).off || NewsOf(t, s, u).fetch || NewsOf(t, s, u).without);
      assert NewsOf(t, s, u) != NO_NEWS;
    } else {
      t :| t in tasks && NewsOf(t, s, u) != NO_NEWS;
    }
    assert !NewsOf(t, s, u).leaving;
    assert Chosen(t, q, online, s, u);
    i :| 0 <= i < |tasks| && tasks[i] == t;
  }

  lemma SubscribeStaysOff(st: State, i: nat, s: Socket, u: Uid)
    requires i < |st.tasks| && (st.tasks[i].SubSet? || st.tasks[i].SubTail?)
    requires !OnCourse(st, s, u) && (StandOf(st, s, u).missed ==> u in st.hash)
    requires Chosen(st.tasks[i], Outstanding(st.tasks, s, u), u in st.hash, s, u)
    ensures !KeptBy(st, i, s, u)
  {
    hide Outstanding, Rest, StandOf, Moved;
    OutstandingMoved(st, i, s, u);
  }

  lemma ListStaysOff(st: State, i: nat, s: Socket, u: Uid)
    requires i < |st.tasks| && (st.tasks[i].SubGetAll? || st.tasks[i].SubReply?)
    requires !OnCourse(st, s, u) && (StandOf(st, s, u).missed ==> u in st.hash)
    requires Chosen(st.tasks[i], Outstanding(st.tasks, s, u), u in st.hash, s, u)
    ensures !KeptBy(st, i, s, u)
  {
    hide Outstanding, Rest, StandOf, Moved;
    OutstandingMoved(st, i, s, u);
  }

  lemma OfflineStaysOff(st: State, i: nat, s: Socket, u: Uid)
    requires i < |st.tasks| && (st.tasks[i].UnsubTail? || st.tasks[i].ExpTail?)
    requires !OnCourse(st, s, u) && (StandOf(st, s, u).missed ==> u in st.hash)
    requires Chosen(st.tasks[i], Outstanding(st.tasks, s, u), u in st.hash, s, u)
    ensures !KeptBy(st, i, s, u)
  {
    hide Outstanding, Rest, StandOf, Moved;
    OutstandingMoved(st, i, s, u);
  }

  lemma OffAfter(st: State, i: nat, s: Socket, u: Uid)
    requires i < |st.tasks| && Sound(st, s, u) && !OnCourse(st, s, u)
    requires Chosen(st.tasks[i], Outstanding(st.tasks, s, u), u in st.hash, s, u)
    ensures Delivery(st, Run(i), s, u) && !OnCourse(Next(st, Run(i)), s, u)
  {
    hide Outstanding, Rest, Becomes, StandOf, Moved, Next, Good, After, Exact, HashStands, SlotOf, NewsOf;
    hide KeptBy, Chosen, OnCourse;
    MissedIsOnline(st, s, u);
    match st.tasks[i] {
      case SubSet(_, _, _) => SubscribeStaysOff(st, i, s, u);
      case SubTail(_, _, _) => SubscribeStaysOff(st, i, s, u);
      case SubGetAll(_) => ListStaysOff(st, i, s, u);
      case SubReply(_, _) => ListStaysOff(st, i, s, u);
      case UnsubTail(_, _) => OfflineStaysOff(st, i, s, u);
      case ExpTail(_, _, _) => OfflineStaysOff(st, i, s, u);
      case _ =>
        ChosenIsNews(st.tasks[i], Outstanding(st.tasks, s, u), u in st.hash, s, u);
    }
    KeptByIsNext(st, i, s, u);
    ChosenDelivers(st, i, s, u);
  }

  /** Only these tasks hold news. */
  lemma ChosenIsNews(t: Task, q: News, online: bool, s: Socket, u: Uid)
    requires Chosen(t, q, online, s, u)
    ensures t.SubSet? || t.SubTail? || t.SubGetAll? || t.SubReply? || t.UnsubTail? || t.ExpTail?
  {
  }

  lemma ChosenDelivers(st: State, i: nat, s: Socket, u: Uid)
    requires i < |st.tasks| && !OnCourse(st, s, u)
    requires Chosen(st.tasks[i], Outstanding(st.tasks, s, u), u in st.hash, s, u)
    ensures Delivery(st, Run(i), s, u)
  {
    hide Outstanding, NewsOf, Good, StandOf;
  }

  /** Off course and not at rest, some delivery leaves it off course. */
  lemma StaysOff(st: State, s: Socket, u: Uid) returns (i: nat)
    requires Sound(st, s, u) && !OnCourse(st, s, u) && !AtRest(st, s, u)
    ensures i < |st.tasks| && Delivery(st, Run(i), s, u) && !OnCourse(Next(st, Run(i)), s, u)
  {
    hide Outstanding, Good, StandOf, Sound, Next, Chosen, Delivery;
    i := SomeChosen(st.tasks, u in st.hash, s, u);
    OffAfter(st, i, s, u);
  }

  /** Off course, some order of delivery ends in disagreement. */
  lemma {:induction false} EndsWrong(st: State, s: Socket, u: Uid) returns (steps: seq<Step>)
    requires Sound(st, s, u) && !OnCourse(st, s, u)
    ensures Delivers(st, steps, s, u)
    ensures AtRest(At(st, steps, |steps|), s, u) && !Agrees(At(st, steps, |steps|), s, u)
    decreases Sum(st.tasks, Effort(s, u))
  {
    hide Next, Sound, OnCourse, Delivery, AtRest, Agrees, Sum, Effort;
    if AtRest(st, s, u) {
      RestingOnCourse(st, s, u);
      steps := [];
    } else {
      var i := StaysOff(st, s, u);
      NextSound(st, Run(i), s, u);
      Less(st, i, s, u);
      var rest := EndsWrong(Next(st, Run(i)), s, u);
      steps := DeliversMore(st, i, rest, s, u);
    }
  }

  lemma Less(st: State, i: nat, s: Socket, u: Uid)
    requires Delivery(st, Run(i), s, u)
    ensures Sum(Next(st, Run(i)).tasks, Effort(s, u)) < Sum(st.tasks, Effort(s, u))
  {
    hide Sum, Next, Moved;
    RunFrame(st, i);
    MovedSum(st, i, Effort(s, u));
  }

  lemma DeliversMore(st: State, i: nat, rest: seq<Step>, s: Socket, u: Uid) returns (steps: seq<Step>)
    requires Delivery(st, Run(i), s, u) && Delivers(Next(st, Run(i)), rest, s, u)
    ensures Delivers(st, steps, s, u)
    ensures At(st, steps, |steps|) == At(Next(st, Run(i)), rest, |rest|)
  {
    hide Next, Delivery;
    var one := [Run(i)];
    steps := one + rest;
    AtOne(st, Run(i));
    AtConcat(st, one, rest, |rest|);
    forall k | 0 <= k < |steps|
      ensures Delivery(At(st, steps, k), steps[k], s, u)
    {
      if k == 0 {
        AtNone(st);
        assert At(st, steps, 0) == st;
      } else {
        var j := k - 1;
        AtConcat(st, one, rest, j);
        assert steps[k] == rest[j];
      }
    }
  }

  lemma {:induction false} ComesRightIsOnCourse(st: State, s: Socket, u: Uid)
    requires Sound(st, s, u)
    ensures ComesRight(st, s, u) <==> OnCourse(st, s, u)
  {
    hide Next, Sound, OnCourse, Delivers, AtRest, Agrees;
    if OnCourse(st, s, u) {
      forall steps: seq<Step> | Delivers(st, steps, s, u) && AtRest(At(st, steps, |steps|), s, u)
        ensures Agrees(At(st, steps, |steps|), s, u)
      {
        DeliveredOnCourse(st, steps, |steps|, s, u);
        RestingOnCourse(At(st, steps, |steps|), s, u);
      }
    } else {
      var steps := EndsWrong(st, s, u);
    }
  }

  /**
  In every reachable state, for every interleaving and number of instances: the
  view comes right in whatever order the outstanding news is delivered if and only
  if it is on course.
  */
  lemma {:induction false} ComesRightIffOnCourse(
        n: nat, sockets: set<Socket>, past: seq<Step>, s: Socket, u: Uid)
    ensures ComesRight(At(Init(n, sockets), past, |past|), s, u)
            <==> OnCourse(At(Init(n, sockets), past, |past|), s, u)
  {
    hide Next, Sound, OnCourse, ComesRight;
    AlwaysSound(n, sockets, past, |past|, s, u);
    ComesRightIsOnCourse(At(Init(n, sockets), past, |past|), s, u);
  }

  /** What is outstanding for a watcher that stays can be delivered. */
  lemma {:induction false} CanBeDelivered(st: State, s: Socket, u: Uid) returns (steps: seq<Step>)
    requires Staying(st, s, u)
    ensures Delivers(st, steps, s, u) && AtRest(At(st, steps, |steps|), s, u)
    decreases Sum(st.tasks, Effort(s, u))
  {
    hide Next, Outstanding, Delivery, Sum, Effort, Chosen, Watching;
    if AtRest(st, s, u) {
      steps := [];
    } else {
      var i := SomeChosen(st.tasks, u in st.hash, s, u);
      StaysToRest(st, i, s, u);
      Less(st, i, s, u);
      var rest := CanBeDelivered(Next(st, Run(i)), s, u);
      steps := DeliversMore(st, i, rest, s, u);
    }
  }

  lemma StaysToRest(st: State, i: nat, s: Socket, u: Uid)
    requires i < |st.tasks| && Staying(st, s, u)
    requires Chosen(st.tasks[i], Outstanding(st.tasks, s, u), u in st.hash, s, u)
    ensures Delivery(st, Run(i), s, u) && Staying(Next(st, Run(i)), s, u)
  {
    hide Next, Outstanding, Moved, Rest;
    OutstandingMoved(st, i, s, u);
    RunFrame(st, i);
  }

  // ---------------------------------------------------------------- whole runs

  ghost predicate AllOnCourse(st: State, steps: seq<Step>, m: nat, s: Socket, u: Uid)
    requires m <= |steps|
  {
    forall k :: 0 <= k <= m ==> OnCourse(At(st, steps, k), s, u)
  }

  ghost predicate AllComeRight(st: State, steps: seq<Step>, m: nat, s: Socket, u: Uid)
    requires m <= |steps|
  {
    forall k :: 0 <= k <= m ==> ComesRight(At(st, steps, k), s, u)
  }

  ghost predicate AllHarmless(st: State, steps: seq<Step>, m: nat, s: Socket, u: Uid)
    requires m <= |steps|
  {
    forall k :: 0 <= k < m ==> Harmless(At(st, steps, k), steps[k], s, u)
  }

  lemma {:induction false} SoundAlong(st: State, steps: seq<Step>, k: nat, s: Socket, u: Uid)
    requires Sound(st, s, u) && k <= |steps|
    ensures Sound(At(st, steps, k), s, u)
  {
    hide Next, Sound;
    if k > 0 {
      SoundAlong(st, steps, k - 1, s, u);
      NextSound(At(st, steps, k - 1), steps[k - 1], s, u);
    }
  }

  lemma {:induction false} OnCourseIffHarmless(st: State, steps: seq<Step>, m: nat, s: Socket, u: Uid)
    requires Sound(st, s, u) && OnCourse(st, s, u) && m <= |steps|
    ensures AllOnCourse(st, steps, m, s, u) <==> AllHarmless(st, steps, m, s, u)
  {
    hide Next, Sound, OnCourse, Harmless;
    if m == 0 {
      AtNone(st);
      assert At(st, steps, 0) == st;
    } else {
      var k := m - 1;
      OnCourseIffHarmless(st, steps, k, s, u);
      assert At(st, steps, m) == Next(At(st, steps, k), steps[k]);
      if AllOnCourse(st, steps, k, s, u) {
        assert OnCourse(At(st, steps, k), s, u);
        SoundAlong(st, steps, k, s, u);
        NextOnCourse(At(st, steps, k), steps[k], s, u);
      }
    }
  }

  /**
  From any reachable state that comes right, whatever went wrong before it: the
  view comes right throughout a run if and only if every step of it is harmless.
  */
  lemma {:induction false} ComesRightIffHarmless(
        n: nat, sockets: set<Socket>, past: seq<Step>, steps: seq<Step>, m: nat, s: Socket, u: Uid)
    requires m <= |steps| && ComesRight(At(Init(n, sockets), past, |past|), s, u)
    ensures var st := At(Init(n, sockets), past, |past|);
            AllComeRight(st, steps, m, s, u) <==> AllHarmless(st, steps, m, s, u)
  {
    hide Next, Sound, OnCourse, ComesRight, Harmless, AllHarmless;
    var st := At(Init(n, sockets), past, |past|);
    AlwaysSound(n, sockets, past, |past|, s, u);
    ComesRightIsOnCourse(st, s, u);
    OnCourseIffHarmless(st, steps, m, s, u);
    forall k | 0 <= k <= m
      ensures ComesRight(At(st, steps, k), s, u) <==> OnCourse(At(st, steps, k), s, u)
    {
      SoundAlong(st, steps, k, s, u);
      ComesRightIsOnCourse(At(st, steps, k), s, u);
    }
  }

  /** At rest a view comes right exactly if it is right. Before a socket watches, and at the start, it comes right. */
  lemma {:induction false} RestingComesRight(n: nat, sockets: set<Socket>, past: seq<Step>, s: Socket, u: Uid)
    ensures var st := At(Init(n, sockets), past, |past|);
            && (AtRest(st, s, u) ==> (ComesRight(st, s, u) <==> Agrees(st, s, u)))
            && (!Watching(st, s) ==> ComesRight(st, s, u))
    ensures ComesRight(Init(n, sockets), s, u)
  {
    hide Next, Sound, AtRest, ComesRight, Agrees;
    var st := At(Init(n, sockets), past, |past|);
    AlwaysSound(n, sockets, past, |past|, s, u);
    ComesRightIsOnCourse(st, s, u);
    if AtRest(st, s, u) {
      RestingOnCourse(st, s, u);
    }
    AlwaysSound(n, sockets, [], 0, s, u);
    AtNone(Init(n, sockets));
    ComesRightIsOnCourse(Init(n, sockets), s, u);
  }

  // ---------------------------------------------------------------- one instance

  /** A command or stretch of code about `u` runs ahead of contrary news. */
  ghost predicate Overtakes(st: State, i: nat, s: Socket, u: Uid)
    requires i < |st.tasks|
  {
    var q := Rest(st, i, s, u);
    match st.tasks[i]
    case SubHSet(_, uid, _) => uid == u && q.off
    case UnsubHDel(client, uid) => uid == u && u in st.hash && client != s && q.on
    case ExpHDel(_, uid) => uid == u && u in st.hash && q.on
    case SubTail(client, _, reset) => client == s && reset && u in st.hash && q.off
    case _ => false
  }

  /**
  On one instance, for a watcher that has the full list and awaits no other: the
  only harm is a subscribe of the user, or of the watcher asking for a new list,
  ahead of an OFFLINE, and a removal of the user ahead of an ONLINE. A pong is
  harmless.
  */
  lemma {:induction false} OneInstanceHarm(sockets: set<Socket>, past: seq<Step>, i: nat, s: Socket, u: Uid)
    requires var st := At(Init(1, sockets), past, |past|);
             && i < |st.tasks| && Staying(st, s, u) && GotList(Events(st, s), s) && !Lists(Rest(st, i, s, u))
    ensures var st := At(Init(1, sockets), past, |past|);
            TaskHarmless(st, i, s, u) <==> !Overtakes(st, i, s, u)
  {
    hide Next, Rest, Placed;
    AlwaysPlaced(1, sockets, past, |past|);
    HarmHere(At(Init(1, sockets), past, |past|), i, s, u);
  }

  lemma HarmHere(st: State, i: nat, s: Socket, u: Uid)
    requires Placed(st) && st.n == 1 && i < |st.tasks|
    requires Staying(st, s, u) && GotList(Events(st, s), s) && !Lists(Rest(st, i, s, u))
    ensures TaskHarmless(st, i, s, u) <==> !Overtakes(st, i, s, u)
  {
    hide Outstanding, Rest, LastTold, Missed, GotList, EventsFor, Moved;
    assert st.tasks[i] in st.tasks && s.inst == 0;
    OutstandingMoved(st, i, s, u);
  }
}
