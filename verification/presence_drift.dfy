/**
How view and hash come apart for good: on one instance by handlers that
interleave, and what it takes, on any number of instances, for a watcher never
to be told.
*/
module PresenceDrift {
  import opened Prelude
  import opened TtlKeys
  import opened PresenceState
  import opened PresenceAtomic
  import opened PresenceViews
  import opened PresenceStandpoint

  // ---------------------------------------------------------------- forgotten users

  /** Tasks that will change whether `u` is online, or tell that it is not. */
  predicate Settles(t: Task, u: Uid)
  {
    match t
    case SubHSet(_, uid, _) => uid == u
    case PongHSet(uid) => uid == u
    case UnsubHDel(_, uid) => uid == u
    case UnsubTail(_, uid) => uid == u
    case ExpTail(_, uid, removed) => uid == u && removed
    case _ => false
  }

  /** The step starts a handler about `u`; the expiry of its key is none. */
  predicate StartsFor(st: State, step: Step, u: Uid)
  {
    match step
    case Subscribe(_, userUid, _) => userUid == Some(u)
    case Unsubscribe(_, userUid) => userUid == Some(u)
    case Pong(client) => client in st.clients && st.clients[client].userUid == Some(u)
    case _ => false
  }

  /** `u` is offline, `s` believes otherwise, and no handler under way will change either. */
  ghost predicate Forgotten(st: State, s: Socket, u: Uid)
  {
    && u !in st.hash && Watching(st, s) && u in Seen(st, s)
    && forall t :: t in st.tasks ==> !Settles(t, u)
  }

  lemma NextForgotten(st: State, step: Step, s: Socket, u: Uid)
    requires Forgotten(st, s, u) && !StartsFor(st, step, u) && Watching(Next(st, step), s)
    requires Exact(SlotOf(st, s), st.trace, s, u)
    ensures Forgotten(Next(st, step), s, u)
  {
    hide Next, SeenBy, EventsFor, Notices, LastTold, Stand, Exact;
    var after := Next(st, step);
    NextExact(st, step, s, u);
    SeenIsTold(st, s, u);
    SeenIsTold(after, s, u);
    if step.Run? && step.i < |st.tasks| {
      RunFrame(st, step.i);
      assert st.tasks[step.i] in st.tasks;
      StandAfterRun(st, step.i, s, u);
    } else {
      StepFrame(st, step);
      StandAfterStep(st, step, s, u);
      forall t | t in Spawned(st, step)
        ensures !Settles(t, u)
      {
        if step.Expire? {
          NoticesName(st.n, step.uid, t);
        }
      }
    }
  }

  /**
  A forgotten user stays forgotten, whatever else happens and however often its
  key expires, until a handler about it is started or the watcher goes.
  */
  lemma {:induction false} ForgottenForGood(
        n: nat, sockets: set<Socket>, steps: seq<Step>, j: nat, k: nat, s: Socket, u: Uid)
    requires j <= k <= |steps| && Forgotten(At(Init(n, sockets), steps, j), s, u)
    requires forall i :: j <= i < k ==> !StartsFor(At(Init(n, sockets), steps, i), steps[i], u)
    requires forall i :: j <= i <= k ==> Watching(At(Init(n, sockets), steps, i), s)
    ensures Forgotten(At(Init(n, sockets), steps, k), s, u)
  {
    hide Next, Forgotten, Watching, StartsFor, Exact;
    if j < k {
      var i := k - 1;
      ForgottenForGood(n, sockets, steps, j, i, s, u);
      assert Watching(At(Init(n, sockets), steps, k), s);
      assert At(Init(n, sockets), steps, k) == Next(At(Init(n, sockets), steps, i), steps[i]);
      AlwaysExact(n, sockets, steps, i, s, u);
      NextForgotten(At(Init(n, sockets), steps, i), steps[i], s, u);
    }
  }

  // ---------------------------------------------------------------- a late announcement

  /** What keeps a socket in the map. */
  lemma StaysTracked(st: State, step: Step, s: Socket)
    requires s in st.clients
    requires step.Subscribe? || (step.Unsubscribe? && step.client != s)
             || (step.Run? && step.i < |st.tasks| && !(st.tasks[step.i].UnsubTail? && st.tasks[step.i].client == s))
    ensures s in Next(st, step).clients && Next(st, step).open == st.open
  {
    hide Next, Moved;
    if step.Run? {
      RunFrame(st, step.i);
    } else {
      StepFrame(st, step);
    }
  }

  /** `s` and, until it unsubscribes, `a` stay in the map; what is open stays open. */
  ghost predicate StillThere(st: State, after: State, s: Socket)
  {
    s in after.clients && after.open == st.open && after.n == st.n
  }

  /** Executing task `i` of a bag of known tasks. */
  lemma Executed(st: State, i: nat, s: Socket)
    requires i < |st.tasks| && s in st.clients && !(st.tasks[i].UnsubTail? && st.tasks[i].client == s)
    ensures var after := Next(st, Run(i));
            && after.tasks == Moved(st, i) && after.hash == HashAfter(st.hash, st.tasks[i])
            && StillThere(st, after, s)
  {
    hide Next, Moved;
    RunFrame(st, i);
    StaysTracked(st, Run(i), s);
  }

  /** A subscribe as `u` gets as far as its announcement. */
  lemma UpToAnnouncement(st: State, b: Socket, u: Uid, a: Socket, s: Socket) returns (after: State)
    requires st.tasks == [] && u in st.hash && b.inst < st.n && a in st.clients && s in st.clients
    ensures after == Next(Next(Next(st, Subscribe(b, Some(u), false)), Run(0)), Run(0))
    ensures after.tasks == [SubTail(b, u, false)] && u in after.hash
    ensures a in after.clients && StillThere(st, after, s)
  {
    hide Next;
    var step := Subscribe(b, Some(u), false);
    var s1 := Next(st, step);
    StepFrame(st, step);
    StaysTracked(st, step, a);
    StaysTracked(st, step, s);
    assert s1.tasks == [SubHSet(b, u, false)];
    var s2 := Next(s1, Run(0));
    Executed(s1, 0, a);
    Executed(s1, 0, s);
    assert s2.tasks == [SubSet(b, u, false)];
    after := Next(s2, Run(0));
    Executed(s2, 0, a);
    Executed(s2, 0, s);
  }

  /** An unsubscribe of `u` passes the announcement. */
  lemma PastAnnouncement(st: State, t: Task, a: Socket, u: Uid, s: Socket) returns (after: State)
    requires st.tasks == [t] && a in st.clients && s in st.clients && s != a
    ensures after == Next(Next(Next(st, Unsubscribe(a, Some(u))), Run(1)), Run(1))
    ensures after.tasks == [t] && u !in after.hash && StillThere(st, after, s)
  {
    hide Next;
    var step := Unsubscribe(a, Some(u));
    var s1 := Next(st, step);
    StepFrame(st, step);
    StaysTracked(st, step, s);
    assert s1.tasks == [t, UnsubHDel(a, u)];
    var s2 := Next(s1, Run(1));
    Executed(s1, 1, s);
    assert s2.tasks == [t, UnsubTail(a, u)];
    after := Next(s2, Run(1));
    Executed(s2, 1, s);
    assert after.tasks == [t];
  }

  /** `b` subscribes as a user online already; `a` unsubscribes that user before `b` announces it. */
  function LateAnnouncement(a: Socket, b: Socket, u: Uid): seq<Step>
  {
    [Subscribe(b, Some(u), false), Run(0), Run(0), Unsubscribe(a, Some(u)), Run(1), Run(1), Run(0)]
  }

  lemma {:induction false} StillExact(
        n: nat, sockets: set<Socket>, setup: seq<Step>, steps: seq<Step>, k: nat, s: Socket, u: Uid)
    requires k <= |steps|
    ensures var st := At(At(Init(n, sockets), setup, |setup|), steps, k); Exact(SlotOf(st, s), st.trace, s, u)
  {
    hide Next, Exact, SlotOf;
    AtConcat(Init(n, sockets), setup, steps, k);
    AlwaysExact(n, sockets, setup + steps, |setup| + k, s, u);
  }

  lemma SevenSteps(st: State, x: seq<Step>)
    requires |x| == 7
    ensures At(st, x, 7) ==
            Next(Next(Next(Next(Next(Next(Next(st, x[0]), x[1]), x[2]), x[3]), x[4]), x[5]), x[6])
    ensures At(st, x, 6) == Next(Next(Next(Next(Next(Next(st, x[0]), x[1]), x[2]), x[3]), x[4]), x[5])
  {
    hide Next;
    assert At(st, x, 0) == st;
    assert At(st, x, 2) == Next(Next(st, x[0]), x[1]);
    assert At(st, x, 4) == Next(Next(At(st, x, 2), x[2]), x[3]);
    assert At(st, x, 6) == Next(Next(At(st, x, 4), x[4]), x[5]);
  }

  /** From a state in which `a` is tracked and `u` is online, the late announcement leaves `u` forgotten. */
  lemma {:induction false} LateAnnouncementRuns(
        n: nat, sockets: set<Socket>, setup: seq<Step>, a: Socket, b: Socket, s: Socket, u: Uid)
    requires var st := At(Init(n, sockets), setup, |setup|);
             && st.tasks == [] && u in st.hash && b.inst < st.n && a in st.clients && Watching(st, s)
    requires b.inst == s.inst && s != b && s != a
    ensures var run := setup + LateAnnouncement(a, b, u);
            var after := At(Init(n, sockets), run, |run|);
            after.tasks == [] && Forgotten(after, s, u)
  {
    hide Next, Exact, SlotOf, Stand;
    var st, steps := At(Init(n, sockets), setup, |setup|), LateAnnouncement(a, b, u);
    AtConcat(Init(n, sockets), setup, steps, 7);
    SevenSteps(st, steps);
    var mid := UpToAnnouncement(st, b, u, a, s);
    var late := PastAnnouncement(mid, SubTail(b, u, false), a, u, s);
    StillExact(n, sockets, setup, steps, 6, s, u);
    StillExact(n, sockets, setup, steps, 7, s, u);
    Executed(late, 0, s);
    var after := Next(late, Run(0));
    StandAfterRun(late, 0, s, u);
    SeenIsTold(after, s, u);
  }

  /**
  One instance is enough: some run ends with every handler finished, the user
  offline, and the watcher, told OFFLINE and then ONLINE, believing otherwise.
  */
  lemma {:induction false} OneInstanceForgets(a: Socket, b: Socket, s: Socket, u: Uid) returns (run: seq<Step>)
    requires a != b && s != a && s != b && a.inst == 0 && b.inst == 0 && s.inst == 0
    ensures var after := At(Init(1, {a, b, s}), run, |run|);
            after.tasks == [] && Forgotten(after, s, u)
  {
    hide Next, SubscribeNow, Forgotten;
    var st := Init(1, {a, b, s});
    var steps := [Subscribe(s, None, true), Subscribe(a, Some(u), false)];
    var watched := SubscribeNow(st, s, None, true);
    SubscribeFrame(st, s, None, true);
    SubscribeFrame(watched, a, Some(u), false);
    assert AtNow(st, steps, 0) == st;
    assert AtNow(st, steps, 1) == watched;
    assert AtNow(st, steps, 2) == SubscribeNow(watched, a, Some(u), false);
    var setup := AtomicRunsAreRuns(st, steps, 2);
    LateAnnouncementRuns(1, {a, b, s}, setup, a, b, s, u);
    run := setup + LateAnnouncement(a, b, u);
  }
}
