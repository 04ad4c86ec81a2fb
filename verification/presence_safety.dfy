/** Who is online, at command granularity: for every interleaving and any number of server instances. */
module PresenceSafety {
  import opened Prelude
  import opened TtlKeys
  import opened PresenceState

  // ---------------------------------------------------------------- no phantom online users

  /** A task that will either set the key of `uid` or remove `uid` from the hash. */
  predicate Backs(t: Task, uid: Uid)
  {
    match t
    case SubSet(_, u, _) => u == uid
    case PongSet(u) => u == uid
    case Notify(_, u) => u == uid
    case ExpHDel(_, u) => u == uid
    case _ => false
  }

  /** If `uid` is online then something keeps it so, or will take it offline. */
  ghost predicate Backed(st: State, uid: Uid)
  {
    uid in st.hash ==> uid in st.ttl || exists t :: t in st.tasks && Backs(t, uid)
  }

  lemma RunBacked(st: State, i: nat, uid: Uid)
    requires Backed(st, uid) && i < |st.tasks|
    ensures Backed(Next(st, Run(i)), uid)
  {
    hide Next, Drop;
    var t, after := st.tasks[i], Next(st, Run(i));
    RunFrame(st, i);
    if uid in after.hash && uid !in after.ttl {
      var next := Successor(st, t);
      if next.Some? && Backs(next.value, uid) {
        assert after.tasks[i] == next.value;
      } else {
        var w :| w in st.tasks && Backs(w, uid);
        RunKeepsOthers(st, i, w);
        assert w in after.tasks;
      }
    }
  }

  /** Running a task leaves the others in the bag. */
  lemma RunKeepsOthers(st: State, i: nat, t: Task)
    requires i < |st.tasks| && t in st.tasks && t != st.tasks[i]
    ensures t in Moved(st, i)
  {
    match Successor(st, st.tasks[i])
    case Some(u) => PutKeeps(st.tasks, i, u, t);
    case None => DropKeeps(st.tasks, i, t);
  }

  lemma {:induction false} NoticesReachAll(n: nat, uid: Uid, inst: nat)
    requires inst < n
    ensures Notify(inst, uid) in Notices(n, uid)
  {
    if inst < n - 1 {
      NoticesReachAll(n - 1, uid, inst);
    }
  }

  lemma NextBacked(st: State, step: Step, uid: Uid)
    requires Backed(st, uid) && st.n > 0
    ensures Backed(Next(st, step), uid) && Next(st, step).n == st.n
  {
    hide Next;
    var after := Next(st, step);
    if step.Run? && step.i < |st.tasks| {
      RunFrame(st, step.i);
      RunBacked(st, step.i, uid);
    } else {
      StepFrame(st, step);
      assert forall t :: t in st.tasks ==> t in after.tasks;
      if uid in st.ttl && uid !in after.ttl {
        NoticesReachAll(st.n, uid, 0);
        assert Notify(0, uid) in after.tasks;
      }
    }
  }

  /**
  In every reachable state a user in the online hash has a live key, or a
  setStatus that has yet to set the key, or an expiry event that has yet to be
  delivered, or an expiry handler that has yet to remove the user.
  */
  lemma {:induction false} NoPhantomOnline(n: nat, sockets: set<Socket>, steps: seq<Step>, k: nat, uid: Uid)
    requires n > 0 && k <= |steps|
    ensures At(Init(n, sockets), steps, k).n == n
    ensures Backed(At(Init(n, sockets), steps, k), uid)
  {
    hide Next, Backed;
    if k == 0 {
      InitBacked(n, sockets, uid);
    } else {
      NoPhantomOnline(n, sockets, steps, k - 1, uid);
      NextBacked(At(Init(n, sockets), steps, k - 1), steps[k - 1], uid);
    }
  }

  lemma InitBacked(n: nat, sockets: set<Socket>, uid: Uid)
    ensures Backed(Init(n, sockets), uid)
  {
  }

  // ---------------------------------------------------------------- conservation

  function Insertions(uid: Uid): Event -> nat
  {
    (e: Event) => if e.Inserted? && e.uid == uid then 1 else 0
  }

  function Removals(uid: Uid): Event -> nat
  {
    (e: Event) => if e.Removed? && e.uid == uid then 1 else 0
  }

  /** Insertions minus removals of `uid`. */
  function Net(trace: seq<Event>, uid: Uid): int
  {
    Sum(trace, Insertions(uid)) - Sum(trace, Removals(uid))
  }

  /** Insertions and removals of `uid` alternate, an insertion first. */
  ghost predicate Alternating(trace: seq<Event>, uid: Uid)
  {
    forall k :: 0 <= k <= |trace| ==> 0 <= Net(trace[..k], uid) <= 1
  }

  ghost predicate Balanced(st: State, uid: Uid)
  {
    && Net(st.trace, uid) == (if uid in st.hash then 1 else 0)
    && Alternating(st.trace, uid)
  }

  /** How the trace grew by one event or not at all. */
  lemma Grown(trace: seq<Event>, e: Event, uid: Uid)
    requires Alternating(trace, uid)
    ensures Net(trace + [e], uid) == Net(trace, uid) + Insertions(uid)(e) - Removals(uid)(e)
    ensures 0 <= Net(trace + [e], uid) <= 1 ==> Alternating(trace + [e], uid)
  {
    var longer := trace + [e];
    SumAppend(trace, e, Insertions(uid));
    SumAppend(trace, e, Removals(uid));
    if 0 <= Net(longer, uid) <= 1 {
      forall k | 0 <= k <= |longer|
        ensures 0 <= Net(longer[..k], uid) <= 1
      {
        if k <= |trace| {
          assert longer[..k] == trace[..k];
        } else {
          assert longer[..k] == longer;
        }
      }
    }
  }

  lemma NextBalanced(st: State, step: Step, uid: Uid)
    requires Balanced(st, uid)
    ensures Balanced(Next(st, step), uid)
  {
    hide Next, Net, Alternating;
    if step.Run? && step.i < |st.tasks| {
      RunFrame(st, step.i);
      var emitted := Emitted(st.hash, st.tasks[step.i]);
      if emitted != [] {
        assert emitted == [emitted[0]];
        Grown(st.trace, emitted[0], uid);
      } else {
        assert st.trace + [] == st.trace;
      }
    } else {
      StepFrame(st, step);
    }
  }

  lemma {:induction false} AlwaysBalanced(n: nat, sockets: set<Socket>, steps: seq<Step>, k: nat, uid: Uid)
    requires k <= |steps|
    ensures Balanced(At(Init(n, sockets), steps, k), uid)
  {
    hide Next;
    if k > 0 {
      AlwaysBalanced(n, sockets, steps, k - 1, uid);
      NextBalanced(At(Init(n, sockets), steps, k - 1), steps[k - 1], uid);
    }
  }

  lemma {:induction false} NetBetween(trace: seq<Event>, uid: Uid, i: nat, j: nat)
    requires i <= j <= |trace|
    requires forall k :: i <= k < j ==> !(trace[k].Inserted? && trace[k].uid == uid)
    ensures Net(trace[..j], uid) <= Net(trace[..i], uid)
  {
    if i < j {
      NetBetween(trace, uid, i, j - 1);
      assert trace[..j][..j - 1] == trace[..j - 1];
    }
  }

  /** Between any two removals of a user, by whichever instances, the user was inserted again. */
  lemma {:induction false} RemovalsNeedInsertions(
        n: nat, sockets: set<Socket>, steps: seq<Step>, k: nat, uid: Uid, i: nat, j: nat)
    requires k <= |steps|
    requires var trace := At(Init(n, sockets), steps, k).trace;
             i < j < |trace| && trace[i].Removed? && trace[i].uid == uid && trace[j].Removed? && trace[j].uid == uid
    ensures var trace := At(Init(n, sockets), steps, k).trace;
            exists m :: i < m < j && trace[m].Inserted? && trace[m].uid == uid
  {
    hide Next;
    AlwaysBalanced(n, sockets, steps, k, uid);
    var trace := At(Init(n, sockets), steps, k).trace;
    assert 0 <= Net(trace[..i], uid) <= 1 && 0 <= Net(trace[..i + 1], uid) && 0 <= Net(trace[..j + 1], uid);
    assert trace[..i + 1][..i] == trace[..i] && trace[..j + 1][..j] == trace[..j];
    if forall m :: i + 1 <= m < j ==> !(trace[m].Inserted? && trace[m].uid == uid) {
      NetBetween(trace, uid, i + 1, j);
    }
  }

  // ---------------------------------------------------------------- OFFLINE broadcasts

  function ExpiryRemovals(uid: Uid): Event -> nat
  {
    (e: Event) => if e.Removed? && e.uid == uid && e.cause == ByExpiry then 1 else 0
  }

  function OfflineBroadcasts(uid: Uid): Event -> nat
  {
    (e: Event) => if e.OfflineSent? && e.uid == uid && e.cause == ByExpiry then 1 else 0
  }

  /** Expiry handlers that removed `uid` and have yet to say so. */
  function Owed(uid: Uid): Task -> nat
  {
    (t: Task) => if t.ExpTail? && t.uid == uid && t.removed then 1 else 0
  }

  /** Every expiry removal has its one broadcast, sent or still owed. */
  ghost predicate Told(st: State, uid: Uid)
  {
    Sum(st.trace, OfflineBroadcasts(uid)) + Sum(st.tasks, Owed(uid)) == Sum(st.trace, ExpiryRemovals(uid))
  }

  lemma {:induction false} NoticesOweNothing(n: nat, u: Uid, uid: Uid)
    ensures Sum(Notices(n, u), Owed(uid)) == 0
  {
    hide Sum;
    if n == 0 {
      SumNone(Owed(uid));
    } else {
      NoticesOweNothing(n - 1, u, uid);
      SumAppend(Notices(n - 1, u), Notify(n - 1, u), Owed(uid));
    }
  }

  lemma MovedSum(st: State, i: nat, weight: Task -> nat)
    requires i < |st.tasks|
    ensures var next := Successor(st, st.tasks[i]);
            Sum(Moved(st, i), weight) + weight(st.tasks[i])
            == Sum(st.tasks, weight) + (if next.Some? then weight(next.value) else 0)
  {
    hide Sum, Drop;
    var next := Successor(st, st.tasks[i]);
    SumAt(st.tasks, i, if next.Some? then next.value else st.tasks[i], weight);
  }

  lemma RunTold(st: State, i: nat, uid: Uid)
    requires Told(st, uid) && i < |st.tasks|
    ensures Told(Next(st, Run(i)), uid)
  {
    hide Sum, Next, Moved;
    RunFrame(st, i);
    MovedSum(st, i, Owed(uid));
    var emitted := Emitted(st.hash, st.tasks[i]);
    if emitted != [] {
      assert emitted == [emitted[0]];
      SumAppend(st.trace, emitted[0], OfflineBroadcasts(uid));
      SumAppend(st.trace, emitted[0], ExpiryRemovals(uid));
    } else {
      assert st.trace + [] == st.trace;
    }
  }

  lemma NextTold(st: State, step: Step, uid: Uid)
    requires Told(st, uid)
    ensures Told(Next(st, step), uid)
  {
    hide Next, Sum, Notices;
    if step.Run? && step.i < |st.tasks| {
      RunTold(st, step.i, uid);
    } else {
      StepFrame(st, step);
      SumConcat(st.tasks, Spawned(st, step), Owed(uid));
      SpawnedOwesNothing(st, step, uid);
    }
  }

  lemma SpawnedOwesNothing(st: State, step: Step, uid: Uid)
    requires NoTask(st, step)
    ensures Sum(Spawned(st, step), Owed(uid)) == 0
  {
    hide Sum;
    SumNone(Owed(uid));
    if step.Expire? {
      NoticesOweNothing(st.n, step.uid, uid);
    } else if Spawned(st, step) != [] {
      SumOne(Spawned(st, step)[0], Owed(uid));
      assert Spawned(st, step) == [Spawned(st, step)[0]];
    }
  }

  lemma {:induction false} SumLe<T>(s: seq<T>, f: T -> nat, g: T -> nat)
    requires forall t :: t in s ==> f(t) <= g(t)
    ensures Sum(s, f) <= Sum(s, g)
  {
    if s != [] {
      SumLe(s[..|s| - 1], f, g);
    }
  }

  lemma {:induction false} AlwaysTold(n: nat, sockets: set<Socket>, steps: seq<Step>, k: nat, uid: Uid)
    requires k <= |steps|
    ensures Told(At(Init(n, sockets), steps, k), uid)
  {
    hide Next;
    if k > 0 {
      AlwaysTold(n, sockets, steps, k - 1, uid);
      NextTold(At(Init(n, sockets), steps, k - 1), steps[k - 1], uid);
    }
  }

  /** Insertions and removals of `uid`, its presence and the OFFLINE broadcasts of expiry handlers add up. */
  ghost predicate Conserved(st: State, uid: Uid)
  {
    && Sum(st.trace, Insertions(uid)) - Sum(st.trace, Removals(uid)) == (if uid in st.hash then 1 else 0)
    && Sum(st.trace, OfflineBroadcasts(uid)) + Sum(st.tasks, Owed(uid)) == Sum(st.trace, ExpiryRemovals(uid))
    && Sum(st.trace, OfflineBroadcasts(uid)) <= Sum(st.trace, Insertions(uid))
  }

  /**
  Conservation across all instances: insertions minus removals of a user is one
  while it is online and zero while it is not, and the expiry handlers together
  broadcast OFFLINE at most once per insertion, however many of them get the event.
  */
  lemma {:induction false} OnlineConservation(n: nat, sockets: set<Socket>, steps: seq<Step>, k: nat, uid: Uid)
    requires k <= |steps|
    ensures Conserved(At(Init(n, sockets), steps, k), uid)
  {
    hide Next, Sum;
    var st := At(Init(n, sockets), steps, k);
    AlwaysBalanced(n, sockets, steps, k, uid);
    AlwaysTold(n, sockets, steps, k, uid);
    SumLe(st.trace, ExpiryRemovals(uid), Removals(uid));
  }
}
