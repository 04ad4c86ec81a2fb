/** Going offline terminates, at command granularity and for any number of instances. */
module PresenceDrain {
  import opened Prelude
  import opened TtlKeys
  import opened PresenceState
  import opened PresenceSafety

  /**
  How much is still to happen before `uid` is offline for good: each command or
  event counts for itself and for everything it can still set off. An expiry
  costs every instance a delivery and a removal.
  */
  function Weight(t: Task, uid: Uid, n: nat): nat
  {
    match t
    case SubHSet(_, u, _) => if u == uid then 2 * n + 3 else 0
    case PongHSet(u) => if u == uid then 2 * n + 3 else 0
    case SubSet(_, u, _) => if u == uid then 2 * n + 2 else 0
    case PongSet(u) => if u == uid then 2 * n + 2 else 0
    case Notify(_, u) => if u == uid then 2 else 0
    case ExpHDel(_, u) => if u == uid then 1 else 0
    case _ => 0
  }

  function Weights(uid: Uid, n: nat): Task -> nat
  {
    (t: Task) => Weight(t, uid, n)
  }

  function Measure(st: State, uid: Uid): nat
  {
    Sum(st.tasks, Weights(uid, st.n)) + if uid in st.ttl then 2 * st.n + 1 else 0
  }

  /** The step executes an hSet, a set, a delivery or an expiry removal of `uid`, or expires its key. */
  predicate Relevant(st: State, step: Step, uid: Uid)
  {
    match step
    case Expire(u) => u == uid && uid in st.ttl && st.ttl[uid] <= st.now
    case Run(i) => i < |st.tasks| && Weight(st.tasks[i], uid, st.n) > 0
    case _ => false
  }

  /** The step starts a new setStatus for `uid`. */
  predicate StartsSetStatus(st: State, step: Step, uid: Uid)
  {
    match step
    case Subscribe(client, userUid, _) => userUid == Some(uid)
    case Pong(client) => client in st.clients && st.clients[client].userUid == Some(uid)
    case _ => false
  }

  lemma {:induction false} NoticesWeight(n: nat, u: Uid, uid: Uid, m: nat)
    ensures Sum(Notices(n, u), Weights(uid, m)) == if u == uid then 2 * n else 0
  {
    hide Sum;
    if n == 0 {
      SumNone(Weights(uid, m));
    } else {
      NoticesWeight(n - 1, u, uid, m);
      SumAppend(Notices(n - 1, u), Notify(n - 1, u), Weights(uid, m));
    }
  }

  lemma SpawnedWeight(st: State, step: Step, uid: Uid)
    requires NoTask(st, step) && !StartsSetStatus(st, step, uid)
    ensures Sum(Spawned(st, step), Weights(uid, st.n)) == if Relevant(st, step, uid) then 2 * st.n else 0
  {
    hide Sum;
    SumNone(Weights(uid, st.n));
    if step.Expire? {
      NoticesWeight(st.n, step.uid, uid, st.n);
    } else if Spawned(st, step) != [] {
      SumOne(Spawned(st, step)[0], Weights(uid, st.n));
      assert Spawned(st, step) == [Spawned(st, step)[0]];
    }
  }

  /** Every relevant step uses up some of the measure; no other step adds to it. */
  lemma MeasureStep(st: State, step: Step, uid: Uid)
    requires !StartsSetStatus(st, step, uid)
    ensures Next(st, step).n == st.n
    ensures Measure(Next(st, step), uid) + (if Relevant(st, step, uid) then 1 else 0) <= Measure(st, uid)
  {
    hide Next, Sum, Moved;
    if step.Run? && step.i < |st.tasks| {
      RunFrame(st, step.i);
      MovedSum(st, step.i, Weights(uid, st.n));
    } else {
      StepFrame(st, step);
      SumConcat(st.tasks, Spawned(st, step), Weights(uid, st.n));
      SpawnedWeight(st, step, uid);
    }
  }

  /** How many of the first `k` steps are relevant to `uid`. */
  function RelevantSteps(st: State, steps: seq<Step>, k: nat, uid: Uid): nat
    requires k <= |steps|
  {
    if k == 0 then 0
    else RelevantSteps(st, steps, k - 1, uid) +
         if Relevant(At(st, steps, k - 1), steps[k - 1], uid) then 1 else 0
  }

  lemma {:induction false} DrainBound(st: State, steps: seq<Step>, k: nat, uid: Uid)
    requires k <= |steps|
    requires forall j :: 0 <= j < k ==> !StartsSetStatus(At(st, steps, j), steps[j], uid)
    ensures At(st, steps, k).n == st.n
    ensures RelevantSteps(st, steps, k, uid) + Measure(At(st, steps, k), uid) <= Measure(st, uid)
  {
    hide Next, Measure, Relevant, StartsSetStatus;
    if k > 0 {
      DrainBound(st, steps, k - 1, uid);
      MeasureStep(At(st, steps, k - 1), steps[k - 1], uid);
    }
  }

  /** While anything of `uid` is left, a relevant step can be taken, if need be once the key's time is up. */
  lemma DrainProgress(st: State, uid: Uid)
    requires Measure(st, uid) > 0
    ensures exists wait: nat, step :: Relevant(Next(st, Advance(wait)), step, uid)
  {
    if uid in st.ttl {
      var wait := if st.ttl[uid] <= st.now then 0 else st.ttl[uid] - st.now;
      assert Relevant(Next(st, Advance(wait)), Expire(uid), uid);
    } else {
      SumPositive(st.tasks, Weights(uid, st.n));
      var i :| 0 <= i < |st.tasks| && Weights(uid, st.n)(st.tasks[i]) > 0;
      assert Relevant(Next(st, Advance(0)), Run(i), uid);
    }
  }

  /** With nothing left, `uid` is offline. */
  lemma DrainedIsOffline(st: State, uid: Uid)
    requires Backed(st, uid) && Measure(st, uid) == 0
    ensures uid !in st.hash
  {
    if t :| t in st.tasks && Backs(t, uid) {
      var i :| 0 <= i < |st.tasks| && st.tasks[i] == t;
      SumAt(st.tasks, i, t, Weights(uid, st.n));
    }
  }

  /** `end` is offline with nothing left, or a relevant step can still be taken; `taken` were taken since `st`. */
  ghost predicate Draining(st: State, end: State, taken: nat, uid: Uid)
  {
    && taken + Measure(end, uid) <= Measure(st, uid)
    && (Measure(end, uid) == 0 ==> uid !in end.hash)
    && (Measure(end, uid) > 0 ==> exists wait: nat, step :: Relevant(Next(end, Advance(wait)), step, uid))
  }

  /**
  From any reachable state and without a new setStatus for `uid`, a run holds at
  most `Measure` relevant steps; a relevant step can follow as long as the
  measure is positive, and when it has reached zero the user is offline.
  */
  lemma {:induction false} GoingOfflineTerminates(
        n: nat, sockets: set<Socket>, past: seq<Step>, steps: seq<Step>, uid: Uid)
    requires n > 0
    requires var st := At(Init(n, sockets), past, |past|);
             forall j :: 0 <= j < |steps| ==> !StartsSetStatus(At(st, steps, j), steps[j], uid)
    ensures var st := At(Init(n, sockets), past, |past|);
            Draining(st, At(st, steps, |steps|), RelevantSteps(st, steps, |steps|, uid), uid)
  {
    hide Next, Measure, Relevant, StartsSetStatus;
    var st := At(Init(n, sockets), past, |past|);
    var end := At(st, steps, |steps|);
    DrainBound(st, steps, |steps|, uid);
    NoPhantomOnline(n, sockets, past, |past|, uid);
    BackedOn(st, steps, |steps|, uid);
    if Measure(end, uid) == 0 {
      DrainedIsOffline(end, uid);
    } else {
      DrainProgress(end, uid);
    }
  }

  lemma {:induction false} BackedOn(st: State, steps: seq<Step>, k: nat, uid: Uid)
    requires st.n > 0 && Backed(st, uid) && k <= |steps|
    ensures At(st, steps, k).n == st.n && Backed(At(st, steps, k), uid)
  {
    hide Next, Backed;
    if k > 0 {
      BackedOn(st, steps, k - 1, uid);
      NextBacked(At(st, steps, k - 1), steps[k - 1], uid);
    }
  }
}
