/** Which sockets a ping round evicts, at command granularity. */
module PresenceEviction {
  import opened Prelude
  import opened TtlKeys
  import opened PresenceState

  /** The step marks `s` alive: a pong, or the stretch of a subscribe that puts `s` into the map. */
  predicate Touches(st: State, step: Step, s: Socket)
  {
    match step
    case Pong(client) => client == s
    case Subscribe(client, userUid, _) => client == s && userUid.None? && s.inst < st.n
    case Run(i) => i < |st.tasks| && st.tasks[i].SubTail? && st.tasks[i].client == s
    case _ => false
  }

  /** What one step does to the entry of one socket. */
  lemma NextEntry(st: State, step: Step, s: Socket)
    ensures var g := Next(st, step);
            s in g.clients ==>
              if Touches(st, step, s) then g.clients[s].isAlive
              else s in st.clients &&
                   if step == Ping(s.inst) then st.clients[s].isAlive && !g.clients[s].isAlive
                   else g.clients[s].isAlive == st.clients[s].isAlive
  {
    hide Next;
    if step.Run? && step.i < |st.tasks| {
      RunFrame(st, step.i);
    } else {
      StepFrame(st, step);
    }
  }

  /** Ping round `j` marked `s`, and up to state `k` it stayed tracked without being touched. */
  ghost predicate SilentSince(st: State, steps: seq<Step>, s: Socket, j: nat, k: nat)
    requires k <= |steps|
  {
    && j < k && steps[j] == Ping(s.inst)
    && (forall i :: j < i <= k ==> s in At(st, steps, i).clients)
    && (forall i :: j < i < k ==> !Touches(At(st, steps, i), steps[i], s))
  }

  ghost predicate Silent(st: State, steps: seq<Step>, s: Socket, k: nat)
    requires k <= |steps|
  {
    exists j :: SilentSince(st, steps, s, j, k)
  }

  /** A tracked socket is marked non-alive exactly when it has been silent since some round. */
  lemma {:induction false} NotAliveIffSilent(n: nat, sockets: set<Socket>, steps: seq<Step>, s: Socket, k: nat)
    requires k <= |steps|
    requires s in At(Init(n, sockets), steps, k).clients
    ensures var st := Init(n, sockets);
            !At(st, steps, k).clients[s].isAlive <==> Silent(st, steps, s, k)
  {
    hide Next, Touches;
    var st := Init(n, sockets);
    if k > 0 {
      var before, after := At(st, steps, k - 1), At(st, steps, k);
      NextEntry(before, steps[k - 1], s);
      if Touches(before, steps[k - 1], s) {
        TouchedIsNotSilent(st, steps, s, k);
      } else if steps[k - 1] == Ping(s.inst) {
        assert SilentSince(st, steps, s, k - 1, k);
      } else {
        NotAliveIffSilent(n, sockets, steps, s, k - 1);
        SilenceGoesOn(st, steps, s, k);
      }
    }
  }

  lemma TouchedIsNotSilent(st: State, steps: seq<Step>, s: Socket, k: nat)
    requires 0 < k <= |steps| && Touches(At(st, steps, k - 1), steps[k - 1], s)
    ensures !Silent(st, steps, s, k)
  {
    hide Next;
  }

  lemma SilenceGoesOn(st: State, steps: seq<Step>, s: Socket, k: nat)
    requires 0 < k <= |steps| && !Touches(At(st, steps, k - 1), steps[k - 1], s) && steps[k - 1] != Ping(s.inst)
    requires s in At(st, steps, k - 1).clients && s in At(st, steps, k).clients
    ensures Silent(st, steps, s, k - 1) <==> Silent(st, steps, s, k)
  {
    hide Next, Touches;
    var p := k - 1;
    if j :| SilentSince(st, steps, s, j, p) {
      assert SilentSince(st, steps, s, j, k);
    }
    if j :| SilentSince(st, steps, s, j, k) {
      assert SilentSince(st, steps, s, j, p);
    }
  }

  lemma PingEvicts(st: State, s: Socket)
    requires s in st.clients
    ensures s !in Next(st, Ping(s.inst)).clients <==> !st.clients[s].isAlive
  {
  }

  /**
  The eviction rule: a ping round evicts a tracked socket if and only if the
  socket stayed tracked since an earlier round and in between neither answered a
  ping nor was put into the map again by a subscribe.
  */
  lemma {:induction false} EvictedIffSilent(n: nat, sockets: set<Socket>, steps: seq<Step>, s: Socket, k: nat)
    requires k < |steps| && steps[k] == Ping(s.inst)
    ensures var st := Init(n, sockets);
            (s in At(st, steps, k).clients && s !in At(st, steps, k + 1).clients)
            <==> Silent(st, steps, s, k)
  {
    hide Next, Touches;
    var st := Init(n, sockets);
    if s in At(st, steps, k).clients {
      NotAliveIffSilent(n, sockets, steps, s, k);
      PingEvicts(At(st, steps, k), s);
      assert At(st, steps, k + 1) == Next(At(st, steps, k), steps[k]);
    }
  }

  // ---------------------------------------------------------------- closed sockets

  /** A subscribe of `s` that has yet to put it into the map. */
  predicate SubscribesLater(t: Task, s: Socket)
  {
    (t.SubHSet? || t.SubSet? || t.SubTail?) && t.client == s
  }

  ghost predicate NoneOutstanding(st: State, s: Socket)
  {
    forall t :: t in st.tasks ==> !SubscribesLater(t, s)
  }

  /** The step is nothing that `s` itself sent. */
  predicate NotFrom(step: Step, s: Socket)
  {
    match step
    case Subscribe(client, _, _) => client != s
    case Pong(client) => client != s
    case _ => true
  }

  lemma OutstandingStep(st: State, step: Step, s: Socket)
    requires NoneOutstanding(st, s) && NotFrom(step, s)
    ensures NoneOutstanding(Next(st, step), s) && !Touches(st, step, s)
  {
    hide Next, Notices;
    if step.Run? && step.i < |st.tasks| {
      RunFrame(st, step.i);
      assert st.tasks[step.i] in st.tasks;
    } else {
      StepFrame(st, step);
      forall t | t in Spawned(st, step)
        ensures !SubscribesLater(t, s)
      {
        if step.Expire? {
          NoticesName(st.n, step.uid, t);
        }
      }
    }
  }

  /** Ping rounds of instance `inst` among the first `k` steps. */
  function Rounds(steps: seq<Step>, k: nat, inst: nat): nat
    requires k <= |steps|
  {
    if k == 0 then 0 else Rounds(steps, k - 1, inst) + if steps[k - 1] == Ping(inst) then 1 else 0
  }

  /**
  A closed socket, which sends nothing more, with no subscribe outstanding is
  gone after two ping rounds at the latest, and stays gone.
  */
  lemma {:induction false} ClosedSocketGoneAfterTwoRounds(st: State, steps: seq<Step>, s: Socket, k: nat)
    requires NoneOutstanding(st, s) && k <= |steps|
    requires forall j :: 0 <= j < k ==> NotFrom(steps[j], s)
    ensures var end := At(st, steps, k);
            && NoneOutstanding(end, s)
            && (Rounds(steps, k, s.inst) >= 1 && s in end.clients ==> !end.clients[s].isAlive)
            && (Rounds(steps, k, s.inst) >= 2 ==> s !in end.clients)
  {
    hide Next, Touches, NotFrom, NoneOutstanding;
    if k > 0 {
      ClosedSocketGoneAfterTwoRounds(st, steps, s, k - 1);
      var before := At(st, steps, k - 1);
      OutstandingStep(before, steps[k - 1], s);
      NextEntry(before, steps[k - 1], s);
    }
  }
}
