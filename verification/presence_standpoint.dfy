/**
What the events so far make of one user for one watcher, and what each step does
to that: for every interleaving and any number of server instances.
*/
module PresenceStandpoint {
  import opened Prelude
  import opened TtlKeys
  import opened PresenceState
  import opened PresenceViews

  /** What the events so far make of `u` for `s`. */
  datatype Standpoint = Standpoint(
    told: bool,     // last told that `u` is online
    missed: bool,   // a pong brought `u` back, and nothing has told `s` since
    listed: bool)   // a full list has been sent

  function PongInserts(u: Uid): Event -> bool
  {
    (e: Event) => e == Inserted(u, ByPong)
  }

  function FullList(s: Socket): Event -> bool
  {
    (e: Event) => e.Listed? && e.client == s
  }

  /** What ends the silence about a user whom a pong brought back. */
  function Mends(s: Socket, u: Uid): Event -> bool
  {
    (e: Event) => Removes(u)(e) || TellsOnline(s, u)(e) || FullList(s)(e)
  }

  function Never(): Event -> bool
  {
    (e: Event) => false
  }

  function Missed(events: seq<Event>, s: Socket, u: Uid): bool
  {
    Standing(events, PongInserts(u), Mends(s, u))
  }

  function GotList(events: seq<Event>, s: Socket): bool
  {
    Standing(events, FullList(s), Never())
  }

  function Stand(events: seq<Event>, s: Socket, u: Uid): Standpoint
  {
    Standpoint(LastTold(events, s, u), Missed(events, s, u), GotList(events, s))
  }

  function After(p: Standpoint, e: Event, s: Socket, u: Uid): Standpoint
  {
    Standpoint(TellsOnline(s, u)(e) || (!TellsOffline(s, u)(e) && p.told),
               PongInserts(u)(e) || (!Mends(s, u)(e) && p.missed),
               FullList(s)(e) || p.listed)
  }

  const NEWCOMER := Standpoint(false, false, false)

  lemma StandNext(events: seq<Event>, e: Event, s: Socket, u: Uid)
    ensures Stand(events + [e], s, u) == After(Stand(events, s, u), e, s, u)
    ensures Stand([], s, u) == NEWCOMER
  {
    hide TellsOnline, TellsOffline, PongInserts, Mends, FullList;
    StandingNext(events, e, TellsOnline(s, u), TellsOffline(s, u));
    StandingNext(events, e, PongInserts(u), Mends(s, u));
    StandingNext(events, e, FullList(s), Never());
  }

  /** The watcher's standpoint, and what it becomes. */
  function StandOf(st: State, s: Socket, u: Uid): Standpoint
  {
    Stand(Events(st, s), s, u)
  }

  /** What the client believes is what it was last told. */
  lemma SeenIsTold(st: State, s: Socket, u: Uid)
    requires Exact(SlotOf(st, s), st.trace, s, u)
    ensures Watching(st, s) ==> (u in Seen(st, s) <==> StandOf(st, s, u).told)
  {
    hide SeenBy, LastTold;
  }

  // ---------------------------------------------------------------- what each step does to it

  /** The standpoint of a watcher after the work of a task, which may just have put it into the map. */
  lemma StandAfterWork(st: State, t: Task, s: Socket, u: Uid)
    requires Exact(SlotOf(st, s), st.trace, s, u) && Watching(Work(st, t), s)
    ensures var emitted := Emitted(st.hash, t);
            var before := if Watching(st, s) then StandOf(st, s, u) else NEWCOMER;
            && (!Watching(st, s) ==> t.SubTail? && t.client == s)
            && StandOf(Work(st, t), s, u) == if emitted == [] then before else After(before, emitted[0], s, u)
  {
    hide Work, Stand, After, SeenBy, LastTold, Emitted;
    var after, emitted := Work(st, t), Emitted(st.hash, t);
    WorkFrame(st, t);
    WorkSlot(st, t, s);
    EmitsOnce(st.hash, t, s);
    if emitted != [] {
      HeardEvents(SlotOf(st, s), st.trace, s, emitted[0]);
      StandNext(if Watching(st, s) then Events(st, s) else [], emitted[0], s, u);
    } else {
      assert st.trace + [] == st.trace;
    }
  }

  /** A task leaves at most one event; only an announcement of its own puts a socket into the map. */
  lemma EmitsOnce(hash: set<Uid>, t: Task, s: Socket)
    ensures var emitted := Emitted(hash, t);
            && (emitted == [] || emitted == [emitted[0]])
            && (emitted != [] && emitted[0].Announced? && emitted[0].client == s <==> t.SubTail? && t.client == s)
  {
  }

  /** The events for a socket after one more: all of them, or only that one for a newcomer. */
  lemma HeardEvents(slot: Slot, trace: seq<Event>, s: Socket, e: Event)
    requires Hear(slot, s, e, |trace|).tracked && slot.open && (slot.tracked ==> Anchored(slot, trace))
    ensures EventsFor(Hear(slot, s, e, |trace|), trace + [e]) ==
            (if slot.tracked then EventsFor(slot, trace) else []) + [e]
    ensures !slot.tracked ==> e.Announced? && e.client == s
  {
    JoinedEvents(slot, trace, e);
  }

  lemma StandAfterRun(st: State, i: nat, s: Socket, u: Uid)
    requires i < |st.tasks| && Exact(SlotOf(st, s), st.trace, s, u)
    requires Watching(Next(st, Run(i)), s)
    ensures var t, emitted := st.tasks[i], Emitted(st.hash, st.tasks[i]);
            var before := if Watching(st, s) then StandOf(st, s, u) else NEWCOMER;
            && (!Watching(st, s) ==> t.SubTail? && t.client == s)
            && StandOf(Next(st, Run(i)), s, u) ==
               if emitted == [] then before else After(before, emitted[0], s, u)
  {
    hide Work, Stand, After, SeenBy, Exact;
    StandAfterWork(st, st.tasks[i], s, u);
    assert SlotOf(Next(st, Run(i)), s) == SlotOf(Work(st, st.tasks[i]), s);
  }

  lemma JoinedEvents(slot: Slot, trace: seq<Event>, e: Event)
    ensures !slot.tracked ==> EventsFor(Tracked(slot, |trace|), trace + [e]) == [e]
    ensures Anchored(slot, trace) ==> EventsFor(slot, trace + [e]) == EventsFor(slot, trace) + [e]
  {
  }

  /** The standpoint of a watcher after a step that executes no task: its own, or a newcomer's. */
  lemma StandAfterStep(st: State, step: Step, s: Socket, u: Uid)
    requires NoTask(st, step) && Exact(SlotOf(st, s), st.trace, s, u)
    requires Watching(Next(st, step), s)
    ensures StandOf(Next(st, step), s, u) == if Watching(st, s) then StandOf(st, s, u) else NEWCOMER
  {
    hide Next, Stand, SeenBy;
    var slot, after := SlotOf(st, s), SlotOf(Next(st, step), s);
    StepFrame(st, step);
    StepSlot(st, step, s);
    StandNext([], Inserted(u, ByPong), s, u);
    assert st.trace[|st.trace|..] == [];
  }

  // ---------------------------------------------------------------- missed users

  /** A user is missed if and only if a pong inserted it and nothing removed it or told `s` of it since. */
  lemma MissedMeaning(events: seq<Event>, s: Socket, u: Uid)
    ensures Missed(events, s, u) <==>
            exists i :: 0 <= i < |events| && events[i] == Inserted(u, ByPong)
                        && forall j :: i < j < |events| ==>
                             !(events[j].Removed? && events[j].uid == u) && !TellsOnline(s, u)(events[j])
                             && !(events[j].Listed? && events[j].client == s)
  {
    forall e
      ensures PongInserts(u)(e) <==> e == Inserted(u, ByPong)
      ensures Mends(s, u)(e) <==>
              (e.Removed? && e.uid == u) || TellsOnline(s, u)(e) || (e.Listed? && e.client == s)
      ensures !(PongInserts(u)(e) && Mends(s, u)(e))
    {
      assert Removes(u)(e) <==> e.Removed? && e.uid == u;
      assert FullList(s)(e) <==> e.Listed? && e.client == s;
    }
    StandingMeaning(events, PongInserts(u), Mends(s, u));
  }

  // ---------------------------------------------------------------- where clients and handlers are

  predicate TaskPlaced(t: Task, n: nat)
  {
    match t
    case SubHSet(client, _, _) => client.inst < n
    case SubSet(client, _, _) => client.inst < n
    case SubTail(client, _, _) => client.inst < n
    case UnsubHDel(client, _) => client.inst < n
    case UnsubTail(client, _) => client.inst < n
    case Notify(inst, _) => inst < n
    case ExpHDel(inst, _) => inst < n
    case ExpTail(inst, _, _) => inst < n
    case _ => true
  }

  /** Clients and handlers belong to instances that exist. */
  ghost predicate Placed(st: State)
  {
    && (forall s :: s in st.clients ==> s.inst < st.n)
    && (forall t :: t in st.tasks ==> TaskPlaced(t, st.n))
  }

  lemma NewClient(st: State, step: Step, s: Socket)
    ensures s in Next(st, step).clients ==>
              || s in st.clients
              || (step.Subscribe? && step.client == s && s.inst < st.n)
              || (step.Run? && step.i < |st.tasks| && st.tasks[step.i].SubTail? && st.tasks[step.i].client == s)
  {
    hide Next, Moved;
    if step.Run? && step.i < |st.tasks| {
      RunFrame(st, step.i);
    } else {
      StepFrame(st, step);
    }
  }

  lemma NextPlaced(st: State, step: Step)
    requires Placed(st)
    ensures Placed(Next(st, step)) && Next(st, step).n == st.n
  {
    hide Next;
    var after := Next(st, step);
    if step.Run? && step.i < |st.tasks| {
      RunFrame(st, step.i);
      assert st.tasks[step.i] in st.tasks;
    } else {
      StepFrame(st, step);
      if step.Expire? {
        forall t | t in Spawned(st, step)
          ensures TaskPlaced(t, st.n)
        {
          NoticesName(st.n, step.uid, t);
        }
      }
    }
    forall s | s in after.clients
      ensures s.inst < st.n
    {
      NewClient(st, step, s);
    }
  }

  lemma {:induction false} AlwaysPlaced(n: nat, sockets: set<Socket>, steps: seq<Step>, k: nat)
    requires k <= |steps|
    ensures Placed(At(Init(n, sockets), steps, k)) && At(Init(n, sockets), steps, k).n == n
  {
    hide Next, Placed;
    if k == 0 {
      InitPlaced(n, sockets);
    } else {
      AlwaysPlaced(n, sockets, steps, k - 1);
      NextPlaced(At(Init(n, sockets), steps, k - 1), steps[k - 1]);
    }
  }

  lemma InitPlaced(n: nat, sockets: set<Socket>)
    ensures Placed(Init(n, sockets))
  {
  }
}
