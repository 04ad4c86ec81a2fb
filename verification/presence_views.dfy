/**
What a client believes from the messages it was sent, and how that follows from
what happened: for every interleaving and any number of server instances, a
client's view of a user is decided by the last event that told the client about
that user, and the hash by the last event that changed it.
*/
module PresenceViews {
  import opened Prelude
  import opened TtlKeys
  import opened PresenceState

  /** A client adds whom it is told is online and removes whom it is told is offline. */
  function Believe(view: set<Uid>, m: Message): set<Uid>
  {
    match m
    case UnsubscribeAck => view
    case StatusInfo(info) =>
      view + (set u | u in info && info[u] == Online) - (set u | u in info && info[u] == Offline)
  }

  function ViewOf(messages: seq<Message>): set<Uid>
  {
    if messages == [] then {} else Believe(ViewOf(messages[..|messages| - 1]), messages[|messages| - 1])
  }

  lemma ViewNext(messages: seq<Message>, m: Message)
    ensures ViewOf(messages + [m]) == Believe(ViewOf(messages), m)
  {
    assert (messages + [m])[..|messages|] == messages;
  }

  // ---------------------------------------------------------------- what stands after some events

  /** The last event that sets or clears something decides; at first it is clear. */
  predicate Standing(events: seq<Event>, sets: Event -> bool, clears: Event -> bool)
  {
    if events == [] then false
    else
      var last := events[|events| - 1];
      sets(last) || (!clears(last) && Standing(events[..|events| - 1], sets, clears))
  }

  lemma StandingNext(events: seq<Event>, e: Event, sets: Event -> bool, clears: Event -> bool)
    ensures Standing(events + [e], sets, clears) <==> sets(e) || (!clears(e) && Standing(events, sets, clears))
  {
    assert (events + [e])[..|events|] == events;
  }

  /** Some event set it, and none after that one cleared it. */
  ghost predicate SetAndNotCleared(events: seq<Event>, sets: Event -> bool, clears: Event -> bool)
  {
    exists i :: 0 <= i < |events| && sets(events[i]) && forall j :: i < j < |events| ==> !clears(events[j])
  }

  lemma {:induction false} StandingMeaning(events: seq<Event>, sets: Event -> bool, clears: Event -> bool)
    requires forall e :: !(sets(e) && clears(e))
    ensures Standing(events, sets, clears) <==> SetAndNotCleared(events, sets, clears)
  {
    if events != [] {
      var last, front := |events| - 1, events[..|events| - 1];
      StandingMeaning(front, sets, clears);
      if i :| 0 <= i < |events| && sets(events[i]) && forall j :: i < j < |events| ==> !clears(events[j]) {
        if i < last {
          assert sets(front[i]) && forall j :: i < j < |front| ==> !clears(front[j]);
        }
      }
      if Standing(events, sets, clears) {
        if !sets(events[last]) {
          var i :| 0 <= i < |front| && sets(front[i]) && forall j :: i < j < |front| ==> !clears(front[j]);
          assert sets(events[i]) && forall j :: i < j < |events| ==> !clears(events[j]);
        }
      }
    }
  }

  function Inserts(u: Uid): Event -> bool
  {
    (e: Event) => e.Inserted? && e.uid == u
  }

  function Removes(u: Uid): Event -> bool
  {
    (e: Event) => e.Removed? && e.uid == u
  }

  /** The events in which an open tracked `s` is told that `u` is online. */
  function TellsOnline(s: Socket, u: Uid): Event -> bool
  {
    (e: Event) =>
      match e
      case Announced(client, uid, self) => uid == u && (if client == s then self else client.inst == s.inst)
      case Listed(client, users) => client == s && u in users
      case _ => false
  }

  function TellsOffline(s: Socket, u: Uid): Event -> bool
  {
    (e: Event) => e.OfflineSent? && e.uid == u && e.inst == s.inst
  }

  /** From these events an open tracked `s` takes `u` to be online. */
  predicate LastTold(events: seq<Event>, s: Socket, u: Uid)
  {
    Standing(events, TellsOnline(s, u), TellsOffline(s, u))
  }

  // ---------------------------------------------------------------- one socket

  /** All that the protocol holds about one socket. */
  datatype Slot = Slot(tracked: bool, open: bool, inbox: seq<Message>, since: Option<nat>, joinedAt: Option<nat>)

  function SlotOf(st: State, s: Socket): Slot
  {
    Slot(s in st.clients, s in st.open, Inbox(st.inbox, s),
         if s in st.since then Some(st.since[s]) else None,
         if s in st.joinedAt then Some(st.joinedAt[s]) else None)
  }

  predicate Watching(st: State, s: Socket)
  {
    s in st.clients && s in st.open
  }

  /** The users that the client believes to be online, from what it was sent since it was last newly tracked. */
  function SeenBy(slot: Slot): set<Uid>
  {
    if slot.since.Some? && slot.since.value <= |slot.inbox| then ViewOf(slot.inbox[slot.since.value..]) else {}
  }

  /** What happened since the client was last newly tracked. */
  function EventsFor(slot: Slot, trace: seq<Event>): seq<Event>
  {
    if slot.joinedAt.Some? && slot.joinedAt.value <= |trace| then trace[slot.joinedAt.value..] else []
  }

  function Seen(st: State, s: Socket): set<Uid>
  {
    SeenBy(SlotOf(st, s))
  }

  function Events(st: State, s: Socket): seq<Event>
  {
    EventsFor(SlotOf(st, s), st.trace)
  }

  predicate Anchored(slot: Slot, trace: seq<Event>)
  {
    && slot.since.Some? && slot.since.value <= |slot.inbox|
    && slot.joinedAt.Some? && slot.joinedAt.value <= |trace|
  }

  function Receive(slot: Slot, m: Message): Slot
  {
    slot.(inbox := slot.inbox + [m])
  }

  /** The client is put into the map when `at` events have happened. */
  function Tracked(slot: Slot, at: nat): Slot
  {
    if slot.tracked then slot else slot.(tracked := true, since := Some(|slot.inbox|), joinedAt := Some(at))
  }

  lemma SeenNext(slot: Slot, m: Message)
    requires slot.since.Some? && slot.since.value <= |slot.inbox|
    ensures SeenBy(Receive(slot, m)) == Believe(SeenBy(slot), m)
  {
    hide ViewOf;
    var k := slot.since.value;
    assert (slot.inbox + [m])[k..] == slot.inbox[k..] + [m];
    ViewNext(slot.inbox[k..], m);
  }

  lemma EventsNext(slot: Slot, trace: seq<Event>, e: Event)
    requires slot.joinedAt.Some? && slot.joinedAt.value <= |trace|
    ensures EventsFor(slot, trace + [e]) == EventsFor(slot, trace) + [e]
  {
  }

  // ---------------------------------------------------------------- what each stretch of code does to one socket

  lemma BroadcastSlot(st: State, inst: nat, connected: Option<Socket>, m: Message, s: Socket)
    ensures var slot := SlotOf(st, s);
            SlotOf(Broadcast(st, inst, connected, m), s) ==
            if slot.tracked && slot.open && s.inst == inst && Some(s) != connected then Receive(slot, m) else slot
  {
  }

  lemma SendSlot(st: State, client: Socket, m: Message, s: Socket)
    ensures var slot := SlotOf(st, s);
            SlotOf(Send(st, client, m), s) == if s == client && slot.open then Receive(slot, m) else slot
  {
  }

  lemma NoteSlot(st: State, e: Event, s: Socket)
    ensures SlotOf(Note(st, e), s) == SlotOf(st, s)
  {
  }

  lemma TrackSlot(st: State, client: Socket, meta: Meta, s: Socket)
    ensures SlotOf(Track(st, client, meta), s) ==
            if s == client then Tracked(SlotOf(st, s), |st.trace|) else SlotOf(st, s)
  {
  }

  lemma UntrackSlot(st: State, client: Socket, s: Socket)
    ensures if s == client then !SlotOf(Untrack(st, client), s).tracked
            else SlotOf(Untrack(st, client), s) == SlotOf(st, s)
  {
  }

  lemma GreetSlot(st: State, client: Socket, userUid: Option<Uid>, reset: bool, s: Socket)
    ensures var slot := SlotOf(st, s);
            SlotOf(Greet(st, client, userUid, reset), s) ==
            if s == client then
              var joined := Tracked(slot, |st.trace|);
              if !reset && slot.open then Receive(joined, Own(userUid)) else joined
            else if userUid.Some? && slot.tracked && slot.open && s.inst == client.inst
            then Receive(slot, OneUser(userUid.value, Online)) else slot
  {
    hide Broadcast, Track, Send, Note, SlotOf;
    var told := st;
    if userUid.Some? {
      told := Broadcast(st, client.inst, Some(client), OneUser(userUid.value, Online));
      BroadcastSlot(st, client.inst, Some(client), OneUser(userUid.value, Online), s);
      BroadcastFrame(st, client.inst, Some(client), OneUser(userUid.value, Online));
    }
    var joined := Track(told, client, Meta(userUid, true));
    TrackSlot(told, client, Meta(userUid, true), s);
    SendSlot(joined, client, Own(userUid), s);
    if userUid.Some? {
      var answered := if reset then joined else Send(joined, client, Own(userUid));
      NoteSlot(answered, Announced(client, userUid.value, !reset), s);
    }
  }

  lemma SnapshotSlot(st: State, client: Socket, users: set<Uid>, s: Socket)
    ensures var slot := SlotOf(st, s);
            SlotOf(Snapshot(st, client, users), s) ==
            if s == client && slot.open then Receive(slot, AllOnline(users)) else slot
  {
    hide Send;
    SendSlot(st, client, AllOnline(users), s);
    NoteSlot(Send(st, client, AllOnline(users)), Listed(client, users), s);
  }

  lemma LeaveSlot(st: State, client: Socket, s: Socket)
    ensures if s == client then !SlotOf(Leave(st, client), s).tracked
            else SlotOf(Leave(st, client), s) == SlotOf(st, s)
  {
    hide Send, Untrack;
    UntrackSlot(st, client, s);
    SendSlot(Untrack(st, client), client, UnsubscribeAck, s);
  }

  lemma TellOfflineSlot(st: State, client: Socket, uid: Uid, s: Socket)
    ensures var slot := SlotOf(st, s);
            if s == client then !SlotOf(TellOffline(st, client, uid), s).tracked
            else SlotOf(TellOffline(st, client, uid), s) ==
                 if slot.tracked && slot.open && s.inst == client.inst
                 then Receive(slot, OneUser(uid, Offline)) else slot
  {
    hide Broadcast, Leave, Note;
    var told := Broadcast(st, client.inst, Some(client), OneUser(uid, Offline));
    BroadcastSlot(st, client.inst, Some(client), OneUser(uid, Offline), s);
    LeaveSlot(told, client, s);
    NoteSlot(Leave(told, client), OfflineSent(client.inst, uid, ByUnsubscribe), s);
  }

  /** What the stretch of code that ends with event `e`, after `at` others, does to a socket it does not untrack. */
  function Hear(slot: Slot, s: Socket, e: Event, at: nat): Slot
  {
    match e
    case Announced(client, uid, self) =>
      if s == client then
        var joined := Tracked(slot, at);
        if self && slot.open then Receive(joined, OneUser(uid, Online)) else joined
      else if slot.tracked && slot.open && s.inst == client.inst then Receive(slot, OneUser(uid, Online))
      else slot
    case OfflineSent(inst, uid, _) =>
      if slot.tracked && slot.open && s.inst == inst then Receive(slot, OneUser(uid, Offline)) else slot
    case Listed(client, users) =>
      if s == client && slot.open then Receive(slot, AllOnline(users)) else slot
    case _ => slot
  }

  /** A task acts on a socket through the event it leaves in the trace. */
  lemma WorkSlot(st: State, t: Task, s: Socket)
    ensures var emitted := Emitted(st.hash, t);
            SlotOf(Work(st, t), s).tracked ==>
              SlotOf(Work(st, t), s) ==
              if emitted == [] then SlotOf(st, s) else Hear(SlotOf(st, s), s, emitted[0], |st.trace|)
  {
    hide Greet, Snapshot, TellOffline, Broadcast;
    match t
    case SubTail(client, uid, reset) => GreetSlot(st, client, Some(uid), reset, s);
    case SubReply(client, users) => SnapshotSlot(st, client, users, s);
    case UnsubTail(client, uid) => TellOfflineSlot(st, client, uid, s);
    case ExpTail(inst, uid, removed) => BroadcastSlot(st, inst, None, OneUser(uid, Offline), s);
    case _ =>
  }

  /** The other steps act on a socket only by taking it in or dropping it. */
  lemma StepSlot(st: State, step: Step, s: Socket)
    requires NoTask(st, step)
    ensures var slot, after := SlotOf(st, s), SlotOf(Next(st, step), s);
            after.tracked && after.open ==>
              || after == slot
              || (step.Subscribe? && step.client == s
                  && after == (if step.reset then Tracked(slot, |st.trace|)
                               else Receive(Tracked(slot, |st.trace|), Own(None))))
  {
    match step
    case Subscribe(client, userUid, reset) =>
      hide Greet, SlotOf;
      if userUid.None? {
        GreetSlot(st, client, userUid, reset, s);
      } else {
        BagSlot(st, st.tasks + [SubHSet(client, userUid.value, reset)], s);
      }
      BagSlot(Greet(st, client, None, reset), Greet(st, client, None, reset).tasks + [SubGetAll(client)], s);
    case Unsubscribe(client, userUid) =>
      hide Leave, Send, SlotOf;
      LeaveSlot(st, client, s);
      SendSlot(st, client, UnsubscribeAck, s);
      if userUid.Some? {
        BagSlot(st, st.tasks + [UnsubHDel(client, userUid.value)], s);
      }
    case _ =>
      OtherSlot(st, step, s);
  }

  lemma BagSlot(st: State, bag: seq<Task>, s: Socket)
    ensures SlotOf(st.(tasks := bag), s) == SlotOf(st, s)
  {
  }

  lemma OtherSlot(st: State, step: Step, s: Socket)
    requires NoTask(st, step) && !step.Subscribe? && !step.Unsubscribe?
    ensures var slot, after := SlotOf(st, s), SlotOf(Next(st, step), s);
            after.tracked && after.open ==> after == slot
  {
    hide Greet, Leave, Send;
  }

  // ---------------------------------------------------------------- the view is what was told

  /** An open tracked client believes `u` online exactly if that is the last it was told of `u`. */
  ghost predicate Exact(slot: Slot, trace: seq<Event>, s: Socket, u: Uid)
  {
    slot.tracked && slot.open ==>
      Anchored(slot, trace) && (u in SeenBy(slot) <==> LastTold(EventsFor(slot, trace), s, u))
  }

  lemma JoinExact(slot: Slot, trace: seq<Event>, s: Socket, u: Uid)
    requires Exact(slot, trace, s, u)
    ensures Exact(Tracked(slot, |trace|), trace, s, u)
    ensures Exact(Receive(Tracked(slot, |trace|), Own(None)), trace, s, u)
  {
    if slot.open {
      var joined := Tracked(slot, |trace|);
      assert !slot.tracked ==> slot.inbox[|slot.inbox|..] == [] && trace[|trace|..] == [];
      SeenNext(joined, Own(None));
    }
  }

  lemma HearExact(slot: Slot, trace: seq<Event>, s: Socket, u: Uid, e: Event)
    requires Exact(slot, trace, s, u)
    ensures Exact(Hear(slot, s, e, |trace|), trace + [e], s, u)
  {
    hide ViewOf, Standing;
    var base := if e.Announced? && e.client == s then Tracked(slot, |trace|) else slot;
    JoinExact(slot, trace, s, u);
    if base.tracked && base.open {
      EventsNext(base, trace, e);
      StandingNext(EventsFor(base, trace), e, TellsOnline(s, u), TellsOffline(s, u));
      match e
      case Announced(_, uid, _) => SeenNext(base, OneUser(uid, Online));
      case OfflineSent(_, uid, _) => SeenNext(base, OneUser(uid, Offline));
      case Listed(_, users) => SeenNext(base, AllOnline(users));
      case _ =>
    }
  }

  lemma NextExact(st: State, step: Step, s: Socket, u: Uid)
    requires Exact(SlotOf(st, s), st.trace, s, u)
    ensures Exact(SlotOf(Next(st, step), s), Next(st, step).trace, s, u)
  {
    if step.Run? && step.i < |st.tasks| {
      RunExact(st, step.i, s, u);
    } else {
      hide Next, SlotOf, Exact;
      StepFrame(st, step);
      StepSlot(st, step, s);
      JoinExact(SlotOf(st, s), st.trace, s, u);
      UnseenExact(SlotOf(Next(st, step), s), st.trace, s, u);
    }
  }

  lemma UnseenExact(slot: Slot, trace: seq<Event>, s: Socket, u: Uid)
    ensures !(slot.tracked && slot.open) ==> Exact(slot, trace, s, u)
  {
  }

  lemma WorkExact(st: State, t: Task, s: Socket, u: Uid)
    requires Exact(SlotOf(st, s), st.trace, s, u)
    ensures Exact(SlotOf(Work(st, t), s), Work(st, t).trace, s, u)
  {
    hide Work, Exact, Hear, SlotOf;
    var emitted := Emitted(st.hash, t);
    WorkFrame(st, t);
    WorkSlot(st, t, s);
    if emitted != [] {
      assert emitted == [emitted[0]];
      HearExact(SlotOf(st, s), st.trace, s, u, emitted[0]);
    } else {
      assert st.trace + [] == st.trace;
    }
    UnseenExact(SlotOf(Work(st, t), s), Work(st, t).trace, s, u);
  }

  lemma RunExact(st: State, i: nat, s: Socket, u: Uid)
    requires Exact(SlotOf(st, s), st.trace, s, u) && i < |st.tasks|
    ensures Exact(SlotOf(Next(st, Run(i)), s), Next(st, Run(i)).trace, s, u)
  {
    hide Work, Exact;
    WorkExact(st, st.tasks[i], s, u);
    assert SlotOf(Next(st, Run(i)), s) == SlotOf(Work(st, st.tasks[i]), s);
  }

  lemma InitExact(n: nat, sockets: set<Socket>, s: Socket, u: Uid)
    ensures Exact(SlotOf(Init(n, sockets), s), [], s, u)
  {
  }

  /** `u` is online exactly if an hSet inserted it and no hDel removed it since. */
  ghost predicate HashStands(st: State, u: Uid)
  {
    u in st.hash <==> Standing(st.trace, Inserts(u), Removes(u))
  }

  lemma NextHashStands(st: State, step: Step, u: Uid)
    requires HashStands(st, u)
    ensures HashStands(Next(st, step), u)
  {
    hide Next, Standing;
    if step.Run? && step.i < |st.tasks| {
      RunFrame(st, step.i);
      var emitted := Emitted(st.hash, st.tasks[step.i]);
      if emitted != [] {
        assert emitted == [emitted[0]];
        StandingNext(st.trace, emitted[0], Inserts(u), Removes(u));
      } else {
        assert st.trace + [] == st.trace;
      }
    } else {
      StepFrame(st, step);
    }
  }

  /** Both: what `s` believes of `u`, and whether `u` is online, read off the trace. */
  ghost predicate ReadOff(st: State, s: Socket, u: Uid)
  {
    && (Watching(st, s) ==>
          (u in Seen(st, s) <==> SetAndNotCleared(Events(st, s), TellsOnline(s, u), TellsOffline(s, u))))
    && (u in st.hash <==> SetAndNotCleared(st.trace, Inserts(u), Removes(u)))
  }

  lemma {:induction false} AlwaysExact(n: nat, sockets: set<Socket>, steps: seq<Step>, k: nat, s: Socket, u: Uid)
    requires k <= |steps|
    ensures var st := At(Init(n, sockets), steps, k);
            Exact(SlotOf(st, s), st.trace, s, u) && HashStands(st, u)
  {
    hide Next, SlotOf, Exact, HashStands;
    if k == 0 {
      InitExact(n, sockets, s, u);
      assert HashStands(Init(n, sockets), u) by {
        InitHashStands(n, sockets, u);
      }
    } else {
      AlwaysExact(n, sockets, steps, k - 1, s, u);
      NextExact(At(Init(n, sockets), steps, k - 1), steps[k - 1], s, u);
      NextHashStands(At(Init(n, sockets), steps, k - 1), steps[k - 1], u);
    }
  }

  lemma InitHashStands(n: nat, sockets: set<Socket>, u: Uid)
    ensures HashStands(Init(n, sockets), u)
  {
  }

  /**
  Exact views, for every interleaving and any number of instances: an open
  tracked client believes a user online if and only if, since it was tracked, it
  was told so and not told otherwise after that; and the user is online if and
  only if an hSet inserted it and no hDel removed it after that.
  */
  lemma {:induction false} ViewsAreReadOffTheTrace(
        n: nat, sockets: set<Socket>, steps: seq<Step>, k: nat, s: Socket, u: Uid)
    requires k <= |steps|
    ensures ReadOff(At(Init(n, sockets), steps, k), s, u)
  {
    hide Next, Standing, SeenBy, EventsFor, SetAndNotCleared;
    AlwaysExact(n, sockets, steps, k, s, u);
    var st := At(Init(n, sockets), steps, k);
    StandingMeaning(Events(st, s), TellsOnline(s, u), TellsOffline(s, u));
    StandingMeaning(st.trace, Inserts(u), Removes(u));
  }
}
