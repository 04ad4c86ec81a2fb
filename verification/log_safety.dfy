/** What every run of the log writer keeps, whatever the overlap of its flushes. */
module LogSafety {
  import opened Prelude
  import opened LogMachine

  /** Each accepted entry carries its own place, so no two are equal. */
  ghost predicate Numbered(s: State)
  {
    forall i :: 0 <= i < |s.accepted| ==> s.accepted[i].id == i
  }

  /** Nothing is created or lost unseen. */
  ghost predicate Conserved(s: State)
  {
    multiset(s.accepted) == multiset(Unsettled(s)) + s.acked + s.dropped
  }

  /**
  Every attempt to insert an entry was acknowledged, rejected or is under way;
  nothing is stored more often than it was sent.
  */
  ghost predicate Accounted(s: State)
  {
    && s.attempted == s.acked + s.rejected + multiset(Joined(s.inFlight))
    && s.stored <= s.acked + s.rejected
  }

  /** Acknowledged entries are stored if the schema admits them, and no others are stored at all. */
  ghost predicate StoresValid(s: State)
  {
    forall e :: if Storable(e) then s.acked[e] <= s.stored[e] else s.stored[e] == 0
  }

  /** An error entry in the buffer is there because a flush that carried it failed. */
  ghost predicate ErrorsTried(s: State)
  {
    forall e :: e in s.logs && e.data.level == Error ==> e in s.rejected
  }

  /** What is not in the buffer has been sent at least once. */
  ghost predicate Offered(s: State)
  {
    forall e :: e in s.accepted ==> e in s.logs || e in s.attempted
  }

  ghost predicate Sent(s: State)
  {
    forall i :: 0 <= i < |s.inFlight| ==>
      s.inFlight[i].entries != [] && multiset(s.inFlight[i].entries) <= s.attempted
  }

  /** At most 99 entries, and 100 for each flush that failed since the last log call or flush start. */
  ghost predicate Bounded(s: State)
  {
    |s.logs| <= 99 + 100 * s.recentFailures
  }

  /** Batches outgrow the limit only after a failure, and only such a batch loses entries. */
  ghost predicate FirstFailureIsFree(s: State)
  {
    && s.recentFailures <= s.failures
    && (s.failures == 0 ==> forall i :: 0 <= i < |s.inFlight| ==> |s.inFlight[i].entries| <= BUFFER_SIZE)
    && (s.failures <= 1 ==> s.dropped == multiset{})
  }

  lemma PushConserves(s: State, e: Entry)
    requires Conserved(s)
    ensures Conserved(Push(s, e))
  {
    hide Unsettled;
    PushUnsettled(s, e);
  }

  lemma StartFlushConserves(s: State)
    requires Conserved(s)
    ensures Conserved(StartFlush(s))
  {
    hide Unsettled;
    StartFlushUnsettled(s);
  }

  lemma CompletionConserves(s: State, i: nat, kept: multiset<Entry>)
    requires i < |s.inFlight| && Conserved(s)
    ensures Conserved(SucceedFlush(s, i)) && Conserved(FailFlush(s, i, kept))
  {
    hide Unsettled, Joined, Take;
    var b := s.inFlight[i].entries;
    CompletionUnsettled(s, i, kept);
    TakeSplits(b, BUFFER_SIZE);
  }

  lemma StartFlushAccounts(s: State)
    requires Accounted(s) && Sent(s)
    ensures Accounted(StartFlush(s)) && Sent(StartFlush(s))
  {
    hide Joined;
    if s.logs != [] {
      JoinedAppend(s.inFlight, Batch(s.logs, |s.accepted|));
    }
  }

  lemma CompletionAccounts(s: State, i: nat, kept: multiset<Entry>)
    requires i < |s.inFlight| && Accounted(s)
    ensures Accounted(SucceedFlush(s, i)) && Accounted(FailFlush(s, i, kept))
  {
    hide Joined;
    JoinedAround(s.inFlight, i);
    var b, rest := multiset(s.inFlight[i].entries), multiset(Joined(Drop(s.inFlight, i)));
    assert multiset(Joined(s.inFlight)) == b + rest;
    StorablePartIsPart(s.inFlight[i].entries);
    assert s.stored + kept * StorablePart(s.inFlight[i].entries) <= s.acked + (s.rejected + b);
  }

  lemma CompletionStoresValid(s: State, i: nat, kept: multiset<Entry>)
    requires i < |s.inFlight| && StoresValid(s)
    ensures StoresValid(SucceedFlush(s, i)) && StoresValid(FailFlush(s, i, kept))
  {
    hide Drop, StorablePart;
    var b := s.inFlight[i].entries;
    forall e
      ensures StorablePart(b)[e] == if Storable(e) then multiset(b)[e] else 0
    {
      StorablePartCounts(b, e);
    }
  }

  lemma CompletionSent(s: State, i: nat, kept: multiset<Entry>)
    requires i < |s.inFlight| && Sent(s)
    ensures Sent(SucceedFlush(s, i)) && Sent(FailFlush(s, i, kept))
  {
  }

  lemma FailTriesErrors(s: State, i: nat, kept: multiset<Entry>)
    requires i < |s.inFlight| && ErrorsTried(s)
    ensures ErrorsTried(FailFlush(s, i, kept))
  {
    var b := s.inFlight[i].entries;
    forall e | e in FailFlush(s, i, kept).logs && e.data.level == Error
      ensures e in FailFlush(s, i, kept).rejected
    {
      if e in Take(b, BUFFER_SIZE) {
        assert e in multiset(b);
      }
    }
  }

  lemma CompletionBounds(s: State, i: nat, kept: multiset<Entry>)
    requires i < |s.inFlight| && Bounded(s) && FirstFailureIsFree(s)
    ensures Bounded(SucceedFlush(s, i)) && FirstFailureIsFree(SucceedFlush(s, i))
    ensures Bounded(FailFlush(s, i, kept)) && FirstFailureIsFree(FailFlush(s, i, kept))
  {
    TakeSplits(s.inFlight[i].entries, BUFFER_SIZE);
  }

  ghost predicate Inv(s: State)
  {
    && Numbered(s) && Conserved(s) && Accounted(s) && StoresValid(s) && Sent(s)
    && ErrorsTried(s) && Bounded(s) && FirstFailureIsFree(s)
  }

  /** What must hold of a state for a flush to start in it. */
  ghost predicate Ready(s: State)
  {
    && Numbered(s) && Conserved(s) && Accounted(s) && StoresValid(s) && Sent(s) && FirstFailureIsFree(s)
    && (s.failures == 0 ==> |s.logs| <= BUFFER_SIZE)
  }

  lemma InvReady(s: State)
    requires Inv(s)
    ensures Ready(s) && Ready(s.(timerOn := false))
  {
  }

  lemma StartFlushBounds(s: State)
    requires FirstFailureIsFree(s) && (s.failures == 0 ==> |s.logs| <= BUFFER_SIZE)
    ensures Bounded(StartFlush(s)) && FirstFailureIsFree(StartFlush(s)) && ErrorsTried(StartFlush(s))
  {
  }

  lemma StartFlushKeeps(s: State)
    requires Ready(s)
    ensures Inv(StartFlush(s))
  {
    hide Conserved, Accounted, Sent, FirstFailureIsFree, Bounded, ErrorsTried;
    StartFlushConserves(s);
    StartFlushAccounts(s);
    StartFlushBounds(s);
  }

  lemma PushReady(s: State, e: Entry)
    requires Inv(s) && e.id == |s.accepted|
    ensures Ready(Push(s, e))
    ensures |Push(s, e).logs| < BUFFER_SIZE && e.data.level != Error ==> Inv(Push(s, e))
  {
    hide Conserved;
    PushConserves(s, e);
    PushRest(s, e);
    hide Numbered, Accounted, StoresValid, Sent, FirstFailureIsFree, ErrorsTried;
  }

  lemma PushRest(s: State, e: Entry)
    requires Numbered(s) && Accounted(s) && StoresValid(s) && Sent(s) && FirstFailureIsFree(s) && ErrorsTried(s)
    requires e.id == |s.accepted|
    ensures var t := Push(s, e);
            && Numbered(t) && Accounted(t) && StoresValid(t) && Sent(t) && FirstFailureIsFree(t)
            && (e.data.level != Error ==> ErrorsTried(t))
  {
    hide Joined;
    assert forall x :: x in Push(s, e).logs ==> x in s.logs || x == e;
  }

  lemma AppLogKeeps(s: State, data: ApplicationLog, timestamp: nat)
    requires Inv(s)
    ensures Inv(AppLog(s, data, timestamp))
  {
    hide Inv, Ready;
    var e := MakeEntry(|s.accepted|, timestamp, data);
    PushReady(s, e);
    StartFlushKeeps(Push(s, e));
  }

  lemma CompletionKeeps(s: State, i: nat, kept: multiset<Entry>)
    requires i < |s.inFlight| && Inv(s)
    ensures Inv(SucceedFlush(s, i)) && Inv(FailFlush(s, i, kept))
  {
    hide Conserved, Accounted, StoresValid, Sent, FirstFailureIsFree, Bounded;
    CompletionConserves(s, i, kept);
    CompletionAccounts(s, i, kept);
    CompletionStoresValid(s, i, kept);
    CompletionSent(s, i, kept);
    FailTriesErrors(s, i, kept);
    CompletionBounds(s, i, kept);
  }

  lemma NextKeeps(s: State, step: Step)
    requires Inv(s)
    ensures Inv(Next(s, step))
  {
    hide Inv, Ready;
    InvReady(s);
    match step
    case Log(data, timestamp) => AppLogKeeps(s, data, timestamp);
    case Tick => StartFlushKeeps(s);
    case Destroy => StartFlushKeeps(s.(timerOn := false));
    case Succeed(i) => if i < |s.inFlight| { CompletionKeeps(s, i, multiset{}); }
    case Fail(i, kept) => if i < |s.inFlight| { CompletionKeeps(s, i, kept); }
  }

  lemma {:induction false} Invariant(steps: seq<Step>, k: nat)
    requires k <= |steps|
    ensures Inv(At(INIT, steps, k))
  {
    hide Next, Inv;
    if k == 0 {
      InitInv();
    } else {
      Invariant(steps, k - 1);
      NextKeeps(At(INIT, steps, k - 1), steps[k - 1]);
    }
  }

  lemma InitInv()
    ensures Inv(INIT)
  {
    hide StorablePart;
    JoinedEmpty();
  }

  lemma {:induction false} OneIndexOnly(entries: seq<Entry>, e: Entry)
    requires forall i, j :: 0 <= i < j < |entries| ==> entries[i] != entries[j]
    ensures multiset(entries)[e] <= 1
  {
    if entries != [] {
      var last := |entries| - 1;
      assert entries == entries[..last] + [entries[last]];
      OneIndexOnly(entries[..last], e);
      if entries[last] == e {
        assert e !in entries[..last];
      }
    }
  }

  /**
  Conservation under overlapping flushes: an accepted entry is in exactly one
  place, once: buffered, in one batch in flight, acknowledged, or dropped.
  */
  lemma {:induction false} EveryEntryInOnePlace(steps: seq<Step>, k: nat, e: Entry)
    requires k <= |steps|
    ensures var s := At(INIT, steps, k);
            && multiset(s.accepted) == multiset(s.logs) + multiset(Joined(s.inFlight)) + s.acked + s.dropped
            && multiset(s.logs)[e] + multiset(Joined(s.inFlight))[e] + s.acked[e] + s.dropped[e]
               == (if e in s.accepted then 1 else 0)
  {
    hide Next;
    Invariant(steps, k);
    var s := At(INIT, steps, k);
    OneIndexOnly(s.accepted, e);
    if e in s.accepted {
      assert e in multiset(s.accepted);
    }
  }

  /**
  An acknowledged entry is stored if and only if the schema admits it, whatever
  the acknowledgement says; no entry is stored more often than it was sent, failed
  attempts included; and every attempt has one of three outcomes.
  */
  lemma {:induction false} StoredBetweenAckedAndAttempted(steps: seq<Step>, k: nat, e: Entry)
    requires k <= |steps|
    ensures var s := At(INIT, steps, k);
            && (e in s.acked ==> (e in s.stored <==> Storable(e)))
            && (Storable(e) ==> s.acked[e] <= s.stored[e])
            && s.stored[e] <= s.acked[e] + s.rejected[e] <= s.attempted[e]
            && s.attempted == s.acked + s.rejected + multiset(Joined(s.inFlight))
  {
    hide Next;
    Invariant(steps, k);
  }

  /** An error entry found in the buffer has been part of an insert that failed. */
  lemma {:induction false} ErrorsNeverWaitUntried(steps: seq<Step>, k: nat, e: Entry)
    requires k <= |steps|
    requires e in At(INIT, steps, k).logs && e.data.level == Error
    ensures At(INIT, steps, k).rejected[e] >= 1
  {
    hide Next;
    Invariant(steps, k);
  }

  lemma NextOffers(s: State, step: Step)
    requires Offered(s)
    ensures Offered(Next(s, step))
  {
    match step
    case Log(data, timestamp) =>
      var t := Push(s, MakeEntry(|s.accepted|, timestamp, data));
      assert forall e :: e in t.accepted ==> e in t.logs || e in t.attempted;
    case _ =>
  }

  lemma {:induction false} AlwaysOffered(steps: seq<Step>, k: nat)
    requires k <= |steps|
    ensures Offered(At(INIT, steps, k))
  {
    hide Next, Offered;
    if k == 0 {
      InitOffered();
    } else {
      AlwaysOffered(steps, k - 1);
      NextOffers(At(INIT, steps, k - 1), steps[k - 1]);
    }
  }

  lemma InitOffered()
    ensures Offered(INIT)
  {
  }

  /** Nothing waits longer than a tick: by the next one, or by shutdown, every accepted entry has been sent. */
  lemma {:induction false} TickSendsEverything(steps: seq<Step>, k: nat, e: Entry)
    requires k < |steps| && e in At(INIT, steps, k).accepted
    requires steps[k].Destroy? || (steps[k].Tick? && At(INIT, steps, k).timerOn)
    ensures At(INIT, steps, k + 1).attempted[e] >= 1
  {
    AlwaysOffered(steps, k);
  }

  /** At most 99 entries are buffered, and 100 more per flush that failed since the last log call or flush start. */
  lemma {:induction false} MemoryBound(steps: seq<Step>, k: nat)
    requires k <= |steps|
    ensures Bounded(At(INIT, steps, k))
  {
    hide Next;
    Invariant(steps, k);
  }

  /** In particular a log call leaves at most 99 entries, whatever it found. */
  lemma LogCallLeavesRoom(s: State, data: ApplicationLog, timestamp: nat)
    ensures |AppLog(s, data, timestamp).logs| <= 99 && AppLog(s, data, timestamp).recentFailures == 0
  {
  }

  /** The entry is the given data with the time of the call; absent metadata is stored as an empty object. */
  ghost predicate EntryFor(e: Entry, data: ApplicationLog, timestamp: nat)
  {
    && e.timestamp == timestamp && e.data.level == data.level && e.data.service == data.service
    && e.data.userId == data.userId && e.data.sessionId == data.sessionId && e.data.action == data.action
    && e.data.message == data.message && e.data.stackTrace == data.stackTrace
    && e.data.metadata == if data.metadata.Some? then data.metadata else Some(map[])
  }

  /** A flush moves the whole buffer into one more batch; an empty buffer starts none. */
  ghost predicate Flushed(s: State, t: State)
  {
    && t.logs == []
    && (s.logs == [] ==> t.inFlight == s.inFlight)
    && (s.logs != [] ==> t.inFlight == s.inFlight + [Batch(s.logs, |s.accepted|)])
  }

  /**
  A log call accepts one entry. It flushes if and only if that entry is an error
  or the hundredth in the buffer; the entry is then the last of the new batch.
  */
  ghost predicate Logged(s: State, t: State, data: ApplicationLog, timestamp: nat)
  {
    && |t.accepted| == |s.accepted| + 1 && t.accepted[..|s.accepted|] == s.accepted
    && var e := t.accepted[|s.accepted|];
    && EntryFor(e, data, timestamp) && t.timerOn == s.timerOn
    && if data.level == Error || |s.logs| + 1 >= 100
       then t.logs == [] && t.inFlight == s.inFlight + [Batch(s.logs + [e], |s.accepted| + 1)]
       else t.logs == s.logs + [e] && t.inFlight == s.inFlight
  }

  lemma LogCallLogs(s: State, data: ApplicationLog, timestamp: nat)
    ensures Logged(s, Next(s, Log(data, timestamp)), data, timestamp)
  {
  }

  /**
  A rejected insert puts the first 100 entries of its batch back in front of the
  buffer; a successful one leaves the buffer alone. Either takes its batch out.
  */
  ghost predicate Completed(s: State, t: State, i: nat, failed: bool)
  {
    && i < |s.inFlight| && t.inFlight == s.inFlight[..i] + s.inFlight[i + 1..]
    && t.accepted == s.accepted && t.timerOn == s.timerOn
    && var entries := s.inFlight[i].entries;
       t.logs == (if failed then (if |entries| <= 100 then entries else entries[..100]) else []) + s.logs
  }

  /** Of the storable entries of a batch a successful insert stores each once, a failed one those in `kept`. */
  lemma CompletionStores(s: State, i: nat, kept: multiset<Entry>, e: Entry)
    requires i < |s.inFlight|
    ensures var b := multiset(s.inFlight[i].entries);
            && Next(s, Succeed(i)).stored[e] == s.stored[e] + (if Storable(e) then b[e] else 0)
            && Next(s, Fail(i, kept)).stored[e]
               == s.stored[e] + (if !Storable(e) then 0 else if kept[e] <= b[e] then kept[e] else b[e])
  {
    StorablePartCounts(s.inFlight[i].entries, e);
  }

  lemma CompletionCompletes(s: State, i: nat, kept: multiset<Entry>)
    requires i < |s.inFlight|
    ensures Completed(s, Next(s, Succeed(i)), i, false)
    ensures Completed(s, Next(s, Fail(i, kept)), i, true)
  {
  }

  lemma TickFlushes(s: State)
    ensures if s.timerOn then Flushed(s, Next(s, Tick)) else Next(s, Tick) == s
    ensures Flushed(s, Next(s, Destroy)) && !Next(s, Destroy).timerOn
    ensures Next(s, Tick).timerOn == s.timerOn
  {
  }

  /** The timer runs until shutdown and not after it. */
  lemma {:induction false} TimerRunsUntilShutdown(steps: seq<Step>, k: nat)
    requires k <= |steps|
    ensures At(INIT, steps, k).timerOn <==> forall j :: 0 <= j < k ==> !steps[j].Destroy?
  {
    hide Next;
    if k > 0 {
      TimerRunsUntilShutdown(steps, k - 1);
      NextTimer(At(INIT, steps, k - 1), steps[k - 1]);
    }
  }

  lemma NextTimer(s: State, step: Step)
    ensures Next(s, step).timerOn <==> s.timerOn && !step.Destroy?
  {
  }

  /** No entry is lost before the second failure of a run; before the first, no batch can lose any. */
  lemma {:induction false} LossNeedsTwoFailures(steps: seq<Step>, k: nat)
    requires k <= |steps|
    ensures var s := At(INIT, steps, k);
            && (s.dropped != multiset{} ==> s.failures >= 2)
            && ((exists b :: b in s.inFlight && |b.entries| > BUFFER_SIZE) ==> s.failures >= 1)
  {
    hide Next;
    Invariant(steps, k);
  }
}
