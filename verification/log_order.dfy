/**
Acceptance order, shutdown and the tightness of the memory bound: when the log
writer keeps its entries in order, when shutdown empties it, and how full it gets.
*/
module LogOrder {
  import opened Prelude
  import opened LogMachine
  import opened LogSafety

  ghost predicate Increasing(entries: seq<Entry>)
  {
    forall i, j :: 0 <= i < j < |entries| ==> entries[i].id < entries[j].id
  }

  /** The buffer and every batch are in acceptance order, older batches before newer ones before the buffer. */
  ghost predicate Ordered(s: State)
  {
    && Increasing(Unsettled(s))
    && forall e :: e in Unsettled(s) ==> e.id < |s.accepted|
  }

  lemma PushOrdered(s: State, e: Entry)
    requires Ordered(s) && e.id == |s.accepted|
    ensures Ordered(Push(s, e))
  {
    hide Unsettled;
    PushUnsettled(s, e);
  }

  lemma StartFlushOrdered(s: State)
    requires Ordered(s)
    ensures Ordered(StartFlush(s))
  {
    hide Unsettled;
    StartFlushUnsettled(s);
  }

  lemma CutIncreasing(a: seq<Entry>, b: seq<Entry>, c: seq<Entry>)
    requires Increasing(a + b + c)
    ensures Increasing(a + c)
  {
    var all, cut := a + b + c, a + c;
    forall i, j | 0 <= i < j < |cut|
      ensures cut[i].id < cut[j].id
    {
      var i' := if i < |a| then i else i + |b|;
      var j' := if j < |a| then j else j + |b|;
      assert cut[i] == all[i'] && cut[j] == all[j'];
    }
  }

  lemma SwappedNotIncreasing(a: seq<Entry>, b: seq<Entry>, c: seq<Entry>, d: seq<Entry>, k: nat)
    requires b != [] && c != [] && 0 < k
    requires Increasing(a + b + c + d)
    ensures !Increasing(a + c + Take(b, k) + d)
  {
    var all, swapped := a + b + c + d, a + c + Take(b, k) + d;
    assert all[|a|] == b[0] && all[|a| + |b|] == c[0];
    assert swapped[|a|] == c[0] && swapped[|a| + |c|] == b[0];
  }

  /**
  Where order is kept and where it breaks: a failed flush puts its entries back
  in front of the buffer, which is their place exactly when no flush that
  started later is still in flight.
  */
  lemma FailKeepsOrderIffNewest(s: State, i: nat, kept: multiset<Entry>)
    requires Ordered(s) && Sent(s) && i < |s.inFlight|
    ensures Ordered(FailFlush(s, i, kept)) <==> i == |s.inFlight| - 1
  {
    hide Joined, Unsettled, Increasing;
    var before, b, after := Joined(s.inFlight[..i]), s.inFlight[i].entries, Joined(s.inFlight[i + 1..]);
    CompletionUnsettled(s, i, kept);
    if i == |s.inFlight| - 1 {
      JoinedEmpty();
      var head := Take(b, BUFFER_SIZE);
      var rest := b[|head|..];
      assert b == head + rest;
      assert before + b + after + s.logs == (before + head) + rest + s.logs;
      CutIncreasing(before + head, rest, s.logs);
      assert before + after + head + s.logs == (before + head) + s.logs;
    } else {
      JoinedAround(s.inFlight[i + 1..], 0);
      assert after != [];
      SwappedNotIncreasing(before, b, after, s.logs, BUFFER_SIZE);
    }
  }

  lemma SucceedOrdered(s: State, i: nat)
    requires Ordered(s) && i < |s.inFlight|
    ensures Ordered(SucceedFlush(s, i))
  {
    hide Joined, Unsettled, Increasing;
    var before, b, after := Joined(s.inFlight[..i]), s.inFlight[i].entries, Joined(s.inFlight[i + 1..]);
    CompletionUnsettled(s, i, multiset{});
    assert before + b + after + s.logs == before + b + (after + s.logs);
    assert before + after + s.logs == before + (after + s.logs);
    CutIncreasing(before, b, after + s.logs);
  }

  /** The completion that the step stands for, if it is a failure, is that of the newest flush in flight. */
  ghost predicate NewestFails(s: State, step: Step)
  {
    step.Fail? && step.i < |s.inFlight| ==> step.i == |s.inFlight| - 1
  }

  lemma NextOrdered(s: State, step: Step)
    requires Ordered(s) && Sent(s)
    ensures Ordered(Next(s, step)) <==> NewestFails(s, step)
  {
    hide Ordered, Sent;
    match step
    case Log(data, timestamp) =>
      PushOrdered(s, MakeEntry(|s.accepted|, timestamp, data));
      StartFlushOrdered(Push(s, MakeEntry(|s.accepted|, timestamp, data)));
    case Tick => StartFlushOrdered(s);
    case Destroy =>
      TimerOffOrdered(s);
      StartFlushOrdered(s.(timerOn := false));
    case Succeed(i) => if i < |s.inFlight| { SucceedOrdered(s, i); }
    case Fail(i, kept) => if i < |s.inFlight| { FailKeepsOrderIffNewest(s, i, kept); }
  }

  lemma TimerOffOrdered(s: State)
    requires Ordered(s)
    ensures Ordered(s.(timerOn := false))
  {
  }

  lemma InitOrdered()
    ensures Ordered(INIT)
  {
  }

  lemma {:induction false} OrderAfter(steps: seq<Step>, k: nat)
    requires k < |steps| && Ordered(At(INIT, steps, k))
    ensures Ordered(At(INIT, steps, k + 1)) <==> NewestFails(At(INIT, steps, k), steps[k])
  {
    hide Next, Ordered, NewestFails, Inv;
    Invariant(steps, k);
    assert Sent(At(INIT, steps, k)) by {
      InvSent(At(INIT, steps, k));
    }
    NextOrdered(At(INIT, steps, k), steps[k]);
  }

  lemma InvSent(s: State)
    requires Inv(s)
    ensures Sent(s)
  {
  }

  /** A run keeps acceptance order throughout if and only if flushes that fail do so newest first. */
  lemma {:induction false} OrderKeptIffNewestFailFirst(steps: seq<Step>, n: nat)
    requires n <= |steps|
    ensures (forall k :: 0 <= k <= n ==> Ordered(At(INIT, steps, k)))
            <==> (forall k :: 0 <= k < n ==> NewestFails(At(INIT, steps, k), steps[k]))
  {
    hide Next, Ordered, NewestFails;
    if n == 0 {
      InitOrdered();
      assert At(INIT, steps, 0) == INIT;
    } else {
      OrderKeptIffNewestFailFirst(steps, n - 1);
      if Ordered(At(INIT, steps, n - 1)) {
        OrderAfter(steps, n - 1);
      }
    }
  }

  /** With nothing buffered, an error entry goes out as a batch of its own. */
  lemma ErrorIsSent(s: State, data: ApplicationLog, timestamp: nat)
    requires s.logs == [] && data.level == Error
    ensures var t, e := AppLog(s, data, timestamp), MakeEntry(|s.accepted|, timestamp, data);
            && t.logs == [] && t.inFlight == s.inFlight + [Batch([e], |s.accepted| + 1)]
            && t.accepted == s.accepted + [e] && t.ackedUpTo == s.ackedUpTo
  {
    var e := MakeEntry(|s.accepted|, timestamp, data);
    var pushed := Push(s, e);
    assert pushed.logs == [e] && |pushed.accepted| == |s.accepted| + 1;
    hide MakeEntry, Push;
    assert AppLog(s, data, timestamp) == StartFlush(pushed);
  }

  /** Of two error entries in flight at once the older fails first, and ends up behind the newer. */
  lemma OlderFailureSwaps(data: ApplicationLog, steps: seq<Step>)
    requires data.level == Error
    requires steps == [Log(data, 0), Log(data, 1), Fail(0, multiset{})]
    ensures Unsettled(At(INIT, steps, 3)) == [MakeEntry(1, 1, data), MakeEntry(0, 0, data)]
    ensures !Ordered(At(INIT, steps, 3))
  {
    hide AppLog;
    var e, f := MakeEntry(0, 0, data), MakeEntry(1, 1, data);
    assert At(INIT, steps, 0) == INIT;
    ErrorIsSent(INIT, data, 0);
    ErrorIsSent(At(INIT, steps, 1), data, 1);
    assert At(INIT, steps, 2).inFlight == [Batch([e], 1), Batch([f], 2)];
    var s := At(INIT, steps, 3);
    assert s.inFlight == [Batch([f], 2)] && s.logs == [e];
    JoinedEmpty();
    JoinedAppend([], Batch([f], 2));
    assert [] + [Batch([f], 2)] == [Batch([f], 2)];
    assert Unsettled(s) == [f, e];
    assert Unsettled(s)[0].id == 1 && Unsettled(s)[1].id == 0;
  }

  // ---------------------------------------------------------------- shutdown

  /** After shutdown: `before` flushes had failed by then, and the buffer is empty unless one failed since. */
  ghost predicate Stopped(s: State, before: nat)
  {
    !s.timerOn && Sent(s) && before <= s.failures && (s.logs == [] <==> s.failures == before)
  }

  lemma DestroyStops(s: State)
    requires Sent(s)
    ensures Stopped(Next(s, Destroy), s.failures)
  {
  }

  lemma NextStopped(s: State, step: Step, before: nat)
    requires Stopped(s, before) && !step.Log? && !step.Destroy?
    ensures Stopped(Next(s, step), before)
  {
    hide Sent;
    match step
    case Succeed(i) => if i < |s.inFlight| { CompletionSent(s, i, multiset{}); }
    case Fail(i, kept) =>
      if i < |s.inFlight| {
        CompletionSent(s, i, kept);
        BatchNotEmpty(s, i);
      }
    case _ =>
  }

  lemma BatchNotEmpty(s: State, i: nat)
    requires Sent(s) && i < |s.inFlight|
    ensures s.inFlight[i].entries != []
  {
  }

  /**
  After the shutdown flush has started and without further log calls, the buffer
  stays empty exactly as long as no flush fails; nothing will flush again what a
  late failure puts back.
  */
  lemma {:induction false} ShutdownDrainsIffNoFailure(s: State, steps: seq<Step>, k: nat)
    requires Sent(s) && 0 < k <= |steps| && steps[0] == Destroy
    requires forall j :: 0 < j < k ==> !steps[j].Log? && !steps[j].Destroy?
    ensures Stopped(At(s, steps, k), s.failures)
  {
    hide Next, Stopped, Sent;
    if k == 1 {
      assert At(s, steps, 0) == s;
      DestroyStops(s);
    } else {
      ShutdownDrainsIffNoFailure(s, steps, k - 1);
      NextStopped(At(s, steps, k - 1), steps[k - 1], s.failures);
    }
  }

  // ---------------------------------------------------------------- the memory bound is reached

  const INFO := ApplicationLog(Info, "stay", None, None, "visit", None, "a page was opened", None)

  /** `n` log calls below the error level. */
  function Calls(n: nat): (steps: seq<Step>)
    ensures |steps| == n
  {
    seq(n, i => Log(INFO, 0))
  }

  lemma {:induction false} AtConcat(s: State, a: seq<Step>, b: seq<Step>, k: nat)
    requires k <= |b|
    ensures At(s, a + b, |a| + k) == At(At(s, a, |a|), b, k)
  {
    hide Next;
    if k == 0 {
      AtPrefix(s, a, b, |a|);
    } else {
      AtConcat(s, a, b, k - 1);
    }
  }

  lemma {:induction false} AtPrefix(s: State, a: seq<Step>, b: seq<Step>, k: nat)
    requires k <= |a|
    ensures At(s, a + b, k) == At(s, a, k)
  {
    hide Next;
    if k > 0 {
      AtPrefix(s, a, b, k - 1);
    }
  }

  lemma {:induction false} CallsFill(s: State, n: nat, k: nat)
    requires k <= n && s.logs == []
    requires k < BUFFER_SIZE
    ensures var t := At(s, Calls(n), k);
            |t.logs| == k && t.inFlight == s.inFlight && (k > 0 ==> t.recentFailures == 0)
  {
    if k > 0 {
      CallsFill(s, n, k - 1);
    }
  }

  /** A hundred calls send one more batch of a hundred. */
  lemma CallsSend(s: State)
    requires s.logs == []
    ensures var t := At(s, Calls(BUFFER_SIZE), BUFFER_SIZE);
            && t.logs == [] && |t.inFlight| == |s.inFlight| + 1
            && t.inFlight[..|s.inFlight|] == s.inFlight && |t.inFlight[|s.inFlight|].entries| == BUFFER_SIZE
  {
    CallsFill(s, BUFFER_SIZE, BUFFER_SIZE - 1);
  }

  ghost predicate FullBatches(s: State)
  {
    forall i :: 0 <= i < |s.inFlight| ==> |s.inFlight[i].entries| == BUFFER_SIZE
  }

  lemma {:induction false} ManyBatches(f: nat) returns (steps: seq<Step>)
    ensures var t := At(INIT, steps, |steps|);
            t.logs == [] && |t.inFlight| == f && FullBatches(t)
  {
    hide Next, Calls;
    if f == 0 {
      steps := [];
    } else {
      var first := ManyBatches(f - 1);
      var t := At(INIT, first, |first|);
      CallsSend(t);
      AtConcat(INIT, first, Calls(BUFFER_SIZE), BUFFER_SIZE);
      steps := first + Calls(BUFFER_SIZE);
      var u := At(INIT, steps, |steps|);
      assert forall i :: 0 <= i < f - 1 ==> u.inFlight[i] == u.inFlight[..f - 1][i];
    }
  }

  lemma FailOldest(s: State) returns (t: State)
    requires s.inFlight != [] && FullBatches(s)
    ensures t == At(s, [Fail(0, multiset{})], 1)
    ensures |t.logs| == |s.logs| + BUFFER_SIZE && t.recentFailures == s.recentFailures + 1
    ensures |t.inFlight| == |s.inFlight| - 1 && FullBatches(t)
  {
    t := FailFlush(s, 0, multiset{});
    assert At(s, [Fail(0, multiset{})], 0) == s;
  }

  lemma {:induction false} AllFail(s: State, f: nat) returns (steps: seq<Step>)
    requires f <= |s.inFlight| && FullBatches(s)
    ensures var t := At(s, steps, |steps|);
            |t.logs| == |s.logs| + BUFFER_SIZE * f && t.recentFailures == s.recentFailures + f
    decreases f
  {
    hide Next, FullBatches;
    if f == 0 {
      steps := [];
    } else {
      var one := [Fail(0, multiset{})];
      var t := FailOldest(s);
      var rest := AllFail(t, f - 1);
      AtConcat(s, one, rest, |rest|);
      steps := one + rest;
    }
  }

  /** For every number of overlapping failures the bound of `MemoryBound` is met exactly by some run. */
  lemma {:induction false} MemoryBoundIsTight(f: nat) returns (steps: seq<Step>)
    ensures var t := At(INIT, steps, |steps|);
            t.recentFailures == f && |t.logs| == BUFFER_SIZE - 1 + BUFFER_SIZE * f
  {
    hide Next;
    var first := ManyBatches(f);
    var t := At(INIT, first, |first|);
    var fill := Calls(BUFFER_SIZE - 1);
    CallsFill(t, BUFFER_SIZE - 1, BUFFER_SIZE - 1);
    AtConcat(INIT, first, fill, |fill|);
    var u := At(INIT, first + fill, |first + fill|);
    var rest := AllFail(u, f);
    AtConcat(INIT, first + fill, rest, |rest|);
    steps := first + fill + rest;
  }
}
