/**
When the log writer is the drop-tail queue of 100 entries that it stands for.
Flushes may overlap in any number; the theorems say in which order they must
complete and how much a failed one may put back.
*/
module LogQueue {
  import opened Prelude
  import opened LogMachine
  import opened LogSafety
  import opened LogOrder

  // ---------------------------------------------------------------- completions in turn

  /** What is in flight from batch `i` on, and the buffer. */
  function Later(s: State, i: nat): seq<Entry>
    requires i <= |s.inFlight|
  {
    Joined(s.inFlight[i..]) + s.logs
  }

  /** How many entries had been accepted when batch `i - 1` started; for 0, when the last acknowledged one did. */
  function Mark(s: State, i: nat): nat
    requires i <= |s.inFlight|
  {
    if i == 0 then s.ackedUpTo else s.inFlight[i - 1].startedAt
  }

  /** What was accepted after the first `mark` entries, up to the limit. */
  function FirstSince(s: State, mark: nat): seq<Entry>
  {
    if mark <= |s.accepted| then Take(s.accepted[mark..], BUFFER_SIZE) else []
  }

  ghost predicate InStepAt(s: State, i: nat)
    requires i <= |s.inFlight|
  {
    Mark(s, i) <= |s.accepted| && Take(Later(s, i), BUFFER_SIZE) == FirstSince(s, Mark(s, i))
  }

  /**
  The oldest 100 of the entries accepted since the last success are held, in
  order and in front; and the same after each batch in flight, of the entries
  accepted since that batch started.
  */
  ghost predicate InStep(s: State)
  {
    forall i :: 0 <= i <= |s.inFlight| ==> InStepAt(s, i)
  }

  /** If the step completes a flush, then in turn: successes oldest first, failures newest first. */
  ghost predicate InTurn(s: State, step: Step)
  {
    && (step.Succeed? && step.i < |s.inFlight| ==> step.i == 0)
    && NewestFails(s, step)
  }

  lemma TakeAppend(a: seq<Entry>, b: seq<Entry>, c: seq<Entry>, k: nat)
    requires Take(a, k) == Take(b, k)
    ensures Take(a + c, k) == Take(b + c, k)
  {
    if |a| < k {
      assert a == b;
    } else {
      assert (a + c)[..k] == a[..k] && (b + c)[..k] == b[..k];
    }
  }

  lemma TakeInside(a: seq<Entry>, b: seq<Entry>, c: seq<Entry>, k: nat)
    ensures Take(a + Take(b, k) + c, k) == Take(a + b + c, k)
  {
    if |b| > k {
      assert (a + b[..k] + c)[..k] == (a + b + c)[..k];
    }
  }

  lemma PushInStep(s: State, e: Entry)
    requires InStep(s)
    ensures InStep(Push(s, e))
  {
    hide Joined;
    var t := Push(s, e);
    forall i | 0 <= i <= |t.inFlight|
      ensures InStepAt(t, i)
    {
      assert InStepAt(s, i);
      var mark := Mark(s, i);
      assert t.accepted[mark..] == s.accepted[mark..] + [e];
      assert Later(t, i) == Later(s, i) + [e];
      TakeAppend(Later(s, i), s.accepted[mark..], [e], BUFFER_SIZE);
    }
  }

  lemma StartFlushInStep(s: State)
    requires InStep(s)
    ensures InStep(StartFlush(s))
  {
    hide Joined;
    var t := StartFlush(s);
    if s.logs != [] {
      var b := Batch(s.logs, |s.accepted|);
      forall i | 0 <= i <= |t.inFlight|
        ensures InStepAt(t, i)
      {
        if i == |t.inFlight| {
          JoinedEmpty();
          assert Later(t, i) == [];
        } else {
          assert InStepAt(s, i);
          JoinedAppend(s.inFlight[i..], b);
          assert t.inFlight[i..] == s.inFlight[i..] + [b];
        }
      }
    }
  }

  lemma TimerOffInStep(s: State)
    requires InStep(s)
    ensures InStep(s.(timerOn := false))
  {
    hide Joined;
    var t := s.(timerOn := false);
    forall i | 0 <= i <= |t.inFlight|
      ensures InStepAt(t, i)
    {
      assert InStepAt(s, i) && Later(t, i) == Later(s, i);
    }
  }

  lemma SucceedOldestInStep(s: State)
    requires InStep(s) && s.inFlight != []
    ensures InStep(SucceedFlush(s, 0))
  {
    hide Joined;
    var t := SucceedFlush(s, 0);
    assert t.inFlight == s.inFlight[1..];
    forall i | 0 <= i <= |t.inFlight|
      ensures InStepAt(t, i)
    {
      var j := i + 1;
      assert InStepAt(s, j);
      assert t.inFlight[i..] == s.inFlight[j..];
    }
  }

  lemma FailNewestInStep(s: State, kept: multiset<Entry>)
    requires InStep(s) && s.inFlight != []
    ensures InStep(FailFlush(s, |s.inFlight| - 1, kept))
  {
    hide Joined;
    var last := |s.inFlight| - 1;
    var t, b := FailFlush(s, last, kept), s.inFlight[last].entries;
    assert t.inFlight == s.inFlight[..last];
    forall i | 0 <= i <= |t.inFlight|
      ensures InStepAt(t, i)
    {
      assert InStepAt(s, i);
      var between := s.inFlight[i..last];
      assert s.inFlight[i..] == between + [s.inFlight[last]];
      assert t.inFlight[i..] == between;
      JoinedAppend(between, s.inFlight[last]);
      assert Later(t, i) == Joined(between) + Take(b, BUFFER_SIZE) + s.logs;
      assert Later(s, i) == Joined(between) + b + s.logs;
      TakeInside(Joined(between), b, s.logs, BUFFER_SIZE);
    }
  }

  lemma FirstDiffers(a: seq<Entry>, b: seq<Entry>, k: nat)
    requires 0 < k && a != [] && (b != [] ==> a[0] != b[0])
    ensures Take(a, k) != Take(b, k)
  {
    assert Take(a, k)[0] == a[0];
  }

  /** A success out of turn leaves entries from before the mark in front. */
  lemma SucceedNewerOutOfStep(s: State, i: nat)
    requires InStep(s) && Ordered(s) && Sent(s) && 0 < i < |s.inFlight|
    ensures !InStep(SucceedFlush(s, i))
  {
    hide Joined, Increasing;
    var t, next := SucceedFlush(s, i), i + 1;
    var before, b, after := Joined(s.inFlight[..i]), s.inFlight[i].entries, Joined(s.inFlight[next..]);
    CompletionUnsettled(s, i, multiset{});
    JoinedAround(s.inFlight[..i], 0);
    assert before != [];
    assert t.inFlight[0..] == t.inFlight && s.inFlight[0..] == s.inFlight;
    assert Later(t, 0) == before + (after + s.logs);
    assert InStepAt(s, next);
    assert before + b + (after + s.logs) == before + b + after + s.logs;
    FirstsDiffer(before, b, after + s.logs);
    FirstDiffers(Later(t, 0), Later(s, next), BUFFER_SIZE);
    assert !InStepAt(t, 0);
  }

  lemma FirstsDiffer(a: seq<Entry>, b: seq<Entry>, c: seq<Entry>)
    requires a != [] && Increasing(a + b + c)
    ensures c != [] ==> (a + c)[0] != c[0]
  {
    var all := a + b + c;
    if c != [] {
      assert all[0] == a[0] && all[|a| + |b|] == c[0];
    }
  }

  /** A failure out of turn puts entries behind the ones accepted after them. */
  lemma FailOlderOutOfStep(s: State, i: nat, kept: multiset<Entry>)
    requires InStep(s) && Ordered(s) && Sent(s) && i < |s.inFlight| - 1
    ensures !InStep(FailFlush(s, i, kept))
  {
    hide Joined, Increasing;
    var t, next := FailFlush(s, i, kept), i + 1;
    var before, b, after := Joined(s.inFlight[..i]), s.inFlight[i].entries, Joined(s.inFlight[next..]);
    CompletionUnsettled(s, i, kept);
    JoinedAround(s.inFlight[next..], 0);
    assert after != [] && b != [];
    assert t.inFlight[i..] == s.inFlight[next..];
    JoinedConcat([s.inFlight[i]], s.inFlight[next..]);
    JoinedAppend([], s.inFlight[i]);
    JoinedEmpty();
    assert [] + [s.inFlight[i]] == [s.inFlight[i]];
    assert s.inFlight[i..] == [s.inFlight[i]] + s.inFlight[next..];
    assert Later(s, i) == b + after + s.logs;
    NeighboursDiffer(before, b, after, s.logs);
    assert InStepAt(s, i) && Mark(t, i) == Mark(s, i);
    FirstDiffers(Later(t, i), Later(s, i), BUFFER_SIZE);
    assert !InStepAt(t, i);
  }

  lemma NeighboursDiffer(a: seq<Entry>, b: seq<Entry>, c: seq<Entry>, d: seq<Entry>)
    requires b != [] && c != [] && Increasing(a + b + c + d)
    ensures b[0] != c[0]
  {
    var all := a + b + c + d;
    assert all[|a|] == b[0] && all[|a| + |b|] == c[0];
  }

  /** The step keeps the buffer and the batches in step exactly if it completes flushes in turn. */
  lemma NextInStep(s: State, step: Step)
    requires InStep(s) && Ordered(s) && Sent(s)
    ensures InStep(Next(s, step)) <==> InTurn(s, step)
  {
    hide InStep, Ordered, Sent;
    match step
    case Log(data, timestamp) =>
      PushInStep(s, MakeEntry(|s.accepted|, timestamp, data));
      StartFlushInStep(Push(s, MakeEntry(|s.accepted|, timestamp, data)));
    case Tick => StartFlushInStep(s);
    case Destroy =>
      TimerOffInStep(s);
      StartFlushInStep(s.(timerOn := false));
    case Succeed(i) =>
      if i == 0 && s.inFlight != [] {
        SucceedOldestInStep(s);
      } else if i < |s.inFlight| {
        SucceedNewerOutOfStep(s, i);
      }
    case Fail(i, kept) =>
      if i == |s.inFlight| - 1 {
        FailNewestInStep(s, kept);
      } else if i < |s.inFlight| {
        FailOlderOutOfStep(s, i, kept);
      }
  }

  lemma InitInStep()
    ensures InStep(INIT) && IsDropTail(INIT)
  {
    JoinedEmpty();
    assert Later(INIT, 0) == [];
  }

  ghost predicate AllInStep(steps: seq<Step>, n: nat)
    requires n <= |steps|
  {
    forall k :: 0 <= k <= n ==> InStep(At(INIT, steps, k))
  }

  ghost predicate AllInTurn(steps: seq<Step>, n: nat)
    requires n <= |steps|
  {
    forall k :: 0 <= k < n ==> InTurn(At(INIT, steps, k), steps[k])
  }

  lemma {:induction false} InTurnIsOrdered(steps: seq<Step>, n: nat)
    requires n <= |steps| && AllInTurn(steps, n)
    ensures Ordered(At(INIT, steps, n))
  {
    hide Next, Ordered;
    OrderKeptIffNewestFailFirst(steps, n);
  }

  lemma {:induction false} InStepAfter(steps: seq<Step>, k: nat)
    requires k < |steps| && AllInTurn(steps, k) && InStep(At(INIT, steps, k))
    ensures InStep(At(INIT, steps, k + 1)) <==> InTurn(At(INIT, steps, k), steps[k])
  {
    hide Next, Ordered, InTurn, InStep, AllInTurn, Inv;
    InTurnIsOrdered(steps, k);
    Invariant(steps, k);
    InvSent(At(INIT, steps, k));
    NextInStep(At(INIT, steps, k), steps[k]);
  }

  /**
  With any number of flushes in flight: the oldest 100 entries accepted since the
  last success are held in order throughout a run if and only if successes come
  oldest first and failures newest first.
  */
  lemma {:induction false} InStepIffInTurn(steps: seq<Step>, n: nat)
    requires n <= |steps|
    ensures AllInStep(steps, n) <==> AllInTurn(steps, n)
  {
    hide Next, InStep, InTurn;
    if n == 0 {
      InitInStep();
      assert At(INIT, steps, 0) == INIT;
    } else {
      InStepIffInTurn(steps, n - 1);
      if AllInStep(steps, n - 1) {
        InStepAfter(steps, n - 1);
      }
    }
  }

  // ---------------------------------------------------------------- the drop-tail queue

  /** What was accepted since the last acknowledged flush had started. */
  function Since(s: State): seq<Entry>
  {
    if s.ackedUpTo <= |s.accepted| then s.accepted[s.ackedUpTo..] else []
  }

  /**
  The buffer is the first 100 of the entries accepted since the newest flush in
  flight started; when none is in flight, since the last acknowledged one did.
  */
  ghost predicate IsDropTail(s: State)
  {
    s.logs == FirstSince(s, Mark(s, |s.inFlight|))
  }

  /** If the step fails a flush, what comes back and what was logged meanwhile are within the limit together. */
  ghost predicate Fits(s: State, step: Step)
  {
    step.Fail? && step.i < |s.inFlight| ==>
      |Take(s.inFlight[step.i].entries, BUFFER_SIZE)| + |s.logs| <= BUFFER_SIZE
  }

  predicate WithinLimit(s: State)
  {
    |s.logs| <= BUFFER_SIZE
  }

  lemma DropTailIffWithinLimit(s: State)
    requires InStep(s)
    ensures IsDropTail(s) <==> WithinLimit(s)
  {
    hide Joined;
    var last := |s.inFlight|;
    JoinedEmpty();
    assert InStepAt(s, last) && s.inFlight[last..] == [];
    assert Later(s, last) == s.logs;
  }

  lemma NextWithinLimit(s: State, step: Step)
    requires WithinLimit(s)
    ensures WithinLimit(Next(s, step)) <==> Fits(s, step)
  {
  }

  lemma InitWithinLimit()
    ensures WithinLimit(INIT)
  {
  }

  /** At each step the batches and what follows each of them are in step, and the buffer is the tail of the queue. */
  ghost predicate AllQueue(steps: seq<Step>, n: nat)
    requires n <= |steps|
  {
    forall k :: 0 <= k <= n ==> InStep(At(INIT, steps, k)) && IsDropTail(At(INIT, steps, k))
  }

  ghost predicate AllFit(steps: seq<Step>, n: nat)
    requires n <= |steps|
  {
    forall k :: 0 <= k < n ==> Fits(At(INIT, steps, k), steps[k])
  }

  ghost predicate AllWithinLimit(steps: seq<Step>, n: nat)
    requires n <= |steps|
  {
    forall k :: 0 <= k <= n ==> WithinLimit(At(INIT, steps, k))
  }

  lemma {:induction false} WithinLimitIffFitting(steps: seq<Step>, n: nat)
    requires n <= |steps|
    ensures AllWithinLimit(steps, n) <==> AllFit(steps, n)
  {
    hide Next, Fits, WithinLimit;
    if n == 0 {
      assert At(INIT, steps, 0) == INIT;
      InitWithinLimit();
    } else {
      var m := n - 1;
      WithinLimitIffFitting(steps, m);
      assert At(INIT, steps, n) == Next(At(INIT, steps, m), steps[m]);
      if AllWithinLimit(steps, m) {
        assert WithinLimit(At(INIT, steps, m));
        NextWithinLimit(At(INIT, steps, m), steps[m]);
      }
    }
  }

  /**
  Buffer and batches in flight together are a drop-tail queue throughout a run,
  with any number of flushes in flight and log calls at any moment, if and only if
  flushes complete in turn and each failed batch fits in front of what was logged
  meanwhile.
  */
  lemma {:induction false} DropTailIffInTurnAndFitting(steps: seq<Step>, n: nat)
    requires n <= |steps|
    ensures AllQueue(steps, n) <==> AllInTurn(steps, n) && AllFit(steps, n)
  {
    hide Next, InStep, IsDropTail, AllInTurn, AllFit, WithinLimit;
    InStepIffInTurn(steps, n);
    WithinLimitIffFitting(steps, n);
    forall k | 0 <= k <= n && InStep(At(INIT, steps, k))
      ensures IsDropTail(At(INIT, steps, k)) <==> WithinLimit(At(INIT, steps, k))
    {
      DropTailIffWithinLimit(At(INIT, steps, k));
    }
  }

  // ---------------------------------------------------------------- one flush at a time

  /**
  While flushes do not overlap, log calls may come at any moment and any number
  of flushes may fail: the oldest 100 entries accepted since the last success are
  all still held, in order and in front.
  */
  lemma {:induction false} OldestHundredSurvive(steps: seq<Step>, k: nat)
    requires k <= |steps|
    requires forall j :: 0 <= j <= k ==> |At(INIT, steps, j).inFlight| <= 1
    ensures Take(Unsettled(At(INIT, steps, k)), BUFFER_SIZE) == Take(Since(At(INIT, steps, k)), BUFFER_SIZE)
  {
    hide Next, InStep, Unsettled, Since;
    assert AllInTurn(steps, k);
    InStepIffInTurn(steps, k);
    InStepFront(At(INIT, steps, k));
  }

  lemma InStepFront(s: State)
    requires InStep(s)
    ensures Take(Unsettled(s), BUFFER_SIZE) == Take(Since(s), BUFFER_SIZE)
  {
    hide Joined;
    assert InStepAt(s, 0) && s.inFlight[0..] == s.inFlight;
  }

  /** A flush in flight is completed before anything else happens. */
  ghost predicate Undisturbed(s: State, step: Step)
  {
    s.inFlight != [] ==> (step.Succeed? || step.Fail?) && step.i == 0
  }

  /** At most one flush is in flight, nothing was logged during it, and the buffer is within its limit. */
  ghost predicate Quiet(s: State)
  {
    |s.inFlight| <= 1 && |s.logs| <= BUFFER_SIZE && (s.inFlight != [] ==> s.logs == [])
  }

  lemma NextQuiet(s: State, step: Step)
    requires Quiet(s) && Undisturbed(s, step)
    ensures Quiet(Next(s, step)) && InTurn(s, step) && Fits(s, step)
  {
  }

  lemma {:induction false} UndisturbedRunsAreQuiet(steps: seq<Step>, k: nat)
    requires k <= |steps|
    requires forall j :: 0 <= j < k ==> Undisturbed(At(INIT, steps, j), steps[j])
    ensures Quiet(At(INIT, steps, k)) && AllInTurn(steps, k) && AllFit(steps, k)
  {
    hide Next, Undisturbed, Quiet, InTurn, Fits;
    if k == 0 {
      assert Quiet(INIT) by {
        InitQuiet();
      }
    } else {
      UndisturbedRunsAreQuiet(steps, k - 1);
      NextQuiet(At(INIT, steps, k - 1), steps[k - 1]);
    }
  }

  lemma InitQuiet()
    ensures Quiet(INIT)
  {
  }

  /**
  If each flush completes before the next operation, then between operations the
  buffer is the first 100 of the entries accepted since the last success, through
  any sequence of failures.
  */
  lemma {:induction false} DropTailQueue(steps: seq<Step>, k: nat)
    requires k <= |steps|
    requires forall j :: 0 <= j < k ==> Undisturbed(At(INIT, steps, j), steps[j])
    requires At(INIT, steps, k).inFlight == []
    ensures At(INIT, steps, k).logs == Take(Since(At(INIT, steps, k)), BUFFER_SIZE)
  {
    hide Next, Undisturbed, InStep, AllInTurn, AllFit;
    UndisturbedRunsAreQuiet(steps, k);
    DropTailIffInTurnAndFitting(steps, k);
  }

  // ---------------------------------------------------------------- runs that are not a queue

  /**
  Completions out of turn: of two error entries in flight at once the newer is
  acknowledged and the older fails, and the buffer holds an entry from before the
  last success.
  */
  lemma OverlapBreaksTheQueue(data: ApplicationLog, steps: seq<Step>)
    requires data.level == Error
    requires steps == [Log(data, 0), Log(data, 1), Succeed(1), Fail(0, multiset{})]
    ensures var s := At(INIT, steps, 4);
            s.inFlight == [] && s.logs != [] && Since(s) == []
  {
    hide AppLog;
    var e, f := MakeEntry(0, 0, data), MakeEntry(1, 1, data);
    assert At(INIT, steps, 0) == INIT;
    ErrorIsSent(INIT, data, 0);
    ErrorIsSent(At(INIT, steps, 1), data, 1);
    assert At(INIT, steps, 2).inFlight == [Batch([e], 1), Batch([f], 2)];
    assert At(INIT, steps, 3).inFlight == [Batch([e], 1)] && At(INIT, steps, 3).ackedUpTo == 2;
    assert At(INIT, steps, 4).logs == [e];
  }

  /** A batch that does not fit, without any overlap: a hundred entries go out, one more is logged, the batch fails. */
  lemma {:induction false} OneTooMany(steps: seq<Step>)
    requires steps == Calls(BUFFER_SIZE) + [Log(INFO, 0), Fail(0, multiset{})]
    ensures forall k :: 0 <= k <= |steps| ==> |At(INIT, steps, k).inFlight| <= 1
    ensures At(INIT, steps, |steps|).inFlight == [] && |At(INIT, steps, |steps|).logs| == BUFFER_SIZE + 1
    ensures !IsDropTail(At(INIT, steps, |steps|))
  {
    hide Next, Calls;
    var calls, rest := Calls(BUFFER_SIZE), [Log(INFO, 0), Fail(0, multiset{})];
    forall k | 0 <= k <= BUFFER_SIZE
      ensures |At(INIT, steps, k).inFlight| <= 1
    {
      AtPrefix(INIT, calls, rest, k);
      if k < BUFFER_SIZE {
        CallsFill(INIT, BUFFER_SIZE, k);
      } else {
        CallsSend(INIT);
      }
    }
    CallsSend(INIT);
    var sent := At(INIT, calls, BUFFER_SIZE);
    OneMore(sent, rest);
    AtConcat(INIT, calls, rest, 0);
    AtConcat(INIT, calls, rest, 1);
    AtConcat(INIT, calls, rest, 2);
  }

  lemma OneMore(s: State, rest: seq<Step>)
    requires rest == [Log(INFO, 0), Fail(0, multiset{})]
    requires s.logs == [] && |s.inFlight| == 1 && |s.inFlight[0].entries| == BUFFER_SIZE
    ensures |At(s, rest, 0).inFlight| == 1 && |At(s, rest, 1).inFlight| == 1
    ensures At(s, rest, 2).inFlight == [] && |At(s, rest, 2).logs| == BUFFER_SIZE + 1
  {
    assert At(s, rest, 0) == s;
    assert At(s, rest, 1) == Push(s, MakeEntry(|s.accepted|, 0, INFO));
  }
}
