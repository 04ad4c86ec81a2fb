/**
The buffered log writer as a machine over values.

`flushLogs` is suspended while `insertMany` is outstanding and log calls, timer
ticks and other flushes may run meanwhile, so a flush is two steps: its start,
and its success or failure. `Succeed` and `Fail` name the suspended flush by its
position among those in flight, oldest first.

A step that the current state does not allow (a tick after the timer was
cleared, the completion of a flush that does not exist) changes nothing, so any
sequence of steps is a run.
*/
module LogMachine {
  import opened Prelude

  const BUFFER_SIZE: nat := 100

  datatype Level = Info | Warn | Error | Debug

  datatype ApplicationLog = ApplicationLog(
    level: Level,
    service: string,
    userId: Option<string>,
    sessionId: Option<string>,
    action: string,
    metadata: Option<map<string, string>>,
    message: string,
    stackTrace: Option<string>)

  /** `id` is the identity of the object that `applicationLog` creates: its place in creation order. */
  datatype Entry = Entry(id: nat, timestamp: nat, data: ApplicationLog)

  /** The entry for `data`; metadata that is not given is an empty object. */
  function MakeEntry(id: nat, timestamp: nat, data: ApplicationLog): Entry
  {
    Entry(id, timestamp, if data.metadata.None? then data.(metadata := Some(map[])) else data)
  }

  /** The schema's required strings are there; mongoose counts an empty string as absent. */
  predicate Storable(e: Entry)
  {
    e.data.service != "" && e.data.action != "" && e.data.message != ""
  }

  /** What an unordered insert may store: documents that fail the schema are left out without an error. */
  function StorablePart(entries: seq<Entry>): multiset<Entry>
  {
    if entries == [] then multiset{}
    else
      var last := entries[|entries| - 1];
      StorablePart(entries[..|entries| - 1]) + if Storable(last) then multiset{last} else multiset{}
  }

  lemma {:induction false} StorablePartCounts(entries: seq<Entry>, e: Entry)
    ensures StorablePart(entries)[e] == if Storable(e) then multiset(entries)[e] else 0
  {
    if entries != [] {
      var front := entries[..|entries| - 1];
      assert entries == front + [entries[|entries| - 1]];
      StorablePartCounts(front, e);
    }
  }

  lemma StorablePartIsPart(entries: seq<Entry>)
    ensures StorablePart(entries) <= multiset(entries)
  {
    forall e
      ensures StorablePart(entries)[e] <= multiset(entries)[e]
    {
      StorablePartCounts(entries, e);
    }
  }

  /** A suspended flush: its entries, and how many entries had been accepted when it started. */
  datatype Batch = Batch(entries: seq<Entry>, startedAt: nat)

  datatype State = State(
    logs: seq<Entry>,             // logBuffer.logs
    inFlight: seq<Batch>,         // suspended flushes, oldest first
    timerOn: bool,                // the interval timer is set
    // What happened so far; the code keeps none of it.
    accepted: seq<Entry>,         // every entry ever pushed
    acked: multiset<Entry>,       // entries of successful flushes
    dropped: multiset<Entry>,     // entries cut off when a failed batch was put back
    attempted: multiset<Entry>,   // entries handed to insertMany
    rejected: multiset<Entry>,    // entries of failed flushes
    stored: multiset<Entry>,      // documents that reached the database
    failures: nat,                // failed flushes
    recentFailures: nat,          // failed flushes since the last log call or flush start
    ackedUpTo: nat)               // entries accepted when the last successful flush started

  const INIT := State([], [], true, [], multiset{}, multiset{}, multiset{}, multiset{}, multiset{}, 0, 0, 0)

  datatype Step =
    | Log(data: ApplicationLog, timestamp: nat)
    | Tick
    | Destroy
    | Succeed(i: nat)
    | Fail(i: nat, kept: multiset<Entry>)   // an unordered insert that fails may have stored some documents

  /** The synchronous part of `flushLogs`. */
  function StartFlush(s: State): State
  {
    if s.logs == [] then s
    else s.(logs := [],
            inFlight := s.inFlight + [Batch(s.logs, |s.accepted|)],
            attempted := s.attempted + multiset(s.logs),
            recentFailures := 0)
  }

  function Push(s: State, e: Entry): State
  {
    s.(logs := s.logs + [e], accepted := s.accepted + [e], recentFailures := 0)
  }

  /** The synchronous part of `applicationLog`. */
  function AppLog(s: State, data: ApplicationLog, timestamp: nat): State
  {
    var t := Push(s, MakeEntry(|s.accepted|, timestamp, data));
    if |t.logs| >= BUFFER_SIZE || data.level == Error then StartFlush(t) else t
  }

  /** The rest of flush `i` after `insertMany` resolved, having stored whatever the schema admits. */
  function SucceedFlush(s: State, i: nat): State
    requires i < |s.inFlight|
  {
    var b := s.inFlight[i];
    s.(inFlight := Drop(s.inFlight, i),
       acked := s.acked + multiset(b.entries),
       stored := s.stored + StorablePart(b.entries),
       ackedUpTo := b.startedAt)
  }

  /** The rest of flush `i` after `insertMany` was rejected, having stored `kept`. */
  function FailFlush(s: State, i: nat, kept: multiset<Entry>): State
    requires i < |s.inFlight|
  {
    var b := s.inFlight[i];
    s.(inFlight := Drop(s.inFlight, i),
       logs := Take(b.entries, BUFFER_SIZE) + s.logs,
       dropped := s.dropped + (multiset(b.entries) - multiset(Take(b.entries, BUFFER_SIZE))),
       rejected := s.rejected + multiset(b.entries),
       stored := s.stored + kept * StorablePart(b.entries),
       failures := s.failures + 1,
       recentFailures := s.recentFailures + 1)
  }

  function Next(s: State, step: Step): State
  {
    match step
    case Log(data, timestamp) => AppLog(s, data, timestamp)
    case Tick => if s.timerOn then StartFlush(s) else s
    case Destroy => StartFlush(s.(timerOn := false))
    case Succeed(i) => if i < |s.inFlight| then SucceedFlush(s, i) else s
    case Fail(i, kept) => if i < |s.inFlight| then FailFlush(s, i, kept) else s
  }

  /** The state after the first `k` steps of a run that starts in `s`. */
  function At(s: State, steps: seq<Step>, k: nat): State
    requires k <= |steps|
  {
    if k == 0 then s else Next(At(s, steps, k - 1), steps[k - 1])
  }

  /** The entries of the given batches, one batch after the other. */
  function Joined(batches: seq<Batch>): seq<Entry>
  {
    if batches == [] then [] else Joined(batches[..|batches| - 1]) + batches[|batches| - 1].entries
  }

  /** Everything accepted and not yet settled: batches in flight, oldest first, then the buffer. */
  function Unsettled(s: State): seq<Entry>
  {
    Joined(s.inFlight) + s.logs
  }

  lemma JoinedEmpty()
    ensures Joined([]) == []
  {
  }

  lemma JoinedAppend(batches: seq<Batch>, b: Batch)
    ensures Joined(batches + [b]) == Joined(batches) + b.entries
  {
    assert (batches + [b])[..|batches|] == batches;
  }

  lemma {:induction false} JoinedConcat(a: seq<Batch>, b: seq<Batch>)
    ensures Joined(a + b) == Joined(a) + Joined(b)
  {
    hide Joined;
    JoinedEmpty();
    if b == [] {
      assert a + b == a;
    } else {
      var front, last := b[..|b| - 1], b[|b| - 1];
      assert b == front + [last];
      assert a + b == (a + front) + [last];
      JoinedConcat(a, front);
      JoinedAppend(a + front, last);
      JoinedAppend(front, last);
    }
  }

  lemma JoinedThree(pre: seq<Batch>, b: Batch, post: seq<Batch>)
    ensures Joined(pre + [b] + post) == Joined(pre) + b.entries + Joined(post)
  {
    hide Joined;
    JoinedConcat(pre + [b], post);
    JoinedAppend(pre, b);
  }

  /** What is joined before, at and after position `i`, and what is left without `i`. */
  lemma JoinedAround(batches: seq<Batch>, i: nat)
    requires i < |batches|
    ensures Joined(batches) == Joined(batches[..i]) + batches[i].entries + Joined(batches[i + 1..])
    ensures Joined(Drop(batches, i)) == Joined(batches[..i]) + Joined(batches[i + 1..])
  {
    hide Joined;
    var pre, b, post := batches[..i], batches[i], batches[i + 1..];
    SplitAt(batches, i);
    JoinedThree(pre, b, post);
    JoinedConcat(pre, post);
  }

  lemma StartFlushUnsettled(s: State)
    ensures Unsettled(StartFlush(s)) == Unsettled(s)
  {
    hide Joined;
    if s.logs != [] {
      JoinedAppend(s.inFlight, Batch(s.logs, |s.accepted|));
    }
  }

  lemma PushUnsettled(s: State, e: Entry)
    ensures Unsettled(Push(s, e)) == Unsettled(s) + [e]
  {
    hide Joined;
  }

  /** A completion takes the batch out; a failure puts its head back between the other batches and the buffer. */
  lemma CompletionUnsettled(s: State, i: nat, kept: multiset<Entry>)
    requires i < |s.inFlight|
    ensures var before, b := Joined(s.inFlight[..i]), s.inFlight[i].entries;
            var after := Joined(s.inFlight[i + 1..]);
            && Unsettled(s) == before + b + after + s.logs
            && Unsettled(SucceedFlush(s, i)) == before + after + s.logs
            && Unsettled(FailFlush(s, i, kept)) == before + after + Take(b, BUFFER_SIZE) + s.logs
  {
    hide Joined;
    JoinedAround(s.inFlight, i);
    var before, b, after := Joined(s.inFlight[..i]), s.inFlight[i].entries, Joined(s.inFlight[i + 1..]);
    assert before + after + Take(b, BUFFER_SIZE) + s.logs == (before + after) + (Take(b, BUFFER_SIZE) + s.logs);
  }

  lemma TakeSplits(s: seq<Entry>, k: nat)
    ensures multiset(Take(s, k)) <= multiset(s)
    ensures multiset(s) - multiset(Take(s, k)) == if |s| <= k then multiset{} else multiset(s[k..])
  {
    if |s| > k {
      assert s == s[..k] + s[k..];
    }
  }
}
