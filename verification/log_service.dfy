/**
The logging service as the object it is: a buffer that is pushed to, replaced
and refilled in place. A method is what the call does before its `await`; what it
does after, once the database has answered, is a method of its own. Each keeps
the invariant of the log machine.
*/
module LoggingServices {
  import opened Prelude
  import M = LogMachine
  import S = LogSafety

  class LoggingService {
    var logs: seq<M.Entry>          // logBuffer.logs
    var timerOn: bool               // logBuffer.flushTimer is set and not cleared
    var created: nat                // log objects created so far
    var inFlight: seq<M.Batch>      // the suspended flushLogs calls, oldest first
    ghost var history: M.State      // what happened so far; only its history fields are used

    /** The machine state that this object is in. */
    ghost function State(): M.State
      reads this
    {
      history.(logs := logs, inFlight := inFlight, timerOn := timerOn)
    }

    ghost predicate Valid()
      reads this
    {
      created == |history.accepted| && S.Inv(State())
    }

    /** The state in which a flush may start: the buffer may hold an entry more than `Valid()` admits. */
    ghost predicate Ready()
      reads this
    {
      created == |history.accepted| && S.Ready(State())
    }

    constructor ()
      ensures Valid() && State() == M.INIT
    {
      logs, inFlight, created := [], [], 0;
      timerOn := true;
      history := M.INIT;
    }

    method FlushLogs()
      requires Ready()
      modifies this
      ensures Valid() && State() == M.StartFlush(old(State())) && S.Flushed(old(State()), State())
    {
      hide S.Inv, S.Ready;
      S.StartFlushKeeps(State());
      if |logs| == 0 {
        return;
      }
      var logsToFlush := logs;
      logs := [];
      inFlight := inFlight + [M.Batch(logsToFlush, created)];
      history := history.(attempted := history.attempted + multiset(logsToFlush), recentFailures := 0);
    }

    method ApplicationLog(data: M.ApplicationLog, timestamp: nat)
      requires Valid()
      modifies this
      ensures Valid() && State() == M.AppLog(old(State()), data, timestamp)
      ensures S.Logged(old(State()), State(), data, timestamp) && |logs| <= 99
    {
      hide S.Inv, S.Ready, S.Logged;
      S.LogCallLogs(State(), data, timestamp);
      S.PushReady(State(), M.MakeEntry(created, timestamp, data));
      S.LogCallLeavesRoom(State(), data, timestamp);
      var logEntry := M.MakeEntry(created, timestamp, data);
      created := created + 1;
      logs := logs + [logEntry];
      history := history.(accepted := history.accepted + [logEntry], recentFailures := 0);
      if |logs| >= M.BUFFER_SIZE || data.level == M.Error {
        FlushLogs();
      }
    }

    /** The interval timer fires. */
    method OnTimer()
      requires Valid()
      modifies this
      ensures Valid() && State() == M.Next(old(State()), M.Tick)
      ensures if old(timerOn) then S.Flushed(old(State()), State()) else State() == old(State())
    {
      hide S.Inv, S.Ready;
      S.InvReady(State());
      S.TickFlushes(State());
      if timerOn {
        FlushLogs();
      }
    }

    method OnModuleDestroy()
      requires Valid()
      modifies this
      ensures Valid() && State() == M.Next(old(State()), M.Destroy)
      ensures S.Flushed(old(State()), State()) && !timerOn
    {
      hide S.Inv, S.Ready;
      S.InvReady(State());
      S.TickFlushes(State());
      timerOn := false;
      FlushLogs();
    }

    /** `insertMany` of flush `i` resolved. */
    method InsertResolved(i: nat)
      requires Valid() && i < |inFlight|
      modifies this
      ensures Valid() && State() == M.SucceedFlush(old(State()), i)
      ensures S.Completed(old(State()), State(), i, false)
    {
      hide S.Inv, M.StorablePart, S.Completed;
      S.CompletionKeeps(State(), i, multiset{});
      S.CompletionCompletes(State(), i, multiset{});
      ghost var b := inFlight[i];
      inFlight := Drop(inFlight, i);
      history := history.(acked := history.acked + multiset(b.entries),
                          stored := history.stored + M.StorablePart(b.entries),
                          ackedUpTo := b.startedAt);
    }

    /** `insertMany` of flush `i` was rejected; the database may have stored the documents `kept`. */
    method InsertRejected(i: nat, ghost kept: multiset<M.Entry>)
      requires Valid() && i < |inFlight|
      modifies this
      ensures Valid() && State() == M.FailFlush(old(State()), i, kept)
      ensures S.Completed(old(State()), State(), i, true)
    {
      hide S.Inv, M.StorablePart, S.Completed;
      S.CompletionKeeps(State(), i, kept);
      S.CompletionCompletes(State(), i, kept);
      var logsToFlush := inFlight[i].entries;
      inFlight := Drop(inFlight, i);
      logs := Take(logsToFlush, M.BUFFER_SIZE) + logs;
      history := history.(
        dropped := history.dropped + (multiset(logsToFlush) - multiset(Take(logsToFlush, M.BUFFER_SIZE))),
        rejected := history.rejected + multiset(logsToFlush),
        stored := history.stored + kept * M.StorablePart(logsToFlush),
        failures := history.failures + 1,
        recentFailures := history.recentFailures + 1);
    }
  }
}
