/**
 * The leveled logger of the patch screen: an append-only list of
 * (priority, message) pairs. Debug entries are kept only when the logger's
 * `verbose` flag is set; info and error entries are always kept.
 */
module PatchLogger {

  /** Priorities of android.util.Log, stored as the first half of each pair. */
  const LOG_DEBUG: int := 3
  const LOG_INFO: int := 4
  const LOG_ERROR: int := 6

  datatype LogEntry = LogEntry(priority: int, msg: string)

  /** One call made through the logger interface: `d`, `i` or `e`. */
  datatype LogCall = D(msg: string) | I(msg: string) | E(msg: string)

  /** The priority a call is recorded with, when it is recorded. */
  function PriorityOf(call: LogCall): int
  {
    match call
    case D(_) => LOG_DEBUG
    case I(_) => LOG_INFO
    case E(_) => LOG_ERROR
  }

  /** `d`: a debug entry is appended only in verbose mode. */
  function Debug(logs: seq<LogEntry>, verbose: bool, msg: string): (r: seq<LogEntry>)
    ensures logs <= r
    ensures verbose ==> |r| == |logs| + 1 && r[|logs|] == LogEntry(LOG_DEBUG, msg)
    ensures !verbose ==> r == logs
  {
    if verbose then logs + [LogEntry(LOG_DEBUG, msg)] else logs
  }

  /** `i`: an info entry is always appended. */
  function Info(logs: seq<LogEntry>, msg: string): (r: seq<LogEntry>)
    ensures logs <= r
    ensures |r| == |logs| + 1 && r[|logs|] == LogEntry(LOG_INFO, msg)
  {
    logs + [LogEntry(LOG_INFO, msg)]
  }

  /** `e`: an error entry is always appended. */
  function Error(logs: seq<LogEntry>, msg: string): (r: seq<LogEntry>)
    ensures logs <= r
    ensures |r| == |logs| + 1 && r[|logs|] == LogEntry(LOG_ERROR, msg)
  {
    logs + [LogEntry(LOG_ERROR, msg)]
  }

  /** Performs one logger call. */
  function Perform(logs: seq<LogEntry>, verbose: bool, call: LogCall): (r: seq<LogEntry>)
    ensures logs <= r
    ensures |r| <= |logs| + 1
    ensures |r| == |logs| + 1 <==> verbose || !call.D?
    ensures |r| == |logs| + 1 ==> r[|logs|] == LogEntry(PriorityOf(call), call.msg)
  {
    match call
    case D(m) => Debug(logs, verbose, m)
    case I(m) => Info(logs, m)
    case E(m) => Error(logs, m)
  }

  /** Performs a sequence of logger calls, one after the other. */
  function Replay(logs: seq<LogEntry>, verbose: bool, calls: seq<LogCall>): (r: seq<LogEntry>)
    ensures logs <= r
    ensures |r| <= |logs| + |calls|
    decreases |calls|
  {
    if calls == [] then logs
    else Replay(Perform(logs, verbose, calls[0]), verbose, calls[1..])
  }

  /**
   * Reference definition of what a sequence of calls leaves in the log:
   * every call in order, with debug calls dropped unless verbose.
   */
  function Retained(verbose: bool, calls: seq<LogCall>): seq<LogEntry>
    decreases |calls|
  {
    if calls == [] then []
    else
      (if verbose || !calls[0].D? then [LogEntry(PriorityOf(calls[0]), calls[0].msg)] else [])
      + Retained(verbose, calls[1..])
  }

  /** The entries of `logs` whose priority is not debug, in order. */
  function WithoutDebug(logs: seq<LogEntry>): (r: seq<LogEntry>)
    ensures |r| <= |logs|
    ensures forall k :: 0 <= k < |r| ==> r[k].priority != LOG_DEBUG
    decreases |logs|
  {
    if logs == [] then []
    else (if logs[0].priority == LOG_DEBUG then [] else [logs[0]]) + WithoutDebug(logs[1..])
  }

  lemma {:induction false} WithoutDebugAppend(a: seq<LogEntry>, b: seq<LogEntry>)
    ensures WithoutDebug(a + b) == WithoutDebug(a) + WithoutDebug(b)
    decreases |a|
  {
    if a == [] {
      assert a + b == b;
    } else {
      assert (a + b)[1..] == a[1..] + b;
      WithoutDebugAppend(a[1..], b);
    }
  }

  /** Applying the calls one by one appends exactly the retained entries: nothing is removed or reordered. */
  lemma {:induction false} ReplayAppendsRetained(logs: seq<LogEntry>, verbose: bool, calls: seq<LogCall>)
    ensures Replay(logs, verbose, calls) == logs + Retained(verbose, calls)
    decreases |calls|
  {
    if calls != [] {
      var next := Perform(logs, verbose, calls[0]);
      ReplayAppendsRetained(next, verbose, calls[1..]);
    }
  }

  /** In verbose mode every call is recorded, one entry per call, in call order. */
  lemma {:induction false} VerboseRetainsAll(calls: seq<LogCall>)
    ensures |Retained(true, calls)| == |calls|
    ensures forall k :: 0 <= k < |calls| ==>
      Retained(true, calls)[k] == LogEntry(PriorityOf(calls[k]), calls[k].msg)
    decreases |calls|
  {
    if calls != [] {
      VerboseRetainsAll(calls[1..]);
    }
  }

  /**
   * The verbosity gate drops exactly the debug entries: the quiet log is the
   * verbose log with its debug entries removed, so no info or error entry is
   * ever lost and the order of the kept ones is unchanged.
   */
  lemma {:induction false} QuietDropsOnlyDebug(calls: seq<LogCall>)
    ensures Retained(false, calls) == WithoutDebug(Retained(true, calls))
    decreases |calls|
  {
    if calls != [] {
      var head := [LogEntry(PriorityOf(calls[0]), calls[0].msg)];
      QuietDropsOnlyDebug(calls[1..]);
      WithoutDebugAppend(head, Retained(true, calls[1..]));
      assert head[1..] == [];
    }
  }
}
