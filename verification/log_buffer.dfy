/** The bounded, newest-first list behind the system log (main.js:410-417). */
module LogBuffer {

  /** The log keeps at most this many entries. */
  const MaxLogEntries: nat := 50

  /** logs.unshift(entry) followed by truncation to the first 50 entries. */
  function PushLog(logs: seq<string>, entry: string): (r: seq<string>)
    ensures |r| == if |logs| < MaxLogEntries then |logs| + 1 else MaxLogEntries
    ensures r[0] == entry
    ensures r[1..] == logs[..|r| - 1]
  {
    var all := [entry] + logs;
    if |all| > MaxLogEntries then all[..MaxLogEntries] else all
  }

  /** Logging the entries of `batch` one after another, oldest first. */
  function PushAll(logs: seq<string>, batch: seq<string>): seq<string>
    decreases |batch|
  {
    if batch == [] then logs
    else PushAll(PushLog(logs, batch[0]), batch[1..])
  }

  /** After logging a batch, the log shows that batch newest first, followed
      by the older entries that still fit. */
  lemma {:induction false} PushAllNewestFirst(logs: seq<string>, batch: seq<string>, k: nat)
    requires k < |batch| && k < MaxLogEntries
    ensures |PushAll(logs, batch)| > k
    ensures PushAll(logs, batch)[k] == batch[|batch| - 1 - k]
    decreases |batch|
  {
    var next := PushLog(logs, batch[0]);
    assert PushAll(logs, batch) == PushAll(next, batch[1..]);
    if |batch| == 1 {
      assert PushAll(next, batch[1..]) == next;
    } else {
      if k < |batch| - 1 {
        PushAllNewestFirst(next, batch[1..], k);
      } else {
        PushAllKeepsOlder(next, batch[1..], 0);
        assert |batch[1..]| == k;
      }
    }
  }

  /** An entry at position i survives a batch of n more entries at position
      i + n, as long as that is within the bound. */
  lemma {:induction false} PushAllKeepsOlder(logs: seq<string>, batch: seq<string>, i: nat)
    requires i < |logs| && i + |batch| < MaxLogEntries
    ensures |PushAll(logs, batch)| > i + |batch|
    ensures PushAll(logs, batch)[i + |batch|] == logs[i]
    decreases |batch|
  {
    if batch != [] {
      var next := PushLog(logs, batch[0]);
      assert PushAll(logs, batch) == PushAll(next, batch[1..]);
      assert next[i + 1] == logs[i];
      PushAllKeepsOlder(next, batch[1..], i + 1);
    }
  }
}
