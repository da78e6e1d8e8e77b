/** GET /changelog: the stored entries sorted newest first with the comparator
    `(a, b) => new Date(b.timestamp) - new Date(a.timestamp)`. `Array.prototype.sort`
    is stable, so entries with equal timestamps keep their stored order. */
module Changelog {
  import opened Records

  predicate NewestFirst(log: seq<LogEntry>) {
    forall i, j :: 0 <= i < j < |log| ==> log[i].timestamp >= log[j].timestamp
  }

  /** Places `e` in front of the first entry that is not newer than it. */
  function Insert(e: LogEntry, log: seq<LogEntry>): (r: seq<LogEntry>)
    ensures multiset(r) == multiset(log) + multiset{e}
  {
    if log == [] || log[0].timestamp <= e.timestamp then [e] + log
    else
      assert log == [log[0]] + log[1..];
      [log[0]] + Insert(e, log[1..])
  }

  predicate NoNewerThan(log: seq<LogEntry>, t: Instant) {
    forall k :: 0 <= k < |log| ==> log[k].timestamp <= t
  }

  lemma {:induction false} InsertNoNewerThan(e: LogEntry, log: seq<LogEntry>, t: Instant)
    requires NoNewerThan(log, t) && e.timestamp <= t
    ensures NoNewerThan(Insert(e, log), t)
  {
    if log != [] && e.timestamp < log[0].timestamp {
      InsertNoNewerThan(e, log[1..], t);
    }
  }

  lemma {:induction false} InsertKeepsOrder(e: LogEntry, log: seq<LogEntry>)
    requires NewestFirst(log)
    ensures NewestFirst(Insert(e, log))
  {
    var r := Insert(e, log);
    if log == [] || log[0].timestamp <= e.timestamp {
      forall i, j | 0 <= i < j < |r|
        ensures r[i].timestamp >= r[j].timestamp
      {
        if i == 0 {
          assert r[j] == log[j - 1];
        } else {
          assert r[i] == log[i - 1] && r[j] == log[j - 1];
        }
      }
    } else {
      var rest := Insert(e, log[1..]);
      InsertKeepsOrder(e, log[1..]);
      InsertNoNewerThan(e, log[1..], log[0].timestamp);
      forall i, j | 0 <= i < j < |r|
        ensures r[i].timestamp >= r[j].timestamp
      {
        if i == 0 {
          assert r[j] == rest[j - 1];
        } else {
          assert r[i] == rest[i - 1] && r[j] == rest[j - 1];
        }
      }
    }
  }

  /** The entries sorted newest first (a stable insertion sort). */
  function SortByTimestamp(log: seq<LogEntry>): (r: seq<LogEntry>)
    ensures multiset(r) == multiset(log)
    ensures NewestFirst(r)
  {
    if log == [] then []
    else
      assert log == [log[0]] + log[1..];
      InsertKeepsOrder(log[0], SortByTimestamp(log[1..]));
      Insert(log[0], SortByTimestamp(log[1..]))
  }

  /** The entries stamped `t`, in order. */
  function Stamped(log: seq<LogEntry>, t: Instant): seq<LogEntry> {
    if log == [] then []
    else (if log[0].timestamp == t then [log[0]] else []) + Stamped(log[1..], t)
  }

  lemma {:induction false} InsertStamped(e: LogEntry, log: seq<LogEntry>, t: Instant)
    ensures Stamped(Insert(e, log), t)
            == (if e.timestamp == t then [e] else []) + Stamped(log, t)
  {
    if log == [] || log[0].timestamp <= e.timestamp {
      assert ([e] + log)[1..] == log;
    } else {
      var rest := Insert(e, log[1..]);
      assert ([log[0]] + rest)[1..] == rest;
      InsertStamped(e, log[1..], t);
    }
  }

  /** The sort is stable: among entries with the same timestamp the stored order survives. */
  lemma {:induction false} SortIsStable(log: seq<LogEntry>, t: Instant)
    ensures Stamped(SortByTimestamp(log), t) == Stamped(log, t)
  {
    if log != [] {
      SortIsStable(log[1..], t);
      InsertStamped(log[0], SortByTimestamp(log[1..]), t);
    }
  }
}
