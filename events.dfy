/** Outage events shared by both log revisions: the entry shape, the five-minute
    de-duplication rule, the host scan of `get_last_log_time` and the 50-entry bound. */
module Events {
  import opened Platform

  /** One outage entry: `{host, url, time, request_uri}`. */
  datatype Event = Event(host: string, url: string, time: int, requestUri: string)

  /** `5 * MINUTE_IN_SECONDS`: a host is logged at most once per window. */
  const Window := 300

  /** The log keeps the 50 most recent entries. */
  const MaxEntries := 50

  /** The time of the first entry for `host` in a newest-first log, or none (`false`). */
  function LastLogTime(host: string, log: seq<Event>): (t: Option<int>)
    ensures t.None? <==> forall i :: 0 <= i < |log| ==> log[i].host != host
    ensures t.Some? ==> exists i :: 0 <= i < |log| && log[i].host == host && log[i].time == t.value
                                   && forall j :: 0 <= j < i ==> log[j].host != host
  {
    if log == [] then None
    else if log[0].host == host then Some(log[0].time)
    else
      var rest := LastLogTime(host, log[1..]);
      assert forall i :: 0 <= i < |log| - 1 ==> log[1..][i] == log[i + 1];
      rest
  }

  /** The `foreach` of `get_last_log_time`: return the time of the first entry whose
      host is `host`, or none when no entry matches. */
  method ScanLastLogTime(log: seq<Event>, host: string) returns (t: Option<int>)
    ensures t == LastLogTime(host, log)
  {
    var i := 0;
    while i < |log|
      invariant 0 <= i <= |log|
      invariant LastLogTime(host, log) == LastLogTime(host, log[i..])
    {
      if log[i].host == host {
        return Some(log[i].time);
      }
      assert log[i..][1..] == log[i + 1..];
      i := i + 1;
    }
    return None;
  }

  /** The de-duplication rule of both logs: record when no time is known or the known
      time is empty (0), or when more than the window has passed since it. */
  function ShouldRecord(last: Option<int>, now: int): (record: bool)
    ensures last.Some? && last.value != 0 && now <= last.value + Window ==> !record
    ensures last.None? || last.value == 0 || now >= last.value + Window + 1 ==> record
  {
    last.None? || last.value == 0 || now - last.value > Window
  }

  /** `array_slice( $log, 0, n )`. */
  function Take(s: seq<Event>, n: nat): (r: seq<Event>)
    ensures |r| == if |s| <= n then |s| else n
    ensures r <= s
  {
    if |s| <= n then s else s[..n]
  }

  /** The entries are ordered newest first. */
  ghost predicate NewestFirst(log: seq<Event>) {
    forall i, j :: 0 <= i < j < |log| ==> log[i].time >= log[j].time
  }

  /** Exactly 300 seconds after a logged time nothing is recorded; one second later it is. */
  lemma WindowBoundary(t: int)
    requires t != 0
    ensures !ShouldRecord(Some(t), t + Window)
    ensures ShouldRecord(Some(t), t + Window + 1)
  {
  }

  /** Prepending an entry at least as new as the current head keeps a log newest first. */
  lemma PrependKeepsNewestFirst(e: Event, log: seq<Event>)
    requires NewestFirst(log)
    requires log != [] ==> e.time >= log[0].time
    ensures NewestFirst([e] + log)
  {
    var s := [e] + log;
    forall i, j | 0 <= i < j < |s|
      ensures s[i].time >= s[j].time
    {
      if i == 0 {
        assert s[j] == log[j - 1];
        assert log[0].time >= log[j - 1].time;
      }
    }
  }

  /** Truncation keeps a newest-first log newest first. */
  lemma TakeKeepsNewestFirst(log: seq<Event>, n: nat)
    requires NewestFirst(log)
    ensures NewestFirst(Take(log, n))
  {
  }

  /** Two newest-first runs joined oldest-of-the-first before newest-of-the-second form a
      newest-first log. */
  lemma ConcatNewestFirst(a: seq<Event>, b: seq<Event>)
    requires NewestFirst(a) && NewestFirst(b)
    requires a != [] && b != [] ==> a[|a| - 1].time >= b[0].time
    ensures NewestFirst(a + b)
  {
    var s := a + b;
    forall i, j | 0 <= i < j < |s|
      ensures s[i].time >= s[j].time
    {
      if i < |a| && j >= |a| {
        assert s[i].time >= a[|a| - 1].time;
        assert b[0].time >= s[j].time;
      }
    }
  }
}
