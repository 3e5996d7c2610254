/** The event log of class-event-log.php: outage events collected newest first in an
    in-memory buffer during one request cycle, de-duplicated per host, and flushed
    ahead of the persisted log at the end of the cycle under a write lock. */
module EventLog {
  import opened Platform
  import opened Events

  /** PHP's `$events + $log` on two lists: keys present on the left win, so the
      persisted entries at positions below `|events|` are hidden. */
  function UnionByIndex(events: seq<Event>, persisted: seq<Event>): (u: seq<Event>)
    ensures |u| == if |persisted| <= |events| then |events| else |persisted|
    ensures u[..|events|] == events
    ensures forall i :: |events| <= i < |u| ==> u[i] == persisted[i]
  {
    if |persisted| <= |events| then events else events + persisted[|events|..]
  }

  /** The buffer after `log_resource_downtime` for `host` at time `now`. */
  function Downtime(events: seq<Event>, persisted: seq<Event>, host: string, url: string, now: int, uri: string): (r: seq<Event>)
    ensures r == events || r == [Event(host, url, now, uri)] + events
  {
    if ShouldRecord(LastLogTime(host, UnionByIndex(events, persisted)), now)
    then [Event(host, url, now, uri)] + events
    else events
  }

  /** The buffer after one `log_resource_downtime` per entry of `times`, all for `url`. */
  function DowntimeRepeated(events: seq<Event>, persisted: seq<Event>, host: string, url: string, times: seq<int>, uri: string): seq<Event>
    decreases |times|
  {
    if times == [] then events
    else DowntimeRepeated(Downtime(events, persisted, host, url, times[0], uri), persisted, host, url, times[1..], uri)
  }

  /** The persisted log written by a successful flush. */
  function Flushed(events: seq<Event>, persisted: seq<Event>): seq<Event> {
    Take(events + persisted, MaxEntries)
  }

  class EventLog {
    const prims: Primitives
    /** `$events`: not yet flushed, newest first. */
    var events: seq<Event>
    /** The object-cache entry `remote_backstop_log` (none when absent). */
    var stored: Option<seq<Event>>
    /** Whether the object-cache entry `remote_backstop_log_lock` is present. */
    var lockHeld: bool

    /** The backend's log and lock are whatever the shared cache holds; the buffer starts empty. */
    constructor (prims: Primitives, stored: Option<seq<Event>>, lockHeld: bool)
      ensures this.prims == prims && events == [] && this.stored == stored && this.lockHeld == lockHeld
    {
      this.prims := prims;
      events := [];
      this.stored := stored;
      this.lockHeld := lockHeld;
    }

    /** `get_log`: the persisted log, or the empty list when nothing (or an empty value) is stored. */
    function GetLog(): (log: seq<Event>)
      reads this
      ensures log == [] <==> stored.None? || stored.value == []
      ensures stored.Some? ==> log == stored.value
    {
      if stored.Some? then stored.value else []
    }

    /** `get_last_log_time`: scan the buffer united by index with the persisted log. */
    method GetLastLogTime(host: string) returns (t: Option<int>)
      ensures t == LastLogTime(host, UnionByIndex(events, GetLog()))
    {
      var log := UnionByIndex(events, GetLog());
      t := ScanLastLogTime(log, host);
    }

    /** `record_event`: put a new entry for `now` at the top of the buffer. */
    method RecordEvent(host: string, url: string, requestArgs: Args, now: int, requestUri: string)
      modifies this`events
      ensures events == [Event(host, url, now, requestUri)] + old(events)
    {
      var entry := Event(host, url, now, requestUri);
      events := [entry] + events;
    }

    /** `log_resource_downtime`: record an event for the URL's host unless one was
        logged (in the buffer or, where visible, the persisted log) within the window. */
    method LogResourceDowntime(url: string, requestArgs: Args, now: int, requestUri: string)
      modifies this`events
      ensures events == Downtime(old(events), GetLog(), prims.parseHost(url), url, now, requestUri)
    {
      var host := prims.parseHost(url);
      var lastTime := GetLastLogTime(host);
      if lastTime.Some? && lastTime.value != 0 {
        if now - lastTime.value > Window {
          RecordEvent(host, url, requestArgs, now, requestUri);
        }
      } else {
        RecordEvent(host, url, requestArgs, now, requestUri);
      }
    }

    /** `write_events_to_log`: up to three attempts; on the first one that finds the lock
        free, take the lock, write the buffer ahead of the persisted log truncated to 50
        entries, and release the lock. The buffer is left as it was. */
    method WriteEventsToLog() returns (attempts: nat)
      modifies this`stored, this`lockHeld
      ensures 1 <= attempts <= 3
      ensures !old(lockHeld) ==> attempts == 1 && stored == Some(Flushed(events, old(GetLog()))) && !lockHeld
      ensures old(lockHeld) ==> attempts == 3 && stored == old(stored) && lockHeld
      ensures events == old(events)
    {
      attempts := 0;
      var i := 0;
      while i < 3
        invariant 0 <= i <= 3
        invariant attempts == i
        invariant i > 0 ==> old(lockHeld)
        invariant stored == old(stored) && lockHeld == old(lockHeld)
      {
        attempts := attempts + 1;
        if !lockHeld {
          lockHeld := true;
          var log := GetLog();
          log := events + log;
          log := Take(log, MaxEntries);
          stored := Some(log);
          lockHeld := false;
          return;
        }
        i := i + 1;
      }
    }

    /** `clear_log`: empty the buffer and delete the persisted log. */
    method ClearLog()
      modifies this`events, this`stored
      ensures events == [] && stored == None && GetLog() == []
      ensures lockHeld == old(lockHeld)
    {
      events := [];
      stored := None;
    }
  }

  /** `log_resource_downtime` records an event exactly when the 300-second rule says so,
      and afterwards the host is known to the lookup, whichever branch was taken. */
  lemma DowntimeRecordsOnce(events: seq<Event>, persisted: seq<Event>, host: string, url: string, now: int, uri: string)
    ensures var r := Downtime(events, persisted, host, url, now, uri);
      && (r != events <==> ShouldRecord(LastLogTime(host, UnionByIndex(events, persisted)), now))
      && (r != events ==> r[0] == Event(host, url, now, uri) && r[1..] == events)
      && LastLogTime(host, UnionByIndex(r, persisted)).Some?
  {
  }

  /** Because `+` unites by index, an entry of the persisted log can be hidden by the
      buffer: a host logged at position 0 is not found once the buffer holds one entry. */
  lemma PersistedEntryShadowed(a: string, b: string, url: string, t: int, uri: string)
    requires a != b
    ensures LastLogTime(a, [Event(a, url, t, uri)]) == Some(t)
    ensures LastLogTime(a, UnionByIndex([Event(b, url, t, uri)], [Event(a, url, t, uri)])) == None
  {
  }

  /** Persisted entries at or beyond the buffer's length are seen by the scan: the host
      lookup on the union is the lookup on the buffer, then on the rest of the persisted log. */
  lemma UnionLookup(host: string, events: seq<Event>, persisted: seq<Event>)
    ensures LastLogTime(host, UnionByIndex(events, persisted)) ==
      match LastLogTime(host, events)
      case Some(t) => Some(t)
      case None => if |persisted| <= |events| then None else LastLogTime(host, persisted[|events|..])
  {
    if |persisted| > |events| {
      ConcatLookup(host, events, persisted[|events|..]);
    }
  }

  lemma {:induction false} ConcatLookup(host: string, a: seq<Event>, b: seq<Event>)
    ensures LastLogTime(host, a + b) == if LastLogTime(host, a).Some? then LastLogTime(host, a) else LastLogTime(host, b)
  {
    if a == [] {
      assert a + b == b;
    } else {
      assert (a + b)[1..] == a[1..] + b;
      ConcatLookup(host, a[1..], b);
    }
  }

  /** Repeated failures for one host within the window of the first, during a single
      cycle, add exactly one event: the buffer holds the first, and later scans find it. */
  lemma {:induction false} DedupWithinCycle(events: seq<Event>, persisted: seq<Event>, host: string, url: string, times: seq<int>, uri: string)
    requires |times| > 0 && times[0] != 0
    requires ShouldRecord(LastLogTime(host, UnionByIndex(events, persisted)), times[0])
    requires forall k :: 0 < k < |times| ==> times[k] - times[0] <= Window
    ensures DowntimeRepeated(events, persisted, host, url, times, uri) == [Event(host, url, times[0], uri)] + events
  {
    var first := [Event(host, url, times[0], uri)] + events;
    assert Downtime(events, persisted, host, url, times[0], uri) == first;
    NoRecordWhileRecent(first, persisted, host, url, times[0], times[1..], uri);
  }

  lemma {:induction false} NoRecordWhileRecent(events: seq<Event>, persisted: seq<Event>, host: string, url: string, t0: int, times: seq<int>, uri: string)
    requires events != [] && events[0].host == host && events[0].time == t0 && t0 != 0
    requires forall k :: 0 <= k < |times| ==> times[k] - t0 <= Window
    ensures DowntimeRepeated(events, persisted, host, url, times, uri) == events
    decreases |times|
  {
    if times != [] {
      var u := UnionByIndex(events, persisted);
      assert u[0] == events[0];
      assert LastLogTime(host, u) == Some(t0);
      assert Downtime(events, persisted, host, url, times[0], uri) == events;
      NoRecordWhileRecent(events, persisted, host, url, t0, times[1..], uri);
    }
  }

  /** A flush writes at most 50 entries, the buffer's newest entries first, and keeps a
      newest-first history newest first when the buffer is newer than what was persisted. */
  lemma FlushedLog(events: seq<Event>, persisted: seq<Event>)
    ensures |Flushed(events, persisted)| <= MaxEntries
    ensures |events| <= MaxEntries ==> Flushed(events, persisted)[..|events|] == events
    ensures |events| >= MaxEntries ==> Flushed(events, persisted) == events[..MaxEntries]
    ensures NewestFirst(events) && NewestFirst(persisted)
            && (events != [] && persisted != [] ==> events[|events| - 1].time >= persisted[0].time)
            ==> NewestFirst(Flushed(events, persisted))
  {
    var all := events + persisted;
    if |events| <= MaxEntries {
      assert all[..|events|] == events;
    } else {
      assert all[..MaxEntries] == events[..MaxEntries];
    }
    if NewestFirst(events) && NewestFirst(persisted)
       && (events != [] && persisted != [] ==> events[|events| - 1].time >= persisted[0].time) {
      ConcatNewestFirst(events, persisted);
      TakeKeepsNewestFirst(all, MaxEntries);
    }
  }
}
