/** The older log of class-log.php: the same per-host de-duplication, but each entry is
    written straight into the persisted option, with a single attempt at the write lock. */
module Log {
  import opened Platform
  import opened Events

  /** The log `add_to_log` builds: the new entry on top, truncated to the 50 most recent. */
  function Added(entry: Event, log: seq<Event>): (r: seq<Event>)
    ensures |r| == if |log| < MaxEntries then |log| + 1 else MaxEntries
    ensures r[0] == entry
    ensures r[1..] == log[..|r| - 1]
  {
    var r := Take([entry] + log, MaxEntries);
    assert r[1..] == ([entry] + log)[1..|r|];
    r
  }

  /** The log after adding each entry of `entries` in turn, oldest first. */
  function AddedAll(log: seq<Event>, entries: seq<Event>): seq<Event>
    decreases |entries|
  {
    if entries == [] then log else AddedAll(Added(entries[0], log), entries[1..])
  }

  function Reversed(s: seq<Event>): (r: seq<Event>)
    ensures |r| == |s|
    ensures forall i :: 0 <= i < |s| ==> r[i] == s[|s| - 1 - i]
  {
    if s == [] then [] else Reversed(s[1..]) + [s[0]]
  }

  class Log {
    const prims: Primitives
    /** The option `remote_backstop_log` (none when absent). */
    var option: Option<seq<Event>>
    /** Whether the object-cache entry `remote_backstop_log_lock` is present. */
    var lockHeld: bool

    constructor (prims: Primitives, option: Option<seq<Event>>, lockHeld: bool)
      ensures this.prims == prims && this.option == option && this.lockHeld == lockHeld
    {
      this.prims := prims;
      this.option := option;
      this.lockHeld := lockHeld;
    }

    /** `get_log`: the stored log, or the empty list when the option is empty. */
    function GetLog(): (log: seq<Event>)
      reads this
      ensures log == [] <==> option.None? || option.value == []
      ensures option.Some? ==> log == option.value
    {
      if option.Some? then option.value else []
    }

    /** `get_last_log_time`: the time of the first persisted entry for `host`. */
    method GetLastLogTime(host: string) returns (t: Option<int>)
      ensures t == LastLogTime(host, GetLog())
    {
      t := ScanLastLogTime(GetLog(), host);
    }

    /** `add_to_log`: build the new log; write it only if the lock is free, taking and
        releasing the lock around the write. A held lock drops the entry. */
    method AddToLog(host: string, url: string, requestArgs: Args, now: int, requestUri: string)
      modifies this`option, this`lockHeld
      ensures option == if old(lockHeld) then old(option) else Some(Added(Event(host, url, now, requestUri), old(GetLog())))
      ensures lockHeld == old(lockHeld)
    {
      var log := GetLog();
      var entry := Event(host, url, now, requestUri);
      log := [entry] + log;
      log := Take(log, MaxEntries);
      if !lockHeld {
        lockHeld := true;
        option := Some(log);
        lockHeld := false;
      }
    }

    /** `log_down`: add an entry for the URL's host unless the persisted log shows one
        within the window. */
    method LogDown(url: string, requestArgs: Args, now: int, requestUri: string)
      modifies this`option, this`lockHeld
      ensures var host := prims.parseHost(url);
        option == if ShouldRecord(LastLogTime(host, old(GetLog())), now) && !old(lockHeld)
                  then Some(Added(Event(host, url, now, requestUri), old(GetLog())))
                  else old(option)
      ensures lockHeld == old(lockHeld)
    {
      var host := prims.parseHost(url);
      var lastTime := GetLastLogTime(host);
      if lastTime.Some? && lastTime.value != 0 {
        if now - lastTime.value > Window {
          AddToLog(host, url, requestArgs, now, requestUri);
        }
      } else {
        AddToLog(host, url, requestArgs, now, requestUri);
      }
    }
  }

  lemma {:induction false} TakeOfTake(a: seq<Event>, b: seq<Event>, n: nat)
    ensures Take(a + Take(b, n), n) == Take(a + b, n)
  {
    var l := a + Take(b, n);
    var r := a + b;
    assert forall i :: 0 <= i < |l| && i < n ==> l[i] == r[i];
  }

  /** Adding entries one at a time to a log within the bound keeps the 50 most recent of
      all of them, newest first. */
  lemma {:induction false} AddedAllKeepsNewest(log: seq<Event>, entries: seq<Event>)
    requires |log| <= MaxEntries
    ensures AddedAll(log, entries) == Take(Reversed(entries) + log, MaxEntries)
    decreases |entries|
  {
    if entries == [] {
      assert Reversed(entries) + log == log;
    } else {
      var e, rest := entries[0], entries[1..];
      AddedIsTake(e, log);
      AddedAllKeepsNewest(Added(e, log), rest);
      TakeOfTake(Reversed(rest), [e] + log, MaxEntries);
      assert Reversed(entries) == Reversed(rest) + [e];
      assert Reversed(rest) + ([e] + log) == Reversed(entries) + log;
    }
  }

  lemma AddedIsTake(e: Event, log: seq<Event>)
    ensures Added(e, log) == Take([e] + log, MaxEntries)
  {
  }

  /** 52 entries added to an empty log leave exactly 50, newest first: the two oldest are evicted. */
  lemma FiftyTwoEntries(entries: seq<Event>)
    requires |entries| == 52
    ensures |AddedAll([], entries)| == MaxEntries
    ensures AddedAll([], entries) == Reversed(entries[2..])
  {
    AddedAllKeepsNewest([], entries);
    assert Reversed(entries) + [] == Reversed(entries);
    var r := AddedAll([], entries);
    assert forall i :: 0 <= i < MaxEntries ==> r[i] == entries[51 - i];
  }
}
