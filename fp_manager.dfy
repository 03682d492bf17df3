/**
 * The `FalsePositiveManager` class of agents/opsec/scripts/false-positive-manager.cjs:
 * an in-memory table of known false positives, keyed by id, with its
 * metadata and configuration, plus the sliding window of recent errors.
 *
 * Persisting to the data file (`saveData`) is I/O; its one in-memory effect,
 * stamping `metadata.last_updated`, is kept.
 */
module FalsePositiveRegistry {
  import opened Wrappers
  import opened FalsePositiveData

  /** Why `add` throws. */
  datatype AddError = InvalidId | EmptyPattern | InvalidPattern | DuplicateId

  /** The `{ id, fp }` pair that `checkMatch` returns. */
  datatype MatchResult = MatchResult(id: string, fp: Entry)

  class FalsePositiveManager {
    /** Key order of `data.false_positives`. */
    var order: seq<string>
    /** `data.false_positives`. */
    var entries: map<string, Entry>
    var metadata: Metadata
    var config: Settings
    /** `recentErrors`: timestamps of recent occurrences per error message. */
    var recentErrors: map<string, seq<int>>

    ghost predicate Valid()
      reads this
    {
      TableWellFormed(order, entries)
    }

    /** `metadata.total_entries` agrees with the table. */
    ghost predicate CountersConsistent()
      reads this
    {
      metadata.totalEntries == |order|
    }

    /** The constructor: `loadData` from the data file (`None` when it does not exist). */
    constructor (stored: Option<StoredData>, now: int)
      requires stored.Some? ==> TableWellFormed(stored.value.order, stored.value.entries)
      ensures Valid()
      ensures var d := LoadData(stored, now);
        order == d.order && entries == d.entries && metadata == d.metadata && config == d.config
      ensures recentErrors == map[]
    {
      var d := LoadData(stored, now);
      order := d.order;
      entries := d.entries;
      metadata := d.metadata;
      config := d.config;
      recentErrors := map[];
    }

    /** The sliding window in milliseconds. */
    function WindowMs(): int
      reads this
    {
      config.recentErrorsWindowMinutes * MinuteMs
    }

    /** The timestamps recorded so far for `message`. */
    function Recent(message: string): seq<int>
      reads this
    {
      if message in recentErrors then recentErrors[message] else []
    }

    /** `add`: validate the id and the pattern, refuse a duplicate id, then
        store a fresh entry at the end of the table. */
    method Add(id: string, name: string, description: string, pattern: string, opts: AddOptions,
               compiles: string -> bool, now: int)
      returns (r: Result<Entry, AddError>)
      requires Valid()
      modifies this
      ensures Valid()
      ensures config == old(config) && recentErrors == old(recentErrors)
      ensures r == Failure(InvalidId) <==> !ValidId(id)
      ensures r == Failure(EmptyPattern) <==> ValidId(id) && pattern == ""
      ensures r == Failure(InvalidPattern) <==> ValidId(id) && pattern != "" && !compiles(pattern)
      ensures r == Failure(DuplicateId) <==> ValidId(id) && ValidPattern(pattern, compiles) && id in old(entries)
      ensures r.Failure? ==> order == old(order) && entries == old(entries) && metadata == old(metadata)
      ensures r.Success? ==>
        && r.value == NewEntry(id, name, description, pattern, opts, now)
        && entries == old(entries)[id := r.value]
        && order == old(order) + [id]
        && metadata == old(metadata).(totalEntries := |entries|, lastUpdated := now)
        && CountersConsistent()
    {
      if !ValidId(id) {
        return Failure(InvalidId);
      }
      if pattern == "" {
        return Failure(EmptyPattern);
      }
      if !compiles(pattern) {
        return Failure(InvalidPattern);
      }
      if id in entries {
        return Failure(DuplicateId);
      }
      var fp := NewEntry(id, name, description, pattern, opts, now);
      entries := entries[id := fp];
      order := order + [id];
      TableSize(order, entries);
      metadata := metadata.(totalEntries := |order|);
      // saveData
      metadata := metadata.(lastUpdated := now);
      r := Success(fp);
    }

    /** `increment`: one more occurrence of a known entry, with a bounded history. */
    method Increment(id: string, context: string, resolved: bool, resolutionMethod: string, now: int)
      returns (r: Option<Entry>)
      requires Valid()
      modifies this
      ensures Valid()
      ensures order == old(order) && config == old(config) && recentErrors == old(recentErrors)
      ensures id !in old(entries) ==> r == None && entries == old(entries) && metadata == old(metadata)
      ensures id in old(entries) ==>
        && entries == old(entries)[id := Incremented(old(entries)[id], AutoRecord(context, resolved, resolutionMethod, now),
                                                     config.maxHistoryEntries)]
        && r == Some(entries[id])
        && metadata == old(metadata).(lastUpdated := now)
      ensures old(CountersConsistent()) ==> CountersConsistent()
    {
      if id !in entries {
        return None;
      }
      var fp := Incremented(entries[id], AutoRecord(context, resolved, resolutionMethod, now), config.maxHistoryEntries);
      entries := entries[id := fp];
      // saveData
      metadata := metadata.(lastUpdated := now);
      r := Some(fp);
    }

    /** `checkMatch`: the first entry, in table order, whose pattern matches
        the message and whose process filter lets `processName` through. */
    method CheckMatch(message: string, processName: string,
                      compiles: string -> bool, matches: (string, string) -> bool)
      returns (r: Option<MatchResult>)
      requires Valid()
      ensures message == "" ==> r == None
      ensures r.Some? ==>
        && r.value.id in entries && r.value.fp == entries[r.value.id]
        && Selects(r.value.fp, message, processName, compiles, matches)
        && exists k :: 0 <= k < |order| && order[k] == r.value.id
             && forall j :: 0 <= j < k ==> !Selects(entries[order[j]], message, processName, compiles, matches)
      ensures r == None && message != "" ==>
        forall k :: 0 <= k < |order| ==> !Selects(entries[order[k]], message, processName, compiles, matches)
    {
      if message == "" {
        return None;
      }
      var i := 0;
      while i < |order|
        invariant 0 <= i <= |order|
        invariant forall j :: 0 <= j < i ==> !Selects(entries[order[j]], message, processName, compiles, matches)
      {
        var id := order[i];
        var fp := entries[id];
        if compiles(fp.pattern) && matches(fp.pattern, message) {
          if |fp.affectedProcesses| > 0 && processName != "" && processName !in fp.affectedProcesses {
            i := i + 1;
            continue;
          }
          return Some(MatchResult(id, fp));
        }
        i := i + 1;
      }
      return None;
    }

    /** `_trackRecentError`: record `message` at `now`, forget what left the
        window, and return how many occurrences remain. */
    method TrackRecentError(message: string, now: int) returns (count: int)
      modifies this`recentErrors
      ensures recentErrors == old(recentErrors)[message := KeepRecent(old(Recent(message)) + [now], now, WindowMs())]
      ensures count == |recentErrors[message]|
      ensures WindowMs() > 0 ==> count >= 1 && recentErrors[message][count - 1] == now
    {
      var windowMs := config.recentErrorsWindowMinutes * MinuteMs;
      var recent := if message in recentErrors then recentErrors[message] else [];
      ghost var prior := recent;
      recent := recent + [now];
      recentErrors := recentErrors[message := KeepRecent(recent, now, windowMs)];
      count := |recentErrors[message]|;
      if windowMs > 0 {
        NewestSurvives(prior, now, windowMs);
      }
    }

    /** `shouldAutoClassify`: record the error and report whether it has
        recurred often enough within the window. */
    method ShouldAutoClassify(message: string, now: int) returns (b: bool)
      modifies this`recentErrors
      ensures recentErrors == old(recentErrors)[message := KeepRecent(old(Recent(message)) + [now], now, WindowMs())]
      ensures b <==> |recentErrors[message]| >= config.autoClassifyThreshold
    {
      var recentCount := TrackRecentError(message, now);
      b := recentCount >= config.autoClassifyThreshold;
    }

    /** `cleanup`: drop every entry last seen before `now - olderThanDays` days,
        and return how many were dropped. */
    method Cleanup(olderThanDays: int, now: int) returns (removed: int)
      requires Valid()
      modifies this
      ensures Valid()
      ensures config == old(config) && recentErrors == old(recentErrors)
      ensures entries == Pruned(old(entries), Cutoff(now, olderThanDays))
      ensures order == FreshKeys(old(order), old(entries), Cutoff(now, olderThanDays))
      ensures removed == |old(order)| - |order| && removed >= 0
      ensures removed == 0 ==> order == old(order) && entries == old(entries) && metadata == old(metadata)
      ensures removed > 0 ==> metadata == old(metadata).(totalEntries := |order|, lastUpdated := now)
      ensures old(CountersConsistent()) ==> CountersConsistent()
    {
      var cutoff := Cutoff(now, olderThanDays);
      // Object.entries(...) is a snapshot of the keys and of the entries
      var snapshot, table := order, entries;
      var kept;
      kept, removed := Sweep(snapshot, table, cutoff);
      SweepOutcome(snapshot, table, cutoff);
      order := kept;
      if removed > 0 {
        metadata := metadata.(totalEntries := |order|);
        // saveData
        metadata := metadata.(lastUpdated := now);
      }
    }

    /** The loop of `cleanup`: deletes every stale entry of the snapshot `table` in place. */
    method Sweep(snapshot: seq<string>, table: map<string, Entry>, cutoff: int) returns (kept: seq<string>, removed: int)
      requires entries == table
      requires forall i :: 0 <= i < |snapshot| ==> snapshot[i] in table
      modifies this`entries
      ensures kept == FreshKeys(snapshot, table, cutoff)
      ensures removed == |snapshot| - |kept|
      ensures entries == table - StaleAmong(snapshot, table, cutoff)
    {
      kept := [];
      removed := 0;
      var i := 0;
      while i < |snapshot|
        invariant 0 <= i <= |snapshot|
        invariant kept == FreshKeys(snapshot[..i], table, cutoff)
        invariant removed == i - |kept|
        invariant entries == table - StaleAmong(snapshot[..i], table, cutoff)
      {
        var id := snapshot[i];
        var fp := table[id];
        assert snapshot[..i + 1] == snapshot[..i] + [id];
        if IsStale(fp, cutoff) {
          entries := entries - {id};
          removed := removed + 1;
        } else {
          kept := kept + [id];
        }
        i := i + 1;
      }
      assert snapshot[..i] == snapshot;
    }

    /** `getStats` at time `now`. */
    function GetStats(now: int): (s: Stats)
      reads this
      requires Valid()
      ensures s.total == |entries|
      ensures s.totalOccurrences == TotalOccurrences(ValuesOf(order, entries))
      ensures s.autoResolvable == |set k | k in entries && entries[k].autoResolve|
      ensures s.recent24h == |set k | k in entries && now - entries[k].lastSeen < DayMs|
      ensures s.critical == |set k | k in entries && entries[k].severity == "critical"|
      ensures s.high == |set k | k in entries && entries[k].severity == "high"|
      ensures s.medium == |set k | k in entries && entries[k].severity == "medium"|
      ensures s.low == |set k | k in entries && entries[k].severity == "low"|
      ensures s.critical + s.high + s.medium + s.low <= s.total
      ensures entries == map[] ==> s.mostFrequent == "none"
      ensures forall k :: IsFirstMax(ValuesOf(order, entries), k) ==> s.mostFrequent == OrDefault(entries[order[k]].id, "none")
    {
      TableSize(order, entries);
      KeyCounts(order, entries, now);
      SeverityKeys(order, entries, "critical");
      SeverityKeys(order, entries, "high");
      SeverityKeys(order, entries, "medium");
      SeverityKeys(order, entries, "low");
      StatsOf(ValuesOf(order, entries), now)
    }
  }

  /** The keys that the sweep of `cleanup` has found stale among those visited so far. */
  function StaleAmong(visited: seq<string>, table: map<string, Entry>, cutoff: int): set<string>
    requires forall i :: 0 <= i < |visited| ==> visited[i] in table
  {
    if visited == [] then {}
    else
      var last := visited[|visited| - 1];
      StaleAmong(visited[..|visited| - 1], table, cutoff) + (if IsStale(table[last], cutoff) then {last} else {})
  }

  lemma {:induction false} StaleAmongMembers(visited: seq<string>, table: map<string, Entry>, cutoff: int)
    requires forall i :: 0 <= i < |visited| ==> visited[i] in table
    ensures forall k :: k in StaleAmong(visited, table, cutoff) <==> k in visited && IsStale(table[k], cutoff)
  {
    if visited != [] {
      var init := visited[..|visited| - 1];
      StaleAmongMembers(init, table, cutoff);
      assert visited == init + [visited[|visited| - 1]];
      assert forall k :: k in visited <==> k in init || k == visited[|visited| - 1];
    }
  }

  /** What the sweep of `cleanup` leaves once it has visited every key: the
      pruned table, well formed, and the old table when nothing was stale. */
  lemma SweepOutcome(order: seq<string>, table: map<string, Entry>, cutoff: int)
    requires TableWellFormed(order, table)
    ensures table - StaleAmong(order, table, cutoff) == Pruned(table, cutoff)
    ensures TableWellFormed(FreshKeys(order, table, cutoff), Pruned(table, cutoff))
    ensures |FreshKeys(order, table, cutoff)| == |order| ==>
      FreshKeys(order, table, cutoff) == order && Pruned(table, cutoff) == table
  {
    assert table - StaleAmong(order, table, cutoff) == Pruned(table, cutoff) by {
      SweptIsPruned(order, table, cutoff);
    }
    assert TableWellFormed(FreshKeys(order, table, cutoff), Pruned(table, cutoff)) by {
      FreshKeysMembers(order, table, cutoff);
    }
    if |FreshKeys(order, table, cutoff)| == |order| {
      KeepAllFresh(order, table, cutoff);
      NothingStale(order, table, cutoff);
    }
  }

  /** A table none of whose keys is stale is left as it is by the sweep. */
  lemma NothingStale(order: seq<string>, table: map<string, Entry>, cutoff: int)
    requires TableWellFormed(order, table)
    requires forall i :: 0 <= i < |order| ==> !IsStale(table[order[i]], cutoff)
    ensures Pruned(table, cutoff) == table
  {
    forall k | k in table
      ensures !IsStale(table[k], cutoff)
    {
      var i :| 0 <= i < |order| && order[i] == k;
    }
  }

  /** Deleting the stale keys of a complete key order leaves exactly the fresh entries. */
  lemma SweptIsPruned(order: seq<string>, table: map<string, Entry>, cutoff: int)
    requires TableWellFormed(order, table)
    ensures table - StaleAmong(order, table, cutoff) == Pruned(table, cutoff)
  {
    StaleAmongMembers(order, table, cutoff);
  }

  /** When `cleanup` removes nothing, the key order is the old one and every entry survives. */
  lemma {:induction false} KeepAllFresh(order: seq<string>, entries: map<string, Entry>, cutoff: int)
    requires forall i :: 0 <= i < |order| ==> order[i] in entries
    requires |FreshKeys(order, entries, cutoff)| == |order|
    ensures FreshKeys(order, entries, cutoff) == order
    ensures forall i :: 0 <= i < |order| ==> !IsStale(entries[order[i]], cutoff)
  {
    if order != [] {
      var init := order[..|order| - 1];
      assert forall i :: 0 <= i < |init| ==> init[i] == order[i];
      var rest := FreshKeys(init, entries, cutoff);
      assert !IsStale(entries[order[|order| - 1]], cutoff);
      KeepAllFresh(init, entries, cutoff);
      assert order == init + [order[|order| - 1]];
    }
  }
}
