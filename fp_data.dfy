/**
 * Records and pure helpers of the false-positive registry
 * (agents/opsec/scripts/false-positive-manager.cjs).
 *
 * Times are integer milliseconds (what `Date.now()` and the ISO strings
 * stand for); the regular-expression engine is passed in as two functions,
 * `compiles(pattern)` and `matches(pattern, message)`.
 */
module FalsePositiveData {
  import opened Wrappers

  const MinuteMs: int := 60 * 1000
  const DayMs: int := 24 * 60 * 60 * 1000

  /** One occurrence in an entry's `history`. */
  datatype HistoryRecord = HistoryRecord(
    timestamp: int,
    reportedBy: string,
    context: string,
    resolved: bool,
    resolutionMethod: string)

  /** One known false positive, stored under its `id`. */
  datatype Entry = Entry(
    id: string,
    name: string,
    description: string,
    pattern: string,
    severity: string,
    autoResolve: bool,
    count: int,
    firstSeen: int,
    lastSeen: int,
    affectedProcesses: seq<string>,
    userTriggers: seq<string>,
    mitigation: string,
    notes: string,
    history: seq<HistoryRecord>)

  datatype Metadata = Metadata(created: int, lastUpdated: int, totalEntries: int, version: string)

  /** The `config` section once loaded. */
  datatype Settings = Settings(
    autoClassifyThreshold: int,
    maxHistoryEntries: int,
    cooldownMinutes: int,
    recentErrorsWindowMinutes: int)

  /** The `config` section as found in a data file written by an older version:
      the window may be missing (`None`). */
  datatype StoredSettings = StoredSettings(
    autoClassifyThreshold: int,
    maxHistoryEntries: int,
    cooldownMinutes: int,
    recentErrorsWindowMinutes: Option<int>)

  /** The contents of the data file: the `false_positives` object is its key
      order plus the entry under each key. */
  datatype StoredData = StoredData(order: seq<string>, entries: map<string, Entry>, metadata: Metadata, config: StoredSettings)

  /** The in-memory data after loading. */
  datatype Data = Data(order: seq<string>, entries: map<string, Entry>, metadata: Metadata, config: Settings)

  /** The options object of `add`; an empty string stands for an option that
      is absent or falsy. */
  datatype AddOptions = AddOptions(
    severity: string,
    autoResolve: bool,
    affectedProcesses: seq<string>,
    userTriggers: seq<string>,
    mitigation: string,
    notes: string,
    reportedBy: string,
    context: string,
    resolved: bool,
    resolutionMethod: string)

  // ---------------------------------------------------------------- the table

  predicate Distinct(s: seq<string>) {
    forall i, j :: 0 <= i < j < |s| ==> s[i] != s[j]
  }

  /** A JavaScript object used as a table: each key once, in `order`, and
      exactly the keys of `entries`. */
  predicate TableWellFormed(order: seq<string>, entries: map<string, Entry>) {
    Distinct(order) && (forall k :: k in entries ==> k in order) && (forall k :: k in order ==> k in entries)
  }

  /** `Object.keys(table).length` is the number of entries. */
  lemma {:induction false} TableSize(order: seq<string>, entries: map<string, Entry>)
    requires TableWellFormed(order, entries)
    ensures |entries| == |order|
  {
    if |order| == 0 {
      assert entries.Keys == {};
    } else {
      var last := order[|order| - 1];
      var smaller := entries - {last};
      DropLast(order, entries);
      TableSize(order[..|order| - 1], smaller);
      assert smaller.Keys == entries.Keys - {last};
    }
  }

  /** Removing the last key from the order and its entry from the table keeps the table well formed. */
  lemma DropLast(order: seq<string>, entries: map<string, Entry>)
    requires TableWellFormed(order, entries) && order != []
    ensures TableWellFormed(order[..|order| - 1], entries - {order[|order| - 1]})
  {
    var last := order[|order| - 1];
    var rest := order[..|order| - 1];
    var smaller := entries - {last};
    forall k
      ensures k in smaller <==> k in rest
    {
      if k in rest {
        var i :| 0 <= i < |rest| && rest[i] == k;
        assert order[i] == k && i < |order| - 1;
      }
      if k in smaller {
        var i :| 0 <= i < |order| && order[i] == k;
        assert i != |order| - 1;
        assert rest[i] == k;
      }
    }
  }

  /** `Object.values(table)`: the entries in key order. */
  function ValuesOf(order: seq<string>, entries: map<string, Entry>): (vs: seq<Entry>)
    requires forall i :: 0 <= i < |order| ==> order[i] in entries
    ensures |vs| == |order|
    ensures forall i :: 0 <= i < |order| ==> vs[i] == entries[order[i]]
  {
    seq(|order|, i requires 0 <= i < |order| => entries[order[i]])
  }

  // ---------------------------------------------------------------- loading

  /** The window after the migration step: a missing or zero window becomes 15 minutes. */
  function MigratedWindow(stored: Option<int>): int {
    match stored
    case None => 15
    case Some(w) => if w == 0 then 15 else w
  }

  /** `loadData`: the default record when there is no data file, otherwise the
      stored data with the window migrated. */
  function LoadData(stored: Option<StoredData>, now: int): (d: Data)
    ensures d.config.recentErrorsWindowMinutes != 0
    ensures stored.Some? && stored.value.config.recentErrorsWindowMinutes in {None, Some(0)} ==>
      d.config.recentErrorsWindowMinutes == 15
    ensures stored.None? ==>
      && d.order == [] && d.entries == map[]
      && d.metadata == Metadata(now, now, 0, "1.1")
      && d.config == Settings(3, 100, 15, 15)
    ensures stored.Some? ==>
      var s := stored.value;
      && d.order == s.order && d.entries == s.entries && d.metadata == s.metadata
      && d.config.autoClassifyThreshold == s.config.autoClassifyThreshold
      && d.config.maxHistoryEntries == s.config.maxHistoryEntries
      && d.config.cooldownMinutes == s.config.cooldownMinutes
      && (s.config.recentErrorsWindowMinutes.Some? && s.config.recentErrorsWindowMinutes.value != 0 ==>
            d.config.recentErrorsWindowMinutes == s.config.recentErrorsWindowMinutes.value)
  {
    match stored
    case None =>
      Data([], map[], Metadata(now, now, 0, "1.1"), Settings(3, 100, 15, 15))
    case Some(s) =>
      Data(s.order, s.entries, s.metadata,
           Settings(s.config.autoClassifyThreshold, s.config.maxHistoryEntries, s.config.cooldownMinutes,
                    MigratedWindow(s.config.recentErrorsWindowMinutes)))
  }

  // ---------------------------------------------------------------- validation

  predicate IsIdChar(c: char) {
    ('A' <= c <= 'Z') || ('0' <= c <= '9') || c == '-' || c == '_'
  }

  /** `_validateId`: one or more of `A`-`Z`, `0`-`9`, `-`, `_`. No valid id
      contains a lower-case letter. */
  function ValidId(id: string): (b: bool)
    ensures b ==> |id| > 0 && forall i :: 0 <= i < |id| ==> !('a' <= id[i] <= 'z')
  {
    |id| > 0 && forall i :: 0 <= i < |id| ==> IsIdChar(id[i])
  }

  /** The names a plain object inherits from `Object.prototype` are never valid ids,
      so `add` can never store an entry under one of them. */
  lemma PrototypeNamesRejected()
    ensures !ValidId("constructor") && !ValidId("toString") && !ValidId("__proto__")
    ensures !ValidId("hasOwnProperty") && !ValidId("valueOf")
  {
    assert "constructor"[0] == 'c';
    assert "toString"[0] == 't';
    assert "__proto__"[2] == 'p';
    assert "hasOwnProperty"[0] == 'h';
    assert "valueOf"[0] == 'v';
  }

  /** `_validatePattern`: non-empty and accepted by the regular-expression engine. */
  predicate ValidPattern(pattern: string, compiles: string -> bool) {
    pattern != "" && compiles(pattern)
  }

  // ---------------------------------------------------------------- add / increment

  /** `x || fallback` on a string. */
  function OrDefault(s: string, fallback: string): string {
    if s == "" then fallback else s
  }

  /** The record that a successful `add` stores. */
  function NewEntry(id: string, name: string, description: string, pattern: string, opts: AddOptions, now: int): (e: Entry)
    ensures e.id == id && e.name == name && e.description == description && e.pattern == pattern
    ensures e.count == 1 && e.firstSeen == now && e.lastSeen == now
    ensures e.severity != "" && (opts.severity == "" ==> e.severity == "medium")
    ensures |e.history| == 1 && e.history[0].timestamp == now
    ensures e.history[0].reportedBy != "" && (opts.reportedBy == "" ==> e.history[0].reportedBy == "manual")
    ensures opts.severity != "" ==> e.severity == opts.severity
    ensures opts.reportedBy != "" ==> e.history[0].reportedBy == opts.reportedBy
    ensures e.autoResolve == opts.autoResolve
    ensures e.affectedProcesses == opts.affectedProcesses && e.userTriggers == opts.userTriggers
    ensures e.mitigation == opts.mitigation && e.notes == opts.notes
    ensures e.history[0].context == opts.context && e.history[0].resolved == opts.resolved
    ensures opts.resolutionMethod == "" ==> e.history[0].resolutionMethod == "manual"
    ensures opts.resolutionMethod != "" ==> e.history[0].resolutionMethod == opts.resolutionMethod
  {
    Entry(id, name, description, pattern, OrDefault(opts.severity, "medium"), opts.autoResolve, 1, now, now,
          opts.affectedProcesses, opts.userTriggers, opts.mitigation, opts.notes,
          [HistoryRecord(now, OrDefault(opts.reportedBy, "manual"), opts.context, opts.resolved,
                         OrDefault(opts.resolutionMethod, "manual"))])
  }

  /** The history record that `increment` appends. */
  function AutoRecord(context: string, resolved: bool, resolutionMethod: string, now: int): HistoryRecord {
    HistoryRecord(now, "auto_detection", context, resolved, resolutionMethod)
  }

  function Min(a: int, b: int): int {
    if a <= b then a else b
  }

  /** JavaScript's `h.slice(-m)`: a negative start counts back from the end,
      and `-0` is the start 0. */
  function SliceFromEnd(h: seq<HistoryRecord>, m: int): (r: seq<HistoryRecord>)
    ensures m > 0 ==> r == h[|h| - Min(|h|, m)..]
    ensures m == 0 ==> r == h
    ensures m < 0 ==> r == h[Min(|h|, -m)..]
  {
    var start := -m;
    var from := if start < 0 then (if |h| + start < 0 then 0 else |h| + start)
                else (if start > |h| then |h| else start);
    h[from..]
  }

  /** The history size limit of `increment`. With a limit of at least one it
      keeps the newest `max` records in order; a limit of 0 keeps everything
      (`slice(-0)` is `slice(0)`). */
  function TrimHistory(h: seq<HistoryRecord>, max: int): (r: seq<HistoryRecord>)
    ensures max >= 1 ==> |r| == Min(|h|, max) && r == h[|h| - |r|..]
    ensures max == 0 ==> r == h
    ensures |h| <= max ==> r == h
  {
    if |h| > max then SliceFromEnd(h, max) else h
  }

  /** The entry after `increment`: one more occurrence, seen at the record's
      time, the record appended to the trimmed history, nothing else changed. */
  function Incremented(e: Entry, rec: HistoryRecord, maxHistory: int): (r: Entry)
    ensures r.count == e.count + 1 && r.lastSeen == rec.timestamp
    ensures r.(count := e.count, lastSeen := e.lastSeen, history := e.history) == e
    ensures |r.history| <= |e.history| + 1
    ensures maxHistory >= 1 ==>
      && |r.history| == Min(|e.history| + 1, maxHistory)
      && 1 <= |r.history| <= maxHistory
      && r.history[|r.history| - 1] == rec
      && r.history == (e.history + [rec])[|e.history| + 1 - |r.history|..]
    ensures maxHistory == 0 ==> r.history == e.history + [rec]
  {
    e.(count := e.count + 1, lastSeen := rec.timestamp, history := TrimHistory(e.history + [rec], maxHistory))
  }

  // ---------------------------------------------------------------- matching

  /** The process filter of `checkMatch`. */
  predicate ProcessFilterPasses(e: Entry, processName: string) {
    |e.affectedProcesses| == 0 || processName == "" || processName in e.affectedProcesses
  }

  /** The entry is a hit for `message` from `processName`: its pattern compiles,
      matches, and the process filter lets it through. */
  predicate Selects(e: Entry, message: string, processName: string,
                    compiles: string -> bool, matches: (string, string) -> bool)
  {
    compiles(e.pattern) && matches(e.pattern, message) && ProcessFilterPasses(e, processName)
  }

  // ---------------------------------------------------------------- recent errors

  /** `timestamps.filter(t => now - t < window)`. */
  function KeepRecent(ts: seq<int>, now: int, window: int): (r: seq<int>)
    ensures |r| <= |ts|
    ensures forall t :: t in r <==> t in ts && now - t < window
    ensures forall t :: multiset(r)[t] == if now - t < window then multiset(ts)[t] else 0
  {
    if ts == [] then []
    else assert ts == [ts[0]] + ts[1..]; (if now - ts[0] < window then [ts[0]] else []) + KeepRecent(ts[1..], now, window)
  }

  /** Filtering distributes over concatenation, so it keeps the order of the survivors. */
  lemma {:induction false} KeepRecentAppend(xs: seq<int>, ys: seq<int>, now: int, window: int)
    ensures KeepRecent(xs + ys, now, window) == KeepRecent(xs, now, window) + KeepRecent(ys, now, window)
  {
    if xs == [] {
      assert xs + ys == ys;
    } else {
      assert (xs + ys)[0] == xs[0];
      assert (xs + ys)[1..] == xs[1..] + ys;
      KeepRecentAppend(xs[1..], ys, now, window);
    }
  }

  /** The window after recording a new error at `now`: with a positive window
      it is the surviving old timestamps followed by `now`, so it is never empty. */
  lemma NewestSurvives(prior: seq<int>, now: int, window: int)
    requires window > 0
    ensures KeepRecent(prior + [now], now, window) == KeepRecent(prior, now, window) + [now]
    ensures |KeepRecent(prior + [now], now, window)| >= 1
  {
    KeepRecentAppend(prior, [now], now, window);
  }

  // ---------------------------------------------------------------- cleanup

  /** The `cleanup` cutoff: `olderThanDays` days before `now`. */
  function Cutoff(now: int, olderThanDays: int): int {
    now - olderThanDays * DayMs
  }

  predicate IsStale(e: Entry, cutoff: int) {
    e.lastSeen < cutoff
  }

  /** The keys of `order` whose entries survive `cleanup`, in order. */
  function FreshKeys(order: seq<string>, entries: map<string, Entry>, cutoff: int): (r: seq<string>)
    requires forall i :: 0 <= i < |order| ==> order[i] in entries
    ensures |r| <= |order|
  {
    if order == [] then []
    else
      var last := order[|order| - 1];
      var rest := FreshKeys(order[..|order| - 1], entries, cutoff);
      if IsStale(entries[last], cutoff) then rest else rest + [last]
  }

  /** The surviving keys are exactly the keys whose entries are not stale,
      each once when the keys were distinct. */
  lemma {:induction false} FreshKeysMembers(order: seq<string>, entries: map<string, Entry>, cutoff: int)
    requires forall i :: 0 <= i < |order| ==> order[i] in entries
    ensures forall k :: k in FreshKeys(order, entries, cutoff) <==> k in order && !IsStale(entries[k], cutoff)
    ensures Distinct(order) ==> Distinct(FreshKeys(order, entries, cutoff))
  {
    if order != [] {
      var init := order[..|order| - 1];
      var last := order[|order| - 1];
      FreshKeysMembers(init, entries, cutoff);
      assert order == init + [last];
      assert forall k :: k in order <==> k in init || k == last;
      if Distinct(order) {
        assert Distinct(init);
        assert last !in init;
      }
    }
  }

  /** The table after `cleanup`: the entries that are not stale, unchanged. */
  function Pruned(entries: map<string, Entry>, cutoff: int): (m: map<string, Entry>)
    ensures forall k :: k in m <==> k in entries && !IsStale(entries[k], cutoff)
    ensures forall k :: k in m ==> m[k] == entries[k]
  {
    map k | k in entries && !IsStale(entries[k], cutoff) :: entries[k]
  }

  // ---------------------------------------------------------------- statistics

  /** `fps.filter(p).length`. */
  function CountWhere(fps: seq<Entry>, p: Entry -> bool): (n: nat)
    ensures n <= |fps|
    ensures n == |fps| <==> forall i :: 0 <= i < |fps| ==> p(fps[i])
  {
    if fps == [] then 0
    else CountWhere(fps[..|fps| - 1], p) + (if p(fps[|fps| - 1]) then 1 else 0)
  }

  /** The positions whose entries satisfy `p`. */
  function IndicesWhere(fps: seq<Entry>, p: Entry -> bool): set<int> {
    set i | 0 <= i < |fps| && p(fps[i])
  }

  /** The filter's length is the number of positions whose entries satisfy `p`. */
  lemma {:induction false} CountWhereIndices(fps: seq<Entry>, p: Entry -> bool)
    ensures CountWhere(fps, p) == |IndicesWhere(fps, p)|
  {
    if fps != [] {
      var init := fps[..|fps| - 1];
      var last := |fps| - 1;
      CountWhereIndices(init, p);
      assert IndicesWhere(fps, p) == IndicesWhere(init, p) + (if p(fps[last]) then {last} else {});
    }
  }

  /** The filters of `getStats`. */
  const AutoResolvable: Entry -> bool := (e: Entry) => e.autoResolve

  function RecentAt(now: int): Entry -> bool {
    (e: Entry) => now - e.lastSeen < DayMs
  }

  function SeverityIs(level: string): Entry -> bool {
    (e: Entry) => e.severity == level
  }

  /** The counts of `getStats`, as numbers of positions of `fps`. */
  lemma PositionCounts(fps: seq<Entry>, now: int)
    ensures CountWhere(fps, AutoResolvable) == |set i | 0 <= i < |fps| && fps[i].autoResolve|
    ensures CountWhere(fps, RecentAt(now)) == |set i | 0 <= i < |fps| && now - fps[i].lastSeen < DayMs|
  {
    CountWhereIndices(fps, AutoResolvable);
    assert IndicesWhere(fps, AutoResolvable) == set i | 0 <= i < |fps| && fps[i].autoResolve;
    CountWhereIndices(fps, RecentAt(now));
    assert IndicesWhere(fps, RecentAt(now)) == set i | 0 <= i < |fps| && now - fps[i].lastSeen < DayMs;
  }

  /** A severity bucket of `getStats`, as a number of positions of `fps`. */
  lemma SeverityPositions(fps: seq<Entry>, level: string)
    ensures CountWhere(fps, SeverityIs(level)) == |set i | 0 <= i < |fps| && fps[i].severity == level|
  {
    CountWhereIndices(fps, SeverityIs(level));
    assert IndicesWhere(fps, SeverityIs(level)) == set i | 0 <= i < |fps| && fps[i].severity == level;
  }

  /** `Object.values` of a table without its last key is `Object.values` of the table without its last value. */
  lemma ValuesOfDropLast(order: seq<string>, entries: map<string, Entry>)
    requires TableWellFormed(order, entries) && order != []
    ensures var n := |order| - 1;
      ValuesOf(order, entries) == ValuesOf(order[..n], entries - {order[n]}) + [entries[order[n]]]
  {
    var n := |order| - 1;
    var vs := ValuesOf(order, entries);
    var ws := ValuesOf(order[..n], entries - {order[n]});
    forall i | 0 <= i < n
      ensures vs[i] == ws[i]
    {
      assert order[i] != order[n];
    }
  }

  /** The keys whose entries satisfy `p`. */
  function KeysWhere(entries: map<string, Entry>, p: Entry -> bool): set<string> {
    set k | k in entries && p(entries[k])
  }

  /** Removing one key removes it, and only it, from the keys satisfying `p`. */
  lemma KeysWhereDropKey(entries: map<string, Entry>, key: string, p: Entry -> bool)
    requires key in entries
    ensures |KeysWhere(entries, p)| == |KeysWhere(entries - {key}, p)| + (if p(entries[key]) then 1 else 0)
  {
    var ks := KeysWhere(entries - {key}, p);
    assert key !in ks;
    assert KeysWhere(entries, p) == ks + (if p(entries[key]) then {key} else {});
  }

  /** Counting the values of a table that satisfy `p` is counting the keys whose entries do. */
  lemma {:induction false} KeyCount(order: seq<string>, entries: map<string, Entry>, p: Entry -> bool)
    requires TableWellFormed(order, entries)
    ensures CountWhere(ValuesOf(order, entries), p) == |KeysWhere(entries, p)|
  {
    if order == [] {
      assert KeysWhere(entries, p) == {};
    } else {
      var n := |order| - 1;
      var last := order[n];
      var rest := entries - {last};
      DropLast(order, entries);
      KeyCount(order[..n], rest, p);
      ValuesOfDropLast(order, entries);
      KeysWhereDropKey(entries, last, p);
    }
  }

  /** The counts of `getStats`, as numbers of keys of the table. */
  lemma KeyCounts(order: seq<string>, entries: map<string, Entry>, now: int)
    requires TableWellFormed(order, entries)
    ensures CountWhere(ValuesOf(order, entries), AutoResolvable) == |set k | k in entries && entries[k].autoResolve|
    ensures CountWhere(ValuesOf(order, entries), RecentAt(now))
         == |set k | k in entries && now - entries[k].lastSeen < DayMs|
  {
    KeyCount(order, entries, AutoResolvable);
    assert KeysWhere(entries, AutoResolvable) == set k | k in entries && entries[k].autoResolve;
    KeyCount(order, entries, RecentAt(now));
    assert KeysWhere(entries, RecentAt(now)) == set k | k in entries && now - entries[k].lastSeen < DayMs;
  }

  /** A severity bucket of `getStats`, as a number of keys of the table. */
  lemma SeverityKeys(order: seq<string>, entries: map<string, Entry>, level: string)
    requires TableWellFormed(order, entries)
    ensures CountWhere(ValuesOf(order, entries), SeverityIs(level)) == |set k | k in entries && entries[k].severity == level|
  {
    KeyCount(order, entries, SeverityIs(level));
    assert KeysWhere(entries, SeverityIs(level)) == set k | k in entries && entries[k].severity == level;
  }

  /** `fps.reduce((sum, fp) => sum + fp.count, 0)`. */
  function TotalOccurrences(fps: seq<Entry>): (n: int)
    ensures (forall i :: 0 <= i < |fps| ==> fps[i].count >= 1) ==> n >= |fps|
  {
    if fps == [] then 0 else fps[0].count + TotalOccurrences(fps[1..])
  }

  /** The sum over a concatenation is the sum of the sums. */
  lemma {:induction false} TotalOccurrencesAppend(xs: seq<Entry>, ys: seq<Entry>)
    ensures TotalOccurrences(xs + ys) == TotalOccurrences(xs) + TotalOccurrences(ys)
  {
    if xs == [] {
      assert xs + ys == ys;
    } else {
      assert (xs + ys)[1..] == xs[1..] + ys;
      TotalOccurrencesAppend(xs[1..], ys);
    }
  }

  /** Recording one more occurrence of one entry adds exactly one to the total. */
  lemma {:induction false} OneMoreOccurrence(fps: seq<Entry>, i: int, e: Entry)
    requires 0 <= i < |fps| && e.count == fps[i].count + 1
    ensures TotalOccurrences(fps[i := e]) == TotalOccurrences(fps) + 1
  {
    if i > 0 {
      assert fps[i := e][1..] == fps[1..][i - 1 := e];
      OneMoreOccurrence(fps[1..], i - 1, e);
    }
  }

  /** `increment` of one key adds exactly one to the `total_occurrences` of the table. */
  lemma IncrementAddsOccurrence(order: seq<string>, entries: map<string, Entry>, id: string, e: Entry)
    requires TableWellFormed(order, entries) && id in entries && e.count == entries[id].count + 1
    ensures TotalOccurrences(ValuesOf(order, entries[id := e])) == TotalOccurrences(ValuesOf(order, entries)) + 1
  {
    var i :| 0 <= i < |order| && order[i] == id;
    var vs := ValuesOf(order, entries);
    assert ValuesOf(order, entries[id := e]) == vs[i := e];
    OneMoreOccurrence(vs, i, e);
  }

  /** `k` is the first position, in table order, holding the largest count:
      the head of a stable sort by descending count. */
  predicate IsFirstMax(fps: seq<Entry>, k: int) {
    && 0 <= k < |fps|
    && (forall j :: 0 <= j < |fps| ==> fps[j].count <= fps[k].count)
    && (forall j :: 0 <= j < k ==> fps[j].count < fps[k].count)
  }

  /** At most one position is the first with the largest count. */
  lemma FirstMaxUnique(fps: seq<Entry>, a: int, b: int)
    requires IsFirstMax(fps, a) && IsFirstMax(fps, b)
    ensures a == b
  {
    var countA, countB := fps[a].count, fps[b].count;
  }

  function FirstMaxIndex(fps: seq<Entry>): (k: nat)
    requires |fps| > 0
    ensures IsFirstMax(fps, k)
  {
    if |fps| == 1 then 0
    else
      var k := FirstMaxIndex(fps[..|fps| - 1]);
      if fps[|fps| - 1].count > fps[k].count then |fps| - 1 else k
  }

  /** `most_frequent`: the id of the first entry with the largest count, "none" for an empty table or an empty id. */
  function MostFrequent(fps: seq<Entry>): (id: string)
    ensures fps == [] ==> id == "none"
    ensures forall k :: IsFirstMax(fps, k) ==> id == OrDefault(fps[k].id, "none")
  {
    if fps == [] then "none"
    else
      var k := FirstMaxIndex(fps);
      assert forall j :: IsFirstMax(fps, j) ==> j == k;
      OrDefault(fps[k].id, "none")
  }

  /** The four severity buckets are disjoint, so together they count at most every entry. */
  lemma {:induction false} SeverityBucketsBounded(fps: seq<Entry>)
    ensures CountWhere(fps, SeverityIs("critical")) + CountWhere(fps, SeverityIs("high"))
          + CountWhere(fps, SeverityIs("medium")) + CountWhere(fps, SeverityIs("low")) <= |fps|
  {
    if fps != [] {
      SeverityBucketsBounded(fps[..|fps| - 1]);
    }
  }

  datatype Stats = Stats(
    total: int,
    totalOccurrences: int,
    mostFrequent: string,
    autoResolvable: int,
    recent24h: int,
    critical: int,
    high: int,
    medium: int,
    low: int)

  /** `getStats` over `Object.values(table)` at time `now`. */
  function StatsOf(fps: seq<Entry>, now: int): (s: Stats)
    ensures s.total == |fps|
    ensures s.totalOccurrences == TotalOccurrences(fps)
    ensures s.autoResolvable == |set i | 0 <= i < |fps| && fps[i].autoResolve|
    ensures s.recent24h == |set i | 0 <= i < |fps| && now - fps[i].lastSeen < DayMs|
    ensures s.critical == |set i | 0 <= i < |fps| && fps[i].severity == "critical"|
    ensures s.high == |set i | 0 <= i < |fps| && fps[i].severity == "high"|
    ensures s.medium == |set i | 0 <= i < |fps| && fps[i].severity == "medium"|
    ensures s.low == |set i | 0 <= i < |fps| && fps[i].severity == "low"|
    ensures 0 <= s.autoResolvable <= s.total && 0 <= s.recent24h <= s.total
    ensures s.critical + s.high + s.medium + s.low <= s.total
    ensures (forall i :: 0 <= i < |fps| ==> fps[i].count >= 1) ==> s.totalOccurrences >= s.total
    ensures fps == [] ==> s.mostFrequent == "none"
    ensures forall k :: IsFirstMax(fps, k) ==> s.mostFrequent == OrDefault(fps[k].id, "none")
  {
    SeverityBucketsBounded(fps);
    PositionCounts(fps, now);
    SeverityPositions(fps, "critical");
    SeverityPositions(fps, "high");
    SeverityPositions(fps, "medium");
    SeverityPositions(fps, "low");
    Stats(
      |fps|,
      TotalOccurrences(fps),
      MostFrequent(fps),
      CountWhere(fps, AutoResolvable),
      CountWhere(fps, RecentAt(now)),
      CountWhere(fps, SeverityIs("critical")),
      CountWhere(fps, SeverityIs("high")),
      CountWhere(fps, SeverityIs("medium")),
      CountWhere(fps, SeverityIs("low")))
  }
}
