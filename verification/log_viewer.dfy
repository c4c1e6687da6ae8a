/** The dashboard's log viewer: a summary of the recent entries of every
    registered logger (counts by level and by module, the newest critical and
    error entries) and the newest entries, filtered or not, across loggers.
    The entries each logger's file yields are inputs here. */
module LogViewer {
  import opened Collections
  import opened StructuredLogging

  /** `sort(key=lambda x: x.timestamp, reverse=True)` is the stable ascending
      sort on the negated timestamp: newest first, ties in their original order. */
  function NegTime(e: LogEntry): real { -(e.timestamp as real) }

  /** Timestamps never increase along s. */
  predicate IsNewestFirst(s: seq<LogEntry>)
  {
    forall i, j :: 0 <= i < j < |s| ==> s[i].timestamp >= s[j].timestamp
  }

  function NewestFirst(entries: seq<LogEntry>): (r: seq<LogEntry>)
    ensures SortedBy(r, NegTime) && multiset(r) == multiset(entries) && |r| == |entries|
    ensures IsNewestFirst(r)
  {
    var r := SortBy(entries, NegTime);
    assert forall i, j :: 0 <= i < j < |r| ==> NegTime(r[i]) <= NegTime(r[j]);
    r
  }

  function LevelOf(e: LogEntry): string { e.level }
  function ModuleOf(e: LogEntry): string { e.moduleName }

  /** The field f of every entry, in order. */
  function Project(s: seq<LogEntry>, f: LogEntry -> string): (r: seq<string>)
    ensures |r| == |s|
  {
    if s == [] then [] else Project(s[..|s| - 1], f) + [f(s[|s| - 1])]
  }

  lemma {:induction false} ProjectConcat(a: seq<LogEntry>, b: seq<LogEntry>, f: LogEntry -> string)
    ensures Project(a + b, f) == Project(a, f) + Project(b, f)
  {
    if b == [] {
      assert a + b == a;
    } else {
      var n := |b| - 1;
      assert (a + b)[..|a + b| - 1] == a + b[..n];
      ProjectConcat(a, b[..n], f);
    }
  }

  /** How often each value of a field occurs does not depend on the order of the entries. */
  lemma {:induction false} ProjectPermutation(s: seq<LogEntry>, t: seq<LogEntry>, f: LogEntry -> string)
    requires multiset(s) == multiset(t)
    ensures multiset(Project(s, f)) == multiset(Project(t, f))
    decreases |s|
  {
    if s == [] {
      assert |t| == |multiset(t)| == 0;
    } else {
      var n := |s| - 1;
      var x := s[n];
      var j := PermutationRemove(s, t);
      var a, b := t[..j], t[j + 1..];
      assert t == a + [x] + b;
      ProjectPermutation(s[..n], a + b, f);
      ProjectSplit(a, x, b, f);
    }
  }

  /** Taking x out of a sequence takes its field value out of the projection. */
  lemma ProjectSplit(a: seq<LogEntry>, x: LogEntry, b: seq<LogEntry>, f: LogEntry -> string)
    ensures multiset(Project(a + [x] + b, f)) == multiset(Project(a + b, f)) + multiset{f(x)}
  {
    ProjectConcat(a + [x], b, f);
    ProjectConcat(a, [x], f);
    ProjectConcat(a, b, f);
    assert [x][..0] == [];
  }

  // ---------------------------------------------------------------------------
  // Counters
  // ---------------------------------------------------------------------------

  /** A dictionary of counters in insertion order. */
  type Tally = seq<(string, nat)>

  /** `d[k] = d.get(k, 0) + 1`. */
  function Bump(t: Tally, k: string): (r: Tally)
    ensures |r| == |t| || r == t + [(k, 1)]
  {
    if t == [] then [(k, 1)]
    else if t[0].0 == k then [(k, t[0].1 + 1)] + t[1..]
    else [t[0]] + Bump(t[1..], k)
  }

  /** The counters of a sequence of keys, counted in order. */
  function TallyOf(keys: seq<string>): Tally
  {
    if keys == [] then [] else Bump(TallyOf(keys[..|keys| - 1]), keys[|keys| - 1])
  }

  /** The sum of all counters. */
  function Total(t: Tally): nat
  {
    if t == [] then 0 else t[0].1 + Total(t[1..])
  }

  /** `d.get(k, 0)`. */
  function CountOf(t: Tally, k: string): nat
  {
    if t == [] then 0 else if t[0].0 == k then t[0].1 else CountOf(t[1..], k)
  }

  function Keys(t: Tally): set<string>
  {
    if t == [] then {} else {t[0].0} + Keys(t[1..])
  }

  /** No key has two counters, as in a dictionary. */
  predicate DistinctKeys(t: Tally)
  {
    t == [] || (t[0].0 !in Keys(t[1..]) && DistinctKeys(t[1..]))
  }

  lemma {:induction false} BumpTotal(t: Tally, k: string)
    ensures Total(Bump(t, k)) == Total(t) + 1
  {
    if t != [] && t[0].0 != k {
      BumpTotal(t[1..], k);
      assert Bump(t, k)[1..] == Bump(t[1..], k);
    } else if t != [] {
      assert Bump(t, k)[1..] == t[1..];
    }
  }

  lemma {:induction false} BumpCount(t: Tally, k: string, k': string)
    ensures CountOf(Bump(t, k), k') == CountOf(t, k') + (if k' == k then 1 else 0)
  {
    if t != [] && t[0].0 != k {
      BumpCount(t[1..], k, k');
      assert Bump(t, k)[1..] == Bump(t[1..], k);
    } else if t != [] {
      assert Bump(t, k)[1..] == t[1..];
    }
  }

  lemma {:induction false} BumpKeys(t: Tally, k: string)
    ensures Keys(Bump(t, k)) == Keys(t) + {k}
    ensures DistinctKeys(t) ==> DistinctKeys(Bump(t, k))
  {
    if t != [] && t[0].0 != k {
      BumpKeys(t[1..], k);
      assert Bump(t, k)[1..] == Bump(t[1..], k);
    } else if t != [] {
      assert Bump(t, k)[1..] == t[1..];
    }
  }

  /** The counters of a key sequence have distinct keys, sum to its length
      and give each key its number of occurrences. */
  lemma {:induction false} TallySpec(keys: seq<string>)
    ensures DistinctKeys(TallyOf(keys))
    ensures Total(TallyOf(keys)) == |keys|
    ensures forall k :: CountOf(TallyOf(keys), k) == multiset(keys)[k]
  {
    if keys != [] {
      var n := |keys| - 1;
      TallySpec(keys[..n]);
      BumpTotal(TallyOf(keys[..n]), keys[n]);
      BumpKeys(TallyOf(keys[..n]), keys[n]);
      forall k ensures CountOf(TallyOf(keys), k) == multiset(keys)[k] {
        TallyCountStep(keys, k);
      }
    }
  }

  lemma TallyCountStep(keys: seq<string>, k: string)
    requires keys != []
    requires CountOf(TallyOf(keys[..|keys| - 1]), k) == multiset(keys[..|keys| - 1])[k]
    ensures CountOf(TallyOf(keys), k) == multiset(keys)[k]
  {
    var n := |keys| - 1;
    BumpCount(TallyOf(keys[..n]), keys[n], k);
    assert keys == keys[..n] + [keys[n]];
  }

  // ---------------------------------------------------------------------------
  // get_log_summary
  // ---------------------------------------------------------------------------

  /** The entries of one level, in order. */
  function OfLevel(s: seq<LogEntry>, level: string): (r: seq<LogEntry>)
    ensures forall e :: e in r ==> e in s && e.level == level
    ensures |r| <= |s|
  {
    if s == [] then []
    else
      var prefix := OfLevel(s[..|s| - 1], level);
      assert forall e :: e in s[..|s| - 1] ==> e in s;
      if s[|s| - 1].level == level then prefix + [s[|s| - 1]] else prefix
  }

  /** The first ten at most: what appending while the list is shorter than 10 keeps. */
  function FirstTen(s: seq<LogEntry>): (r: seq<LogEntry>)
    ensures |r| == MinInt(|s|, 10) && r == s[..|r|]
  {
    if |s| <= 10 then s else s[..10]
  }

  datatype Summary = Summary(
    totalEntries: nat,
    byLevel: Tally,
    byModule: Tally,
    recentCritical: seq<LogEntry>,
    recentErrors: seq<LogEntry>)

  /** The summary of the gathered entries, as get_log_summary computes it after
      sorting them newest first. */
  function SummaryOf(allEntries: seq<LogEntry>): (r: Summary)
    ensures r.totalEntries == |allEntries|
    ensures |r.recentCritical| <= 10 && |r.recentErrors| <= 10
  {
    var sorted := NewestFirst(allEntries);
    Summary(|sorted|, TallyOf(Project(sorted, LevelOf)), TallyOf(Project(sorted, ModuleOf)),
            FirstTen(OfLevel(sorted, "CRITICAL")), FirstTen(OfLevel(sorted, "ERROR")))
  }

  /** Counting one more entry bumps its counter. */
  lemma TallyPrefixStep(s: seq<LogEntry>, i: nat, f: LogEntry -> string)
    requires i < |s|
    ensures TallyOf(Project(s[..i + 1], f)) == Bump(TallyOf(Project(s[..i], f)), f(s[i]))
  {
    assert s[..i + 1][..i] == s[..i];
    var keys := Project(s[..i + 1], f);
    assert keys == Project(s[..i], f) + [f(s[i])];
    assert keys[..i] == Project(s[..i], f);
  }

  /** Looking at one more entry appends it to its level's list while that list is shorter than ten. */
  lemma FirstTenStep(s: seq<LogEntry>, i: nat, level: string)
    requires i < |s|
    ensures var before := FirstTen(OfLevel(s[..i], level));
      FirstTen(OfLevel(s[..i + 1], level))
      == if s[i].level == level && |before| < 10 then before + [s[i]] else before
  {
    assert s[..i + 1][..i] == s[..i];
    var p := OfLevel(s[..i], level);
    if s[i].level == level && |p| >= 10 {
      assert (p + [s[i]])[..10] == p[..10];
    }
  }

  /** get_log_summary over the entries gathered from every registered
      logger: sort newest first, then count by level and by module and keep up
      to ten critical and ten error entries. */
  method GetLogSummary(allEntries: seq<LogEntry>) returns (summary: Summary)
    ensures summary == SummaryOf(allEntries)
  {
    var sorted := NewestFirst(allEntries);
    var byLevel: Tally := [];
    var byModule: Tally := [];
    var recentCritical: seq<LogEntry> := [];
    var recentErrors: seq<LogEntry> := [];
    for i := 0 to |sorted|
      invariant byLevel == TallyOf(Project(sorted[..i], LevelOf))
      invariant byModule == TallyOf(Project(sorted[..i], ModuleOf))
      invariant recentCritical == FirstTen(OfLevel(sorted[..i], "CRITICAL"))
      invariant recentErrors == FirstTen(OfLevel(sorted[..i], "ERROR"))
    {
      var entry := sorted[i];
      TallyPrefixStep(sorted, i, LevelOf);
      TallyPrefixStep(sorted, i, ModuleOf);
      FirstTenStep(sorted, i, "CRITICAL");
      FirstTenStep(sorted, i, "ERROR");
      byLevel := Bump(byLevel, entry.level);
      byModule := Bump(byModule, entry.moduleName);
      if entry.level == "CRITICAL" {
        if |recentCritical| < 10 {
          recentCritical := recentCritical + [entry];
        }
      }
      if entry.level == "ERROR" {
        if |recentErrors| < 10 {
          recentErrors := recentErrors + [entry];
        }
      }
    }
    assert sorted[..|sorted|] == sorted;
    summary := Summary(|sorted|, byLevel, byModule, recentCritical, recentErrors);
  }

  /** total_entries is the number of gathered entries; the level counters and
      the module counters each sum to it, have one counter per key, and count
      every level and every module exactly as often as it occurs. */
  lemma SummaryCounts(allEntries: seq<LogEntry>)
    ensures var s := SummaryOf(allEntries);
      && s.totalEntries == |allEntries|
      && Total(s.byLevel) == s.totalEntries && Total(s.byModule) == s.totalEntries
      && DistinctKeys(s.byLevel) && DistinctKeys(s.byModule)
      && (forall k :: CountOf(s.byLevel, k) == multiset(Project(allEntries, LevelOf))[k])
      && (forall k :: CountOf(s.byModule, k) == multiset(Project(allEntries, ModuleOf))[k])
  {
    var sorted := NewestFirst(allEntries);
    TallySpec(Project(sorted, LevelOf));
    TallySpec(Project(sorted, ModuleOf));
    ProjectPermutation(sorted, allEntries, LevelOf);
    ProjectPermutation(sorted, allEntries, ModuleOf);
  }

  /** The entries of one level in a newest-first list are newest first too. */
  lemma {:induction false} OfLevelNewestFirst(s: seq<LogEntry>, level: string)
    requires IsNewestFirst(s)
    ensures IsNewestFirst(OfLevel(s, level))
  {
    if s != [] {
      var n := |s| - 1;
      var prefix := s[..n];
      OfLevelNewestFirst(prefix, level);
      var p := OfLevel(prefix, level);
      forall i | 0 <= i < |p|
        ensures p[i].timestamp >= s[n].timestamp
      {
        assert p[i] in prefix;
        var k :| 0 <= k < n && prefix[k] == p[i];
        assert s[k] == p[i];
      }
      var r := OfLevel(s, level);
      assert r == p + (if s[n].level == level then [s[n]] else []);
      forall i, j | 0 <= i < j < |r|
        ensures r[i].timestamp >= r[j].timestamp
      {
        if j < |p| {
          assert r[i] == p[i] && r[j] == p[j];
        } else {
          assert r[i] == p[i] && r[j] == s[n];
        }
      }
    }
  }

  /** The number of entries of one level is that level's number of occurrences. */
  lemma {:induction false} OfLevelCount(s: seq<LogEntry>, level: string)
    ensures |OfLevel(s, level)| == multiset(Project(s, LevelOf))[level]
  {
    if s != [] {
      var n := |s| - 1;
      OfLevelCount(s[..n], level);
      assert s == s[..n] + [s[n]];
      ProjectConcat(s[..n], [s[n]], LevelOf);
    }
  }

  /** Every copy of an entry of the level survives the filter. */
  lemma {:induction false} OfLevelMultiplicity(s: seq<LogEntry>, level: string, e: LogEntry)
    requires e.level == level
    ensures multiset(OfLevel(s, level))[e] == multiset(s)[e]
  {
    if s != [] {
      var n := |s| - 1;
      OfLevelMultiplicity(s[..n], level, e);
      assert s == s[..n] + [s[n]];
    }
  }

  /** `recent` holds the newest entries of the level in `all`: whenever some
      copy of an entry of that level was left out, every kept entry is at
      least as new as it. */
  predicate NewestOfLevel(recent: seq<LogEntry>, all: seq<LogEntry>, level: string)
  {
    forall e, x :: e in all && e.level == level && x in recent && multiset(recent)[e] < multiset(all)[e] ==>
      x.timestamp >= e.timestamp
  }

  /** A copy missing from a prefix sits after it. */
  lemma MissingFromPrefix(s: seq<LogEntry>, k: nat, e: LogEntry) returns (p: nat)
    requires k <= |s| && multiset(s[..k])[e] < multiset(s)[e]
    ensures k <= p < |s| && s[p] == e
  {
    assert s == s[..k] + s[k..];
    assert e in multiset(s[k..]);
    var i :| 0 <= i < |s| - k && s[k..][i] == e;
    p := k + i;
  }

  /** A prefix of a newest-first list that holds every copy of the level's
      entries keeps the newest of them. */
  lemma PrefixIsNewest(ofLevel: seq<LogEntry>, k: nat, all: seq<LogEntry>, level: string)
    requires k <= |ofLevel| && IsNewestFirst(ofLevel)
    requires forall e: LogEntry :: e.level == level ==> multiset(ofLevel)[e] == multiset(all)[e]
    ensures NewestOfLevel(ofLevel[..k], all, level)
  {
    var recent := ofLevel[..k];
    forall e, x | e in all && e.level == level && x in recent && multiset(recent)[e] < multiset(all)[e]
      ensures x.timestamp >= e.timestamp
    {
      var p := MissingFromPrefix(ofLevel, k, e);
      var q :| 0 <= q < k && recent[q] == x;
      assert ofLevel[q] == x;
    }
  }

  /** The first ten entries of one level, in newest-first order, are the newest of that level. */
  lemma RecentIsNewest(allEntries: seq<LogEntry>, level: string)
    ensures NewestOfLevel(FirstTen(OfLevel(NewestFirst(allEntries), level)), allEntries, level)
  {
    var sorted := NewestFirst(allEntries);
    var ofLevel := OfLevel(sorted, level);
    OfLevelNewestFirst(sorted, level);
    forall e: LogEntry | e.level == level ensures multiset(ofLevel)[e] == multiset(allEntries)[e] {
      OfLevelMultiplicity(sorted, level, e);
    }
    PrefixIsNewest(ofLevel, |FirstTen(ofLevel)|, allEntries, level);
  }

  /** The first ten entries of one level, in newest-first order, are at most
      ten entries of that level taken from the gathered ones, newest first,
      as many as there are of that level up to ten, and the newest of them. */
  lemma RecentOfLevel(allEntries: seq<LogEntry>, level: string)
    ensures var recent := FirstTen(OfLevel(NewestFirst(allEntries), level));
      && |recent| == MinInt(multiset(Project(allEntries, LevelOf))[level], 10)
      && (forall e :: e in recent ==> e in allEntries && e.level == level)
      && IsNewestFirst(recent)
      && NewestOfLevel(recent, allEntries, level)
  {
    var sorted := NewestFirst(allEntries);
    var ofLevel := OfLevel(sorted, level);
    ProjectPermutation(sorted, allEntries, LevelOf);
    OfLevelCount(sorted, level);
    OfLevelNewestFirst(sorted, level);
    var recent := FirstTen(ofLevel);
    forall e | e in recent ensures e in allEntries && e.level == level {
      assert e in ofLevel;
      assert e in multiset(sorted);
    }
    RecentIsNewest(allEntries, level);
  }

  /** recent_critical holds at most ten entries, all CRITICAL, newest first,
      as many as there are CRITICAL entries up to ten, and the newest of them;
      recent_errors the same for ERROR. */
  lemma SummaryRecent(allEntries: seq<LogEntry>)
    ensures var s := SummaryOf(allEntries);
      var levels := multiset(Project(allEntries, LevelOf));
      && |s.recentCritical| == MinInt(levels["CRITICAL"], 10)
      && |s.recentErrors| == MinInt(levels["ERROR"], 10)
      && (forall e :: e in s.recentCritical ==> e in allEntries && e.level == "CRITICAL")
      && (forall e :: e in s.recentErrors ==> e in allEntries && e.level == "ERROR")
      && IsNewestFirst(s.recentCritical) && IsNewestFirst(s.recentErrors)
      && NewestOfLevel(s.recentCritical, allEntries, "CRITICAL")
      && NewestOfLevel(s.recentErrors, allEntries, "ERROR")
  {
    RecentOfLevel(allEntries, "CRITICAL");
    RecentOfLevel(allEntries, "ERROR");
  }

  // ---------------------------------------------------------------------------
  // get_log_entries
  // ---------------------------------------------------------------------------

  /** What one logger contributes: with a level or module filter, the first
      `count` results of its search with an empty query; without, its recent
      entries. */
  function Contribution(count: int, level: string, moduleFilter: string,
                        file: Option<seq<LogLine>>, recent: seq<LogEntry>): (r: seq<LogEntry>)
    ensures (level != "" || moduleFilter != "") ==>
      r == PySliceTo(Search(file, "", level, moduleFilter), count)
    ensures level == "" && moduleFilter == "" ==> r == recent
    ensures level != "" || moduleFilter != "" ==> |r| <= 100
  {
    if level != "" || moduleFilter != "" then PySliceTo(Search(file, "", level, moduleFilter), count)
    else recent
  }

  /** The contributions of the loggers in registration order, concatenated. */
  function Gathered(count: int, level: string, moduleFilter: string,
                    files: seq<Option<seq<LogLine>>>, recent: seq<seq<LogEntry>>): (r: seq<LogEntry>)
    requires |files| == |recent|
    ensures |recent| == 0 ==> r == []
    ensures level != "" || moduleFilter != "" ==> |r| <= 100 * |files|
  {
    if files == [] then []
    else
      var n := |files| - 1;
      Gathered(count, level, moduleFilter, files[..n], recent[..n])
        + Contribution(count, level, moduleFilter, files[n], recent[n])
  }

  /** Every gathered entry comes from some logger's contribution. */
  lemma {:induction false} GatheredMember(count: int, level: string, moduleFilter: string,
                                          files: seq<Option<seq<LogLine>>>, recent: seq<seq<LogEntry>>, e: LogEntry)
    requires |files| == |recent|
    requires e in Gathered(count, level, moduleFilter, files, recent)
    ensures exists i :: 0 <= i < |files| && e in Contribution(count, level, moduleFilter, files[i], recent[i])
  {
    var n := |files| - 1;
    if e !in Contribution(count, level, moduleFilter, files[n], recent[n]) {
      GatheredMember(count, level, moduleFilter, files[..n], recent[..n], e);
      var i :| 0 <= i < n && e in Contribution(count, level, moduleFilter, files[..n][i], recent[..n][i]);
      assert files[..n][i] == files[i] && recent[..n][i] == recent[i];
    }
  }

  /** The contribution of logger i is gathered. */
  lemma {:induction false} GatheredContainsOne(count: int, level: string, moduleFilter: string,
                                               files: seq<Option<seq<LogLine>>>, recent: seq<seq<LogEntry>>, i: nat)
    requires |files| == |recent| && i < |files|
    ensures multiset(Contribution(count, level, moduleFilter, files[i], recent[i]))
      <= multiset(Gathered(count, level, moduleFilter, files, recent))
  {
    var n := |files| - 1;
    var prefix := Gathered(count, level, moduleFilter, files[..n], recent[..n]);
    var last := Contribution(count, level, moduleFilter, files[n], recent[n]);
    assert Gathered(count, level, moduleFilter, files, recent) == prefix + last;
    if i < n {
      GatheredContainsOne(count, level, moduleFilter, files[..n], recent[..n], i);
      assert files[..n][i] == files[i] && recent[..n][i] == recent[i];
    }
  }

  /** Every logger's contribution is gathered, each copy of each entry included. */
  lemma GatheredContains(count: int, level: string, moduleFilter: string,
                         files: seq<Option<seq<LogLine>>>, recent: seq<seq<LogEntry>>)
    requires |files| == |recent|
    ensures forall i :: 0 <= i < |files| ==>
      multiset(Contribution(count, level, moduleFilter, files[i], recent[i]))
        <= multiset(Gathered(count, level, moduleFilter, files, recent))
  {
    forall i | 0 <= i < |files|
      ensures multiset(Contribution(count, level, moduleFilter, files[i], recent[i]))
        <= multiset(Gathered(count, level, moduleFilter, files, recent))
    {
      GatheredContainsOne(count, level, moduleFilter, files, recent, i);
    }
  }

  /** get_log_entries over the registered loggers' log files (for the filtered
      search) and recent entries (for the unfiltered view): all contributions
      sorted newest first, then `[:count]`. The result is the newest `count`
      gathered entries, newest first. */
  function GetLogEntries(count: int, level: string, moduleFilter: string,
                         files: seq<Option<seq<LogLine>>>, recent: seq<seq<LogEntry>>): (r: seq<LogEntry>)
    requires |files| == |recent|
    ensures var all := Gathered(count, level, moduleFilter, files, recent);
      && |r| <= |all| && r == NewestFirst(all)[..|r|]
      && (count >= 0 ==> |r| == MinInt(count, |all|))
      && multiset(r) <= multiset(all)
    ensures IsNewestFirst(r)
  {
    var all := Gathered(count, level, moduleFilter, files, recent);
    var sorted := NewestFirst(all);
    var r := PySliceTo(sorted, count);
    assert sorted == r + sorted[|r|..];
    r
  }

  /** Every line of every logger's file carries the entry built from its fields. */
  predicate AllFromFields(files: seq<Option<seq<LogLine>>>)
  {
    forall i, j :: 0 <= i < |files| && files[i].Some? && 0 <= j < |files[i].value| ==>
      EntryFromFields(files[i].value[j])
  }

  /** With a level or module filter, every entry shown was read from a line
      of some logger's file that passes that filter; when each line's entry
      was built from its fields, every entry shown has the requested level
      and module. */
  lemma FilteredEntryOrigin(count: int, level: string, moduleFilter: string,
                            files: seq<Option<seq<LogLine>>>, recent: seq<seq<LogEntry>>)
    requires |files| == |recent| && (level != "" || moduleFilter != "")
    ensures forall e :: e in GetLogEntries(count, level, moduleFilter, files, recent) ==>
      exists i, j :: (0 <= i < |files| && files[i].Some? && 0 <= j < |files[i].value|
        && Matches(files[i].value[j], "", level, moduleFilter) && files[i].value[j].entry == e)
    ensures AllFromFields(files) ==>
      forall e :: e in GetLogEntries(count, level, moduleFilter, files, recent) ==> PassesFilters(e, level, moduleFilter)
  {
    var all := Gathered(count, level, moduleFilter, files, recent);
    forall e | e in GetLogEntries(count, level, moduleFilter, files, recent)
      ensures exists i, j :: (0 <= i < |files| && files[i].Some? && 0 <= j < |files[i].value|
        && Matches(files[i].value[j], "", level, moduleFilter) && files[i].value[j].entry == e)
      ensures AllFromFields(files) ==> PassesFilters(e, level, moduleFilter)
    {
      assert e in multiset(all);
      GatheredMember(count, level, moduleFilter, files, recent, e);
      var i :| 0 <= i < |files| && e in Contribution(count, level, moduleFilter, files[i], recent[i]);
      assert e in Search(files[i], "", level, moduleFilter);
      var j :| 0 <= j < |files[i].value| && SearchStep(files[i].value[j], "", level, moduleFilter) == Keep(e);
      if AllFromFields(files) {
        assert EntryFromFields(files[i].value[j]);
      }
    }
  }
}
