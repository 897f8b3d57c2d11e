/**
 * EnhancedOSINT's aggregation (email_toolkit/osint.py:337-432): the source
 * tables, target classification, the loops that fill a results dict one
 * source at a time, and `comprehensive_search`, which also builds and saves
 * the report.
 */
module Aggregator {
  import opened Seqs
  import opened Wrappers
  import opened PyValues
  import opened Validator
  import opened Dicts
  import opened Outcomes
  import opened Adapters
  import opened Reporter

  /** The email sources, in the order of the table in comprehensive_search. */
  const EmailSources: seq<Source> := [HaveIBeenPwned, HunterIo, LeakCheck, EmailRep, Clearbit, Holehe, SocialScan]

  /** The username sources, in table order. */
  const UsernameSources: seq<Source> := [Sherlock, Maigret]

  /** The sources async_osint_search asks when given none. */
  const DefaultAsyncSources: seq<string> := ["haveibeenpwned", "hunterio", "emailrep", "leakcheck"]

  function SourceNames(table: seq<Source>): (names: seq<string>)
    ensures |names| == |table| && forall i :: 0 <= i < |table| ==> names[i] == SourceName(table[i])
  {
    seq(|table|, i requires 0 <= i < |table| => SourceName(table[i]))
  }

  // ---------------------------------------------------------------- attributes

  /** What `hasattr`/`getattr` find on an EnhancedOSINT under a name. */
  datatype Attr = AdapterAttr(source: Source) | OtherAttr | NoAttr

  /** The attributes of an EnhancedOSINT that are not adapters. */
  const OtherAttributes: seq<string> :=
    ["validator", "reporter", "session", "safe_subprocess_call", "_command_exists",
     "async_osint_search", "_async_source_call", "comprehensive_search"]

  function AttrOf(name: string): (a: Attr)
    ensures a.AdapterAttr? ==> SourceName(a.source) == name
    ensures a.OtherAttr? <==> name in OtherAttributes
  {
    if name == "haveibeenpwned" then AdapterAttr(HaveIBeenPwned)
    else if name == "hunterio" then AdapterAttr(HunterIo)
    else if name == "leakcheck" then AdapterAttr(LeakCheck)
    else if name == "emailrep" then AdapterAttr(EmailRep)
    else if name == "clearbit" then AdapterAttr(Clearbit)
    else if name == "holehe" then AdapterAttr(Holehe)
    else if name == "socialscan" then AdapterAttr(SocialScan)
    else if name == "sherlock" then AdapterAttr(Sherlock)
    else if name == "maigret" then AdapterAttr(Maigret)
    else if name in OtherAttributes then OtherAttr
    else NoAttr
  }

  /** Every source is found under its own name. */
  lemma AttrOfSourceName(s: Source)
    ensures AttrOf(SourceName(s)) == AdapterAttr(s)
  {
  }

  /**
   * `getattr(self, name)(target)` inside the loops' `try`: an adapter runs;
   * any other attribute raises when called with a string, which becomes the
   * "error in <name>" entry.
   */
  function Call(name: string, w: World, target: string): Outcome {
    match AttrOf(name)
    case AdapterAttr(s) => Invoke(s, w, target)
    case OtherAttr => Failed(SourceRaised(name, TypeFault))
    case NoAttr => Failed(SourceRaised(name, AttributeFault))
  }

  /**
   * What a loop records for a name: nothing when `hasattr(self, name)` is
   * false, otherwise the outcome of calling it on the target.
   */
  function Bound(w: World, target: string): string -> Option<Outcome> {
    name => if AttrOf(name).NoAttr? then None else Some(Call(name, w, target))
  }

  /** A source's name calls that source. */
  lemma BoundSource(s: Source, w: World, target: string)
    ensures Bound(w, target)(SourceName(s)) == Some(Invoke(s, w, target))
  {
    AttrOfSourceName(s);
  }

  /**
   * `for name in names: if hasattr(self, name): results[name] = ...`: the
   * dict the loops build, where `call` gives `None` for a missing attribute.
   */
  function Gathered(names: seq<string>, call: string -> Option<Outcome>): Dict<Outcome>
    decreases |names|
  {
    if names == [] then []
    else
      var prev := Gathered(names[..|names| - 1], call);
      var n := names[|names| - 1];
      if call(n).None? then prev else Put(prev, n, call(n).value)
  }

  /** One more name either is skipped or assigns its outcome. */
  lemma GatheredSnoc(names: seq<string>, n: string, call: string -> Option<Outcome>)
    ensures Gathered(names + [n], call) ==
      if call(n).None? then Gathered(names, call) else Put(Gathered(names, call), n, call(n).value)
  {
    assert (names + [n])[..|names|] == names;
  }

  /** The keys are exactly the names that exist on the object. */
  lemma {:induction false} GatheredKeys(names: seq<string>, call: string -> Option<Outcome>)
    ensures forall k :: k in Keys(Gathered(names, call)) <==> k in names && call(k).Some?
  {
    if names != [] {
      var init := names[..|names| - 1];
      var n := names[|names| - 1];
      GatheredKeys(init, call);
      LastSplit(names);
    }
  }

  /** Each name appears once. */
  lemma {:induction false} GatheredKeysDistinct(names: seq<string>, call: string -> Option<Outcome>)
    ensures DistinctKeys(Gathered(names, call))
  {
    if names != [] {
      var init := names[..|names| - 1];
      var n := names[|names| - 1];
      GatheredKeysDistinct(init, call);
      if call(n).Some? {
        PutKeepsDistinct(Gathered(init, call), n, call(n).value);
      }
    }
  }

  /** Each key holds the outcome of calling that name. */
  lemma {:induction false} GatheredFind(names: seq<string>, call: string -> Option<Outcome>)
    ensures forall k :: k in Keys(Gathered(names, call)) ==> Find(Gathered(names, call), k) == call(k)
  {
    if names != [] {
      var init := names[..|names| - 1];
      var n := names[|names| - 1];
      GatheredFind(init, call);
      GatheredKeys(init, call);
      if call(n).Some? {
        PutFind(Gathered(init, call), n, call(n).value);
      }
    }
  }

  /**
   * The keys are exactly the names that exist on the object, each once, and
   * each holds the outcome of calling that name; names without an attribute
   * are skipped.
   */
  lemma GatheredContents(names: seq<string>, call: string -> Option<Outcome>)
    ensures DistinctKeys(Gathered(names, call))
    ensures forall k :: k in Keys(Gathered(names, call)) <==> k in names && call(k).Some?
    ensures forall k :: k in Keys(Gathered(names, call)) ==> Find(Gathered(names, call), k) == call(k)
  {
    GatheredKeys(names, call);
    GatheredKeysDistinct(names, call);
    GatheredFind(names, call);
  }

  /** Over distinct names that all exist, the keys are the names in order. */
  lemma {:induction false} GatheredKeyOrder(names: seq<string>, call: string -> Option<Outcome>)
    requires forall i, j :: 0 <= i < j < |names| ==> names[i] != names[j]
    requires forall i :: 0 <= i < |names| ==> call(names[i]).Some?
    ensures Keys(Gathered(names, call)) == names
  {
    if names != [] {
      DistinctPrefix(names, call);
      GatheredKeyOrder(names[..|names| - 1], call);
      LastSplit(names);
    }
  }

  lemma DistinctPrefix(names: seq<string>, call: string -> Option<Outcome>)
    requires names != []
    requires forall i, j :: 0 <= i < j < |names| ==> names[i] != names[j]
    requires forall i :: 0 <= i < |names| ==> call(names[i]).Some?
    ensures var init := names[..|names| - 1];
      (forall i, j :: 0 <= i < j < |init| ==> init[i] != init[j]) &&
      (forall i :: 0 <= i < |init| ==> call(init[i]).Some?) &&
      names[|names| - 1] !in init
  {
    var init := names[..|names| - 1];
    assert forall i :: 0 <= i < |init| ==> init[i] == names[i];
  }

  /** Over distinct names that all exist, the dict lists every name once, in order. */
  lemma GatheredDistinct(names: seq<string>, call: string -> Option<Outcome>)
    requires forall i, j :: 0 <= i < j < |names| ==> names[i] != names[j]
    requires forall i :: 0 <= i < |names| ==> call(names[i]).Some?
    ensures |Gathered(names, call)| == |names|
    ensures forall i :: 0 <= i < |names| ==> Gathered(names, call)[i] == (names[i], call(names[i]).value)
  {
    var g := Gathered(names, call);
    GatheredKeyOrder(names, call);
    GatheredKeysDistinct(names, call);
    GatheredFind(names, call);
    forall i | 0 <= i < |names|
      ensures g[i] == (names[i], call(names[i]).value)
    {
      assert Keys(g)[i] == g[i].0;
      FindAt(g, i);
    }
  }

  /** A table of distinct sources gives each source's name in table order. */
  lemma GatheredTable(table: seq<Source>, w: World, target: string)
    requires forall i, j :: 0 <= i < j < |table| ==> table[i] != table[j]
    ensures |Gathered(SourceNames(table), Bound(w, target))| == |table|
    ensures forall i :: 0 <= i < |table| ==>
      Gathered(SourceNames(table), Bound(w, target))[i] == (SourceName(table[i]), Invoke(table[i], w, target))
  {
    var names := SourceNames(table);
    forall i | 0 <= i < |table|
      ensures Bound(w, target)(names[i]) == Some(Invoke(table[i], w, target))
    {
      BoundSource(table[i], w, target);
    }
    forall i, j | 0 <= i < j < |table|
      ensures names[i] != names[j]
    {
      SourceNamesDiffer(table[i], table[j]);
    }
    GatheredDistinct(names, Bound(w, target));
  }

  lemma SourceNamesDiffer(a: Source, b: Source)
    ensures a != b ==> SourceName(a) != SourceName(b)
  {
    AttrOfSourceName(a);
    AttrOfSourceName(b);
  }

  /** An email search fills exactly the seven email keys, in table order. */
  lemma EmailSearchKeys(w: World, target: string)
    ensures Keys(Gathered(SourceNames(EmailSources), Bound(w, target))) ==
      ["haveibeenpwned", "hunterio", "leakcheck", "emailrep", "clearbit", "holehe", "socialscan"]
  {
    var names := SourceNames(EmailSources);
    assert names == ["haveibeenpwned", "hunterio", "leakcheck", "emailrep", "clearbit", "holehe", "socialscan"];
    TableEntries(EmailSources, w, target);
  }

  /** A username search fills exactly the two username keys, in table order. */
  lemma UsernameSearchKeys(w: World, target: string)
    ensures Keys(Gathered(SourceNames(UsernameSources), Bound(w, target))) == ["sherlock", "maigret"]
  {
    var names := SourceNames(UsernameSources);
    assert names == ["sherlock", "maigret"];
    TableEntries(UsernameSources, w, target);
  }

  /** A table search keys its entries by the table's source names, each holding that source's outcome. */
  lemma TableEntries(table: seq<Source>, w: World, target: string)
    requires forall i, j :: 0 <= i < j < |table| ==> table[i] != table[j]
    ensures Keys(Gathered(SourceNames(table), Bound(w, target))) == SourceNames(table)
    ensures forall i :: 0 <= i < |table| ==>
      Gathered(SourceNames(table), Bound(w, target))[i].1 == Invoke(table[i], w, target)
  {
    GatheredTable(table, w, target);
  }

  /**
   * The summary of any gathered search stays at its initial value: the
   * 'haveibeenpwned' entry, when there is one, is the adapter's own dict and
   * never the list the summary looks for.
   */
  lemma GatheredSummaryIsInitial(names: seq<string>, w: World, target: string)
    ensures Summarize(Gathered(names, Bound(w, target))) == InitialSummary
  {
    var results := Gathered(names, Bound(w, target));
    if "haveibeenpwned" in Keys(results) {
      GatheredFind(names, Bound(w, target));
      BoundSource(HaveIBeenPwned, w, target);
      HaveIBeenPwnedNeverPassesBodyThrough(w, target);
      NonListEntryKeepsInitialSummary(results);
    }
  }

  /**
   * Whatever one source's inputs or exception do, every other entry of a
   * table search is unchanged.
   */
  lemma SearchIsolation(table: seq<Source>, w: World, s: Source, target: string,
                        env: string -> Option<string>, http: HttpRequest -> HttpReply,
                        probe: string -> Result<bool, Fault>, run: (seq<string>, nat) -> ProcessRun,
                        escape: Option<Fault>)
    requires forall i, j :: 0 <= i < j < |table| ==> table[i] != table[j]
    ensures |Gathered(SourceNames(table), Bound(w, target))| == |table|
    ensures |Gathered(SourceNames(table), Bound(Retarget(w, s, env, http, probe, run, escape), target))| == |table|
    ensures forall i :: 0 <= i < |table| && table[i] != s ==>
      Gathered(SourceNames(table), Bound(Retarget(w, s, env, http, probe, run, escape), target))[i] ==
      Gathered(SourceNames(table), Bound(w, target))[i]
  {
    var w' := Retarget(w, s, env, http, probe, run, escape);
    GatheredTable(table, w, target);
    GatheredTable(table, w', target);
    forall i | 0 <= i < |table| && table[i] != s
      ensures Invoke(table[i], w', target) == Invoke(table[i], w, target)
    {
      FaultIsolation(w, s, table[i], target, env, http, probe, run, escape);
    }
  }

  /** The names async_osint_search creates tasks for. */
  function WithAttr(names: seq<string>): (r: seq<string>)
    ensures forall n :: n in r <==> n in names && !AttrOf(n).NoAttr?
  {
    if names == [] then []
    else
      var init := WithAttr(names[..|names| - 1]);
      var n := names[|names| - 1];
      assert names == names[..|names| - 1] + [n];
      if AttrOf(n).NoAttr? then init else init + [n]
  }

  lemma {:induction false} GatheredWithAttr(names: seq<string>, w: World, target: string)
    ensures Gathered(WithAttr(names), Bound(w, target)) == Gathered(names, Bound(w, target))
  {
    if names != [] {
      var init := names[..|names| - 1];
      var n := names[|names| - 1];
      GatheredWithAttr(init, w, target);
      if !AttrOf(n).NoAttr? {
        assert (WithAttr(init) + [n])[..|WithAttr(init)|] == WithAttr(init);
      }
    }
  }

  /** The first loop of async_osint_search: a task per name that exists on the object. */
  method CreateTasks(names: seq<string>) returns (tasks: seq<string>)
    ensures tasks == WithAttr(names)
  {
    tasks := [];
    for i := 0 to |names|
      invariant tasks == WithAttr(names[..i])
    {
      assert names[..i + 1][..i] == names[..i];
      if !AttrOf(names[i]).NoAttr? {
        tasks := tasks + [names[i]];
      }
    }
    assert names[..|names|] == names;
  }

  /** The second loop: each task is awaited in creation order and its outcome stored. */
  method AwaitTasks(w: World, tasks: seq<string>, target: string) returns (results: Dict<Outcome>)
    requires forall n :: n in tasks ==> !AttrOf(n).NoAttr?
    ensures results == Gathered(tasks, Bound(w, target))
  {
    results := [];
    for j := 0 to |tasks|
      invariant results == Gathered(tasks[..j], Bound(w, target))
    {
      assert tasks[..j + 1][..j] == tasks[..j];
      assert tasks[j] in tasks;
      results := Put(results, tasks[j], Call(tasks[j], w, target));
    }
    assert tasks[..|tasks|] == tasks;
  }

  /**
   * async_osint_search: tasks are created for the names that exist on the
   * object, then awaited in order; an exception becomes that name's error
   * entry.
   */
  method AsyncOsintSearch(w: World, target: string, sources: Option<seq<string>>) returns (results: Dict<Outcome>)
    ensures var names := if sources.Some? then sources.value else DefaultAsyncSources;
      results == Gathered(names, Bound(w, target))
  {
    var names := if sources.Some? then sources.value else DefaultAsyncSources;
    var tasks := CreateTasks(names);
    results := AwaitTasks(w, tasks, target);
    GatheredWithAttr(names, w, target);
  }

  /** One more source of a table assigns its outcome under its name. */
  lemma TableStep(table: seq<Source>, i: nat, w: World, target: string)
    requires i < |table|
    ensures var names := SourceNames(table);
      Gathered(names[..i + 1], Bound(w, target)) ==
      Put(Gathered(names[..i], Bound(w, target)), names[i], Invoke(table[i], w, target))
  {
    var names := SourceNames(table);
    TakeOneMore(names, i);
    GatheredSnoc(names[..i], names[i], Bound(w, target));
    BoundSource(table[i], w, target);
  }

  /** The loop of comprehensive_search over one source table. */
  method RunTable(w: World, table: seq<Source>, target: string) returns (results: Dict<Outcome>, invoked: seq<Source>)
    ensures results == Gathered(SourceNames(table), Bound(w, target))
    ensures invoked == table
  {
    var names := SourceNames(table);
    results := [];
    invoked := [];
    for i := 0 to |table|
      invariant invoked == table[..i]
      invariant results == Gathered(names[..i], Bound(w, target))
    {
      TableStep(table, i, w, target);
      results := Put(results, names[i], Invoke(table[i], w, target));
      TakeOneMore(table, i);
      invoked := invoked + [table[i]];
    }
    assert names[..|names|] == names;
  }

  // ---------------------------------------------------------------- comprehensive search

  datatype Kind = EmailKind | UsernameKind | OtherKind

  /**
   * The kind of search a `target_type` selects; "auto" tries the email check
   * first, then the username check, and `None` means unsupported.
   */
  function ResolveKind(isEmail: string -> bool, target: string, targetType: Json): (k: Option<Kind>)
    ensures k.None? <==>
      targetType == JStr("auto") && !ValidateEmail(isEmail, target) && !ValidateUsername(target)
    ensures k == Some(EmailKind) <==>
      targetType == JStr("email") || (targetType == JStr("auto") && ValidateEmail(isEmail, target))
    ensures k == Some(UsernameKind) <==>
      targetType == JStr("username") ||
      (targetType == JStr("auto") && !ValidateEmail(isEmail, target) && ValidateUsername(target))
    ensures k == Some(OtherKind) <==>
      targetType != JStr("auto") && targetType != JStr("email") && targetType != JStr("username")
  {
    if targetType == JStr("auto") then
      if ValidateEmail(isEmail, target) then Some(EmailKind)
      else if ValidateUsername(target) then Some(UsernameKind)
      else None
    else if targetType == JStr("email") then Some(EmailKind)
    else if targetType == JStr("username") then Some(UsernameKind)
    else Some(OtherKind)
  }

  /** The `target_type` reported back: "auto" is replaced by what it resolved to. */
  function ReportedType(targetType: Json, k: Kind): Json {
    if targetType == JStr("auto") then (if k == EmailKind then JStr("email") else JStr("username"))
    else targetType
  }

  /** Any other `target_type` runs no source but still builds and saves a report. */
  function TableFor(k: Kind): seq<Source> {
    match k
    case EmailKind => EmailSources
    case UsernameKind => UsernameSources
    case OtherKind => []
  }

  /** What comprehensive_search returns. */
  datatype SearchOutcome =
    | SearchError(error: Msg)
    | Completed(target: string, targetType: Json, results: Dict<Outcome>, report: Report,
                savedTo: string, timestamp: string)

  /** The times the search reads from the clock: report time, file-name time, completion time. */
  datatype Times = Times(reportTime: string, saveClock: Clock, doneTime: string)

  /**
   * What comprehensive_search returns for `target` when its reporter writes
   * to `dir`: the error dict when the target is unsupported or the report
   * cannot be built or saved, otherwise the completed search.
   */
  function SearchResult(w: World, dir: string, target: string, targetType: Json, times: Times,
                        saveFault: Option<Fault>): (out: SearchOutcome)
    requires ValidClock(times.saveClock)
    ensures out.SearchError? <==>
      ResolveKind(w.isEmail, target, targetType).None? ||
      GenerateReport(target, times.reportTime,
                     Gathered(SourceNames(SearchInvoked(w, target, targetType)), Bound(w, target))).Err? ||
      saveFault.Some?
    ensures out.Completed? ==>
      out.target == target && out.timestamp == times.doneTime &&
      out.results == Gathered(SourceNames(SearchInvoked(w, target, targetType)), Bound(w, target)) &&
      out.savedTo == PathJoin(dir, DefaultFilename(target, Stamp(times.saveClock)))
  {
    match ResolveKind(w.isEmail, target, targetType)
    case None => SearchError(UnsupportedTarget)
    case Some(k) =>
      var results := Gathered(SourceNames(TableFor(k)), Bound(w, target));
      match GenerateReport(target, times.reportTime, results)
      case Err(f) => SearchError(SearchFailed(f))
      case Ok(report) =>
        if saveFault.Some? then SearchError(SearchFailed(saveFault.value))
        else
          Completed(target, ReportedType(targetType, k), results, report,
                    PathJoin(dir, DefaultFilename(target, Stamp(times.saveClock))), times.doneTime)
  }

  /** The sources comprehensive_search runs: none for an unsupported target, else the whole table. */
  function SearchInvoked(w: World, target: string, targetType: Json): seq<Source> {
    match ResolveKind(w.isEmail, target, targetType)
    case None => []
    case Some(k) => TableFor(k)
  }

  /** The reports written after a search: a completed search adds its report under its path. */
  function AfterSearch(written: map<string, Report>, out: SearchOutcome): map<string, Report> {
    if out.Completed? then written[out.savedTo := out.report] else written
  }

  /** An EnhancedOSINT and its reporter. */
  class Toolkit {
    const reporter: ReportStore

    constructor()
      ensures fresh(reporter) && reporter.reportsDir == DefaultReportsDir && reporter.written == map[]
    {
      reporter := new ReportStore(DefaultReportsDir);
    }

    /**
     * comprehensive_search: an unsupported target is refused before any
     * source runs; otherwise every source of the table runs in order, the
     * report is built from the results and saved under the default name,
     * and a failure of either is returned as a search error.
     */
    method ComprehensiveSearch(w: World, target: string, targetType: Json, times: Times, saveFault: Option<Fault>)
      returns (out: SearchOutcome, invoked: seq<Source>)
      requires ValidClock(times.saveClock)
      modifies reporter
      ensures reporter.reportsDir == old(reporter.reportsDir)
      ensures out == SearchResult(w, reporter.reportsDir, target, targetType, times, saveFault)
      ensures invoked == SearchInvoked(w, target, targetType)
      ensures reporter.written == AfterSearch(old(reporter.written), out)
      ensures ResolveKind(w.isEmail, target, targetType).None? ==>
        out == SearchError(UnsupportedTarget) && invoked == [] && reporter.written == old(reporter.written)
      ensures ResolveKind(w.isEmail, target, targetType).Some? ==>
        var k := ResolveKind(w.isEmail, target, targetType).value;
        var results := Gathered(SourceNames(TableFor(k)), Bound(w, target));
        var report := GenerateReport(target, times.reportTime, results);
        var path := PathJoin(reporter.reportsDir, DefaultFilename(target, Stamp(times.saveClock)));
        invoked == TableFor(k) &&
        (report.Err? ==> out == SearchError(SearchFailed(report.error)) && reporter.written == old(reporter.written)) &&
        (report.Ok? && saveFault.Some? ==>
           out == SearchError(SearchFailed(saveFault.value)) && reporter.written == old(reporter.written)) &&
        (report.Ok? && saveFault.None? ==>
           out == Completed(target, ReportedType(targetType, k), results, report.value, path, times.doneTime) &&
           reporter.written == old(reporter.written)[path := report.value])
    {
      var kind := ResolveKind(w.isEmail, target, targetType);
      if kind.None? {
        return SearchError(UnsupportedTarget), [];
      }
      var results;
      results, invoked := RunTable(w, TableFor(kind.value), target);
      var report := GenerateReport(target, times.reportTime, results);
      if report.Err? {
        return SearchError(SearchFailed(report.error)), invoked;
      }
      var saved := reporter.SaveReport(report.value, None, times.saveClock, saveFault);
      if saved.Err? {
        assert saveFault.Some?;
        return SearchError(SearchFailed(saved.error)), invoked;
      }
      out := Completed(target, ReportedType(targetType, kind.value), results, report.value, saved.value, times.doneTime);
    }
  }
}
