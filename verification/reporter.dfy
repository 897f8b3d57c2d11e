/**
 * OSINTReporter (email_toolkit/osint.py:53-103): the report built from a
 * results dict, its summary heuristic, and where `save_report` writes it.
 */
module Reporter {
  import opened Wrappers
  import opened Text
  import opened PyValues
  import opened Dicts
  import opened Outcomes

  datatype Risk = Low | Medium | High

  datatype Summary = Summary(riskLevel: Risk, breachesFound: bool, socialAccounts: nat, emailReputation: string)

  /** The summary before any result is looked at. */
  const InitialSummary := Summary(Low, false, 0, "unknown")

  datatype Metadata = Metadata(totalSources: nat, successfulSources: nat, failedSources: nat)

  datatype Report = Report(target: string, timestamp: string, summary: Summary,
                           detailedResults: Dict<Outcome>, metadata: Metadata)

  // ---------------------------------------------------------------- summary

  /** The 'haveibeenpwned' entry, when it is a list (`isinstance(..., list)`). */
  function BreachList(results: Dict<Outcome>): Option<seq<Json>> {
    var entry := Find(results, "haveibeenpwned");
    if entry.Some? && entry.value.Verbatim? && entry.value.body.JList? then Some(entry.value.body.items)
    else None
  }

  /**
   * _generate_summary: the summary changes only when the 'haveibeenpwned'
   * entry is a non-empty list; more than three entries is high risk,
   * otherwise medium.
   */
  function Summarize(results: Dict<Outcome>): (s: Summary)
    ensures s.socialAccounts == 0 && s.emailReputation == "unknown"
    ensures s.breachesFound <==> BreachList(results).Some? && BreachList(results).value != []
    ensures s.riskLevel == High <==> BreachList(results).Some? && |BreachList(results).value| > 3
    ensures s.riskLevel == Low <==> !s.breachesFound
  {
    match BreachList(results)
    case Some(items) =>
      if items != [] then Summary(if |items| > 3 then High else Medium, true, 0, "unknown")
      else InitialSummary
    case None => InitialSummary
  }

  /** A 'haveibeenpwned' entry that is not a list leaves the summary as it started. */
  lemma NonListEntryKeepsInitialSummary(results: Dict<Outcome>)
    requires Find(results, "haveibeenpwned").Some? && !Find(results, "haveibeenpwned").value.Verbatim?
    ensures Summarize(results) == InitialSummary
  {
  }

  // ---------------------------------------------------------------- report

  function Values(d: Dict<Outcome>): (vs: seq<Outcome>)
    ensures |vs| == |d| && forall i :: 0 <= i < |d| ==> vs[i] == d[i].1
  {
    seq(|d|, i requires 0 <= i < |d| => d[i].1)
  }

  /**
   * `len([r for r in outs if ('error' in r) == flagged])`; the first `in`
   * that raises aborts the count.
   */
  function CountByErrorKey(outs: seq<Outcome>, flagged: bool): (r: Result<nat, Fault>)
    ensures r.Ok? <==> forall i :: 0 <= i < |outs| ==> HasErrorKey(outs[i]).Ok?
    ensures r.Ok? ==> r.value <= |outs|
  {
    if outs == [] then Ok(0)
    else
      var e :- HasErrorKey(outs[0]);
      var rest :- CountByErrorKey(outs[1..], flagged);
      assert forall i :: 1 <= i < |outs| ==> outs[i] == outs[1..][i - 1];
      Ok(rest + if e == flagged then 1 else 0)
  }

  /** generate_report: raises when some entry does not support `'error' in`. */
  function GenerateReport(target: string, now: string, results: Dict<Outcome>): Result<Report, Fault> {
    var outs := Values(results);
    var successful :- CountByErrorKey(outs, false);
    var failed :- CountByErrorKey(outs, true);
    Ok(Report(target, now, Summarize(results), results, Metadata(|results|, successful, failed)))
  }

  /** The verdict of `'error' in r` for every entry, when none of them raises. */
  ghost function ErrorFlags(outs: seq<Outcome>): (flags: seq<bool>)
    requires forall i :: 0 <= i < |outs| ==> HasErrorKey(outs[i]).Ok?
    ensures |flags| == |outs|
  {
    seq(|outs|, i requires 0 <= i < |outs| && HasErrorKey(outs[i]).Ok? => HasErrorKey(outs[i]).value)
  }

  lemma {:induction false} CountIsMultiplicity(outs: seq<Outcome>, flagged: bool)
    requires forall i :: 0 <= i < |outs| ==> HasErrorKey(outs[i]).Ok?
    ensures CountByErrorKey(outs, flagged) == Ok(multiset(ErrorFlags(outs))[flagged])
  {
    if outs == [] {
      assert ErrorFlags(outs) == [];
    } else {
      assert forall i :: 0 <= i < |outs| - 1 ==> outs[1..][i] == outs[i + 1];
      CountIsMultiplicity(outs[1..], flagged);
      var e := HasErrorKey(outs[0]).value;
      var rest := multiset(ErrorFlags(outs[1..]))[flagged];
      ErrorFlagsCons(outs);
      assert multiset(ErrorFlags(outs)) == multiset{e} + multiset(ErrorFlags(outs[1..]));
      assert multiset(ErrorFlags(outs))[flagged] == rest + if e == flagged then 1 else 0;
      assert CountByErrorKey(outs, flagged) == Ok(rest + if e == flagged then 1 else 0);
    }
  }

  lemma ErrorFlagsCons(outs: seq<Outcome>)
    requires outs != [] && forall i :: 0 <= i < |outs| ==> HasErrorKey(outs[i]).Ok?
    ensures ErrorFlags(outs) == [HasErrorKey(outs[0]).value] + ErrorFlags(outs[1..])
  {
    assert forall i :: 0 <= i < |outs| - 1 ==> outs[1..][i] == outs[i + 1];
  }

  /**
   * The report keeps the results dict unchanged and its metadata adds up:
   * `total_sources` is the number of entries, an entry counts as failed
   * exactly when it has an 'error' key, and successful plus failed is the
   * total.  The report is built whenever every entry supports `'error' in`.
   */
  lemma ReportMetadata(target: string, now: string, results: Dict<Outcome>)
    ensures GenerateReport(target, now, results).Ok? <==>
      forall i :: 0 <= i < |results| ==> HasErrorKey(results[i].1).Ok?
    ensures GenerateReport(target, now, results).Ok? ==>
      var r := GenerateReport(target, now, results).value;
      var flags := ErrorFlags(Values(results));
      r.target == target && r.detailedResults == results && r.summary == Summarize(results) &&
      r.metadata.totalSources == |results| &&
      r.metadata.failedSources == multiset(flags)[true] &&
      r.metadata.successfulSources == multiset(flags)[false] &&
      r.metadata.successfulSources + r.metadata.failedSources == r.metadata.totalSources
  {
    var outs := Values(results);
    if forall i :: 0 <= i < |outs| ==> HasErrorKey(outs[i]).Ok? {
      CountIsMultiplicity(outs, true);
      CountIsMultiplicity(outs, false);
      var flags := ErrorFlags(outs);
      assert multiset(flags)[true] + multiset(flags)[false] == |flags| by {
        BoolMultiplicities(flags);
      }
    }
  }

  lemma {:induction false} BoolMultiplicities(flags: seq<bool>)
    ensures multiset(flags)[true] + multiset(flags)[false] == |flags|
  {
    if flags != [] {
      BoolMultiplicities(flags[1..]);
      assert flags == [flags[0]] + flags[1..];
      assert multiset(flags) == multiset([flags[0]]) + multiset(flags[1..]);
      assert multiset([flags[0]])[flags[0]] == 1 && multiset([flags[0]])[!flags[0]] == 0;
    }
  }

  // ---------------------------------------------------------------- file name

  /** The local time `strftime` formats. */
  datatype Clock = Clock(year: nat, month: nat, day: nat, hour: nat, minute: nat, second: nat)

  predicate ValidClock(c: Clock) {
    1 <= c.month <= 12 && 1 <= c.day <= 31 && c.hour < 24 && c.minute < 60 && c.second < 62
  }

  function Pad2(n: nat): (r: string)
    requires n < 100
    ensures |r| == 2 && '0' <= r[0] <= '9' && '0' <= r[1] <= '9'
  {
    [DigitChar(n / 10), DigitChar(n % 10)]
  }

  /** `strftime("%Y%m%d_%H%M%S")`: digits, with one underscore between date and time. */
  function Stamp(c: Clock): (r: string)
    requires ValidClock(c)
    ensures forall i :: 0 <= i < |r| ==> ('0' <= r[i] <= '9' || r[i] == '_')
    ensures |r| >= 12 && r[|r| - 7] == '_'
    ensures forall i :: 0 <= i < |r| && i != |r| - 7 ==> '0' <= r[i] <= '9'
  {
    var date := NatToString(c.year) + Pad2(c.month) + Pad2(c.day);
    var time := "_" + Pad2(c.hour) + Pad2(c.minute) + Pad2(c.second);
    assert |time| == 7 && time[0] == '_';
    assert forall i :: 0 <= i < |date| ==> '0' <= date[i] <= '9';
    assert forall i :: 1 <= i < 7 ==> '0' <= time[i] <= '9';
    date + time
  }

  /** The name save_report picks when none is given. */
  function DefaultFilename(target: string, stamp: string): string {
    "osint_report_" + ReplaceChar(ReplaceChar(target, '@', '_'), '.', '_') + "_" + stamp + ".json"
  }

  /** `if not filename`: a missing or empty name is replaced by the default one. */
  function ReportFilename(target: string, filename: Option<string>, stamp: string): (name: string)
    ensures filename.Some? && filename.value != "" ==> name == filename.value
  {
    if filename.Some? && filename.value != "" then filename.value else DefaultFilename(target, stamp)
  }

  /**
   * The default name is the prefix, the target with every '@' and '.'
   * turned into '_', an underscore, the stamp and ".json".
   */
  lemma DefaultFilenameLayout(target: string, stamp: string)
    ensures var name := DefaultFilename(target, stamp);
      |name| == |target| + |stamp| + 19 &&
      StartsWith(name, "osint_report_") && EndsWith(name, ".json") &&
      name[13 + |target|] == '_' &&
      name[14 + |target|..14 + |target| + |stamp|] == stamp &&
      (forall i :: 0 <= i < |target| ==>
         name[13 + i] == (if target[i] == '@' || target[i] == '.' then '_' else target[i]))
  {
    var name := DefaultFilename(target, stamp);
    var safe := ReplaceChar(ReplaceChar(target, '@', '_'), '.', '_');
    assert name == "osint_report_" + safe + "_" + stamp + ".json";
    assert name[..13] == "osint_report_";
    assert name[|name| - 5..] == ".json";
    forall i | 0 <= i < |target|
      ensures name[13 + i] == (if target[i] == '@' || target[i] == '.' then '_' else target[i])
    {
      assert name[13 + i] == safe[i];
    }
  }

  /** The target part of a default name has no '@' and no '.'. */
  lemma DefaultFilenameTargetPart(target: string, stamp: string)
    ensures var name := DefaultFilename(target, stamp);
      forall i :: 13 <= i < 13 + |target| ==> name[i] != '@' && name[i] != '.'
  {
    DefaultFilenameLayout(target, stamp);
    var name := DefaultFilename(target, stamp);
    forall i | 13 <= i < 13 + |target|
      ensures name[i] != '@' && name[i] != '.'
    {
      assert name[13 + (i - 13)] == name[i];
    }
  }

  /** `os.path.join(dir, name)`: an absolute name discards the directory. */
  function PathJoin(dir: string, name: string): (p: string)
    ensures EndsWith(p, name)
    ensures name != [] && name[0] != '/' ==> StartsWith(p, dir)
  {
    if name != [] && name[0] == '/' then name
    else if dir == [] || dir[|dir| - 1] == '/' then
      assert (dir + name)[..|dir|] == dir;
      assert (dir + name)[|dir + name| - |name|..] == name;
      dir + name
    else
      assert (dir + "/" + name)[..|dir|] == dir;
      assert (dir + "/" + name)[|dir + "/" + name| - |name|..] == name;
      dir + "/" + name
  }

  /** The directory OSINTReporter writes to unless told otherwise. */
  const DefaultReportsDir := "./reports"

  /** An OSINTReporter and the reports it has written, by path. */
  class ReportStore {
    var reportsDir: string
    var written: map<string, Report>

    constructor(dir: string)
      ensures reportsDir == dir && written == map[]
    {
      reportsDir := dir;
      written := map[];
    }

    /**
     * save_report: writes the report under the chosen name in the reports
     * directory and returns the path; a failing write (`fault`) raises and
     * records nothing.
     */
    method SaveReport(report: Report, filename: Option<string>, clock: Clock, fault: Option<Fault>)
      returns (r: Result<string, Fault>)
      requires ValidClock(clock)
      modifies this
      ensures reportsDir == old(reportsDir)
      ensures fault.Some? ==> r == Err(fault.value) && written == old(written)
      ensures fault.None? ==>
        var path := PathJoin(reportsDir, ReportFilename(report.target, filename, Stamp(clock)));
        r == Ok(path) && written == old(written)[path := report]
    {
      var name := ReportFilename(report.target, filename, Stamp(clock));
      var path := PathJoin(reportsDir, name);
      if fault.Some? {
        return Err(fault.value);
      }
      written := written[path := report];
      r := Ok(path);
    }
  }
}
