/**
 * The boundary rules of the web API (app.py:101-389): the request checks in
 * front of the searches, the loops over a requested source list, the report
 * listing and its order, the report file-name guard, and the report counts.
 * The reports directory is an abstract listing.
 */
module Routes {
  import opened Seqs
  import opened Wrappers
  import opened Text
  import opened PyValues
  import opened Validator
  import opened Dicts
  import opened Outcomes
  import opened Adapters
  import opened Reporter
  import opened Aggregator

  /** The reasons a handler raises BadRequest. */
  datatype ApiError =
    | TargetRequired | TargetEmpty | TargetTooLong
    | EmailRequired | EmailInvalid
    | UsernameRequired | UsernameInvalid
    | BadFilename

  /** Why request handling stopped early: a BadRequest or any other exception. */
  datatype Failure = BadRequest(reason: ApiError) | Crash(fault: Fault)

  /**
   * A directory entry with what `os.stat` gives for it: the size in bytes and
   * the creation and modification times already rendered by `isoformat()`.
   */
  datatype FileInfo = FileInfo(filename: string, size: nat, created: string, modified: string)

  /** The reports directory: missing, or present with its entries in `os.listdir` order. */
  datatype Directory = Absent | Present(entries: seq<FileInfo>)

  /** The JSON bodies the handlers return. */
  datatype Body =
    | Refused(reason: ApiError)                       // {"success": false, "error": <description>}
    | InternalError                                   // {"success": false, "error": <generic message>}
    | SearchRejected(error: Msg)                      // {"success": false, "error": results['error']}
    | SearchData(data: SearchOutcome)                 // {"success": true, "data": results}
    | Checked(subject: string, results: Dict<Outcome>, timestamp: string)
    | NoReports                                       // {"reports": []}
    | ReportList(reports: seq<FileInfo>, total: nat)
    | ReportMissing
    | ReportContent(report: Json)
    | Attachment(path: string, downloadName: string, mimetype: string)
    | SystemInfo(reportsCount: nat, reportsTotalSize: nat)

  datatype Response = Response(status: int, body: Body)

  /** `except BadRequest` gives 400 with its description, `except Exception` gives 500. */
  function FailureResponse(f: Failure): Response {
    match f
    case BadRequest(e) => Response(400, Refused(e))
    case Crash(_) => Response(500, InternalError)
  }

  function Lift<T>(r: Result<T, Fault>): Result<T, Failure> {
    match r
    case Ok(v) => Ok(v)
    case Err(f) => Err(Crash(f))
  }

  /**
   * `if not data or key not in data: raise BadRequest(...)`, then `data[key]`.
   */
  function RequiredField(data: Json, key: string, missing: ApiError): (r: Result<Json, Failure>)
    ensures !Truthy(data) ==> r == Err(BadRequest(missing))
    ensures data.JObject? && data.fields != [] ==>
      r == (if key in Keys(data.fields) then Ok(Lookup(data.fields, key).value) else Err(BadRequest(missing)))
  {
    if !Truthy(data) then Err(BadRequest(missing))
    else
      match Contains(key, data)
      case Err(f) => Err(Crash(f))
      case Ok(present) =>
        if !present then Err(BadRequest(missing)) else Lift(Subscript(data, key))
  }

  /** `.strip()`: only strings have it. */
  function Stripped(v: Json): (r: Result<string, Failure>)
    ensures v.JStr? ==> r == Ok(Strip(v.s))
    ensures !v.JStr? ==> r == Err(Crash(AttributeFault))
  {
    if v.JStr? then Ok(Strip(v.s)) else Err(Crash(AttributeFault))
  }

  // ---------------------------------------------------------------- /api/search

  const MaxTargetLength: nat := 100

  /**
   * The checks of api_search: a present target, stripped, neither empty nor
   * longer than 100 characters; the search type defaults to "auto".
   */
  function SearchInput(data: Json): (r: Result<(string, Json), Failure>)
    ensures !Truthy(data) || (data.JObject? && "target" !in Keys(data.fields)) ==>
      r == Err(BadRequest(TargetRequired))
    ensures r.Ok? ==> 1 <= |r.value.0| <= MaxTargetLength
    ensures r.Ok? ==>
      (data.JObject? && "target" in Keys(data.fields) &&
       Lookup(data.fields, "target").value.JStr? && r.value.0 == Strip(Lookup(data.fields, "target").value.s))
    ensures data.JObject? && "target" in Keys(data.fields) && Lookup(data.fields, "target").value.JStr? ==>
      var t := Strip(Lookup(data.fields, "target").value.s);
      (t == [] ==> r == Err(BadRequest(TargetEmpty))) &&
      (|t| > MaxTargetLength ==> r == Err(BadRequest(TargetTooLong))) &&
      (1 <= |t| <= MaxTargetLength ==> r == Ok((t, Get(data, "type", JStr("auto")).value)))
  {
    var raw :- RequiredField(data, "target", TargetRequired);
    var target :- Stripped(raw);
    var targetType :- Lift(Get(data, "type", JStr("auto")));
    if target == [] then Err(BadRequest(TargetEmpty))
    else if |target| > MaxTargetLength then Err(BadRequest(TargetTooLong))
    else Ok((target, targetType))
  }

  /**
   * api_search: a refused request runs no source and saves nothing; a search
   * whose result carries an 'error' key is answered 400, any other with 200
   * and the result.
   */
  method ApiSearch(osint: Toolkit, w: World, data: Json, times: Times, saveFault: Option<Fault>)
    returns (resp: Response, invoked: seq<Source>)
    requires ValidClock(times.saveClock)
    modifies osint.reporter
    ensures SearchInput(data).Err? ==>
      resp == FailureResponse(SearchInput(data).error) && invoked == [] &&
      osint.reporter.written == old(osint.reporter.written)
    ensures osint.reporter.reportsDir == old(osint.reporter.reportsDir)
    ensures SearchInput(data).Ok? ==>
      var (target, targetType) := SearchInput(data).value;
      var out := SearchResult(w, old(osint.reporter.reportsDir), target, targetType, times, saveFault);
      resp == SearchResponse(out) &&
      invoked == SearchInvoked(w, target, targetType) &&
      osint.reporter.written == AfterSearch(old(osint.reporter.written), out)
  {
    var input := SearchInput(data);
    if input.Err? {
      return FailureResponse(input.error), [];
    }
    var (target, targetType) := input.value;
    var out;
    out, invoked := osint.ComprehensiveSearch(w, target, targetType, times, saveFault);
    resp := SearchResponse(out);
  }

  /**
   * The answer to a search result: `'error' in results` holds exactly for the
   * error dict, which is answered 400 with its error; a completed search is
   * answered 200 with the whole result.
   */
  function SearchResponse(out: SearchOutcome): (resp: Response)
    ensures resp.status == 400 <==> out.SearchError?
    ensures out.SearchError? ==> resp.body == SearchRejected(out.error)
    ensures out.Completed? ==> resp == Response(200, SearchData(out))
  {
    if out.SearchError? then Response(400, SearchRejected(out.error)) else Response(200, SearchData(out))
  }

  // ---------------------------------------------------------------- source lists

  const DefaultEmailSources: Json := JList([JStr("haveibeenpwned"), JStr("emailrep")])
  const DefaultUsernameSources: Json := JList([JStr("sherlock")])

  /** The names `for source in sources` visits, when every one is a string. */
  function SourceList(items: seq<Json>): (names: Option<seq<string>>)
    ensures names.Some? <==> forall i :: 0 <= i < |items| ==> items[i].JStr?
    ensures names.Some? ==>
      (|names.value| == |items| && forall i :: 0 <= i < |items| ==> names.value[i] == items[i].s)
  {
    if forall i :: 0 <= i < |items| ==> items[i].JStr? then
      Some(seq(|items|, i requires 0 <= i < |items| && items[i].JStr? => items[i].s))
    else None
  }

  /**
   * The dict the source loop of a route builds; iterating a non-iterable, or
   * `hasattr` on a non-string name, raises.
   */
  function Requested(call: string -> Option<Outcome>, sources: Json): Result<Dict<Outcome>, Fault> {
    var items :- Iterate(sources);
    match SourceList(items)
    case None => Err(TypeFault)
    case Some(names) => Ok(Gathered(names, call))
  }

  /**
   * A requested source list yields exactly the requested names that exist on
   * the object, each with the outcome of calling it; unknown names are skipped.
   */
  lemma RequestedKeys(w: World, names: seq<string>, subject: string)
    ensures Requested(Bound(w, subject), JList(seq(|names|, i requires 0 <= i < |names| => JStr(names[i])))) ==
      Ok(Gathered(names, Bound(w, subject)))
    ensures forall k :: k in Keys(Gathered(names, Bound(w, subject))) <==> k in names && !AttrOf(k).NoAttr?
    ensures forall k :: k in Keys(Gathered(names, Bound(w, subject))) ==>
      Find(Gathered(names, Bound(w, subject)), k) == Some(Call(k, w, subject))
  {
    RequestedList(Bound(w, subject), names);
    GatheredContents(names, Bound(w, subject));
  }

  /** A list of strings is visited name by name. */
  lemma RequestedList(call: string -> Option<Outcome>, names: seq<string>)
    ensures Requested(call, JList(seq(|names|, i requires 0 <= i < |names| => JStr(names[i])))) ==
      Ok(Gathered(names, call))
  {
    var items := seq(|names|, i requires 0 <= i < |names| => JStr(names[i]));
    assert SourceList(items).value == names;
  }

  /**
   * The loop `for source in sources: if hasattr(osint, source): ...` of the
   * two check routes; `call` gives nothing for a missing attribute and the
   * outcome of calling it otherwise.
   */
  method RunRequested(call: string -> Option<Outcome>, sources: Json) returns (r: Result<Dict<Outcome>, Fault>)
    ensures r == Requested(call, sources)
  {
    var iterated := Iterate(sources);
    if iterated.Err? {
      return Err(iterated.error);
    }
    var items := iterated.value;
    var results: Dict<Outcome> := [];
    for i := 0 to |items|
      invariant forall j :: 0 <= j < i ==> items[j].JStr?
      invariant results == Gathered(SourceList(items[..i]).value, call)
    {
      if !items[i].JStr? {
        assert SourceList(items).None?;
        return Err(TypeFault);
      }
      var name := items[i].s;
      SourceListSnoc(items, i);
      GatheredSnoc(SourceList(items[..i]).value, name, call);
      var outcome := call(name);
      if outcome.Some? {
        results := Put(results, name, outcome.value);
      }
    }
    assert items[..|items|] == items;
    r := Ok(results);
  }

  lemma SourceListSnoc(items: seq<Json>, i: nat)
    requires i < |items| && forall j :: 0 <= j <= i ==> items[j].JStr?
    ensures SourceList(items[..i]).Some? && SourceList(items[..i + 1]).Some?
    ensures SourceList(items[..i + 1]).value == SourceList(items[..i]).value + [items[i].s]
  {
    assert forall j :: 0 <= j < i ==> items[..i][j] == items[j];
    assert forall j :: 0 <= j < i + 1 ==> items[..i + 1][j] == items[j];
  }

  // ---------------------------------------------------------------- /api/email/check

  /**
   * The checks of api_email_check: a present email, stripped and lower-cased
   * before it is validated; the source list defaults to haveibeenpwned and
   * emailrep.
   */
  function EmailInput(isEmail: string -> bool, data: Json): (r: Result<(string, Json), Failure>)
    ensures !Truthy(data) || (data.JObject? && "email" !in Keys(data.fields)) ==>
      r == Err(BadRequest(EmailRequired))
    ensures (data.JObject? && "email" in Keys(data.fields) && Lookup(data.fields, "email").value.JStr? &&
             ValidateEmail(isEmail, Lower(Strip(Lookup(data.fields, "email").value.s)))) ==>
      r == Ok((Lower(Strip(Lookup(data.fields, "email").value.s)), Get(data, "sources", DefaultEmailSources).value))
    ensures r.Ok? ==> ValidateEmail(isEmail, r.value.0)
    ensures r.Ok? ==>
      (data.JObject? && "email" in Keys(data.fields) &&
       Lookup(data.fields, "email").value.JStr? &&
       r.value.0 == Lower(Strip(Lookup(data.fields, "email").value.s)) &&
       r.value.1 == Get(data, "sources", DefaultEmailSources).value)
    ensures (data.JObject? && "email" in Keys(data.fields) && Lookup(data.fields, "email").value.JStr? &&
             !ValidateEmail(isEmail, Lower(Strip(Lookup(data.fields, "email").value.s)))) ==>
      r == Err(BadRequest(EmailInvalid))
  {
    var raw :- RequiredField(data, "email", EmailRequired);
    var stripped :- Stripped(raw);
    var email := Lower(stripped);
    var sources :- Lift(Get(data, "sources", DefaultEmailSources));
    if !ValidateEmail(isEmail, email) then Err(BadRequest(EmailInvalid)) else Ok((email, sources))
  }

  /** api_email_check: the validated address is run through every requested source that exists. */
  method ApiEmailCheck(w: World, data: Json, now: string) returns (resp: Response)
    ensures EmailInput(w.isEmail, data).Err? ==> resp == FailureResponse(EmailInput(w.isEmail, data).error)
    ensures EmailInput(w.isEmail, data).Ok? ==>
      var (email, sources) := EmailInput(w.isEmail, data).value;
      resp == match Requested(Bound(w, email), sources)
              case Err(_) => Response(500, InternalError)
              case Ok(results) => Response(200, Checked(email, results, now))
  {
    var input := EmailInput(w.isEmail, data);
    if input.Err? {
      return FailureResponse(input.error);
    }
    var (email, sources) := input.value;
    var results := RunRequested(Bound(w, email), sources);
    if results.Err? {
      return Response(500, InternalError);
    }
    resp := Response(200, Checked(email, results.value, now));
  }

  // ---------------------------------------------------------------- /api/username/search

  /**
   * The checks of api_username_search: a present username, stripped and then
   * validated; the source list defaults to sherlock.
   */
  function UsernameInput(data: Json): (r: Result<(string, Json), Failure>)
    ensures !Truthy(data) || (data.JObject? && "username" !in Keys(data.fields)) ==>
      r == Err(BadRequest(UsernameRequired))
    ensures (data.JObject? && "username" in Keys(data.fields) && Lookup(data.fields, "username").value.JStr? &&
             ValidateUsername(Strip(Lookup(data.fields, "username").value.s))) ==>
      r == Ok((Strip(Lookup(data.fields, "username").value.s), Get(data, "sources", DefaultUsernameSources).value))
    ensures r.Ok? ==> ValidateUsername(r.value.0)
    ensures r.Ok? ==>
      (data.JObject? && "username" in Keys(data.fields) &&
       Lookup(data.fields, "username").value.JStr? &&
       r.value.0 == Strip(Lookup(data.fields, "username").value.s) &&
       r.value.1 == Get(data, "sources", DefaultUsernameSources).value)
    ensures (data.JObject? && "username" in Keys(data.fields) && Lookup(data.fields, "username").value.JStr? &&
             !ValidateUsername(Strip(Lookup(data.fields, "username").value.s))) ==>
      r == Err(BadRequest(UsernameInvalid))
  {
    var raw :- RequiredField(data, "username", UsernameRequired);
    var username :- Stripped(raw);
    var sources :- Lift(Get(data, "sources", DefaultUsernameSources));
    if !ValidateUsername(username) then Err(BadRequest(UsernameInvalid)) else Ok((username, sources))
  }

  /** api_username_search: the validated username is run through every requested source that exists. */
  method ApiUsernameSearch(w: World, data: Json, now: string) returns (resp: Response)
    ensures UsernameInput(data).Err? ==> resp == FailureResponse(UsernameInput(data).error)
    ensures UsernameInput(data).Ok? ==>
      var (username, sources) := UsernameInput(data).value;
      resp == match Requested(Bound(w, username), sources)
              case Err(_) => Response(500, InternalError)
              case Ok(results) => Response(200, Checked(username, results, now))
  {
    var input := UsernameInput(data);
    if input.Err? {
      return FailureResponse(input.error);
    }
    var (username, sources) := input.value;
    var results := RunRequested(Bound(w, username), sources);
    if results.Err? {
      return Response(500, InternalError);
    }
    resp := Response(200, Checked(username, results.value, now));
  }

  // ---------------------------------------------------------------- /api/reports

  /** `filename.endswith('.json')`: the entries the report routes look at. */
  predicate IsJsonName(name: string) {
    EndsWith(name, ".json")
  }

  /** The entries whose name ends in ".json", in directory order. */
  function JsonFiles(entries: seq<FileInfo>): (r: seq<FileInfo>)
    ensures |r| <= |entries|
    ensures forall f :: f in r <==> f in entries && IsJsonName(f.filename)
  {
    if entries == [] then []
    else
      var last := entries[|entries| - 1];
      var init := entries[..|entries| - 1];
      LastSplit(entries);
      JsonFiles(init) + if IsJsonName(last.filename) then [last] else []
  }

  /** `created` strings in descending order, as `sort(key=created, reverse=True)` leaves them. */
  predicate NewestFirst(s: seq<FileInfo>) {
    forall i, j :: 0 <= i < j < |s| ==> !StrLt(s[i].created, s[j].created)
  }

  /**
   * Places `f` in front of the first entry that is not strictly newer, so
   * that entries with equal `created` keep their order, as the stable sort does.
   */
  function InsertByCreated(f: FileInfo, s: seq<FileInfo>): (r: seq<FileInfo>)
    requires NewestFirst(s)
    ensures multiset(r) == multiset(s) + multiset{f}
    ensures NewestFirst(r)
  {
    if s == [] then [f]
    else if StrLt(f.created, s[0].created) then
      var rest := InsertByCreated(f, s[1..]);
      InsertBehindHead(f, s, rest);
      [s[0]] + rest
    else
      InsertAtHead(f, s);
      [f] + s
  }

  /** An entry no newer than every later one, put in front of a sorted list, keeps it sorted. */
  lemma PrependNewest(x: FileInfo, rest: seq<FileInfo>)
    requires NewestFirst(rest)
    requires forall j :: 0 <= j < |rest| ==> !StrLt(x.created, rest[j].created)
    ensures NewestFirst([x] + rest)
  {
    var r := [x] + rest;
    forall i, j | 0 <= i < j < |r|
      ensures !StrLt(r[i].created, r[j].created)
    {
      assert r[j] == rest[j - 1];
      if i > 0 {
        assert r[i] == rest[i - 1];
      }
    }
  }

  /** The head stays first when the inserted entry is strictly older. */
  lemma InsertBehindHead(f: FileInfo, s: seq<FileInfo>, rest: seq<FileInfo>)
    requires s != [] && NewestFirst(s) && StrLt(f.created, s[0].created)
    requires multiset(rest) == multiset(s[1..]) + multiset{f} && NewestFirst(rest)
    ensures multiset([s[0]] + rest) == multiset(s) + multiset{f}
    ensures NewestFirst([s[0]] + rest)
  {
    HeadSplit(s);
    forall j | 0 <= j < |rest|
      ensures !StrLt(s[0].created, rest[j].created)
    {
      assert rest[j] in multiset(rest);
      if rest[j] == f {
        StrLtAsymmetric(f.created, s[0].created);
      } else {
        assert rest[j] in multiset(s[1..]);
        var k :| 0 <= k < |s[1..]| && s[1..][k] == rest[j];
        assert s[k + 1] == rest[j];
      }
    }
    PrependNewest(s[0], rest);
  }

  /** An entry at least as new as the head goes first. */
  lemma InsertAtHead(f: FileInfo, s: seq<FileInfo>)
    requires s != [] && NewestFirst(s) && !StrLt(f.created, s[0].created)
    ensures NewestFirst([f] + s)
  {
    forall j | 0 <= j < |s|
      ensures !StrLt(f.created, s[j].created)
    {
      StrLtTotal(f.created, s[0].created);
      if j > 0 && StrLt(s[0].created, f.created) && StrLt(f.created, s[j].created) {
        StrLtTransitive(s[0].created, f.created, s[j].created);
      }
    }
    PrependNewest(f, s);
  }

  /** `reports.sort(key=lambda x: x['created'], reverse=True)` on the collected entries. */
  function SortByCreated(s: seq<FileInfo>): (r: seq<FileInfo>)
    ensures multiset(r) == multiset(s)
    ensures |r| == |s|
    ensures NewestFirst(r)
  {
    if s == [] then []
    else
      assert s == [s[0]] + s[1..];
      var r := InsertByCreated(s[0], SortByCreated(s[1..]));
      assert |r| == |multiset(r)|;
      r
  }

  /**
   * api_list_reports: a missing directory gives an empty list; otherwise the
   * ".json" entries are collected in directory order, sorted newest first,
   * and returned with their number.
   */
  method ApiListReports(dir: Directory) returns (resp: Response)
    ensures dir.Absent? ==> resp == Response(200, NoReports)
    ensures dir.Present? ==>
      resp == Response(200, ReportList(SortByCreated(JsonFiles(dir.entries)), |JsonFiles(dir.entries)|))
  {
    if dir.Absent? {
      return Response(200, NoReports);
    }
    var entries := dir.entries;
    var reports: seq<FileInfo> := [];
    for i := 0 to |entries|
      invariant reports == JsonFiles(entries[..i])
    {
      assert entries[..i + 1][..i] == entries[..i];
      if IsJsonName(entries[i].filename) {
        reports := reports + [entries[i]];
      }
    }
    assert entries[..|entries|] == entries;
    reports := SortByCreated(reports);
    resp := Response(200, ReportList(reports, |reports|));
  }

  /**
   * Each ".json" entry is collected as often as it occurs in the directory,
   * and no other entry is.
   */
  lemma {:induction false} JsonFilesMultiplicity(entries: seq<FileInfo>)
    ensures forall f ::
      multiset(JsonFiles(entries))[f] == (if IsJsonName(f.filename) then multiset(entries)[f] else 0)
  {
    if entries != [] {
      LastSplit(entries);
      JsonFilesMultiplicity(entries[..|entries| - 1]);
    }
  }

  /**
   * The listing holds exactly the ".json" entries of the directory, each as
   * often as it occurs there, newest first, and `total` is its length.
   */
  lemma ListingIsSortedJsonFiles(entries: seq<FileInfo>)
    ensures var listed := SortByCreated(JsonFiles(entries));
      NewestFirst(listed) && |listed| == |JsonFiles(entries)| &&
      multiset(listed) == multiset(JsonFiles(entries)) &&
      (forall f :: multiset(listed)[f] == if IsJsonName(f.filename) then multiset(entries)[f] else 0) &&
      (forall f :: f in listed <==> f in entries && IsJsonName(f.filename))
  {
    var listed := SortByCreated(JsonFiles(entries));
    JsonFilesMultiplicity(entries);
    forall f
      ensures f in listed <==> f in JsonFiles(entries)
    {
      assert f in listed <==> f in multiset(listed);
      assert f in JsonFiles(entries) <==> f in multiset(JsonFiles(entries));
    }
  }

  // ---------------------------------------------------------------- /api/system/info

  /** `sum(os.path.getsize(f) for f in files)`. */
  function TotalSize(s: seq<FileInfo>): nat {
    if s == [] then 0 else s[0].size + TotalSize(s[1..])
  }

  lemma {:induction false} TotalSizeAppend(s: seq<FileInfo>, f: FileInfo)
    ensures TotalSize(s + [f]) == TotalSize(s) + f.size
  {
    if s != [] {
      assert (s + [f])[1..] == s[1..] + [f];
      TotalSizeAppend(s[1..], f);
    }
  }

  /**
   * api_system_info: counts the ".json" entries of the reports directory and
   * adds up their sizes; a missing directory counts nothing.
   */
  method ApiSystemInfo(dir: Directory) returns (resp: Response)
    ensures dir.Absent? ==> resp == Response(200, SystemInfo(0, 0))
    ensures dir.Present? ==>
      resp == Response(200, SystemInfo(|JsonFiles(dir.entries)|, TotalSize(JsonFiles(dir.entries))))
  {
    var reportsCount := 0;
    var totalSize := 0;
    if dir.Present? {
      var entries := dir.entries;
      for i := 0 to |entries|
        invariant reportsCount == |JsonFiles(entries[..i])|
        invariant totalSize == TotalSize(JsonFiles(entries[..i]))
      {
        JsonFilesStep(entries, i);
        if IsJsonName(entries[i].filename) {
          TotalSizeAppend(JsonFiles(entries[..i]), entries[i]);
          reportsCount := reportsCount + 1;
          totalSize := totalSize + entries[i].size;
        }
      }
      assert entries[..|entries|] == entries;
    }
    resp := Response(200, SystemInfo(reportsCount, totalSize));
  }

  /** One more directory entry is kept exactly when its name ends in ".json". */
  lemma JsonFilesStep(entries: seq<FileInfo>, i: nat)
    requires i < |entries|
    ensures IsJsonName(entries[i].filename) ==> JsonFiles(entries[..i + 1]) == JsonFiles(entries[..i]) + [entries[i]]
    ensures !IsJsonName(entries[i].filename) ==> JsonFiles(entries[..i + 1]) == JsonFiles(entries[..i])
  {
    assert entries[..i + 1][..i] == entries[..i];
    var j := JsonFiles(entries[..i]);
    assert j + [] == j;
  }

  lemma {:induction false} TotalSizeInsert(f: FileInfo, s: seq<FileInfo>)
    requires NewestFirst(s)
    ensures TotalSize(InsertByCreated(f, s)) == f.size + TotalSize(s)
  {
    if s != [] && StrLt(f.created, s[0].created) {
      TotalSizeInsert(f, s[1..]);
    }
  }

  lemma {:induction false} TotalSizeSorted(s: seq<FileInfo>)
    ensures TotalSize(SortByCreated(s)) == TotalSize(s)
  {
    if s != [] {
      TotalSizeSorted(s[1..]);
      TotalSizeInsert(s[0], SortByCreated(s[1..]));
    }
  }

  /**
   * The system counts agree with the listing: `reports_count` is the
   * listing's `total` and `reports_total_size` is the sum of the listed sizes.
   */
  lemma SystemInfoMatchesListing(entries: seq<FileInfo>)
    ensures var listed := SortByCreated(JsonFiles(entries));
      |JsonFiles(entries)| == |listed| && TotalSize(JsonFiles(entries)) == TotalSize(listed)
  {
    TotalSizeSorted(JsonFiles(entries));
  }

  // ---------------------------------------------------------------- /api/reports/<filename>

  /** The file-name guard of the get and download routes: a ".json" name with no path separator. */
  predicate FilenameAllowed(name: string) {
    IsJsonName(name) && '/' !in name && '\\' !in name
  }

  /**
   * api_get_report: a refused name is answered 400 before the path is built;
   * a missing file 404; a file that does not decode 500; otherwise its content.
   */
  function GetReport(reportsDir: string, isFile: string -> bool, load: string -> Result<Json, Fault>,
                     filename: string): (resp: Response)
    ensures resp.status == 400 <==> !FilenameAllowed(filename)
    ensures !FilenameAllowed(filename) ==> resp.body == Refused(BadFilename)
    ensures resp.status == 404 <==> FilenameAllowed(filename) && !isFile(PathJoin(reportsDir, filename))
    ensures resp.status == 404 ==> resp.body == ReportMissing
    ensures resp.status == 200 <==>
      FilenameAllowed(filename) && isFile(PathJoin(reportsDir, filename)) && load(PathJoin(reportsDir, filename)).Ok?
    ensures (FilenameAllowed(filename) && isFile(PathJoin(reportsDir, filename)) &&
             load(PathJoin(reportsDir, filename)).Err?) ==> resp == Response(500, InternalError)
    ensures resp.status == 200 ==> resp.body == ReportContent(load(PathJoin(reportsDir, filename)).value)
  {
    if !FilenameAllowed(filename) then Response(400, Refused(BadFilename))
    else
      var path := PathJoin(reportsDir, filename);
      if !isFile(path) then Response(404, ReportMissing)
      else
        match load(path)
        case Err(_) => Response(500, InternalError)
        case Ok(report) => Response(200, ReportContent(report))
  }

  const ReportMimetype := "application/json"

  /**
   * api_download_report: the same guard, but this route catches its
   * BadRequest only as a generic exception, so a refused name gets 500.
   */
  function DownloadReport(reportsDir: string, isFile: string -> bool, filename: string): (resp: Response)
    ensures resp.status == 500 <==> !FilenameAllowed(filename)
    ensures resp.status == 500 ==> resp.body == InternalError
    ensures resp.status == 404 <==> FilenameAllowed(filename) && !isFile(PathJoin(reportsDir, filename))
    ensures resp.status == 404 ==> resp.body == ReportMissing
    ensures resp.status == 200 <==> FilenameAllowed(filename) && isFile(PathJoin(reportsDir, filename))
    ensures resp.status == 200 ==>
      resp.body == Attachment(PathJoin(reportsDir, filename), filename, ReportMimetype)
  {
    if !FilenameAllowed(filename) then Response(500, InternalError)
    else
      var path := PathJoin(reportsDir, filename);
      if !isFile(path) then Response(404, ReportMissing)
      else Response(200, Attachment(path, filename, ReportMimetype))
  }

  /**
   * Both routes refuse exactly the same names, and a refused name is decided
   * before the directory is looked at: the answer does not depend on the
   * directory, on what exists in it, or on what the files hold.
   */
  lemma GuardSharedAndFirst(dir1: string, isFile1: string -> bool, load1: string -> Result<Json, Fault>,
                            dir2: string, isFile2: string -> bool, load2: string -> Result<Json, Fault>,
                            filename: string)
    ensures GetReport(dir1, isFile1, load1, filename).status == 400 <==>
            DownloadReport(dir2, isFile2, filename).status == 500
    ensures !FilenameAllowed(filename) ==>
      GetReport(dir1, isFile1, load1, filename) == GetReport(dir2, isFile2, load2, filename) &&
      DownloadReport(dir1, isFile1, filename) == DownloadReport(dir2, isFile2, filename)
  {
  }

  /**
   * A name that passes the guard stays in the reports directory: the joined
   * path is the directory, at most one separator, and the name, and the name
   * itself holds no separator.
   */
  lemma GuardedPathStaysInDirectory(reportsDir: string, filename: string)
    requires FilenameAllowed(filename)
    ensures var path := PathJoin(reportsDir, filename);
      path == reportsDir + filename || path == reportsDir + "/" + filename
    ensures forall i :: 0 <= i < |filename| ==> filename[i] != '/' && filename[i] != '\\'
  {
    assert filename[0] in filename;
  }

  /**
   * A report saved under its default name can be fetched back by that name
   * exactly when the target holds no '/' and no '\\' (the stamp and the
   * rest of the name hold neither).
   */
  lemma DefaultNamePassesGuard(target: string, clock: Clock)
    requires ValidClock(clock)
    ensures FilenameAllowed(DefaultFilename(target, Stamp(clock))) <==> '/' !in target && '\\' !in target
  {
    var stamp := Stamp(clock);
    DefaultFilenameLayout(target, stamp);
    DefaultNameSeparator(target, stamp, '/');
    DefaultNameSeparator(target, stamp, '\\');
  }

  /** A separator that the stamp lacks is in the default name exactly when it is in the target. */
  lemma DefaultNameSeparator(target: string, stamp: string, c: char)
    requires c == '/' || c == '\\'
    requires forall i :: 0 <= i < |stamp| ==> ('0' <= stamp[i] <= '9' || stamp[i] == '_')
    ensures c in DefaultFilename(target, stamp) <==> c in target
  {
    var safe := ReplaceChar(ReplaceChar(target, '@', '_'), '.', '_');
    var tail := "_" + stamp + ".json";
    assert DefaultFilename(target, stamp) == "osint_report_" + safe + tail;
    assert c !in tail;
    assert c in safe <==> c in target by {
      if c in target {
        var i :| 0 <= i < |target| && target[i] == c;
        assert safe[i] == c;
      }
      if c in safe {
        var k :| 0 <= k < |safe| && safe[k] == c;
        assert target[k] == c;
      }
    }
  }
}
