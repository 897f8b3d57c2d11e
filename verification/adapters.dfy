/**
 * The source adapters of EnhancedOSINT (email_toolkit/osint.py:116-335).
 * Everything an adapter learns from outside (the email syntax library, the
 * environment, the network, the process table) comes from a `World`; each
 * adapter maps what the world answers to one outcome dict.
 */
module Adapters {
  import opened Wrappers
  import opened Text
  import opened PyValues
  import opened Dicts
  import opened Validator
  import opened Outcomes

  /** One `session.get(...)`: URL, query parameters, per-request headers and timeout. */
  datatype HttpRequest = HttpRequest(url: string, params: seq<(string, string)>,
                                     headers: seq<(string, string)>, timeout: nat)

  /** What `session.get` does: a response (status, `resp.json()`, `resp.text`) or an exception. */
  datatype HttpReply =
    | Answered(status: int, body: Result<Json, Fault>, text: string)
    | TimedOut                      // requests.exceptions.Timeout
    | Unreachable(detail: string)   // any other exception raised by the request

  /** What `subprocess.run(cmd, timeout=...)` does. */
  datatype ProcessRun =
    | Exited(code: int, stdout: string, stderr: string)
    | Expired                       // subprocess.TimeoutExpired
    | NoExecutable                  // FileNotFoundError
    | SpawnFailed(detail: string)   // any other exception

  /**
   * The outside world during one request: the email syntax library, the
   * environment variables, the network, the `<cmd> --version` probe of
   * `_command_exists` (an exception it does not catch is `Err`), the process
   * runner, and, per source, an exception escaping the adapter's own handlers
   * (its email check runs before its `try`).
   */
  datatype World = World(
    isEmail: string -> bool,
    env: string -> Option<string>,
    http: HttpRequest -> HttpReply,
    probe: string -> Result<bool, Fault>,
    run: (seq<string>, nat) -> ProcessRun,
    escapes: Source -> Option<Fault>)

  const HttpTimeout: nat := 15
  const EmailToolTimeout: nat := 120
  const UsernameToolTimeout: nat := 180

  /** The environment variable holding a source's API key, for the sources that need one. */
  function KeyVar(s: Source): Option<string> {
    match s
    case HaveIBeenPwned => Some("HIBP_API_KEY")
    case HunterIo => Some("HUNTER_API_KEY")
    case LeakCheck => Some("LEAKCHECK_API_KEY")
    case Clearbit => Some("CLEARBIT_API_KEY")
    case _ => None
  }

  /** `os.environ.get(name)` followed by `if not api_key`: unset and empty both count as missing. */
  function ApiKey(w: World, name: string): (key: Option<string>)
    ensures key.Some? <==> w.env(name).Some? && w.env(name).value != ""
    ensures key.Some? ==> key.value == w.env(name).value
  {
    match w.env(name)
    case Some(k) => if k == "" then None else Some(k)
    case None => None
  }

  /** The request each HTTP source sends for `email` with credential `key` (unused by emailrep). */
  function RequestFor(s: Source, email: string, key: string): HttpRequest {
    match s
    case HaveIBeenPwned =>
      HttpRequest("https://haveibeenpwned.com/api/v3/breachedaccount/" + email + "?truncateResponse=false",
                  [], [("hibp-api-key", key), ("User-Agent", "OSINT-Toolkit/2.0")], HttpTimeout)
    case HunterIo =>
      HttpRequest("https://api.hunter.io/v2/email-verifier",
                  [("email", email), ("api_key", key)], [], HttpTimeout)
    case LeakCheck =>
      HttpRequest("https://leakcheck.io/api/public",
                  [("key", key), ("check", email), ("type", "email")], [], HttpTimeout)
    case EmailRep =>
      HttpRequest("https://emailrep.io/" + email, [], [], HttpTimeout)
    case Clearbit | Holehe | SocialScan | Sherlock | Maigret =>   // only clearbit sends a request
      HttpRequest("https://person.clearbit.com/v2/people/find?email=" + email,
                  [], [("Authorization", "Bearer " + key)], HttpTimeout)
  }

  /** An exception inside an adapter's `try` becomes its "unexpected error" dict. */
  function Guard(r: Result<Outcome, Fault>): Outcome {
    match r
    case Ok(o) => o
    case Err(f) => Failed(Unexpected(f))
  }

  // ---------------------------------------------------------------- haveibeenpwned

  /** The key `max` compares breaches by: `x.get('BreachDate', '')`. */
  function BreachDate(x: Json): Result<Json, Fault> {
    Get(x, "BreachDate", JStr(""))
  }

  /**
   * The rest of `max(items, key=key)` after `items[..i]`: the best index so far
   * is replaced only by a strictly greater key, so the first maximum wins; a
   * key that raises, or two keys that do not compare, abort it.
   */
  function MaxFrom(items: seq<Json>, key: Json -> Result<Json, Fault>, i: nat, best: nat, bestKey: Json): (r: Result<nat, Fault>)
    requires best < i <= |items|
    ensures r.Ok? ==> r.value < |items|
    decreases |items| - i
  {
    if i == |items| then Ok(best)
    else
      var k :- key(items[i]);
      var greater :- Gt(k, bestKey);
      if greater then MaxFrom(items, key, i + 1, i, k) else MaxFrom(items, key, i + 1, best, bestKey)
  }

  /** `max(items, key=lambda x: x.get('BreachDate', ''))`, as the index of the item returned. */
  function MaxByBreachDate(items: seq<Json>): (r: Result<nat, Fault>)
    requires items != []
    ensures r.Ok? ==> r.value < |items|
  {
    var k0 :- BreachDate(items[0]);
    MaxFrom(items, BreachDate, 1, 0, k0)
  }

  /** `max(breaches, key=...)['Name'] if breaches else None`. */
  function LastBreach(breaches: Json): Result<Json, Fault> {
    if !Truthy(breaches) then Ok(JNull)
    else
      match breaches
      case JList(items) =>
        var k :- MaxByBreachDate(items);
        Subscript(items[k], "Name")
      case JObject(_) => Err(AttributeFault)   // iterating a dict gives its keys, strings have no `.get`
      case JStr(_) => Err(AttributeFault)      // iterating a string gives strings
      case _ => Err(TypeFault)
  }

  /** The dict built from a 200 response's decoded body. */
  function BreachReport(breaches: Json): Result<Outcome, Fault> {
    var n :- Len(breaches);
    var last :- LastBreach(breaches);
    Ok(BreachesFound(n, breaches, last))
  }

  /** haveibeenpwned(email). */
  function HaveIBeenPwnedCheck(w: World, email: string): Outcome {
    if !ValidateEmail(w.isEmail, email) then Failed(InvalidEmail)
    else
      match ApiKey(w, "HIBP_API_KEY")
      case None => Failed(MissingKey(HaveIBeenPwned))
      case Some(key) =>
        match w.http(RequestFor(HaveIBeenPwned, email, key))
        case TimedOut => Failed(ConnectionTimeout)
        case Unreachable(d) => Failed(Unexpected(NetworkFault(d)))
        case Answered(code, body, text) =>
          if code == 200 then
            (match body
             case Err(f) => Failed(Unexpected(f))
             case Ok(b) => Guard(BreachReport(b)))
          else if code == 404 then NoBreaches
          else Failed(ApiStatusText(code, text))
  }

  // ---------------------------------------------------------------- hunterio

  /** The fields kept from a 200 body; `None` when the body has no 'data'. */
  function VerificationReport(data: Json): Result<Option<Outcome>, Fault> {
    var has :- Contains("data", data);
    if !has then Ok(None)
    else
      var result :- Subscript(data, "data");
      var status :- Get(result, "status", JStr("unknown"));
      var verdict :- Get(result, "result", JStr("unknown"));
      var score :- Get(result, "score", JInt(0));
      var mx :- Get(result, "mx_records", JBool(false));
      var smtp :- Get(result, "smtp_server", JBool(false));
      var sources :- Get(result, "sources", JList([]));
      Ok(Some(Verification(status, verdict, score, mx, smtp, sources)))
  }

  /** hunterio(email). */
  function HunterCheck(w: World, email: string): Outcome {
    if !ValidateEmail(w.isEmail, email) then Failed(InvalidEmail)
    else
      match ApiKey(w, "HUNTER_API_KEY")
      case None => Failed(MissingKey(HunterIo))
      case Some(key) =>
        match w.http(RequestFor(HunterIo, email, key))
        case TimedOut => Failed(Unexpected(RequestTimeout))
        case Unreachable(d) => Failed(Unexpected(NetworkFault(d)))
        case Answered(code, body, _) =>
          if code == 200 then
            (match body
             case Err(f) => Failed(Unexpected(f))
             case Ok(data) =>
               match VerificationReport(data)
               case Err(f) => Failed(Unexpected(f))
               case Ok(None) => Failed(ApiStatus(200))
               case Ok(Some(o)) => o)
          else Failed(ApiStatus(code))
  }

  // ---------------------------------------------------------------- leakcheck

  /** leakcheck(email): a 200 body is returned as decoded. */
  function LeakCheckQuery(w: World, email: string): Outcome {
    if !ValidateEmail(w.isEmail, email) then Failed(InvalidEmail)
    else
      match ApiKey(w, "LEAKCHECK_API_KEY")
      case None => Failed(MissingKey(LeakCheck))
      case Some(key) =>
        match w.http(RequestFor(LeakCheck, email, key))
        case TimedOut => Failed(Unexpected(RequestTimeout))
        case Unreachable(d) => Failed(Unexpected(NetworkFault(d)))
        case Answered(code, body, _) =>
          if code == 200 then
            (match body
             case Err(f) => Failed(Unexpected(f))
             case Ok(b) => Verbatim(b))
          else Failed(ApiStatus(code))
  }

  // ---------------------------------------------------------------- emailrep

  function ReputationReport(data: Json): Result<Outcome, Fault> {
    var reputation :- Get(data, "reputation", JStr("unknown"));
    var suspicious :- Get(data, "suspicious", JBool(false));
    var references :- Get(data, "references", JInt(0));
    var blacklisted :- Get(data, "blacklisted", JBool(false));
    var malicious :- Get(data, "malicious_activity", JBool(false));
    var leaked :- Get(data, "credentials_leaked", JBool(false));
    var firstSeen :- Get(data, "first_seen", JNull);
    var lastSeen :- Get(data, "last_seen", JNull);
    Ok(Reputation(reputation, suspicious, references, blacklisted, malicious, leaked, firstSeen, lastSeen))
  }

  /** emailrep(email): needs no API key. */
  function EmailRepQuery(w: World, email: string): Outcome {
    if !ValidateEmail(w.isEmail, email) then Failed(InvalidEmail)
    else
      match w.http(RequestFor(EmailRep, email, ""))
      case TimedOut => Failed(Unexpected(RequestTimeout))
      case Unreachable(d) => Failed(Unexpected(NetworkFault(d)))
      case Answered(code, body, _) =>
        if code == 200 then
          (match body
           case Err(f) => Failed(Unexpected(f))
           case Ok(data) => Guard(ReputationReport(data)))
        else if code == 404 then NotFound
        else Failed(ApiStatus(code))
  }

  // ---------------------------------------------------------------- clearbit

  /** `data.get(outer, {}).get(inner, '')`. */
  function Nested(data: Json, outer: string, inner: string): Result<Json, Fault> {
    var o :- Get(data, outer, JObject([]));
    Get(o, inner, JStr(""))
  }

  function PersonReport(data: Json): Result<Outcome, Fault> {
    var given :- Nested(data, "name", "givenName");
    var family :- Nested(data, "name", "familyName");
    var city :- Nested(data, "geo", "city");
    var company :- Nested(data, "employment", "name");
    var title :- Nested(data, "employment", "title");
    var linkedin :- Nested(data, "linkedin", "handle");
    var twitter :- Nested(data, "twitter", "handle");
    var github :- Nested(data, "github", "handle");
    Ok(Person(Strip(ToStr(given) + " " + ToStr(family)), city, company, title, linkedin, twitter, github))
  }

  /** clearbit(email). */
  function ClearbitLookup(w: World, email: string): Outcome {
    if !ValidateEmail(w.isEmail, email) then Failed(InvalidEmail)
    else
      match ApiKey(w, "CLEARBIT_API_KEY")
      case None => Failed(MissingKey(Clearbit))
      case Some(key) =>
        match w.http(RequestFor(Clearbit, email, key))
        case TimedOut => Failed(Unexpected(RequestTimeout))
        case Unreachable(d) => Failed(Unexpected(NetworkFault(d)))
        case Answered(code, body, text) =>
          if code == 200 then
            (match body
             case Err(f) => Failed(Unexpected(f))
             case Ok(data) => Guard(PersonReport(data)))
          else if code == 404 then NotFound
          else Failed(ApiStatusText(code, text))
  }

  // ---------------------------------------------------------------- external tools

  /**
   * safe_subprocess_call(cmd, timeout): the command runs only after the probe
   * found it; a success carries the tool's standard output, and every other
   * path yields a dict with an 'error' key.
   */
  function SafeSubprocessCall(w: World, cmd: seq<string>, timeout: nat): (o: Outcome)
    ensures o.ToolOutput? <==>
      cmd != [] && w.probe(cmd[0]) == Ok(true) && w.run(cmd, timeout).Exited? && w.run(cmd, timeout).code == 0
    ensures o.ToolOutput? ==> o.output == w.run(cmd, timeout).stdout
    ensures HasErrorKey(o) == Ok(!o.ToolOutput?)
    ensures cmd != [] && w.probe(cmd[0]) == Ok(false) ==> o == Failed(CommandUnavailable(cmd[0]))
    ensures cmd != [] && w.probe(cmd[0]) == Ok(true) ==>
      match w.run(cmd, timeout)
      case Exited(code, _, err) =>
        code != 0 ==> o == ToolFailed(if err != "" then ToolStderr(err) else CommandFailed)
      case Expired => o == Failed(CommandTimeout(timeout))
      case NoExecutable => o == Failed(CommandNotFound(cmd[0]))
      case SpawnFailed(_) => o.Failed? && o.error.ExecutionFault?
  {
    if cmd == [] then Failed(ExecutionFault(IndexFault))
    else
      match w.probe(cmd[0])
      case Err(f) => Failed(ExecutionFault(f))
      case Ok(found) =>
        if !found then Failed(CommandUnavailable(cmd[0]))
        else
          match w.run(cmd, timeout)
          case Exited(code, out, err) =>
            if code == 0 then ToolOutput(out)
            else ToolFailed(if err != "" then ToolStderr(err) else CommandFailed)
          case Expired => Failed(CommandTimeout(timeout))
          case NoExecutable => Failed(CommandNotFound(cmd[0]))
          case SpawnFailed(d) => Failed(ExecutionFault(OsFault(d)))
  }

  /**
   * A command the probe did not find is never run: the outcome is the same
   * whatever running it would have done.
   */
  lemma UnavailableCommandNeverRuns(w: World, cmd: seq<string>, timeout: nat,
                                    run: (seq<string>, nat) -> ProcessRun)
    requires cmd != [] && w.probe(cmd[0]) != Ok(true)
    ensures SafeSubprocessCall(w.(run := run), cmd, timeout) == SafeSubprocessCall(w, cmd, timeout)
    ensures SafeSubprocessCall(w, cmd, timeout).Failed?
  {
  }

  /** The argument vector each tool source runs for a target. */
  function ToolCommand(s: Source, target: string): seq<string> {
    match s
    case Holehe => ["holehe", target]
    case SocialScan => ["socialscan", target]
    case Sherlock => ["sherlock", Sanitized(target), "--print-found"]
    case Maigret | HaveIBeenPwned | HunterIo | LeakCheck | EmailRep | Clearbit =>   // only maigret runs a tool
      ["maigret", Sanitized(target), "--print-found"]
  }

  /** socialscan(email) and holehe(email). */
  function EmailToolCheck(s: Source, w: World, email: string): Outcome
    requires s == Holehe || s == SocialScan
  {
    if !ValidateEmail(w.isEmail, email) then Failed(InvalidEmail)
    else SafeSubprocessCall(w, ToolCommand(s, email), EmailToolTimeout)
  }

  /** sherlock(username) and maigret(username): the tool gets the sanitised username. */
  function UsernameToolCheck(s: Source, w: World, username: string): Outcome
    requires s == Sherlock || s == Maigret
  {
    if !ValidateUsername(username) then Failed(InvalidUsername)
    else SafeSubprocessCall(w, ToolCommand(s, username), UsernameToolTimeout)
  }

  // ---------------------------------------------------------------- dispatch

  /** Calling the adapter method of source `s` with the target. */
  function Adapter(s: Source, w: World, target: string): Outcome {
    match s
    case HaveIBeenPwned => HaveIBeenPwnedCheck(w, target)
    case HunterIo => HunterCheck(w, target)
    case LeakCheck => LeakCheckQuery(w, target)
    case EmailRep => EmailRepQuery(w, target)
    case Clearbit => ClearbitLookup(w, target)
    case Holehe => EmailToolCheck(Holehe, w, target)
    case SocialScan => EmailToolCheck(SocialScan, w, target)
    case Sherlock => UsernameToolCheck(Sherlock, w, target)
    case Maigret => UsernameToolCheck(Maigret, w, target)
  }

  /**
   * One call as the aggregation loops make it: an exception escaping the
   * adapter becomes the "error in <source>" dict instead of aborting the loop.
   */
  function Invoke(s: Source, w: World, target: string): Outcome {
    match w.escapes(s)
    case Some(f) => Failed(SourceRaised(SourceName(s), f))
    case None => Adapter(s, w, target)
  }

  // ---------------------------------------------------------------- properties

  /** The sources that take an email address. */
  predicate EmailSource(s: Source) {
    s != Sherlock && s != Maigret
  }

  /** An email source rejects an invalid address before touching a key, the network or a tool. */
  lemma InvalidEmailShortCircuits(s: Source, w: World, email: string)
    requires EmailSource(s) && !ValidateEmail(w.isEmail, email)
    ensures Adapter(s, w, email) == Failed(InvalidEmail)
  {
  }

  /** A username source rejects an invalid username before any tool is probed or run. */
  lemma InvalidUsernameShortCircuits(s: Source, w: World, username: string)
    requires !EmailSource(s) && !ValidateUsername(username)
    ensures Adapter(s, w, username) == Failed(InvalidUsername)
  {
  }

  /** A keyed source with an unset or empty key reports which key is missing and sends nothing. */
  lemma MissingKeyReported(s: Source, w: World, email: string)
    requires KeyVar(s).Some? && ValidateEmail(w.isEmail, email)
    requires ApiKey(w, KeyVar(s).value).None?
    ensures Adapter(s, w, email) == Failed(MissingKey(s))
  {
  }

  /** emailrep needs no key: whatever the environment, it never reports a missing key. */
  lemma EmailRepNeedsNoKey(w: World, email: string)
    ensures !(Adapter(EmailRep, w, email).Failed? && Adapter(EmailRep, w, email).error.MissingKey?)
  {
  }

  /**
   * haveibeenpwned always answers with one of its own dicts: a call never
   * yields a passed-through response body, whatever the reply or exception.
   */
  lemma HaveIBeenPwnedNeverPassesBodyThrough(w: World, email: string)
    ensures !Invoke(HaveIBeenPwned, w, email).Verbatim?
  {
  }

  /**
   * A 404 is "no breaches" for haveibeenpwned and "not found" for emailrep
   * and clearbit, none of which has an error key; hunterio and leakcheck
   * report it as an API error.
   */
  lemma NotFoundMapping(s: Source, w: World, email: string, key: string, body: Result<Json, Fault>, text: string)
    requires EmailSource(s) && s != Holehe && s != SocialScan && ValidateEmail(w.isEmail, email)
    requires KeyVar(s).Some? ==> ApiKey(w, KeyVar(s).value) == Some(key)
    requires w.http(RequestFor(s, email, if s == EmailRep then "" else key)) == Answered(404, body, text)
    ensures s == HaveIBeenPwned ==> Adapter(s, w, email) == NoBreaches
    ensures (s == EmailRep || s == Clearbit) ==> Adapter(s, w, email) == NotFound
    ensures (s == HunterIo || s == LeakCheck) ==> Adapter(s, w, email) == Failed(ApiStatus(404))
    ensures HasErrorKey(Adapter(s, w, email)) == Ok(s == HunterIo || s == LeakCheck)
  {
    match s {
      case HaveIBeenPwned => assert Adapter(s, w, email) == HaveIBeenPwnedCheck(w, email);
      case HunterIo => assert Adapter(s, w, email) == HunterCheck(w, email);
      case LeakCheck => assert Adapter(s, w, email) == LeakCheckQuery(w, email);
      case EmailRep => assert Adapter(s, w, email) == EmailRepQuery(w, email);
      case Clearbit => assert Adapter(s, w, email) == ClearbitLookup(w, email);
    }
  }

  /** hunterio answers 200 without a 'data' key as an API error carrying status 200. */
  lemma HunterWithoutData(w: World, email: string, key: string, fields: seq<(string, Json)>, text: string)
    requires ValidateEmail(w.isEmail, email) && ApiKey(w, "HUNTER_API_KEY") == Some(key)
    requires w.http(RequestFor(HunterIo, email, key)) == Answered(200, Ok(JObject(fields)), text)
    requires "data" !in Keys(fields)
    ensures Adapter(HunterIo, w, email) == Failed(ApiStatus(200))
  {
  }

  /** leakcheck passes a decoded 200 body through unchanged. */
  lemma LeakCheckPassesBodyThrough(w: World, email: string, key: string, body: Json, text: string)
    requires ValidateEmail(w.isEmail, email) && ApiKey(w, "LEAKCHECK_API_KEY") == Some(key)
    requires w.http(RequestFor(LeakCheck, email, key)) == Answered(200, Ok(body), text)
    ensures Adapter(LeakCheck, w, email) == Verbatim(body)
  {
  }

  /** Every entry's key is a string. */
  ghost predicate StringKeyed(items: seq<Json>, key: Json -> Result<Json, Fault>) {
    forall i :: 0 <= i < |items| ==> key(items[i]).Ok? && key(items[i]).value.JStr?
  }

  /** The key strings of the entries, in order. */
  ghost function KeyStrings(items: seq<Json>, key: Json -> Result<Json, Fault>): (ks: seq<string>)
    requires StringKeyed(items, key)
    ensures |ks| == |items| && forall i :: 0 <= i < |items| ==> key(items[i]) == Ok(JStr(ks[i]))
  {
    seq(|items|, i requires 0 <= i < |items| && StringKeyed(items, key) => key(items[i]).value.s)
  }

  /** Breach entries that are dicts whose BreachDate, if any, is a string. */
  ghost predicate Dated(items: seq<Json>) {
    StringKeyed(items, BreachDate)
  }

  /** The BreachDate of every entry, in order. */
  ghost function Dates(items: seq<Json>): seq<string>
    requires Dated(items)
  {
    KeyStrings(items, BreachDate)
  }

  /** `k` is the first index holding the latest of the dates `ds`. */
  ghost predicate FirstLatestIn(ds: seq<string>, k: int) {
    0 <= k < |ds| &&
    (forall j :: 0 <= j < |ds| ==> !StrLt(ds[k], ds[j])) &&
    (forall j :: 0 <= j < k ==> StrLt(ds[j], ds[k]))
  }

  /** `k` is the first index holding the latest BreachDate. */
  ghost predicate FirstLatest(items: seq<Json>, k: int)
    requires Dated(items)
  {
    FirstLatestIn(Dates(items), k)
  }

  /** At most one index is the first latest one. */
  lemma FirstLatestUnique(items: seq<Json>, k1: int, k2: int)
    requires Dated(items) && FirstLatest(items, k1)
    requires 0 <= k2 < |items| && k2 != k1
    ensures !FirstLatest(items, k2)
  {
    var ds := Dates(items);
    if k2 < k1 {
      assert StrLt(ds[k2], ds[k1]);
    } else {
      assert !StrLt(ds[k1], ds[k2]);
    }
  }

  /** One step of `max`: the candidate replaces the best only when its key is strictly greater. */
  lemma MaxFromStep(items: seq<Json>, key: Json -> Result<Json, Fault>, i: nat, best: nat)
    requires StringKeyed(items, key) && best < i < |items|
    ensures var ks := KeyStrings(items, key);
      MaxFrom(items, key, i, best, JStr(ks[best])) ==
      if StrLt(ks[best], ks[i]) then MaxFrom(items, key, i + 1, i, JStr(ks[i]))
      else MaxFrom(items, key, i + 1, best, JStr(ks[best]))
  {
    var ks := KeyStrings(items, key);
    assert Gt(JStr(ks[i]), JStr(ks[best])) == Ok(StrLt(ks[best], ks[i]));
  }

  /** The index `max` settles on, computed on the dates alone. */
  ghost function MaxIndexFrom(ds: seq<string>, i: nat, best: nat): nat
    requires best < i <= |ds|
    decreases |ds| - i
  {
    if i == |ds| then best
    else if StrLt(ds[best], ds[i]) then MaxIndexFrom(ds, i + 1, i)
    else MaxIndexFrom(ds, i + 1, best)
  }

  /** On string keys `max` never raises and returns the index the key strings alone pick. */
  lemma {:induction false} MaxFromIsMaxIndex(items: seq<Json>, key: Json -> Result<Json, Fault>, i: nat, best: nat)
    requires StringKeyed(items, key) && best < i <= |items|
    ensures var ks := KeyStrings(items, key);
      MaxFrom(items, key, i, best, JStr(ks[best])) == Ok(MaxIndexFrom(ks, i, best))
    decreases |items| - i
  {
    var ks := KeyStrings(items, key);
    if i < |items| {
      MaxFromStep(items, key, i, best);
      if StrLt(ks[best], ks[i]) {
        MaxFromIsMaxIndex(items, key, i + 1, i);
      } else {
        MaxFromIsMaxIndex(items, key, i + 1, best);
      }
    }
  }

  /** A date later than the best so far is later than every date before it. */
  lemma NewLatest(ds: seq<string>, i: nat, best: nat)
    requires best < i < |ds|
    requires forall j :: 0 <= j < i ==> !StrLt(ds[best], ds[j])
    requires StrLt(ds[best], ds[i])
    ensures forall j :: 0 <= j < i ==> StrLt(ds[j], ds[i])
    ensures forall j :: 0 <= j < i + 1 ==> !StrLt(ds[i], ds[j])
  {
    var b := ds[best];
    var d := ds[i];
    forall j | 0 <= j < i
      ensures StrLt(ds[j], d)
    {
      StrLtTotal(ds[j], b);
      if ds[j] != b {
        StrLtTransitive(ds[j], b, d);
      }
    }
    forall j | 0 <= j < i + 1
      ensures !StrLt(d, ds[j])
    {
      if j < i {
        StrLtAsymmetric(ds[j], d);
      } else {
        StrLtIrreflexive(d);
      }
    }
  }

  /**
   * The scan `max` performs ends on the first index with the latest date: a
   * later date replaces the best only when strictly greater.
   */
  lemma {:induction false} MaxIndexFindsFirstLatest(ds: seq<string>, i: nat, best: nat)
    requires best < i <= |ds|
    requires forall j :: 0 <= j < i ==> !StrLt(ds[best], ds[j])
    requires forall j :: 0 <= j < best ==> StrLt(ds[j], ds[best])
    ensures FirstLatestIn(ds, MaxIndexFrom(ds, i, best))
    decreases |ds| - i
  {
    if i < |ds| {
      if StrLt(ds[best], ds[i]) {
        NewLatest(ds, i, best);
        MaxIndexFindsFirstLatest(ds, i + 1, i);
      } else {
        MaxIndexFindsFirstLatest(ds, i + 1, best);
      }
    }
  }

  /** `max(items, key=...)` picks the first breach with the latest date. */
  lemma MaxByBreachDateIsFirstLatest(items: seq<Json>)
    requires items != [] && Dated(items)
    ensures MaxByBreachDate(items).Ok? && FirstLatest(items, MaxByBreachDate(items).value)
  {
    var ds := Dates(items);
    StrLtIrreflexive(ds[0]);
    MaxFromIsMaxIndex(items, BreachDate, 1, 0);
    MaxIndexFindsFirstLatest(ds, 1, 0);
  }

  /**
   * On a list of dated breaches, haveibeenpwned's 200 report counts every
   * entry and names the first breach with the latest date (an entry without
   * a 'Name' raises KeyError); an empty list is found with no last breach.
   */
  lemma BreachReportOfList(items: seq<Json>)
    requires Dated(items)
    ensures items == [] ==> BreachReport(JList(items)) == Ok(BreachesFound(0, JList(items), JNull))
    ensures items != [] ==>
      (exists k :: FirstLatest(items, k) &&
         BreachReport(JList(items)) ==
           (match Subscript(items[k], "Name")
            case Ok(name) => Ok(BreachesFound(|items|, JList(items), name))
            case Err(f) => Err(f)))
  {
    if items != [] {
      MaxByBreachDateIsFirstLatest(items);
      var k := MaxByBreachDate(items).value;
      assert FirstLatest(items, k);
    }
  }

  /** The command a tool source runs is the tool's name followed by the (sanitised) target. */
  lemma ToolCommandShape(s: Source, target: string)
    requires !EmailSource(s) || s == Holehe || s == SocialScan
    ensures |ToolCommand(s, target)| >= 2 && ToolCommand(s, target)[0] == ToolName(s).value
    ensures EmailSource(s) ==> ToolCommand(s, target)[1] == target
    ensures !EmailSource(s) ==>
      (ToolCommand(s, target)[1] == Sanitized(target) &&
       forall c :: c in ToolCommand(s, target)[1] ==> c !in DangerousChars)
  {
  }

  // ---------------------------------------------------------------- fault isolation

  /** The executable a tool source runs. */
  function ToolName(s: Source): Option<string> {
    match s
    case Holehe => Some("holehe")
    case SocialScan => Some("socialscan")
    case Sherlock => Some("sherlock")
    case Maigret => Some("maigret")
    case _ => None
  }

  /** The scheme and host every request of an HTTP source starts with. */
  function BaseUrl(s: Source): Option<string> {
    match s
    case HaveIBeenPwned => Some("https://haveibeenpwned.com/")
    case HunterIo => Some("https://api.hunter.io/")
    case LeakCheck => Some("https://leakcheck.io/")
    case EmailRep => Some("https://emailrep.io/")
    case Clearbit => Some("https://person.clearbit.com/")
    case _ => None
  }

  predicate OwnsRequest(s: Source, r: HttpRequest) {
    BaseUrl(s).Some? && StartsWith(r.url, BaseUrl(s).value)
  }

  /**
   * `w` with everything that belongs to source `s` replaced: its key, the
   * replies to its requests, its tool's probe and runs, and the exception
   * that may escape it.
   */
  function Retarget(w: World, s: Source, env: string -> Option<string>, http: HttpRequest -> HttpReply,
                    probe: string -> Result<bool, Fault>, run: (seq<string>, nat) -> ProcessRun,
                    escape: Option<Fault>): World
  {
    World(w.isEmail,
          v => if KeyVar(s) == Some(v) then env(v) else w.env(v),
          r => if OwnsRequest(s, r) then http(r) else w.http(r),
          c => if ToolName(s) == Some(c) then probe(c) else w.probe(c),
          (argv: seq<string>, t: nat) => if argv != [] && ToolName(s) == Some(argv[0]) then run(argv, t) else w.run(argv, t),
          x => if x == s then escape else w.escapes(x))
  }

  /** Requests of one source never start with another source's base URL. */
  lemma RequestsOwnedByTheirSource(s: Source, other: Source, email: string, key: string)
    requires s != other && BaseUrl(other).Some?
    ensures !OwnsRequest(s, RequestFor(other, email, key))
  {
    var url := RequestFor(other, email, key).url;
    RequestStartsWithBaseUrl(other, email, key);
    if BaseUrl(s).Some? {
      BaseUrlsDiffer(s, other);
      assert url[8] == BaseUrl(other).value[8];
    }
  }

  /** Every request of an HTTP source starts with that source's base URL. */
  lemma RequestStartsWithBaseUrl(s: Source, email: string, key: string)
    requires BaseUrl(s).Some?
    ensures OwnsRequest(s, RequestFor(s, email, key))
  {
  }

  /** The base URLs already differ in their ninth character. */
  lemma BaseUrlsDiffer(s: Source, other: Source)
    requires s != other && BaseUrl(s).Some? && BaseUrl(other).Some?
    ensures |BaseUrl(s).value| > 8 && |BaseUrl(other).value| > 8
    ensures BaseUrl(s).value[8] != BaseUrl(other).value[8]
  {
  }

  /** Two worlds that answer alike for everything source `src` reads while handling `target`. */
  ghost predicate AgreeOn(src: Source, w1: World, w2: World, target: string) {
    w1.isEmail(target) == w2.isEmail(target) &&
    (KeyVar(src).Some? ==> w1.env(KeyVar(src).value) == w2.env(KeyVar(src).value)) &&
    (BaseUrl(src).Some? ==> forall k :: w1.http(RequestFor(src, target, k)) == w2.http(RequestFor(src, target, k))) &&
    (ToolName(src).Some? ==>
       w1.probe(ToolName(src).value) == w2.probe(ToolName(src).value) &&
       forall t :: w1.run(ToolCommand(src, target), t) == w2.run(ToolCommand(src, target), t)) &&
    w1.escapes(src) == w2.escapes(src)
  }

  /** A source's outcome depends on nothing but its own inputs. */
  lemma InvokeFrame(src: Source, w1: World, w2: World, target: string)
    requires AgreeOn(src, w1, w2, target)
    ensures Invoke(src, w1, target) == Invoke(src, w2, target)
  {
    if BaseUrl(src).Some? {
      HttpFrame(src, w1, w2, target);
    } else {
      ToolCommandShape(src, target);
      ToolFrame(src, w1, w2, target);
    }
  }

  lemma HttpFrame(src: Source, w1: World, w2: World, target: string)
    requires BaseUrl(src).Some? && AgreeOn(src, w1, w2, target)
    ensures Adapter(src, w1, target) == Adapter(src, w2, target)
  {
    var key := if KeyVar(src).Some? then ApiKey(w1, KeyVar(src).value) else None;
    if KeyVar(src).Some? {
      assert ApiKey(w1, KeyVar(src).value) == ApiKey(w2, KeyVar(src).value);
    }
    var k := if key.Some? then key.value else "";
    assert w1.http(RequestFor(src, target, k)) == w2.http(RequestFor(src, target, k));
  }

  lemma ToolFrame(src: Source, w1: World, w2: World, target: string)
    requires ToolName(src).Some? && AgreeOn(src, w1, w2, target)
    ensures Adapter(src, w1, target) == Adapter(src, w2, target)
  {
    ToolCommandShape(src, target);
    var cmd := ToolCommand(src, target);
    var t := if EmailSource(src) then EmailToolTimeout else UsernameToolTimeout;
    SubprocessFrame(w1, w2, cmd, t);
    if EmailSource(src) {
      assert Adapter(src, w1, target) == EmailToolCheck(src, w1, target);
      assert Adapter(src, w2, target) == EmailToolCheck(src, w2, target);
    } else {
      assert Adapter(src, w1, target) == UsernameToolCheck(src, w1, target);
      assert Adapter(src, w2, target) == UsernameToolCheck(src, w2, target);
    }
  }

  lemma SubprocessFrame(w1: World, w2: World, cmd: seq<string>, timeout: nat)
    requires cmd != [] && w1.probe(cmd[0]) == w2.probe(cmd[0]) && w1.run(cmd, timeout) == w2.run(cmd, timeout)
    ensures SafeSubprocessCall(w1, cmd, timeout) == SafeSubprocessCall(w2, cmd, timeout)
  {
  }

  /**
   * Whatever the key, the replies, the tool or the escaping exception of one
   * source do, every other source's outcome is unchanged.
   */
  lemma FaultIsolation(w: World, s: Source, other: Source, target: string,
                       env: string -> Option<string>, http: HttpRequest -> HttpReply,
                       probe: string -> Result<bool, Fault>, run: (seq<string>, nat) -> ProcessRun,
                       escape: Option<Fault>)
    requires s != other
    ensures Invoke(other, Retarget(w, s, env, http, probe, run, escape), target) == Invoke(other, w, target)
  {
    var w' := Retarget(w, s, env, http, probe, run, escape);
    if BaseUrl(other).Some? {
      forall k: string
        ensures w'.http(RequestFor(other, target, k)) == w.http(RequestFor(other, target, k))
      {
        RequestsOwnedByTheirSource(s, other, target, k);
      }
    }
    if ToolName(other).Some? {
      ToolCommandShape(other, target);
    }
    InvokeFrame(other, w', w, target);
  }
}
