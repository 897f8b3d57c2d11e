/**
 * What one source returns (the dicts built in email_toolkit/osint.py:116-335)
 * and the messages they carry.  Message texts are opaque: each message is a
 * constructor holding only the values the source interpolates into it.
 */
module Outcomes {
  import opened Wrappers
  import opened PyValues

  /** The nine sources, named as the facade's methods. */
  datatype Source =
    | HaveIBeenPwned | HunterIo | LeakCheck | EmailRep | Clearbit
    | Holehe | SocialScan | Sherlock | Maigret

  /** The method name of a source, which is also its key in a results dict. */
  function SourceName(s: Source): string {
    match s
    case HaveIBeenPwned => "haveibeenpwned"
    case HunterIo => "hunterio"
    case LeakCheck => "leakcheck"
    case EmailRep => "emailrep"
    case Clearbit => "clearbit"
    case Holehe => "holehe"
    case SocialScan => "socialscan"
    case Sherlock => "sherlock"
    case Maigret => "maigret"
  }

  /** The error messages placed under an `'error'` key. */
  datatype Msg =
    | InvalidEmail                               // "invalid email address"
    | InvalidUsername                            // "invalid username"
    | MissingKey(service: Source)                // "API key required for <service>"
    | ApiStatus(code: int)                       // "API error: <code>"
    | ApiStatusText(code: int, text: string)     // "API error: <code> - <body text>"
    | ConnectionTimeout                          // "connection timed out"
    | Unexpected(fault: Fault)                   // "unexpected error: <exception>"
    | CommandUnavailable(command: string)        // "command not available: <cmd>"
    | CommandTimeout(seconds: nat)               // "command timed out (<n> seconds)"
    | CommandNotFound(command: string)           // "command not found: <cmd>"
    | ExecutionFault(fault: Fault)               // "execution error: <exception>"
    | ToolStderr(stderr: string)                 // the tool's own error output
    | CommandFailed                              // "command failed" when stderr is empty
    | SourceRaised(source: string, fault: Fault) // "error in <source>: <exception>"
    | UnsupportedTarget                          // "unsupported target type"
    | SearchFailed(fault: Fault)                 // "comprehensive search error: <exception>"

  /** One source's result dict, by shape. */
  datatype Outcome =
    | Failed(error: Msg)                                   // {"error": ...}
    | ToolFailed(error: Msg)                               // {"error": ..., "status": "failed"}
    | BreachesFound(breachCount: nat, breaches: Json, lastBreach: Json)
                                                           // {"status": "found", "breach_count", "breaches", "last_breach"}
    | NoBreaches                                           // {"status": "clean", "breach_count": 0, "message": ...}
    | NotFound                                             // {"status": "not_found", "message": ...}
    | Verification(status: Json, result: Json, score: Json, mxRecords: Json,
                   smtpServer: Json, sources: Json)
    | Reputation(reputation: Json, suspicious: Json, references: Json, blacklisted: Json,
                 maliciousActivity: Json, credentialsLeaked: Json, firstSeen: Json, lastSeen: Json)
    | Person(name: string, location: Json, company: Json, title: Json,
             linkedin: Json, twitter: Json, github: Json)
    | Verbatim(body: Json)                                 // a response body passed through as decoded
    | ToolOutput(output: string)                           // {"output": ..., "status": "success"}

  /** `'error' in outcome`; only a passed-through body can make this raise. */
  function HasErrorKey(o: Outcome): (r: Result<bool, Fault>)
    ensures (o.Failed? || o.ToolFailed?) ==> r == Ok(true)
    ensures r.Err? ==> o.Verbatim?
  {
    match o
    case Failed(_) => Ok(true)
    case ToolFailed(_) => Ok(true)
    case Verbatim(body) => Contains("error", body)
    case _ => Ok(false)
  }

  /** Python truthiness of an outcome: every dict the adapters build is non-empty. */
  predicate OutcomeTruthy(o: Outcome) {
    if o.Verbatim? then Truthy(o.body) else true
  }
}
