# OSINT toolkit aggregation core, in Dafny

This project models the aggregation engine of an OSINT toolkit and proves
properties about it. The engine has these parts:

- the input validator;
- nine source adapters: five HTTP services and four command-line tools;
- the guarded subprocess runner;
- the report builder, with its breach-keyed risk summary and its report file name;
- the `comprehensive_search` loop over a fixed, ordered source table;
- the name filter of `async_osint_search`;
- the boundary rules of the web API. These are the request checks in front of
  the searches, the loops over a requested source list, the reports listing
  with its filter and sort, the report file-name guard, and the report counts.

The outside world is passed in as values. A `World` holds:

- the e-mail predicate of the validation library;
- the environment;
- one HTTP reply per request;
- the command probe and one process result per argument vector;
- the exception, if any, that escapes each source.

Times are parameters. The reports directory is an abstract listing of
entries, or a set of paths with their decoded contents. Python exceptions are
`Err` values. Python dicts are insertion-ordered sequences of pairs. Messages
are constructors of `Msg`, not texts.

Files:

- `wrappers.dfy`: Option and Result.
- `seqs.dfy`: splitting a sequence at its first or last element.
- `text.dfy`: the string builtins the code uses, and lexicographic order.
- `py_values.dfy`: decoded JSON values and the Python operators applied to them.
- `dicts.dfy`: the ordered dict.
- `validator.dfy`: `OSINTValidator`.
- `outcomes.dfy`: the result dicts of the sources.
- `adapters.dfy`: the adapters and `safe_subprocess_call`.
- `reporter.dfy`: `OSINTReporter`.
- `aggregator.dfy`: `comprehensive_search` and `async_osint_search`.
- `routes.dfy`: the API handlers.

Two places where the code is followed rather than the intended design:

- **The risk summary.** `_generate_summary` raises the risk level only when the
  `haveibeenpwned` entry is a *list*. The adapter always returns a dict, so for
  real adapter output the summary stays at low, with no breach found.
  `Adapters.HaveIBeenPwnedNeverPassesBodyThrough` and
  `Aggregator.GatheredSummaryIsInitial` state this. A breach count of 1 to
  3 therefore does not give "medium".
- **The download route.** A refused file name on the download route is answered
  500, not 400. That handler catches its `BadRequest` only as a generic
  exception.

## Model

| member | source | states |
|---|---|---|
| `Validator.EmptyEmailRejected` | email_toolkit/osint.py:28-30 | An empty address is rejected without consulting the library predicate. |
| `Validator.ValidateEmail` | email_toolkit/osint.py:28-30 | The definition the email checks use: a non-empty address that the library predicate accepts. |
| `Validator.ValidateUsername` | email_toolkit/osint.py:33-38 | A username is accepted exactly when it has at least 3 characters and all are in `[A-Za-z0-9_.-]`, or all but a single trailing newline are. This keeps Python's `$` matching before a final newline. |
| `Validator.PatternMatchesIff` | email_toolkit/osint.py:37-38 | The greedy `^[a-zA-Z0-9_.-]+$` match succeeds iff the string is all class characters, or is class characters followed by one newline. |
| `Validator.UsernameWithoutNewline` | email_toolkit/osint.py:35-38 | Without a trailing newline, acceptance is exactly: length at least 3 and every character in the class. |
| `Validator.TrailingNewlineAccepted` | email_toolkit/osint.py:37-38 | The `$` quirk: "ab\n" is a valid username. |
| `Validator.TrailingNewlineSanitized` | email_toolkit/osint.py:46-51 | The sanitiser drops the newline of such a name, so the tool receives "ab". |
| `Validator.RemoveEach` | email_toolkit/osint.py:49-50 | Removing each denylisted character leaves exactly the characters of the input not on the list, and never lengthens it. |
| `Validator.RemoveEachNoop` | email_toolkit/osint.py:49-50 | Removing characters that do not occur leaves the string unchanged. |
| `Validator.Sanitized` | email_toolkit/osint.py:41-51 | The sanitised string holds only input characters, none of them dangerous; it has no leading or trailing whitespace; it is no longer than the input. |
| `Validator.SanitizeInput` | email_toolkit/osint.py:41-51 | The replace loop over the denylist, followed by `strip`, computes `Sanitized`. |
| `Validator.SanitizeIdempotent` | email_toolkit/osint.py:41-51 | Sanitising twice equals sanitising once. |
| `Outcomes.HasErrorKey` | email_toolkit/osint.py:69-70 | `'error' in r` is true for every error dict. Only a passed-through response body can make it raise. |
| `Adapters.ApiKey` | email_toolkit/osint.py:122-124 | A key counts as present exactly when the variable is set and non-empty, and then it is the variable's value. |
| `Adapters.RequestFor` | email_toolkit/osint.py:126-250 | The definition of each HTTP source's request: URL, query parameters, headers and the 15-second timeout. `RequestStartsWithBaseUrl` states its property. |
| `Adapters.SafeSubprocessCall` | email_toolkit/osint.py:272-297 | Success iff the probe found the command and it exited 0; the output is then its stdout. A missing command, a non-zero exit (stderr, or the fixed message when stderr is empty, with status failed), a timeout, a missing executable and a spawn failure each give their error. Every non-success has an 'error' key. |
| `Adapters.UnavailableCommandNeverRuns` | email_toolkit/osint.py:276-277 | When the probe does not find the command, the outcome is an error and does not depend on what running it would do. |
| `Adapters.InvalidEmailShortCircuits` | email_toolkit/osint.py:116-319 | Every e-mail source answers an invalid address with the invalid-email error, before any key, request or tool. |
| `Adapters.InvalidUsernameShortCircuits` | email_toolkit/osint.py:321-335 | sherlock and maigret answer an invalid username with the invalid-username error. |
| `Adapters.MissingKeyReported` | email_toolkit/osint.py:122-124 | A keyed source without its key reports the missing key and makes no request. |
| `Adapters.EmailRepNeedsNoKey` | email_toolkit/osint.py:209-215 | emailrep never reports a missing key. |
| `Adapters.NotFoundMapping` | email_toolkit/osint.py:142-143 | A 404 is clean with breach count 0 for haveibeenpwned and not-found for emailrep and clearbit, none of them errors. It is an API error for hunterio and leakcheck. |
| `Adapters.HunterWithoutData` | email_toolkit/osint.py:167-180 | A 200 reply to hunterio whose body has no 'data' is the API error for status 200. |
| `Adapters.LeakCheckPassesBodyThrough` | email_toolkit/osint.py:200-201 | A 200 reply to leakcheck is returned as decoded. |
| `Adapters.MaxByBreachDate` | email_toolkit/osint.py:140 | `max(breaches, key=...)` as a left-to-right scan; when it does not raise, it returns the index of an item of the list. `MaxByBreachDateIsFirstLatest` states which one. |
| `Adapters.LastBreach` | email_toolkit/osint.py:140 | The definition of `last_breach`: None for an empty list, else the Name of the `max` entry. `BreachReportOfList` states its value on lists. |
| `Adapters.BreachReport` | email_toolkit/osint.py:134-141 | The definition of the dict built from a 200 body. `BreachReportOfList` states it. |
| `Adapters.HaveIBeenPwnedCheck` | email_toolkit/osint.py:116-151 | The definition of the haveibeenpwned adapter. The short-circuit, missing-key, 404 and frame lemmas state its properties. |
| `Adapters.HaveIBeenPwnedNeverPassesBodyThrough` | email_toolkit/osint.py:116-151 | Whatever the reply or exception, a haveibeenpwned call yields one of the adapter's own dicts, never a passed-through body. |
| `Adapters.HunterCheck` | email_toolkit/osint.py:153-184 | The definition of the hunterio adapter. `HunterWithoutData` and the shared lemmas state its properties. |
| `Adapters.LeakCheckQuery` | email_toolkit/osint.py:186-207 | The definition of the leakcheck adapter. `LeakCheckPassesBodyThrough` and the shared lemmas state its properties. |
| `Adapters.EmailRepQuery` | email_toolkit/osint.py:209-236 | The definition of the emailrep adapter. `EmailRepNeedsNoKey` and the shared lemmas state its properties. |
| `Adapters.PersonReport` | email_toolkit/osint.py:252-262 | The definition of the fields kept from a clearbit 200 body, each read with its default. |
| `Adapters.ClearbitLookup` | email_toolkit/osint.py:238-270 | The definition of the clearbit adapter. The shared lemmas state its properties. |
| `Adapters.FirstLatestUnique` | email_toolkit/osint.py:140 | At most one index is the first entry with the greatest BreachDate. |
| `Adapters.MaxFromIsMaxIndex` | email_toolkit/osint.py:140 | When every key is a string, `max` never raises and returns the index that the key strings alone determine. |
| `Adapters.MaxIndexFindsFirstLatest` | email_toolkit/osint.py:140 | The scan ends on the first index with the greatest date, because a later entry replaces the best only when strictly greater. |
| `Adapters.MaxByBreachDateIsFirstLatest` | email_toolkit/osint.py:140 | `max(breaches, key=BreachDate)` on a non-empty dated list is the first latest entry. |
| `Adapters.BreachReportOfList` | email_toolkit/osint.py:134-141 | On a 200 list, breach_count is the list length and last_breach is the Name of the first latest entry, or None for an empty list. |
| `Adapters.ToolCommandShape` | email_toolkit/osint.py:307-335 | Each tool runs under its own name. holehe and socialscan get the address; sherlock and maigret get the sanitised username, free of dangerous characters. |
| `Adapters.ToolCommand` | email_toolkit/osint.py:307-335 | The definition of each tool's argument vector. `ToolCommandShape` states it. |
| `Adapters.EmailToolCheck` | email_toolkit/osint.py:307-319 | The definition of holehe and socialscan: validate the address, then the guarded call with 120 seconds. |
| `Adapters.UsernameToolCheck` | email_toolkit/osint.py:321-335 | The definition of sherlock and maigret: validate the username, then the guarded call with 180 seconds. |
| `Adapters.Invoke` | email_toolkit/osint.py:393-399 | The definition of one guarded call in a loop: an escaping exception becomes the "error in <source>" dict. `InvokeFrame` and `FaultIsolation` state its properties. |
| `Adapters.RequestStartsWithBaseUrl` | email_toolkit/osint.py:131-250 | Every request of an HTTP source starts with that source's own scheme and host. |
| `Adapters.RequestsOwnedByTheirSource` | email_toolkit/osint.py:131-250 | No HTTP source sends a request under another source's host. |
| `Adapters.InvokeFrame` | email_toolkit/osint.py:393-399 | One source's outcome depends only on its own inputs: its key, its requests' replies, its tool's probe and runs, and its escaping exception. |
| `Adapters.FaultIsolation` | email_toolkit/osint.py:393-399 | Changing everything that belongs to one source, including making it raise, leaves every other source's outcome unchanged. |
| `Reporter.Summarize` | email_toolkit/osint.py:75-90 | The summary keeps 0 social accounts and "unknown" reputation. Breaches are found iff the haveibeenpwned entry is a non-empty list. Risk is high iff that list has more than 3 entries, and low iff no breach was found. |
| `Reporter.NonListEntryKeepsInitialSummary` | email_toolkit/osint.py:85-88 | A dict-shaped haveibeenpwned entry, which is what the adapter returns, leaves the summary at its initial value. |
| `Reporter.CountByErrorKey` | email_toolkit/osint.py:69-70 | The count succeeds iff no entry's `'error' in` raises, and is at most the number of entries. |
| `Reporter.GenerateReport` | email_toolkit/osint.py:60-73 | The definition of generate_report. `ReportMetadata` states its properties. |
| `Reporter.CountIsMultiplicity` | email_toolkit/osint.py:69-70 | The successful and failed counts are the number of entries without and with an 'error' key. |
| `Reporter.ReportMetadata` | email_toolkit/osint.py:60-73 | The report is built iff every entry supports `'error' in`. It keeps the target and the results unchanged. total_sources is the number of entries, failed is the number with an 'error' key, and successful plus failed is the total. |
| `Reporter.BoolMultiplicities` | email_toolkit/osint.py:68-70 | Every entry is counted exactly once, as successful or failed. |
| `Reporter.Stamp` | email_toolkit/osint.py:95 | The `%Y%m%d_%H%M%S` stamp has only digits and one underscore, seven characters from the end. |
| `Reporter.ReportFilename` | email_toolkit/osint.py:94-96 | An explicit non-empty filename is used unchanged. |
| `Reporter.DefaultFilename` | email_toolkit/osint.py:94-96 | The definition of the default report name. `DefaultFilenameLayout` states its layout. |
| `Reporter.DefaultFilenameLayout` | email_toolkit/osint.py:96 | The default name is "osint_report_", then the target with each '@' and '.' replaced by '_', then '_', the stamp, and ".json". |
| `Reporter.DefaultFilenameTargetPart` | email_toolkit/osint.py:96 | The target part of a default name holds no '@' and no '.'. |
| `Reporter.PathJoin` | email_toolkit/osint.py:98 | The joined path ends with the name, and for a relative name starts with the directory. |
| `Reporter.ReportStore.constructor` | email_toolkit/osint.py:56-58 | A reporter starts on its directory with nothing written. |
| `Reporter.ReportStore.SaveReport` | email_toolkit/osint.py:92-103 | The report is written under the chosen name in the reports directory and that path is returned. A failing write raises and records nothing. |
| `Aggregator.AttrOf` | email_toolkit/osint.py:347 | The table of attribute names: a source's name resolves to that source, and the other attributes are exactly the non-adapter attributes of the object. |
| `Aggregator.Call` | email_toolkit/osint.py:359-364 | The definition of `getattr(self, name)(target)` inside the loops' `try`: an adapter runs, and any other attribute raises into the error dict. |
| `Aggregator.Bound` | email_toolkit/osint.py:346-348 | The definition of what a loop records for a name: nothing without `hasattr`, else the call. `BoundSource` states it for the sources. |
| `Aggregator.Gathered` | email_toolkit/osint.py:346-355 | The definition of the dict the loops build, one assignment per name with an attribute. `GatheredContents` and `GatheredKeyOrder` state its properties. |
| `Aggregator.GatheredContents` | email_toolkit/osint.py:346-355 | The loop over names gives distinct keys: exactly the names that resolve to an attribute, each holding the outcome of calling that name. |
| `Aggregator.BoundSource` | email_toolkit/osint.py:393-399 | A source's name resolves to that source, so the loop records that source's outcome under it. |
| `Aggregator.GatheredKeyOrder` | email_toolkit/osint.py:393-399 | Over distinct names that all resolve, the keys are those names in loop order. |
| `Aggregator.GatheredDistinct` | email_toolkit/osint.py:393-399 | Over distinct callable names, the result lists each name once, in table order, with its outcome. |
| `Aggregator.EmailSearchKeys` | email_toolkit/osint.py:383-399 | An email search has exactly the keys haveibeenpwned, hunterio, leakcheck, emailrep, clearbit, holehe and socialscan, in that order. |
| `Aggregator.UsernameSearchKeys` | email_toolkit/osint.py:403-413 | A username search has exactly the keys sherlock and maigret, in that order. |
| `Aggregator.TableEntries` | email_toolkit/osint.py:393-413 | The i-th entry of a search is the i-th source's outcome, or its error entry when it raised. |
| `Aggregator.SearchIsolation` | email_toolkit/osint.py:393-413 | Changing everything that belongs to one source, including making it raise, leaves every other entry of the search unchanged. |
| `Aggregator.GatheredSummaryIsInitial` | email_toolkit/osint.py:75-90 | For any gathered search, the summary is the initial one: low risk, no breach. |
| `Aggregator.WithAttr` | email_toolkit/osint.py:346-349 | The tasks are exactly the requested names that resolve to an attribute. |
| `Aggregator.GatheredWithAttr` | email_toolkit/osint.py:346-355 | Creating tasks for the names with an attribute and awaiting them in order gives the same dict as calling the names directly. |
| `Aggregator.CreateTasks` | email_toolkit/osint.py:346-349 | The first loop keeps the names with an attribute, in order. |
| `Aggregator.AwaitTasks` | email_toolkit/osint.py:351-355 | The second loop records each task's outcome, or its error entry, under its name. |
| `Aggregator.AsyncOsintSearch` | email_toolkit/osint.py:337-357 | The result is the gathered dict of the requested names, or of haveibeenpwned, hunterio, emailrep and leakcheck by default. |
| `Aggregator.TableStep` | email_toolkit/osint.py:393-399 | One more source of the table assigns its outcome under its name. |
| `Aggregator.RunTable` | email_toolkit/osint.py:393-413 | The loop over a source table calls every source once, in table order, and records the gathered dict. |
| `Aggregator.ResolveKind` | email_toolkit/osint.py:370-376 | Email exactly for type "email", or for "auto" when the email check passes. Username exactly for type "username", or for "auto" when the email check fails and the username check passes. Any other type is neither. There is no kind exactly when auto mode finds neither. |
| `Aggregator.ReportedType` | email_toolkit/osint.py:370-374 | The definition of the reported type: "auto" is replaced by the kind it resolved to. |
| `Aggregator.TableFor` | email_toolkit/osint.py:381-413 | The definition of the table each kind runs: the email table, the username table, or none for any other type. |
| `Aggregator.SearchResult` | email_toolkit/osint.py:366-432 | The search is the error dict exactly when the target is unsupported, the report cannot be built, or the save fails. A completed search carries the target, the gathered results of its table, the completion time, and the default-name path in the reports directory. |
| `Aggregator.SearchInvoked` | email_toolkit/osint.py:370-413 | The definition of the sources a search runs: none for an unsupported target, else the whole table of its kind. |
| `Aggregator.AfterSearch` | email_toolkit/osint.py:415-418 | The definition of the saved reports after a search: a completed search adds its report under its path. |
| `Aggregator.Toolkit.constructor` | email_toolkit/osint.py:108-110 | The facade starts with a fresh reporter on "./reports" that has written nothing. |
| `Aggregator.Toolkit.ComprehensiveSearch` | email_toolkit/osint.py:366-432 | An unsupported auto target gives only the error, runs no source and saves nothing. Otherwise the search runs its table, in order, and builds the report from the results. It saves the report under its default name and returns target, type, results, report, path and time. A report or save failure becomes the search error, and nothing is saved. The result is `SearchResult` for its reporter's directory, the sources run are `SearchInvoked`, and the saved reports are `AfterSearch` of the old ones. |
| `Routes.RequiredField` | app.py:107-108 | A falsy body or a missing key is a BadRequest; otherwise the field's value. |
| `Routes.Stripped` | app.py:110 | Only a string has `strip`; any other value raises. |
| `Routes.SearchInput` | app.py:106-118 | A falsy body or a missing target is refused with the target-required 400. The target is stripped first. An empty or over-100-character target is refused with its own reason. Otherwise the target, with the type defaulting to "auto". |
| `Routes.ApiSearch` | app.py:101-146 | A refused request gets its 400 or 500, invokes no source and saves nothing. An accepted one is answered `SearchResponse` of the search's `SearchResult`: 400 with its error when it is the error dict, otherwise 200 with the data. It runs `SearchInvoked`, and the saved reports become `AfterSearch` of the old ones. |
| `Routes.SearchResponse` | app.py:125-134 | `'error' in results` holds exactly for the error dict: it is answered 400 with its error, and a completed search 200 with the whole result. |
| `Routes.SourceList` | app.py:165-166 | The names iterated, when every requested source is a string. |
| `Routes.RequestedKeys` | app.py:163-171 | The keys are exactly the requested names that exist on the object, each with its outcome or its error entry. Unknown names are skipped. |
| `Routes.Requested` | app.py:163-171 | The definition of the dict the source loop builds, or the fault when the loop raises. `RequestedKeys` states its keys and entries. |
| `Routes.RunRequested` | app.py:163-171 | The source loop computes the requested dict. A non-iterable or a non-string name raises. |
| `Routes.EmailInput` | app.py:153-161 | A falsy body or a missing email is refused with the email-required 400. The email is stripped and lower-cased before it is validated. An invalid one is refused; a valid one is accepted, with sources defaulting to haveibeenpwned and emailrep. |
| `Routes.ApiEmailCheck` | app.py:148-190 | A refused request gets its failure response. Otherwise 200 with the address and its requested results, or 500 when the loop raises. |
| `Routes.UsernameInput` | app.py:197-205 | A falsy body or a missing username is refused with the username-required 400. The username is stripped, then validated. An invalid one is refused; a valid one is accepted, with sources defaulting to sherlock. |
| `Routes.ApiUsernameSearch` | app.py:192-234 | A refused request gets its failure response. Otherwise 200 with the username and its requested results, or 500 when the loop raises. |
| `Routes.JsonFiles` | app.py:247-248 | An entry is collected exactly when it is a directory entry whose name ends in ".json"; there are never more than the directory holds. |
| `Routes.JsonFilesMultiplicity` | app.py:247-248 | Each ".json" entry is collected as often as it occurs in the directory, and no other entry is collected. |
| `Routes.InsertByCreated` | app.py:259 | Inserting into a newest-first list keeps it newest first and adds exactly the one entry. |
| `Routes.SortByCreated` | app.py:259 | The sort yields a permutation of its input, ordered by `created`, newest first. |
| `Routes.ApiListReports` | app.py:238-272 | A missing directory lists nothing. Otherwise the ".json" entries, sorted newest first, with total equal to their number. |
| `Routes.ListingIsSortedJsonFiles` | app.py:247-264 | The listing is a permutation of the collected entries: each ".json" entry as often as in the directory, and nothing else. It is newest first, and total is its length. |
| `Routes.TotalSizeAppend` | app.py:357 | Adding one file adds its size to the total. |
| `Routes.ApiSystemInfo` | app.py:344-389 | reports_count is the number of ".json" entries and reports_total_size the sum of their sizes; a missing directory gives 0 and 0. |
| `Routes.TotalSizeSorted` | app.py:259 | Sorting the listing keeps the sum of the sizes. |
| `Routes.SystemInfoMatchesListing` | app.py:247-264 | reports_count equals the listing's total, and reports_total_size equals the sum of the listed sizes. |
| `Routes.FilenameAllowed` | app.py:279-280 | The definition of the guard: a ".json" name with no '/' and no '\\'. |
| `Routes.GetReport` | app.py:274-309 | A name that is not ".json", or holds '/' or '\\', is refused with 400. A missing file gets 404 with the not-found body, an undecodable one 500, and otherwise the decoded content. |
| `Routes.DownloadReport` | app.py:311-340 | The same guard refuses the same names, here with 500. A missing file gets 404; otherwise the attachment, with the name and the JSON type. |
| `Routes.GuardSharedAndFirst` | app.py:279-280 | Both routes refuse exactly the same names, and their answer to a refused name depends on neither the directory nor its files. |
| `Routes.GuardedPathStaysInDirectory` | app.py:279-283 | An accepted name joins to the directory, at most one separator, and the name. The name holds no separator. |
| `Routes.DefaultNamePassesGuard` | app.py:279 | A report saved under its default name passes the guard exactly when the target holds no '/' and no '\\'. |

## Left out

- The HTTP session, aiohttp, `subprocess.run` and the `_command_exists` probe are parameters of `World`. The session's User-Agent header is not modelled.
- `validators.email` is an uninterpreted predicate.
- Environment variables are a function from names to values.
- The clock is a parameter: the report time, the stamp's clock and the completion time.
- `time.sleep(1)` between e-mail sources is not modelled. It only paces the calls.
- Asynchronous scheduling in `async_osint_search` is not modelled. Tasks are awaited in creation order. The 30-second aiohttp session is unused and not modelled.
- Logging, the Flask app, CORS, the rate limiter and the cache are not modelled. The message texts are constructors.
- JSON encoding and decoding, `json.dump` formatting, and `isoformat` output are not modelled.
- Report writes either complete or raise; partial files are not modelled.
- `os.makedirs(reports_dir, exist_ok=True)` in the reporter's constructor is not modelled: the reports directory is assumed to exist. `ReportStore.constructor` starts `written` at the empty map whatever the directory already holds; `written` records only the reports this reporter saves.
- A failing `os.stat` or `os.path.getsize` during listing or counting is not modelled, nor is a failing `send_file`.
- `Text.Lower` folds ASCII letters only.
- `repr`/`str` of decoded values are simplified.
- JSON floats are not modelled: decoded numbers are integers.
- Exceptions are `Err` values.
- In `max`, strings compare by code point and two numbers (booleans as 0 and 1) compare numerically, as in Python. Comparing None, dicts, lists, or a string with a number raises TypeError. Python's ordering of lists is not modelled, nor are floats.
- `hasattr` is a finite table. It holds the nine adapters and the object's other attributes, and calling any of those others raises. Python would accept more names, such as dunder attributes. Some of the listed attributes do not raise in Python, and the model records an error entry for them instead:
  - `safe_subprocess_call` and `_command_exists` return values when called with the target.
  - `async_osint_search` returns a coroutine, which `jsonify` then rejects, so the route answers 500.
  - `comprehensive_search` runs a whole search and saves a report.
- `request.get_json()` is not modelled; each handler receives the decoded body. It is called inside each handler's `try`. A malformed body raises `BadRequest`, which the handler answers with its own 400 and the exception's description. A non-JSON content type raises `UnsupportedMediaType` on recent Werkzeug, which is not a `BadRequest`, so the handler's generic branch answers 500.
- config.py and install_requirements.py are not part of this model. They only read the environment and install packages.
- `Routes.SortByCreated`: the order of entries with equal `created` strings is kept, as in Python's stable sort, but the contract does not state it.
