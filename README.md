# domain-finder lookup pipeline, in Dafny

This project models the lookup core of domain-finder, a small web service
that reports whether a domain name is registered and proposes similar names.
The model covers three files:

- `api/engine.py`, the asynchronous engine. It covers:
  - splitting a domain string into name and TLD;
  - the character check on names;
  - the gated single whois lookup;
  - the fan-out of candidate names over the popular TLDs;
  - `_exclude_errors`, which drops failed tasks;
  - `_parse_results`, which turns the remaining tuples into `Domain` records.
- `api/utils.py`, the synchronous lookup behind the registration-status
  endpoint. It splits the input and maps each whois-library failure to a
  fixed message.
- `api/validators.py`, the model-field validators for names and TLDs.

The whois libraries are parameters. Each one is a probe function from the
looked-up string to an outcome datatype: `Engine.Probe` for `asyncwhois` and
`Utils.Probe` for `whois`. `asyncio.gather(..., return_exceptions=True)`
applies the single lookup to each task in task order. An exception that
escapes a task is the `Exception` element of `Engine.Settled`. Python's
`(result, err)` tuple is `Lookup.Tagged`. Its `result` list, either `[]` or
`[name, tld, registered]`, is an `Option<Triple>`.

Modules: `Text` holds the Python `str` operations the code uses. `Lookup`
holds the shared tuple shape. `Engine`, `Utils` and `Validators` follow the
three source files. `Agreement` relates the duplicated code across files.
The code works step by step in three places: `_valid_domain_name`,
`_create_whois_tasks` and `_parse_results`. Each becomes a method with a loop,
proved equal to a specification function (`AllowedName`, `TaskQueries` and
`Parsed`). The lemmas state their properties about those functions.

The model follows the code, including where it departs from what its
docstrings or a reader might expect:
- `similar_domains` does not deduplicate candidates.
- It does not keep only unregistered names, whatever its docstring says.
  `SimilarAllAnswered` returns registered and unregistered records alike.
- Results come back in task order, not completion order.
- Neither lookup checks the TLD against a supported list.
- `api/utils.py` does not check the name's characters at all
  (`IllFormedNotRejected`).
- The `id` of a `Domain` record is its entry's index in the list left after
  `_exclude_errors`, not in the task list. So ids shift when an earlier task
  raised.

## Model

| member | source | states |
|---|---|---|
| `Text.SplitOnce` | api/utils.py:34-38 | `split(".", maxsplit=1)` gives the whole string when it has no dot. Otherwise it gives a dot-free prefix and a remainder, which joined by the dot rebuild the input. |
| `Text.SplitOnceAt` | api/engine.py:66 | Splitting `before + "." + after` with a dot-free `before` gives exactly `[before, after]`. The remainder may itself contain dots. |
| `Text.ReplaceChar` | api/validators.py:21 | `replace("_", ".")` keeps the length and changes exactly the `_` characters. |
| `Text.ReplaceCharRemoves` | api/validators.py:21 | After the replacement no `_` remains. |
| `Engine.SplitDomainName` | api/engine.py:61-68 | With a dot, the name is the dot-free prefix and `name + "." + tld` rebuilds the host. Without a dot, the result is `(host, "com")`. |
| `Engine.SplitJoined` | api/engine.py:86 | Splitting `f"{name}.{tld}"` returns `(name, tld)` whenever the name has no dot, even for a dotted TLD such as `co.in`. |
| `Engine.ValidDomainName` | api/engine.py:117-122 | The early-return scan answers true exactly when every character is alphanumeric or `-`. This includes the empty and all-hyphen names. |
| `Engine.LookupTarget` | api/engine.py:28-33 | The string looked up is the input itself when it has a dot, and the input with `.com` appended when it has none. |
| `Engine.WhoisQuery` | api/engine.py:15-37 | The error is empty exactly when a triple is returned. An exception escapes exactly when the gate passes and the probe raises. A success carries the split name and TLD of the input and a name that passes the character rule. `registered` is the truthiness of the answer. Conversely, whenever the gate passes and the probe does not raise, the result is exactly `([name, tld, registered], "")`, with `registered` false for a not-found answer. |
| `Engine.RejectedWithoutLookup` | api/engine.py:25-30 | Empty input gives `([], "Missing required parameter.")`. An invalid name gives `([], "Invalid domain name")`. Both results are the same for every probe, so no lookup is made. |
| `Engine.LookupOnlyAtTarget` | api/engine.py:32-35 | The result depends on the probe only through its answer for the lookup target. |
| `Engine.NotFoundIsUnregistered` | api/engine.py:34-37 | A not-found lookup gives `([name, tld, False], "")`, a success with no error. |
| `Engine.IllFormedRejected` | api/engine.py:28-30 | `"this_is not okay.com"` is refused as an invalid domain name for every probe. |
| `Engine.TaskQueries` | api/engine.py:82-88 | The task list has exactly `len(names) * len(tlds)` queries. |
| `Engine.TaskQueryAtPair` | api/engine.py:84-87 | Name `i` joined with TLD `j` sits at position `i * len(tlds) + j`, which is inside the list (name-major order). |
| `Engine.TaskQueryAt` | api/engine.py:84-87 | Entry `k` is `names[k / len(tlds)] + "." + tlds[k % len(tlds)]`. |
| `Engine.TaskQueriesHaveDots` | api/engine.py:86 | Every scheduled query contains a dot. |
| `Engine.CandidateQueriesPass` | api/engine.py:25-30 | When every candidate is a dot-free valid name, every scheduled query contains a dot and passes both early checks of `whois_query`. |
| `Engine.CreateWhoisTasks` | api/engine.py:82-88 | The nested loops append exactly the name-major task list. |
| `Engine.Gather` | api/engine.py:55 | One settled result per task, in task order. Each is the single lookup of that task's query, so none is lost or reordered. |
| `Engine.GatherAnswered` | api/engine.py:55 | When every query contains a dot (so it is itself the looked-up string), passes the gate, and no lookup raises, the gathered list is exactly one returned tuple per query, each with the query's split and the truthiness of its answer. |
| `Engine.ExcludeErrors` | api/engine.py:91-92 | The result is never longer than the input. A tuple is kept exactly when it occurs in the input. |
| `Engine.ExcludeErrorsAppend` | api/engine.py:91-92 | Filtering distributes over concatenation, so the kept tuples stay in their original order. |
| `Engine.ExcludeErrorsKeepsTuples` | api/engine.py:91-92 | A list with no exceptions passes through unchanged. |
| `Engine.ExcludeErrorsIdempotent` | api/engine.py:91-92 | Filtering the filtered list changes nothing. |
| `Engine.Parsed` | api/engine.py:71-79 | Parsing never yields more records than entries. |
| `Engine.ParsedSound` | api/engine.py:73-77 | Each record's `id` is below `len(results)`. That entry's error is empty, and its triple is the record's name, TLD and registration. |
| `Engine.ParsedOrdered` | api/engine.py:73-77 | Record ids strictly increase, so records follow input order. |
| `Engine.ParsedRecordOf` | api/engine.py:73-77 | Each entry with an empty error has a record carrying its index. |
| `Engine.ParsedComplete` | api/engine.py:73-77 | No entry with an empty error is dropped. Only entries with an error are. |
| `Engine.ParsedAllSucceeded` | api/engine.py:71-79 | Without errors, the records are the entries in order, with ids 0, 1, 2 and so on. |
| `Engine.ParseResults` | api/engine.py:71-79 | The loop over `enumerate(results)` builds exactly the parsed list. |
| `Engine.Candidates` | api/engine.py:52 | The original name comes first, then every suggestion. Duplicates are kept: the multiset of candidates is the name plus the suggestions. |
| `Engine.GatheredUnpack` | api/engine.py:55-58 | Every tuple that survives `_exclude_errors` unpacks, so `_parse_results` never fails on it. |
| `Engine.SimilarDomains` | api/engine.py:40-58 | Builds the tasks, gathers, filters and parses, giving exactly the composed specification. |
| `Engine.SimilarRecordsAreTasks` | api/engine.py:47-58 | There are at most `len(candidates) * 5` records. Each record's name passes the character rule and has no dot. Its name and TLD joined by a dot give back one of the scheduled queries. |
| `Engine.SimilarAllAnswered` | api/engine.py:50-58 | Suppose every candidate is a valid dot-free name and no lookup raises. Then there is one record per task, `(1 + len(suggestions)) * 5` in all, in task order, registered or not. The original name's five records come first and no candidate is deduplicated. |
| `Utils.WhoisHelper` | api/utils.py:25-40 | `None` or `""` raises (modelled as `None`). Otherwise the split is at the first dot, with `(input, "com")` when there is no dot. |
| `Utils.WhoisQuery` | api/utils.py:5-22 | The error is empty exactly when a triple is returned. A missing input gives the missing-parameter message. Every other error is one of the four fixed messages. A success is the helper's split with `registered` equal to the library answer's truthiness. Conversely, whenever the library answers, the result is exactly `([name, tld, registered], "")` for the helper's split. An exception escapes exactly when the library raises an exception the function does not catch. |
| `Utils.FailuresReported` | api/utils.py:10-20 | `FailedParsingWhoisOutput`, `UnknownTld`, `WhoisCommandFailed` and `AttributeError` each map to their fixed message. |
| `Utils.MissingWithoutLookup` | api/utils.py:10-11 | A missing input gets the same answer for every probe, so no lookup is made. |
| `Utils.IllFormedNotRejected` | api/utils.py:5-8 | `"this_is not okay.com"` is not refused. When the library answers, it is reported as a successful lookup. |
| `Validators.DomainNameValidator` | api/validators.py:7-16 | Passes exactly when every character is alphanumeric or `-`, and fails with the fixed message otherwise. |
| `Validators.HyphensPass` | api/validators.py:9-10 | The empty name and all-hyphen names pass. |
| `Validators.DomainTldValidator` | api/validators.py:19-22 | Passes exactly when the TLD equals some table key with every `_` replaced by `.`. |
| `Validators.UnderscoreTldRejected` | api/validators.py:21-22 | A TLD containing `_` is always rejected. |
| `Agreement.HelperAgreesWithSplit` | api/utils.py:25-40 | `_whois_helper` and `_split_domain_name` agree on every non-empty input. |
| `Agreement.NameValidatorAgreesWithEngine` | api/validators.py:7-16 | For a dot-free name, the validator raises exactly when the engine's character check refuses that name under any TLD. |
| `Agreement.OnlyEngineValidates` | api/engine.py:28-30 | On `"this_is not okay.com"` the engine refuses, while the endpoint's lookup reports a success when the library answers. |

## Left out

- URL parsing: `urlparse` host extraction (api/engine.py:62-63, api/utils.py:29-32) is not modelled. The model splits the input string as given. It agrees with the source on inputs with no `:`, no leading `//`, none of `?`, `#`, `;`, tab, CR or LF, and no leading space or control character. For other inputs the model splits the raw string, while the source splits what `urlparse` leaves. Examples: `" google.com"` and `"goo\tgle.com"`, which `urlparse` cleans to `google.com`, and `"google.com:443"`, whose `google.com` is taken as a scheme.
- Unicode: `str.isalnum` is modelled on ASCII letters and digits only.
- Network lookups: `asyncwhois.aio_whois_domain` and `whois.query` are probe parameters. One probe function answers every task, so within one call the same query always gets the same answer.
- Suggestions: `_similar_names` (api/engine.py:95-114) calls the datamuse API over an unordered set of endpoints. Its suggestions are a parameter of `SimilarDomains`. Its comparison of a response dict with the input string never holds, and that behaviour is not encoded.
- Suggestion failures: `_similar_names` can raise from `requests.get` or `resp.json()` (api/engine.py:103-104), and then `similar_domains` raises at api/engine.py:52 before any lookup. `Engine.SimilarDomains` takes the suggestions as a parameter and always returns.
- Concurrency: `asyncio.create_task` and the gather barrier are not modelled. Only the order-preserving result list is kept.
- Framework plumbing: the Django views, URLs, serializers, model declarations, authentication and history persistence are not modelled. The Django `Domain` model's length validators (api/models.py:21-22) never run on the engine's records.
- Python's dynamic shapes: a tuple whose error is empty but whose result is not a triple is excluded by `Parsed`'s precondition. The unpacking at api/engine.py:76 would raise on it, and the engine's lookups never produce one (`GatheredUnpack`).
- The `TLD_RE` table: the whois library's table keys are the parameter `tldRe`.
