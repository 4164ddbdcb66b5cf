/**
 * The asynchronous lookup engine: one gated whois lookup, and the fan-out of
 * lookups over candidate names times popular TLDs, reduced to `Domain`
 * records. The whois library and the event loop are parameters: a probe
 * function answers each lookup, and `asyncio.gather(..., return_exceptions=True)`
 * is the pointwise application of the single lookup to every task.
 */
module Engine {
  import opened Text
  import opened Lookup

  /** The TLDs every candidate name is tried against. */
  const PopularTlds: seq<string> := ["com", "org", "net", "dev", "co.in"]

  /** The TLD assumed when the input has no dot. */
  const DefaultTld: string := "com"

  const InvalidDomainName: string := "Invalid domain name"

  /**
   * What awaiting `asyncwhois.aio_whois_domain` gives: a record of some
   * truthiness, the library's `NotFoundError`, or any other exception.
   */
  datatype Probe = Answer(truthy: bool) | NotFound | Raised

  /**
   * One element of the list `gather` returns with `return_exceptions=True`:
   * the tuple the task returned, or the exception it raised.
   */
  datatype Settled = Returned(tagged: Tagged) | Exception

  /** The record handed back to the caller; `id` is a position, not a key. */
  datatype Domain = Domain(id: nat, name: string, tld: string, registered: bool)

  /**
   * `_split_domain_name` on the host string: cut at the first dot, or pair
   * the whole host with the default TLD when it has none.
   */
  function SplitDomainName(host: string): (pair: (string, string))
    ensures '.' in host ==> '.' !in pair.0 && pair.0 + "." + pair.1 == host
    ensures '.' !in host ==> pair == (host, DefaultTld)
  {
    if '.' in host then
      var parts := SplitOnce(host, '.');
      (parts[0], parts[1])
    else
      (host, DefaultTld)
  }

  /** Joining a dot-free name with any TLD and splitting again gives the pair back. */
  lemma SplitJoined(name: string, tld: string)
    requires '.' !in name
    ensures SplitDomainName(name + "." + tld) == (name, tld)
  {
    assert name + "." + tld == name + ['.'] + tld;
    SplitOnceAt(name, '.', tld);
  }

  /** `_valid_domain_name`: scan the name and stop at the first disallowed character. */
  method ValidDomainName(name: string) returns (valid: bool)
    ensures valid <==> AllowedName(name)
  {
    for i := 0 to |name|
      invariant forall j :: 0 <= j < i ==> AllowedChar(name[j])
    {
      if IsAlnum(name[i]) || name[i] == '-' {
        continue;
      }
      return false;
    }
    return true;
  }

  /** The string the lookup is made on: the split name and TLD joined by a dot. */
  function LookupTarget(domainName: string): (target: string)
    ensures '.' in domainName ==> target == domainName
    ensures '.' !in domainName ==> target == domainName + "." + DefaultTld
  {
    var (name, tld) := SplitDomainName(domainName);
    name + "." + tld
  }

  /** Whether `whois_query` lets a lookup happen for this input at all. */
  predicate PassesGate(domainName: string) {
    domainName != [] && AllowedName(SplitDomainName(domainName).0)
  }

  /**
   * `whois_query`: reject a missing or invalid name before any lookup, then
   * look the domain up; `NotFoundError` means unregistered, every other
   * exception escapes the task.
   */
  function WhoisQuery(domainName: string, probe: string -> Probe): (s: Settled)
    ensures s.Returned? ==> WellTagged(s.tagged)
    ensures s.Exception? <==> PassesGate(domainName) && probe(LookupTarget(domainName)).Raised?
    ensures s.Returned? && s.tagged.err == "" ==>
      var t := s.tagged.res.value;
      && PassesGate(domainName)
      && AllowedName(t.name)
      && SplitDomainName(domainName) == (t.name, t.tld)
      && t.registered == (probe(LookupTarget(domainName)) == Answer(true))
    ensures PassesGate(domainName) && !probe(LookupTarget(domainName)).Raised? ==>
      s == Returned(Tagged(Some(Triple(SplitDomainName(domainName).0, SplitDomainName(domainName).1,
                                       probe(LookupTarget(domainName)) == Answer(true))), ""))
  {
    if domainName == [] then
      Returned(Tagged(None, MissingParameter))
    else
      var (name, tld) := SplitDomainName(domainName);
      if !AllowedName(name) then
        Returned(Tagged(None, InvalidDomainName))
      else
        match probe(name + "." + tld)
        case Answer(truthy) => Returned(Tagged(Some(Triple(name, tld, truthy)), ""))
        case NotFound => Returned(Tagged(Some(Triple(name, tld, false)), ""))
        case Raised => Exception
  }

  /**
   * A missing or invalid name is answered with its error whatever the probe
   * would say: no lookup is made.
   */
  lemma RejectedWithoutLookup(domainName: string, probe: string -> Probe, other: string -> Probe)
    requires !PassesGate(domainName)
    ensures WhoisQuery(domainName, probe) == WhoisQuery(domainName, other)
    ensures WhoisQuery(domainName, probe)
         == Returned(Tagged(None, if domainName == [] then MissingParameter else InvalidDomainName))
  {
  }

  /** Once past the gate, the probe is consulted on the lookup target and nowhere else. */
  lemma LookupOnlyAtTarget(domainName: string, probe: string -> Probe, other: string -> Probe)
    requires probe(LookupTarget(domainName)) == other(LookupTarget(domainName))
    ensures WhoisQuery(domainName, probe) == WhoisQuery(domainName, other)
  {
  }

  /** A not-found lookup is a successful answer "unregistered", not an error. */
  lemma NotFoundIsUnregistered(domainName: string, probe: string -> Probe)
    requires PassesGate(domainName) && probe(LookupTarget(domainName)) == NotFound
    ensures WhoisQuery(domainName, probe)
         == Returned(Tagged(Some(Triple(SplitDomainName(domainName).0, SplitDomainName(domainName).1, false)), ""))
  {
  }

  /** The ill-formed input "this_is not okay.com" is rejected before any lookup. */
  lemma IllFormedRejected(probe: string -> Probe)
    ensures WhoisQuery("this_is not okay.com", probe) == Returned(Tagged(None, InvalidDomainName))
  {
    var name := "this_is not okay";
    assert forall i :: 0 <= i < |name| ==> name[i] != '.';
    SplitJoined(name, "com");
    assert name + "." + "com" == "this_is not okay.com";
    assert !AllowedChar(name[4]);
  }

  /** One row of the task list: `name` joined with every TLD in order. */
  function Row(name: string, tlds: seq<string>): (row: seq<string>)
  {
    seq(|tlds|, j requires 0 <= j < |tlds| => name + "." + tlds[j])
  }

  /** The queries `_create_whois_tasks` schedules, name-major: all TLDs of the first name, then the next. */
  function TaskQueries(names: seq<string>, tlds: seq<string>): (queries: seq<string>)
    ensures |queries| == |names| * |tlds|
    decreases |names|
  {
    if names == [] then []
    else TaskQueries(names[..|names| - 1], tlds) + Row(names[|names| - 1], tlds)
  }

  lemma MulMonotone(a: nat, b: nat, m: nat)
    requires a <= b
    ensures a * m <= b * m
  {
  }

  /** Name `i` paired with TLD `j` sits at position `k = i * |tlds| + j` of the task list. */
  lemma {:induction false} TaskQueryAtPair(names: seq<string>, tlds: seq<string>, i: nat, j: nat, k: nat)
    requires i < |names| && j < |tlds| && k == i * |tlds| + j
    ensures k < |names| * |tlds|
    ensures TaskQueries(names, tlds)[k] == names[i] + "." + tlds[j]
    decreases |names|
  {
    var m := |tlds|;
    var n := |names| - 1;
    var init := names[..n];
    assert TaskQueries(names, tlds) == TaskQueries(init, tlds) + Row(names[n], tlds);
    MulMonotone(i + 1, n + 1, m);
    if i < n {
      TaskQueryAtPair(init, tlds, i, j, k);
    }
  }

  /** Position `k` of an `n` by `m` table lies in row `k / m` and column `k % m`. */
  lemma RowColumn(k: nat, n: nat, m: nat) returns (i: nat, j: nat)
    requires k < n * m
    ensures 0 < m && i < n && j < m && k == i * m + j
    ensures i == k / m && j == k % m
  {
    i, j := k / m, k % m;
  }

  /** Entry `k` of the task list joins name `k / |tlds|` with TLD `k % |tlds|`. */
  lemma TaskQueryAt(names: seq<string>, tlds: seq<string>, k: nat)
    requires k < |names| * |tlds|
    ensures 0 < |tlds| && k / |tlds| < |names|
    ensures TaskQueries(names, tlds)[k] == names[k / |tlds|] + "." + tlds[k % |tlds|]
  {
    var i, j := RowColumn(k, |names|, |tlds|);
    TaskQueryAtPair(names, tlds, i, j, k);
  }

  /** `_create_whois_tasks`, with each task represented by the query string it looks up. */
  method CreateWhoisTasks(names: seq<string>, tlds: seq<string>) returns (tasks: seq<string>)
    ensures tasks == TaskQueries(names, tlds)
  {
    tasks := [];
    for i := 0 to |names|
      invariant tasks == TaskQueries(names[..i], tlds)
    {
      for j := 0 to |tlds|
        invariant tasks == TaskQueries(names[..i], tlds) + Row(names[i], tlds[..j])
      {
        assert Row(names[i], tlds[..j + 1]) == Row(names[i], tlds[..j]) + [names[i] + "." + tlds[j]];
        tasks := tasks + [names[i] + "." + tlds[j]];
      }
      assert tlds[..|tlds|] == tlds;
      assert names[..i + 1][..i] == names[..i];
    }
    assert names[..|names|] == names;
  }

  /** `asyncio.gather(..., return_exceptions=True)` over one lookup per query, in task order. */
  function Gather(queries: seq<string>, probe: string -> Probe): (settled: seq<Settled>)
    ensures |settled| == |queries|
    ensures forall i :: 0 <= i < |queries| ==> settled[i] == WhoisQuery(queries[i], probe)
  {
    seq(|queries|, i requires 0 <= i < |queries| => WhoisQuery(queries[i], probe))
  }

  /** `_exclude_errors`: keep the returned tuples and drop the exceptions. */
  function ExcludeErrors(results: seq<Settled>): (kept: seq<Tagged>)
    ensures |kept| <= |results|
    ensures forall t :: t in kept <==> Returned(t) in results
  {
    if results == [] then []
    else
      (match results[0]
       case Returned(t) => [t]
       case Exception => [])
      + ExcludeErrors(results[1..])
  }

  /** Filtering a concatenation filters each part: kept entries stay in their original order. */
  lemma {:induction false} ExcludeErrorsAppend(xs: seq<Settled>, ys: seq<Settled>)
    ensures ExcludeErrors(xs + ys) == ExcludeErrors(xs) + ExcludeErrors(ys)
  {
    if xs == [] {
      assert xs + ys == ys;
    } else {
      assert (xs + ys)[0] == xs[0];
      assert (xs + ys)[1..] == xs[1..] + ys;
      ExcludeErrorsAppend(xs[1..], ys);
    }
  }

  /** The tuples, seen again as settled task results. */
  function AsSettled(tagged: seq<Tagged>): (settled: seq<Settled>)
  {
    seq(|tagged|, i requires 0 <= i < |tagged| => Returned(tagged[i]))
  }

  /** A list without exceptions passes through unchanged. */
  lemma {:induction false} ExcludeErrorsKeepsTuples(tagged: seq<Tagged>)
    ensures ExcludeErrors(AsSettled(tagged)) == tagged
  {
    if tagged != [] {
      assert AsSettled(tagged)[1..] == AsSettled(tagged[1..]);
      ExcludeErrorsKeepsTuples(tagged[1..]);
    }
  }

  /** Filtering twice is filtering once. */
  lemma ExcludeErrorsIdempotent(results: seq<Settled>)
    ensures ExcludeErrors(AsSettled(ExcludeErrors(results))) == ExcludeErrors(results)
  {
    ExcludeErrorsKeepsTuples(ExcludeErrors(results));
  }

  /** Unpacking `name, tld, registered = res` succeeds wherever the error is empty. */
  predicate Unpacks(t: Tagged) {
    t.err == "" ==> t.res.Some?
  }

  /**
   * What `_parse_results` builds: for each entry in order, a `Domain` when
   * its error is empty, with that entry's index as `id`.
   */
  function Parsed(results: seq<Tagged>): (parsed: seq<Domain>)
    requires forall i :: 0 <= i < |results| ==> Unpacks(results[i])
    ensures |parsed| <= |results|
  {
    if results == [] then []
    else
      var last := |results| - 1;
      assert forall i :: 0 <= i < last ==> results[..last][i] == results[i];
      assert Unpacks(results[last]);
      var earlier := Parsed(results[..last]);
      if results[last].err != "" then earlier
      else
        var t := results[last].res.value;
        earlier + [Domain(last, t.name, t.tld, t.registered)]
  }

  /** Every record comes from an entry with an empty error, at the index its `id` names. */
  lemma {:induction false} ParsedSound(results: seq<Tagged>)
    requires forall i :: 0 <= i < |results| ==> Unpacks(results[i])
    ensures forall k :: 0 <= k < |Parsed(results)| ==>
      var d := Parsed(results)[k];
      && d.id < |results|
      && results[d.id].err == ""
      && results[d.id].res == Some(Triple(d.name, d.tld, d.registered))
  {
    if results != [] {
      var last := |results| - 1;
      assert forall i :: 0 <= i < last ==> results[..last][i] == results[i];
      ParsedSound(results[..last]);
    }
  }

  /** Records keep input order: their ids strictly increase. */
  lemma {:induction false} ParsedOrdered(results: seq<Tagged>)
    requires forall i :: 0 <= i < |results| ==> Unpacks(results[i])
    ensures forall a, b :: 0 <= a < b < |Parsed(results)| ==> Parsed(results)[a].id < Parsed(results)[b].id
  {
    if results != [] {
      var last := |results| - 1;
      assert forall i :: 0 <= i < last ==> results[..last][i] == results[i];
      ParsedOrdered(results[..last]);
      ParsedSound(results[..last]);
    }
  }

  /** The record made for entry `i`, found by following the construction back to that entry. */
  lemma {:induction false} ParsedRecordOf(results: seq<Tagged>, i: nat) returns (k: nat)
    requires forall j :: 0 <= j < |results| ==> Unpacks(results[j])
    requires i < |results| && results[i].err == ""
    ensures k < |Parsed(results)| && Parsed(results)[k].id == i
  {
    var last := |results| - 1;
    assert forall j :: 0 <= j < last ==> results[..last][j] == results[j];
    var earlier := Parsed(results[..last]);
    if i == last {
      var t := results[last].res.value;
      assert Parsed(results) == earlier + [Domain(last, t.name, t.tld, t.registered)];
      k := |earlier|;
    } else {
      k := ParsedRecordOf(results[..last], i);
      assert Parsed(results)[k] == earlier[k];
    }
  }

  /** Some record in `parsed` carries index `i`. */
  predicate HasRecordFor(parsed: seq<Domain>, i: int) {
    exists k :: 0 <= k < |parsed| && parsed[k].id == i
  }

  /** No entry with an empty error is lost: each has a record carrying its index. */
  lemma ParsedComplete(results: seq<Tagged>)
    requires forall i :: 0 <= i < |results| ==> Unpacks(results[i])
    ensures forall i :: 0 <= i < |results| && results[i].err == "" ==> HasRecordFor(Parsed(results), i)
  {
    forall i | 0 <= i < |results| && results[i].err == ""
      ensures HasRecordFor(Parsed(results), i)
    {
      var k := ParsedRecordOf(results, i);
    }
  }

  /** When no entry carries an error, every entry becomes a record, with its own index as `id`. */
  lemma {:induction false} ParsedAllSucceeded(results: seq<Tagged>)
    requires forall i :: 0 <= i < |results| ==> results[i].err == "" && results[i].res.Some?
    ensures |Parsed(results)| == |results|
    ensures forall k :: 0 <= k < |results| ==>
      var t := results[k].res.value;
      Parsed(results)[k] == Domain(k, t.name, t.tld, t.registered)
  {
    if results != [] {
      var last := |results| - 1;
      assert forall i :: 0 <= i < last ==> results[..last][i] == results[i];
      ParsedAllSucceeded(results[..last]);
    }
  }

  /** `_parse_results`: the loop over `enumerate(results)` that appends to `parsed`. */
  method ParseResults(results: seq<Tagged>) returns (parsed: seq<Domain>)
    requires forall i :: 0 <= i < |results| ==> Unpacks(results[i])
    ensures parsed == Parsed(results)
  {
    parsed := [];
    for i := 0 to |results|
      invariant parsed == Parsed(results[..i])
    {
      assert results[..i + 1][..i] == results[..i];
      if results[i].err != "" {
        continue;
      }
      var t := results[i].res.value;
      parsed := parsed + [Domain(i, t.name, t.tld, t.registered)];
    }
    assert results[..|results|] == results;
  }

  /** The names `similar_domains` tries: the original first, then every suggestion, duplicates kept. */
  function Candidates(name: string, suggestions: seq<string>): (names: seq<string>)
    ensures |names| == 1 + |suggestions| && names[0] == name
    ensures multiset(names) == multiset{name} + multiset(suggestions)
  {
    [name] + suggestions
  }

  /** Every task result is a well-tagged tuple or an exception, so parsing never fails to unpack. */
  lemma {:induction false} GatheredUnpack(queries: seq<string>, probe: string -> Probe)
    ensures forall i :: 0 <= i < |ExcludeErrors(Gather(queries, probe))| ==>
      Unpacks(ExcludeErrors(Gather(queries, probe))[i])
  {
    var kept := ExcludeErrors(Gather(queries, probe));
    forall i | 0 <= i < |kept| ensures Unpacks(kept[i]) {
      assert Returned(kept[i]) in Gather(queries, probe);
    }
  }

  /** The records `similar_domains` returns for a name, its suggestions and the lookup answers. */
  function Similar(name: string, suggestions: seq<string>, probe: string -> Probe): (found: seq<Domain>)
  {
    var results := ExcludeErrors(Gather(TaskQueries(Candidates(name, suggestions), PopularTlds), probe));
    GatheredUnpack(TaskQueries(Candidates(name, suggestions), PopularTlds), probe);
    Parsed(results)
  }

  /** `similar_domains`: build the tasks, gather them, drop exceptions, parse. */
  method SimilarDomains(name: string, suggestions: seq<string>, probe: string -> Probe)
    returns (found: seq<Domain>)
    ensures found == Similar(name, suggestions, probe)
  {
    var names := [name] + suggestions;
    var tasks := CreateWhoisTasks(names, PopularTlds);
    var results := ExcludeErrors(Gather(tasks, probe));
    GatheredUnpack(tasks, probe);
    found := ParseResults(results);
  }

  /** Every task query joins a candidate and a TLD with a dot, so it contains one. */
  lemma {:induction false} TaskQueriesHaveDots(names: seq<string>, tlds: seq<string>)
    ensures forall q :: q in TaskQueries(names, tlds) ==> '.' in q
    decreases |names|
  {
    if names != [] {
      var name := names[|names| - 1];
      TaskQueriesHaveDots(names[..|names| - 1], tlds);
      forall j | 0 <= j < |tlds| ensures '.' in Row(name, tlds)[j] {
        assert Row(name, tlds)[j][|name|] == '.';
      }
    }
  }

  /**
   * Every record `similar_domains` returns is a task that was looked up:
   * its name passes the character rule and, joined with its TLD, gives back
   * the query; there are never more records than tasks.
   */
  lemma SimilarRecordsAreTasks(name: string, suggestions: seq<string>, probe: string -> Probe)
    ensures |Similar(name, suggestions, probe)| <= |Candidates(name, suggestions)| * |PopularTlds|
    ensures forall d :: d in Similar(name, suggestions, probe) ==>
      && AllowedName(d.name)
      && '.' !in d.name
      && d.name + "." + d.tld in TaskQueries(Candidates(name, suggestions), PopularTlds)
  {
    var queries := TaskQueries(Candidates(name, suggestions), PopularTlds);
    var settled := Gather(queries, probe);
    var kept := ExcludeErrors(settled);
    GatheredUnpack(queries, probe);
    var found := Parsed(kept);
    assert found == Similar(name, suggestions, probe);
    ParsedSound(kept);
    forall d | d in found
      ensures AllowedName(d.name) && '.' !in d.name && d.name + "." + d.tld in queries
    {
      var k :| 0 <= k < |found| && found[k] == d;
      var tagged := kept[d.id];
      assert Returned(tagged) in settled;
      var i :| 0 <= i < |settled| && settled[i] == Returned(tagged);
      assert WhoisQuery(queries[i], probe) == Returned(tagged);
      TaskQueriesHaveDots(Candidates(name, suggestions), PopularTlds);
      assert '.' in queries[i];
    }
  }

  /** The tuples the lookups of `queries` return when each passes the gate and none raises. */
  function Answered(queries: seq<string>, probe: string -> Probe): (tagged: seq<Tagged>)
    ensures |tagged| == |queries|
    ensures forall i :: 0 <= i < |queries| ==>
      tagged[i] == Tagged(Some(Triple(SplitDomainName(queries[i]).0, SplitDomainName(queries[i]).1,
                                      probe(queries[i]) == Answer(true))), "")
  {
    seq(|queries|, i requires 0 <= i < |queries| =>
      Tagged(Some(Triple(SplitDomainName(queries[i]).0, SplitDomainName(queries[i]).1,
                         probe(queries[i]) == Answer(true))), ""))
  }

  /** When every dotted query passes the gate and no lookup raises, `gather` returns every answer as a tuple. */
  lemma GatherAnswered(queries: seq<string>, probe: string -> Probe)
    requires forall q :: q in queries ==> '.' in q && PassesGate(q) && !probe(q).Raised?
    ensures Gather(queries, probe) == AsSettled(Answered(queries, probe))
  {
    forall i | 0 <= i < |queries|
      ensures Gather(queries, probe)[i] == AsSettled(Answered(queries, probe))[i]
    {
      assert queries[i] in queries;
    }
  }

  /** Over dot-free valid candidates, every scheduled query has a dot and passes the gate. */
  lemma {:induction false} CandidateQueriesPass(names: seq<string>, tlds: seq<string>)
    requires forall c :: c in names ==> '.' !in c && AllowedName(c)
    ensures forall q :: q in TaskQueries(names, tlds) ==> '.' in q && PassesGate(q)
  {
    var queries := TaskQueries(names, tlds);
    TaskQueriesHaveDots(names, tlds);
    forall q | q in queries ensures PassesGate(q) {
      var k :| 0 <= k < |queries| && queries[k] == q;
      var i, j := RowColumn(k, |names|, |tlds|);
      TaskQueryAtPair(names, tlds, i, j, k);
      assert names[i] in names;
      SplitJoined(names[i], tlds[j]);
    }
  }

  /**
   * When every candidate is a dot-free valid name and no lookup raises,
   * `similar_domains` returns one record per task, in task order, registered
   * and unregistered alike: nothing is deduplicated or filtered, and the
   * original name's records come first.
   */
  lemma SimilarAllAnswered(name: string, suggestions: seq<string>, probe: string -> Probe)
    requires forall c :: c in Candidates(name, suggestions) ==> '.' !in c && AllowedName(c)
    requires forall q :: q in TaskQueries(Candidates(name, suggestions), PopularTlds) ==> !probe(q).Raised?
    ensures |Similar(name, suggestions, probe)| == (1 + |suggestions|) * 5
    ensures forall k :: 0 <= k < |Similar(name, suggestions, probe)| ==>
      var d := Similar(name, suggestions, probe)[k];
      var candidate := Candidates(name, suggestions)[k / 5];
      var tld := PopularTlds[k % 5];
      d == Domain(k, candidate, tld, probe(candidate + "." + tld) == Answer(true))
  {
    var names := Candidates(name, suggestions);
    var queries := TaskQueries(names, PopularTlds);
    CandidateQueriesPass(names, PopularTlds);
    GatherAnswered(queries, probe);
    var tagged := Answered(queries, probe);
    ExcludeErrorsKeepsTuples(tagged);
    GatheredUnpack(queries, probe);
    ParsedAllSucceeded(tagged);
    forall k | 0 <= k < |queries|
      ensures SplitDomainName(queries[k]) == (names[k / 5], PopularTlds[k % 5])
      ensures queries[k] == names[k / 5] + "." + PopularTlds[k % 5]
    {
      TaskQueryAt(names, PopularTlds, k);
      assert names[k / 5] in names;
      SplitJoined(names[k / 5], PopularTlds[k % 5]);
    }
  }
}
