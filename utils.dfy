/**
 * The synchronous single lookup behind the registration-status endpoint:
 * split the input, ask the whois library, and turn each library failure
 * into a fixed message. It does not check the name's characters.
 */
module Utils {
  import opened Text
  import opened Lookup

  const UnableToFindServer: string := "Unable to find server for this lookup."
  const UnknownTldMessage: string := "Unknown TLD"
  const LookupFailed: string := "Whois lookup failed"

  /** The TLD assumed when the input has no dot. */
  const DefaultTld: string := "com"

  /**
   * What `whois.query` gives: a result of some truthiness, or one of the
   * exceptions the caller distinguishes, or any other exception.
   */
  datatype Probe =
    | Answer(truthy: bool)
    | AttributeErr
    | FailedParsing
    | UnknownTld
    | CommandFailed
    | OtherError

  /** What `whois_query` ends in: a returned tuple, or an exception that escapes it. */
  datatype Reply = Returned(tagged: Tagged) | Raised

  /**
   * `_whois_helper`: `None` stands for the `AttributeError` it raises on a
   * falsy argument (`domainName` is `None` for Python's `None`); otherwise
   * the argument split at its first dot, or paired with the default TLD
   * when unpacking the one-part split fails.
   */
  function WhoisHelper(domainName: Option<string>): (pair: Option<(string, string)>)
    ensures pair.None? <==> domainName == None || domainName == Some("")
    ensures pair.Some? && '.' in domainName.value ==>
      '.' !in pair.value.0 && pair.value.0 + "." + pair.value.1 == domainName.value
    ensures pair.Some? && '.' !in domainName.value ==> pair.value == (domainName.value, DefaultTld)
  {
    if domainName == None || domainName == Some("") then None
    else
      var full := domainName.value;
      var parts := SplitOnce(full, '.');
      if |parts| == 2 then Some((parts[0], parts[1])) else Some((full, DefaultTld))
  }

  /** The message each caught library failure is reported with. */
  function FailureMessage(failure: Probe): (message: string)
    requires !failure.Answer? && !failure.OtherError?
  {
    match failure
    case AttributeErr => MissingParameter
    case FailedParsing => UnableToFindServer
    case UnknownTld => UnknownTldMessage
    case CommandFailed => LookupFailed
  }

  /**
   * `whois_query`: a missing input, or any caught library failure, becomes
   * `([], message)`; a lookup result becomes `([name, tld, registered], "")`
   * with `registered` its truthiness; any other exception escapes.
   */
  function WhoisQuery(domainName: Option<string>, probe: string -> Probe): (reply: Reply)
    ensures reply.Returned? ==> WellTagged(reply.tagged)
    ensures domainName == None || domainName == Some("") ==>
      reply == Returned(Tagged(None, MissingParameter))
    ensures reply.Raised? ==> WhoisHelper(domainName).Some?
    ensures reply.Returned? && reply.tagged.err != "" ==>
      reply.tagged.err in {MissingParameter, UnableToFindServer, UnknownTldMessage, LookupFailed}
    ensures reply.Returned? && reply.tagged.err == "" ==>
      var t := reply.tagged.res.value;
      && WhoisHelper(domainName) == Some((t.name, t.tld))
      && probe(t.name + "." + t.tld) == Answer(t.registered)
    ensures WhoisHelper(domainName).Some? ==>
      var (name, tld) := WhoisHelper(domainName).value;
      && (probe(name + "." + tld).Answer? ==>
            reply == Returned(Tagged(Some(Triple(name, tld, probe(name + "." + tld).truthy)), "")))
      && (reply.Raised? <==> probe(name + "." + tld).OtherError?)
  {
    match WhoisHelper(domainName)
    case None => Returned(Tagged(None, MissingParameter))
    case Some((name, tld)) =>
      match probe(name + "." + tld)
      case Answer(truthy) => Returned(Tagged(Some(Triple(name, tld, truthy)), ""))
      case OtherError => Raised
      case failure => Returned(Tagged(None, FailureMessage(failure)))
  }

  /** Each caught library failure is reported with its own fixed message. */
  lemma FailuresReported(domainName: string, probe: string -> Probe)
    requires domainName != ""
    ensures var (name, tld) := WhoisHelper(Some(domainName)).value;
      var reply := WhoisQuery(Some(domainName), probe);
      && (probe(name + "." + tld) == FailedParsing ==> reply == Returned(Tagged(None, UnableToFindServer)))
      && (probe(name + "." + tld) == UnknownTld ==> reply == Returned(Tagged(None, UnknownTldMessage)))
      && (probe(name + "." + tld) == CommandFailed ==> reply == Returned(Tagged(None, LookupFailed)))
      && (probe(name + "." + tld) == AttributeErr ==> reply == Returned(Tagged(None, MissingParameter)))
  {
  }

  /** A missing input is answered without consulting the library. */
  lemma MissingWithoutLookup(domainName: Option<string>, probe: string -> Probe, other: string -> Probe)
    requires domainName == None || domainName == Some("")
    ensures WhoisQuery(domainName, probe) == WhoisQuery(domainName, other)
  {
  }

  /**
   * Disallowed characters are not rejected here: "this_is not okay.com" is
   * reported as registered when the library answers with a record.
   */
  lemma IllFormedNotRejected(probe: string -> Probe)
    requires probe("this_is not okay.com") == Answer(true)
    ensures WhoisQuery(Some("this_is not okay.com"), probe)
         == Returned(Tagged(Some(Triple("this_is not okay", "com", true)), ""))
  {
    var name := "this_is not okay";
    assert forall i :: 0 <= i < |name| ==> name[i] != '.';
    assert name + "." + "com" == name + ['.'] + "com" == "this_is not okay.com";
    SplitOnceAt(name, '.', "com");
  }
}
