/**
 * The repository carries two copies of the split and of the name check, in
 * different files; these lemmas show the copies behave alike, and where the
 * two single-lookup paths differ.
 */
module Agreement {
  import opened Text
  import opened Lookup
  import Engine
  import Utils
  import Validators

  /** `_whois_helper` and `_split_domain_name` split every non-empty input the same way. */
  lemma HelperAgreesWithSplit(domainName: string)
    requires domainName != ""
    ensures Utils.WhoisHelper(Some(domainName)) == Some(Engine.SplitDomainName(domainName))
  {
  }

  /**
   * The model validator raises on a dot-free name exactly when the engine's
   * lookup of that name under any TLD is refused by the character check.
   */
  lemma NameValidatorAgreesWithEngine(name: string, tld: string)
    requires '.' !in name
    ensures Validators.DomainNameValidator(name).Fail? <==> !Engine.PassesGate(name + "." + tld)
  {
    Engine.SplitJoined(name, tld);
  }

  /**
   * On "this_is not okay.com" the engine refuses before looking anything up,
   * while the endpoint's lookup passes the name to the library unchanged.
   */
  lemma OnlyEngineValidates(engineProbe: string -> Engine.Probe, utilsProbe: string -> Utils.Probe)
    requires utilsProbe("this_is not okay.com") == Utils.Answer(true)
    ensures Engine.WhoisQuery("this_is not okay.com", engineProbe)
         == Engine.Returned(Tagged(None, Engine.InvalidDomainName))
    ensures Utils.WhoisQuery(Some("this_is not okay.com"), utilsProbe).tagged.err == ""
  {
    Engine.IllFormedRejected(engineProbe);
    Utils.IllFormedNotRejected(utilsProbe);
  }
}
