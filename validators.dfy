/**
 * The model-field validators: a domain name may hold only alphanumeric
 * characters and hyphens, and a TLD must be one the whois library knows,
 * written with dots where the library's table keys have underscores.
 */
module Validators {
  import opened Text

  /** Passing silently, or raising `ValidationError` with a message. */
  datatype Outcome = Pass | Fail(message: string)

  const NameMessage: string := "Domain name can only contain alphanumeric characters or '-' (hyphen)"
  const TldMessage: string := "TLD not supported"

  /** `domain_name_validator`: walk the name and raise at the first disallowed character. */
  function DomainNameValidator(name: string): (outcome: Outcome)
    ensures outcome == Pass <==> AllowedName(name)
    ensures outcome.Fail? ==> outcome.message == NameMessage
  {
    if name == [] then Pass
    else if !AllowedChar(name[0]) then Fail(NameMessage)
    else DomainNameValidator(name[1..])
  }

  /** The empty name and names made only of hyphens pass. */
  lemma HyphensPass(name: string)
    requires forall i :: 0 <= i < |name| ==> name[i] == '-'
    ensures DomainNameValidator(name) == Pass
  {
  }

  /** The supported TLDs: every key of the library's table with `_` written as `.`. */
  function SupportedTlds(tldRe: seq<string>): (tlds: seq<string>)
    ensures |tlds| == |tldRe|
    ensures forall i :: 0 <= i < |tldRe| ==> tlds[i] == ReplaceChar(tldRe[i], '_', '.')
  {
    seq(|tldRe|, i requires 0 <= i < |tldRe| => ReplaceChar(tldRe[i], '_', '.'))
  }

  /** `domain_tld_validator`: raise unless the TLD is one of the supported ones. */
  function DomainTldValidator(tld: string, tldRe: seq<string>): (outcome: Outcome)
    ensures outcome == Pass <==> exists i :: 0 <= i < |tldRe| && tld == ReplaceChar(tldRe[i], '_', '.')
    ensures outcome.Fail? ==> outcome.message == TldMessage
  {
    if tld !in SupportedTlds(tldRe) then Fail(TldMessage) else Pass
  }

  /** A TLD containing `_` is never supported, since every supported TLD has its underscores replaced. */
  lemma UnderscoreTldRejected(tld: string, tldRe: seq<string>)
    requires '_' in tld
    ensures DomainTldValidator(tld, tldRe) == Fail(TldMessage)
  {
  }
}
