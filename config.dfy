/**
 * The one piece of configuration the core reads: the forwarding base,
 * built from the FUNCTIONS_DOMAIN environment variable, and the start-up
 * guard meant to refuse a missing domain.
 */
module Config {
  import opened Wrappers
  import opened Text

  const Scheme := "https://"

  /** `FORWARD_TO_BASE`: the scheme followed by `${FUNCTIONS_DOMAIN}`. */
  function ForwardToBase(domain: Option<string>): (base: string)
    ensures |base| >= |Scheme| && base[..|Scheme|] == Scheme
    ensures domain.Some? ==> base == Scheme + domain.value
    ensures domain.None? ==> base == Scheme + "undefined"
  {
    Scheme + Show(domain)
  }

  /** `!s` for a string: only the empty string is falsy. */
  predicate FalsyString(s: string) {
    s == ""
  }

  /**
   * Start-up as written: the process goes on (Some base) unless the guard
   * `!FORWARD_TO_BASE` fires, in which case it exits (None).
   */
  function StartupAsWritten(domain: Option<string>): (base: Option<string>)
    ensures base.Some? && base.value == ForwardToBase(domain)
  {
    var base := ForwardToBase(domain);
    if FalsyString(base) then None else Some(base)
  }

  /** The guard as written is dead: every domain, even a missing one, starts the process. */
  lemma AsWrittenGuardNeverFires(domain: Option<string>)
    ensures StartupAsWritten(domain).Some?
    ensures !FalsyString(ForwardToBase(domain))
  {
    assert ForwardToBase(domain)[0] == 'h';
  }

  /** The input that shows it: with FUNCTIONS_DOMAIN unset the process forwards to "https://undefined". */
  lemma UnsetDomainStartsAsWritten()
    ensures StartupAsWritten(None) == Some("https://undefined")
  {
    assert Scheme + "undefined" == "https://undefined";
  }

  /**
   * Start-up as evidently intended: refuse when FUNCTIONS_DOMAIN is unset or
   * empty (what `!process.env.FUNCTIONS_DOMAIN` would test), otherwise
   * forward to the scheme plus the domain.
   */
  function Startup(domain: Option<string>): (base: Option<string>)
    ensures base.None? <==> domain.None? || domain == Some("")
    ensures base.Some? ==> base.value == Scheme + domain.value && |base.value| > |Scheme|
  {
    if domain.None? || FalsyString(domain.value) then None else Some(ForwardToBase(domain))
  }

  /** Wherever the intended start-up goes on, it uses the same base as the code. */
  lemma StartupAgreesWhenDomainSet(domain: Option<string>)
    requires Startup(domain).Some?
    ensures Startup(domain) == StartupAsWritten(domain)
  {
  }
}
