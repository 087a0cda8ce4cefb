/** Exceptions for certificates with errors: which errors were allowed, for which
    certificate, on which host. */
module CertPolicies {
  type CertStatus = bv32
  type Fingerprint = nat
  type Host = string

  datatype Judgment = UNKNOWN | ALLOWED | DENIED

  /** The errors allowed for each certificate. */
  type Policy = map<Fingerprint, CertStatus>

  /** No bit of `error` is missing from `allowed`. */
  predicate Contained(error: CertStatus, allowed: CertStatus) {
    error & !allowed == 0
  }

  /** The test of the original, in its own operators. */
  predicate Matches(allowed: CertStatus, error: CertStatus) {
    (allowed & error) != 0 && !((!(allowed & error) ^ !error) != 0)
  }

  function Check(policy: Policy, cert: Fingerprint, error: CertStatus): Judgment {
    if cert in policy && Matches(policy[cert], error) then ALLOWED else UNKNOWN
  }

  lemma XorIsZeroIffEqual(x: CertStatus, y: CertStatus)
    ensures x ^ y == 0 <==> x == y
  {
  }

  lemma ComplementIsInjective(x: CertStatus, y: CertStatus)
    requires !x == !y
    ensures x == y
  {
    assert !!x == x && !!y == y;
  }

  lemma MaskIsContainment(error: CertStatus, allowed: CertStatus)
    ensures allowed & error == error <==> Contained(error, allowed)
  {
  }

  lemma EqualWhenXorOfComplementsIsZero(masked: CertStatus, error: CertStatus)
    requires !((!masked ^ !error) != 0)
    ensures masked == error
  {
    XorIsZeroIffEqual(!masked, !error);
    ComplementIsInjective(masked, error);
  }

  lemma MatchesOnlyContained(allowed: CertStatus, error: CertStatus)
    requires Matches(allowed, error)
    ensures error != 0 && Contained(error, allowed)
  {
    EqualWhenXorOfComplementsIsZero(allowed & error, error);
    MaskIsContainment(error, allowed);
  }

  lemma ContainedMatches(allowed: CertStatus, error: CertStatus)
    requires error != 0 && Contained(error, allowed)
    ensures Matches(allowed, error)
  {
    MaskIsContainment(error, allowed);
    XorIsZeroIffEqual(!error, !error);
  }

  /** Main result: the bit expression is the subset test, except that no errors at
      all is never an allowed set of errors. */
  lemma CheckIsSubsetTest(policy: Policy, cert: Fingerprint, error: CertStatus)
    ensures Check(policy, cert, error) == ALLOWED <==>
      cert in policy && error != 0 && Contained(error, policy[cert])
    ensures Check(policy, cert, error) != DENIED
  {
    if cert in policy {
      if Matches(policy[cert], error) { MatchesOnlyContained(policy[cert], error); }
      if error != 0 && Contained(error, policy[cert]) { ContainedMatches(policy[cert], error); }
    }
  }

  /** Fewer errors than were allowed are allowed too, as long as there are some. */
  lemma FewerErrorsAreAllowed(policy: Policy, cert: Fingerprint, error: CertStatus, fewer: CertStatus)
    requires Check(policy, cert, error) == ALLOWED && Contained(fewer, error)
    ensures Check(policy, cert, fewer) == ALLOWED <==> fewer != 0
  {
    CheckIsSubsetTest(policy, cert, error);
    CheckIsSubsetTest(policy, cert, fewer);
    ContainedIsTransitive(fewer, error, policy[cert]);
  }

  lemma ContainedIsTransitive(a: CertStatus, b: CertStatus, c: CertStatus)
    requires Contained(a, b) && Contained(b, c)
    ensures Contained(a, c)
  {
  }

  // ----------------------------------------------------------------- the cache

  class CertificatePolicyCache {
    var certPolicyForHost: map<Host, Policy>

    constructor ()
      ensures certPolicyForHost == map[]
    {
      certPolicyForHost := map[];
    }

    method AllowCertForHost(cert: Fingerprint, host: Host, error: CertStatus)
      modifies this
      ensures certPolicyForHost == Applied(old(certPolicyForHost), Allow(cert, host, error))
    {
      if host !in certPolicyForHost {
        certPolicyForHost := certPolicyForHost[host := map[]];
      }
      var policy: Policy := certPolicyForHost[host];
      policy := policy[cert := error];
      certPolicyForHost := certPolicyForHost[host := policy];
    }

    /** Asking about a host creates its entry. */
    method QueryPolicy(cert: Fingerprint, host: Host, error: CertStatus) returns (judgment: Judgment)
      modifies this
      ensures certPolicyForHost == Applied(old(certPolicyForHost), Query(cert, host, error))
      ensures judgment == Verdict(old(certPolicyForHost), cert, host, error)
    {
      if host !in certPolicyForHost {
        certPolicyForHost := certPolicyForHost[host := map[]];
      }
      judgment := Check(certPolicyForHost[host], cert, error);
    }

    method ClearCertificatePolicies()
      modifies this
      ensures certPolicyForHost == Applied(old(certPolicyForHost), Clear)
    {
      certPolicyForHost := map[];
    }
  }

  datatype Op =
    | Allow(cert: Fingerprint, host: Host, error: CertStatus)
    | Query(cert: Fingerprint, host: Host, error: CertStatus)
    | Clear

  type Cache = map<Host, Policy>

  function PolicyOf(cache: Cache, host: Host): Policy {
    if host in cache then cache[host] else map[]
  }

  function Applied(cache: Cache, op: Op): Cache {
    match op
    case Allow(cert, host, error) => cache[host := PolicyOf(cache, host)[cert := error]]
    case Query(_, host, _) => cache[host := PolicyOf(cache, host)]
    case Clear => map[]
  }

  function Verdict(cache: Cache, cert: Fingerprint, host: Host, error: CertStatus): Judgment {
    Check(PolicyOf(cache, host), cert, error)
  }

  function After(cache: Cache, ops: seq<Op>): Cache {
    if ops == [] then cache else Applied(After(cache, ops[..|ops| - 1]), ops[|ops| - 1])
  }

  /** `ops[i]` is the last Allow for the certificate on the host, not cleared since. */
  ghost predicate LastAllow(ops: seq<Op>, cert: Fingerprint, host: Host, i: int) {
    && 0 <= i < |ops|
    && ops[i].Allow? && ops[i].cert == cert && ops[i].host == host
    && forall j :: i < j < |ops| ==>
         !ops[j].Clear? && !(ops[j].Allow? && ops[j].cert == cert && ops[j].host == host)
  }

  lemma {:induction false} CacheRemembersLastAllow(ops: seq<Op>, cert: Fingerprint, host: Host)
    ensures var policy := PolicyOf(After(map[], ops), host);
      && (forall i :: LastAllow(ops, cert, host, i) ==> cert in policy && policy[cert] == ops[i].error)
      && (cert in policy ==> exists i :: LastAllow(ops, cert, host, i))
    decreases |ops|
  {
    if ops != [] {
      var rest, op := ops[..|ops| - 1], ops[|ops| - 1];
      CacheRemembersLastAllow(rest, cert, host);
      forall i | LastAllow(ops, cert, host, i) && i < |rest| ensures LastAllow(rest, cert, host, i) {
        assert forall j :: i < j < |rest| ==> rest[j] == ops[j];
      }
      if op.Allow? && op.cert == cert && op.host == host {
        assert LastAllow(ops, cert, host, |ops| - 1);
      } else if !op.Clear? && cert in PolicyOf(After(map[], rest), host) {
        var i :| LastAllow(rest, cert, host, i);
        assert LastAllow(ops, cert, host, i);
      }
    }
  }

  /** Main result: after any mix of calls, a certificate is allowed on a host exactly
      when there are errors and all of them were in the last allowance for that
      certificate and host since the last clear. */
  lemma AllowedIffLastAllowanceCovers(ops: seq<Op>, cert: Fingerprint, host: Host, error: CertStatus)
    ensures Verdict(After(map[], ops), cert, host, error) == ALLOWED <==>
      error != 0 && exists i :: LastAllow(ops, cert, host, i) && Contained(error, ops[i].error)
  {
    var policy := PolicyOf(After(map[], ops), host);
    CacheRemembersLastAllow(ops, cert, host);
    CheckIsSubsetTest(policy, cert, error);
    if cert in policy && Contained(error, policy[cert]) {
      var i :| LastAllow(ops, cert, host, i);
      assert Contained(error, ops[i].error);
    }
  }

  /** Main result: a query changes no verdict, now or after any further calls. */
  lemma {:induction false} QueriesChangeNothing(
      cache: Cache, q: Op, ops: seq<Op>, cert: Fingerprint, host: Host, error: CertStatus)
    requires q.Query?
    ensures PolicyOf(After(Applied(cache, q), ops), host) == PolicyOf(After(cache, ops), host)
    ensures Verdict(After(Applied(cache, q), ops), cert, host, error) == Verdict(After(cache, ops), cert, host, error)
    decreases |ops|
  {
    if ops != [] {
      QueriesChangeNothing(cache, q, ops[..|ops| - 1], cert, host, error);
    }
  }
}
