/** The domain ranker's test (`domain_matches`): is a result's host one of the
    preferred domains or a proper subdomain of one? The host is the network-location
    part of the URL, given by the caller in place of `urlparse(url).netloc`. */
module Domains {
  import opened Text
  import opened Extraction

  /** The preferred-domain allowlist, in order (ollama_proxy.py line 10). */
  const PreferredDomains: seq<string> := ["wowhead.com", "warcraft.wiki.gg", "wowpedia.fandom.com"]

  /** The rule for one already lower-cased host and domain: equal, or the host ends
      with a dot followed by the domain. */
  predicate HostMatches(host: string, domain: string) {
    host == domain || EndsWith(host, "." + domain)
  }

  /** The source's loop over the preferred domains, returning at the first hit. */
  function AnyDomain(host: string, domains: seq<string>): bool
    decreases |domains|
  {
    if domains == [] then false
    else
      var pd := Lower(domains[0]);
      if HostMatches(host, pd) then true else AnyDomain(host, domains[1..])
  }

  /** `domain_matches`: `netloc` is what URL parsing gives, `None` when it raised,
      in which case the URL is not preferred. */
  function DomainMatches(netloc: Option<string>, domains: seq<string>): bool {
    match netloc
    case None => false
    case Some(host) => AnyDomain(Lower(host), domains)
  }

  /** The loop finds a hit exactly when some domain in the list matches. */
  lemma {:induction false} AnyDomainIff(host: string, domains: seq<string>)
    ensures AnyDomain(host, domains) <==>
            exists i :: 0 <= i < |domains| && HostMatches(host, Lower(domains[i]))
    decreases |domains|
  {
    if domains != [] {
      AnyDomainIff(host, domains[1..]);
      if exists i :: 0 <= i < |domains| && HostMatches(host, Lower(domains[i])) {
        var i :| 0 <= i < |domains| && HostMatches(host, Lower(domains[i]));
        if i > 0 {
          assert domains[1..][i - 1] == domains[i];
        }
      }
      if exists i :: 0 <= i < |domains[1..]| && HostMatches(host, Lower(domains[1..][i])) {
        var i :| 0 <= i < |domains[1..]| && HostMatches(host, Lower(domains[1..][i]));
        assert domains[i + 1] == domains[1..][i];
      }
    }
  }

  /** Case-insensitive matching: a parsed host matches exactly when, after lower-casing
      both, it equals some preferred domain or ends with `"." + domain`. */
  lemma DomainMatchesIff(host: string, domains: seq<string>)
    ensures DomainMatches(Some(host), domains) <==>
            exists i :: 0 <= i < |domains| &&
              (Lower(host) == Lower(domains[i]) || EndsWith(Lower(host), "." + Lower(domains[i])))
  {
    AnyDomainIff(Lower(host), domains);
  }

  /** A match means the host is the domain or ends with the domain at a label boundary:
      the character just before the domain is a dot. */
  lemma MatchAtLabelBoundary(host: string, domain: string)
    requires HostMatches(host, domain)
    requires host != domain
    ensures |host| > |domain| && host[|host| - |domain| - 1] == '.'
    ensures host[|host| - |domain|..] == domain
  {
    var suffix := "." + domain;
    assert host[|host| - |suffix|..] == suffix;
    assert host[|host| - |domain| - 1] == suffix[0];
    assert host[|host| - |domain|..] == host[|host| - |suffix|..][1..];
  }

  /** Lower-casing leaves a string without ASCII capitals unchanged. */
  lemma LowerIdentity(s: string)
    requires forall i :: 0 <= i < |s| ==> !('A' <= s[i] <= 'Z')
    ensures Lower(s) == s
  {
  }

  /** The preferred domains are already lower case. */
  lemma PreferredDomainsLower()
    ensures Lower(PreferredDomains[0]) == PreferredDomains[0]
    ensures Lower(PreferredDomains[1]) == PreferredDomains[1]
    ensures Lower(PreferredDomains[2]) == PreferredDomains[2]
  {
    LowerLiteral("wowhead.com");
    LowerLiteral("warcraft.wiki.gg");
    LowerLiteral("wowpedia.fandom.com");
  }

  /** The lower-case host names used below. */
  lemma LowerLiteral(s: string)
    requires s in PreferredDomains + ["www.wowhead.com", "wowhead.com.evil.net", "evilwowhead.com"]
    ensures Lower(s) == s
  {
    LowerIdentity(s);
  }

  /** A subdomain of a preferred domain matches. */
  lemma SubdomainMatches(host: string)
    requires host == "www.wowhead.com"
    ensures DomainMatches(Some(host), PreferredDomains)
  {
    LowerLiteral(host);
    PreferredDomainsLower();
    assert host[|host| - 12..] == "." + PreferredDomains[0];
    DomainMatchesIff(host, PreferredDomains);
  }

  /** Matching ignores case. */
  lemma MixedCaseHostMatches(host: string)
    requires host == "WoWhead.com"
    ensures DomainMatches(Some(host), PreferredDomains)
  {
    assert Lower(host) == PreferredDomains[0];
    PreferredDomainsLower();
    DomainMatchesIff(host, PreferredDomains);
  }

  /** Matching ignores case: hosts that agree once lower-cased match the same domains. */
  lemma CaseInsensitiveMatch(h1: string, h2: string, domains: seq<string>)
    requires |h1| == |h2|
    requires forall i :: 0 <= i < |h1| ==> LowerChar(h1[i]) == LowerChar(h2[i])
    ensures DomainMatches(Some(h1), domains) == DomainMatches(Some(h2), domains)
  {
    assert Lower(h1) == Lower(h2);
  }

  /** A host that only starts with a preferred domain does not match. */
  lemma ExtendedHostDoesNotMatch(host: string)
    requires host == "wowhead.com.evil.net"
    ensures !DomainMatches(Some(host), PreferredDomains)
  {
    LowerLiteral(host);
    PreferredDomainsLower();
    DomainMatchesIff(host, PreferredDomains);
    assert host[|host| - 12..][11] != ("." + PreferredDomains[0])[11];
    assert host[|host| - 17..][16] != ("." + PreferredDomains[1])[16];
    assert host[|host| - 20..][0] != ("." + PreferredDomains[2])[0];
  }

  /** A host that merely contains a preferred domain as text does not match. */
  lemma ContainingHostDoesNotMatch(host: string)
    requires host == "evilwowhead.com"
    ensures !DomainMatches(Some(host), PreferredDomains)
  {
    LowerLiteral(host);
    PreferredDomainsLower();
    DomainMatchesIff(host, PreferredDomains);
    assert host[|host| - 12..][0] != ("." + PreferredDomains[0])[0];
    assert |host| < |"." + PreferredDomains[1]|;
    assert |host| < |"." + PreferredDomains[2]|;
  }

  /** Is a search result on a preferred site? */
  predicate IsPreferred(r: SearchResult, netlocOf: string -> Option<string>, domains: seq<string>) {
    DomainMatches(netlocOf(r.url), domains)
  }

  /** The results whose link is on a preferred site, in their original order
      (ollama_proxy.py line 95). */
  function Preferred(results: seq<SearchResult>, netlocOf: string -> Option<string>, domains: seq<string>): seq<SearchResult>
    decreases |results|
  {
    if results == [] then []
    else
      (if IsPreferred(results[0], netlocOf, domains) then [results[0]] else [])
      + Preferred(results[1..], netlocOf, domains)
  }

  /** The preferred results are exactly the results on a preferred site. */
  lemma {:induction false} PreferredMembers(results: seq<SearchResult>, netlocOf: string -> Option<string>,
                                            domains: seq<string>, r: SearchResult)
    ensures r in Preferred(results, netlocOf, domains) <==> r in results && IsPreferred(r, netlocOf, domains)
    decreases |results|
  {
    if results != [] {
      PreferredMembers(results[1..], netlocOf, domains, r);
      assert results == [results[0]] + results[1..];
    }
  }

  /** Filtering distributes over concatenation, so the original order is kept. */
  lemma {:induction false} PreferredAppend(a: seq<SearchResult>, b: seq<SearchResult>,
                                           netlocOf: string -> Option<string>, domains: seq<string>)
    ensures Preferred(a + b, netlocOf, domains) == Preferred(a, netlocOf, domains) + Preferred(b, netlocOf, domains)
    decreases |a|
  {
    if a == [] {
      assert a + b == b;
    } else {
      assert (a + b)[0] == a[0];
      assert (a + b)[1..] == a[1..] + b;
      PreferredAppend(a[1..], b, netlocOf, domains);
    }
  }

  /** The filter is no longer than its input. */
  lemma {:induction false} PreferredLength(results: seq<SearchResult>, netlocOf: string -> Option<string>, domains: seq<string>)
    ensures |Preferred(results, netlocOf, domains)| <= |results|
    decreases |results|
  {
    if results != [] {
      PreferredLength(results[1..], netlocOf, domains);
    }
  }

  /** When exactly one result is on a preferred site, the filter is just that result. */
  lemma {:induction false} PreferredSingle(results: seq<SearchResult>, netlocOf: string -> Option<string>,
                                           domains: seq<string>, k: nat)
    requires k < |results| && IsPreferred(results[k], netlocOf, domains)
    requires forall j :: 0 <= j < |results| && j != k ==> !IsPreferred(results[j], netlocOf, domains)
    ensures Preferred(results, netlocOf, domains) == [results[k]]
    decreases |results|
  {
    if k == 0 {
      PreferredNone(results[1..], netlocOf, domains);
    } else {
      assert !IsPreferred(results[0], netlocOf, domains);
      PreferredSingle(results[1..], netlocOf, domains, k - 1);
    }
  }

  /** When no result is on a preferred site, the filter is empty. */
  lemma {:induction false} PreferredNone(results: seq<SearchResult>, netlocOf: string -> Option<string>, domains: seq<string>)
    requires forall j :: 0 <= j < |results| ==> !IsPreferred(results[j], netlocOf, domains)
    ensures Preferred(results, netlocOf, domains) == []
    decreases |results|
  {
    if results != [] {
      assert !IsPreferred(results[0], netlocOf, domains);
      PreferredNone(results[1..], netlocOf, domains);
    }
  }
}
