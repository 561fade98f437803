/** The extractor of backend/app.py (`extract_infrastructure_from_text`): a keyword
    classifier that turns a free-text description into a fixed-shape configuration. */
module Extractor {
  import opened Text

  datatype Provider = Aws | Azure | Gcp | Openstack

  /** The configuration record; `servers` ... `securityGroups` are its five counts. */
  datatype Config = Config(
    provider: Provider,
    servers: nat,
    databases: nat,
    networks: nat,
    loadBalancers: nat,
    securityGroups: nat)

  /** The record before any keyword has been looked at. */
  const Initial := Config(Aws, 0, 0, 1, 0, 1)

  const ServerKeywords: seq<string> :=
    ["serveur", "server", "instance", "vm", "machine virtuelle", "ec2"]
  const DatabaseKeywords: seq<string> :=
    ["base de données", "database", "db", "mysql", "postgresql", "rds"]
  const LoadBalancerKeywords: seq<string> :=
    ["load balancer", "équilibreur", "balanceur"]
  const SecurityKeywords: seq<string> :=
    ["sécurisé", "secure", "sécurité", "security"]

  /** The markers the provider test looks for, in the order it tries them. */
  const ProviderMarkers: seq<string> := ["azure", "gcp", "google", "openstack"]

  // ---------------------------------------------------------------------------
  // Specification
  // ---------------------------------------------------------------------------

  /** Some keyword of the list occurs in the text. */
  predicate MentionsAny(text: string, keywords: seq<string>) {
    exists k :: k in keywords && Contains(text, k)
  }

  /** Provider detection on the lower-cased text: azure, then gcp or google, then
      openstack; aws when none of them occurs. */
  function DetectProvider(lower: string): (r: Provider)
    ensures r == Azure <==> Contains(lower, "azure")
    ensures r == Aws <==> !MentionsAny(lower, ProviderMarkers)
  {
    if Contains(lower, "azure") then Azure
    else if Contains(lower, "gcp") || Contains(lower, "google") then Gcp
    else if Contains(lower, "openstack") then Openstack
    else Aws
  }

  /** The number of servers once a server keyword has matched: the value of the
      first digit run of the original text, or 1 when it has none. */
  function RequestedServers(description: string): (r: nat)
    ensures NoDigits(description) ==> r == 1
    ensures !NoDigits(description) ==>
      exists i, j :: FirstRunAt(description, i, j) && r == DigitsValue(description[i..j])
  {
    DigitRunsFirst(description);
    var numbers := DigitRuns(description);
    if numbers != [] then DigitsValue(numbers[0]) else 1
  }

  /** What the extractor produces for a description. */
  function Described(description: string): (r: Config)
    ensures r.databases <= 1 && r.loadBalancers <= 1
    ensures 1 <= r.securityGroups <= 2 && r.networks == 1
  {
    var lower := Lower(description);
    Config(
      DetectProvider(lower),
      if MentionsAny(lower, ServerKeywords) then RequestedServers(description) else 0,
      if MentionsAny(lower, DatabaseKeywords) then 1 else 0,
      1,
      if MentionsAny(lower, LoadBalancerKeywords) then 1 else 0,
      if MentionsAny(lower, SecurityKeywords) then 2 else 1)
  }

  // ---------------------------------------------------------------------------
  // The extractor
  // ---------------------------------------------------------------------------

  /** One `for keyword in keywords: if keyword in lower: ... break` scan: tries the
      keywords in order and stops at the first that occurs. */
  method FirstMatch(lower: string, keywords: seq<string>) returns (found: bool)
    ensures found <==> MentionsAny(lower, keywords)
  {
    found := false;
    var i := 0;
    while i < |keywords|
      invariant 0 <= i <= |keywords|
      invariant forall j :: 0 <= j < i ==> !Contains(lower, keywords[j])
    {
      if Contains(lower, keywords[i]) {
        found := true;
        break;
      }
      i := i + 1;
    }
  }

  /** Builds the record step by step: provider first, then one first-match-and-stop
      scan per keyword list, then the any-match security test. */
  method Extract(description: string) returns (cfg: Config)
    ensures cfg == Described(description)
  {
    var lower := Lower(description);

    var provider := Aws;
    if Contains(lower, "azure") {
      provider := Azure;
    } else if Contains(lower, "gcp") || Contains(lower, "google") {
      provider := Gcp;
    } else if Contains(lower, "openstack") {
      provider := Openstack;
    }

    cfg := Initial.(provider := provider);

    var found := FirstMatch(lower, ServerKeywords);
    if found {
      var numbers := DigitRuns(description);
      cfg := cfg.(servers := if numbers != [] then DigitsValue(numbers[0]) else 1);
    }

    found := FirstMatch(lower, DatabaseKeywords);
    if found {
      cfg := cfg.(databases := 1);
    }

    found := FirstMatch(lower, LoadBalancerKeywords);
    if found {
      cfg := cfg.(loadBalancers := 1);
    }

    if MentionsAny(lower, SecurityKeywords) {
      cfg := cfg.(securityGroups := 2);
    }
  }

  // ---------------------------------------------------------------------------
  // Properties of the extracted record
  // ---------------------------------------------------------------------------

  /** A description that mentions nothing the extractor knows gives the default record. */
  lemma NoKeywordsGiveDefault(description: string)
    requires var lower := Lower(description);
      && !MentionsAny(lower, ProviderMarkers)
      && !MentionsAny(lower, ServerKeywords)
      && !MentionsAny(lower, DatabaseKeywords)
      && !MentionsAny(lower, LoadBalancerKeywords)
      && !MentionsAny(lower, SecurityKeywords)
    ensures Described(description) == Config(Aws, 0, 0, 1, 0, 1)
  {
  }

  /** The provider tests run in a fixed order: azure beats gcp/google, which beats
      openstack; aws is never matched, it is only what is left when no marker occurs. */
  lemma ProviderPrecedence(lower: string)
    ensures Contains(lower, "azure") ==> DetectProvider(lower) == Azure
    ensures !Contains(lower, "azure") && (Contains(lower, "gcp") || Contains(lower, "google"))
      ==> DetectProvider(lower) == Gcp
    ensures DetectProvider(lower) == Openstack <==>
      !Contains(lower, "azure") && !Contains(lower, "gcp") && !Contains(lower, "google")
      && Contains(lower, "openstack")
    ensures DetectProvider(lower) == Aws <==> !MentionsAny(lower, ProviderMarkers)
  {
  }

  /** The server count is 0 without a server keyword; with one, it is the value of
      the first maximal run of digits in the original text, or 1 if there is none. */
  lemma ServerCountRule(description: string)
    ensures !MentionsAny(Lower(description), ServerKeywords) ==> Described(description).servers == 0
    ensures MentionsAny(Lower(description), ServerKeywords) && NoDigits(description)
      ==> Described(description).servers == 1
    ensures MentionsAny(Lower(description), ServerKeywords) && !NoDigits(description)
      ==> exists i, j :: FirstRunAt(description, i, j)
            && Described(description).servers == DigitsValue(description[i..j])
  {
    DigitRunsFirst(description);
  }

  /** The keywords of a list are written in lower case. */
  lemma ListLowerCase(keywords: seq<string>)
    requires forall k :: k in keywords ==> LowerCase(k)
    ensures forall k :: k in keywords ==> Lower(k) == k
  {
    forall k | k in keywords
      ensures Lower(k) == k
    {
      LowerOfLowerCase(k);
    }
  }

  /** Every keyword and provider marker is written in lower case, so each can
      match the lower-cased text. */
  lemma KeywordsLowerCase()
    ensures forall k :: k in ProviderMarkers ==> Lower(k) == k
    ensures forall k :: k in ServerKeywords ==> Lower(k) == k
    ensures forall k :: k in DatabaseKeywords ==> Lower(k) == k
    ensures forall k :: k in LoadBalancerKeywords ==> Lower(k) == k
    ensures forall k :: k in SecurityKeywords ==> Lower(k) == k
  {
    MarkersLowerCase();
    ServerKeywordsLowerCase();
    DatabaseKeywordsLowerCase();
    LoadBalancerKeywordsLowerCase();
    SecurityKeywordsLowerCase();
  }

  lemma MarkersLowerCase()
    ensures forall k :: k in ProviderMarkers ==> Lower(k) == k
  {
    ListLowerCase(ProviderMarkers);
  }

  lemma ServerKeywordsLowerCase()
    ensures forall k :: k in ServerKeywords ==> Lower(k) == k
  {
    ListLowerCase(ServerKeywords);
  }

  lemma DatabaseKeywordsLowerCase()
    ensures forall k :: k in DatabaseKeywords ==> Lower(k) == k
  {
    ListLowerCase(DatabaseKeywords);
  }

  lemma LoadBalancerKeywordsLowerCase()
    ensures forall k :: k in LoadBalancerKeywords ==> Lower(k) == k
  {
    ListLowerCase(LoadBalancerKeywords);
  }

  lemma SecurityKeywordsLowerCase()
    ensures forall k :: k in SecurityKeywords ==> Lower(k) == k
  {
    ListLowerCase(SecurityKeywords);
  }

  /** A keyword of the list written in the description in any mix of cases is found. */
  lemma MentionsIgnoringCase(description: string, keywords: seq<string>, written: string)
    requires Lower(written) in keywords && Contains(description, written)
    ensures MentionsAny(Lower(description), keywords)
  {
    ContainsLower(description, written);
  }

  /** The record does not depend on the case of the letters: the tests run on the
      lower-cased text, and lower-casing moves no digit. */
  lemma DescribedIgnoresCase(description: string)
    ensures Described(Lower(description)) == Described(description)
  {
    LowerIdempotent(description);
    DigitRunsLower(description);
  }

  /** The database and load-balancer counts are presence flags, the security-group
      count is 1 or 2, and one network is always asked for. */
  lemma CountsInRange(description: string)
    ensures var cfg := Described(description);
      && (cfg.databases == 1 <==> MentionsAny(Lower(description), DatabaseKeywords))
      && cfg.databases <= 1
      && (cfg.loadBalancers == 1 <==> MentionsAny(Lower(description), LoadBalancerKeywords))
      && cfg.loadBalancers <= 1
      && (cfg.securityGroups == 2 <==> MentionsAny(Lower(description), SecurityKeywords))
      && 1 <= cfg.securityGroups <= 2
      && cfg.networks == 1
  {
  }
}
