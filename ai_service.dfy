/** `OptimizedAIService`: the provider table, the four `analyzeWith…`
    methods, the fallback chain `analyzeRelationshipEntry`, and the
    provider listing, status and test utilities. */
module AiService {
  import opened Wrappers
  import opened Sorting
  import opened Providers

  /** The four `REACT_APP_…_API_KEY` settings, "" for one that is not set. */
  datatype ApiKeys = ApiKeys(gemini: string, groq: string, together: string, perplexity: string)

  /** The `free` field: `true` for a free tier, otherwise a note on the credit. */
  datatype Free = FreeTier | Credit(note: string)

  /** The four providers the table names. */
  datatype ProviderName = Gemini | Groq | Together | Perplexity

  /** The `name` string of a provider. */
  function NameText(n: ProviderName): string
  {
    match n
    case Gemini => "gemini"
    case Groq => "groq"
    case Together => "together"
    case Perplexity => "perplexity"
  }

  /** A row of the provider table; the endpoint is left to the network. */
  datatype Provider = Provider(name: ProviderName, enabled: bool, free: Free, limits: string, priority: nat)

  /** The table the constructor builds; a provider is enabled exactly when
      its key is set (`!!key`). */
  function ProviderTable(keys: ApiKeys): seq<Provider>
  {
    [Provider(Gemini, keys.gemini != "", FreeTier, "60/min, 1500/day", 1),
     Provider(Groq, keys.groq != "", FreeTier, "30/min, 14,400/day", 2),
     Provider(Together, keys.together != "", Credit("$5 credit"), "~5000 analyses", 3),
     Provider(Perplexity, keys.perplexity != "", Credit("$5/month"), "Monthly credit", 4)]
  }

  /** `providers.find(p => p.name === name)`: the first provider of that name. */
  function Find(providers: seq<Provider>, name: ProviderName): Option<Provider>
  {
    if providers == [] then None
    else if providers[0].name == name then Some(providers[0])
    else Find(providers[1..], name)
  }

  /** `find` returns a provider of that name that no earlier provider
      shares, and nothing exactly when no provider has that name. */
  lemma {:induction false} FindSpec(providers: seq<Provider>, name: ProviderName)
    ensures Find(providers, name).Some? ==>
              exists i | 0 <= i < |providers| :: providers[i] == Find(providers, name).value
                && providers[i].name == name && forall j | 0 <= j < i :: providers[j].name != name
    ensures Find(providers, name).None? <==> forall p | p in providers :: p.name != name
  {
    if providers != [] {
      FindSpec(providers[1..], name);
      assert forall p | p in providers :: p == providers[0] || p in providers[1..];
      if providers[0].name != name && Find(providers, name).Some? {
        var i :| 0 <= i < |providers[1..]| && providers[1..][i] == Find(providers, name).value
          && providers[1..][i].name == name && forall j | 0 <= j < i :: providers[1..][j].name != name;
        assert providers[i + 1] == providers[1..][i];
        assert forall j | 0 <= j < i + 1 :: providers[j].name != name by {
          forall j | 0 <= j < i + 1 ensures providers[j].name != name {
            if j > 0 { assert providers[j] == providers[1..][j - 1]; }
          }
        }
      }
    }
  }

  /** The table lists the four providers in fallback order with priorities
      1 to 4, each enabled exactly when its key is set. */
  lemma TableRows(keys: ApiKeys)
    ensures var t := ProviderTable(keys);
            && |t| == 4
            && t[0].name == Gemini && t[1].name == Groq && t[2].name == Together && t[3].name == Perplexity
            && (forall i | 0 <= i < 4 :: t[i].priority == i + 1)
            && t[0].enabled == (keys.gemini != "") && t[1].enabled == (keys.groq != "")
            && t[2].enabled == (keys.together != "") && t[3].enabled == (keys.perplexity != "")
  {
  }

  /** `providers.find(p => p.name === name)?.enabled`. */
  predicate EnabledNamed(providers: seq<Provider>, name: ProviderName)
  {
    var p := Find(providers, name);
    p.Some? && p.value.enabled
  }

  /** In the table, a provider is enabled exactly when its key is set. */
  lemma TableEnabled(keys: ApiKeys)
    ensures EnabledNamed(ProviderTable(keys), Gemini) == (keys.gemini != "")
    ensures EnabledNamed(ProviderTable(keys), Groq) == (keys.groq != "")
    ensures EnabledNamed(ProviderTable(keys), Together) == (keys.together != "")
    ensures EnabledNamed(ProviderTable(keys), Perplexity) == (keys.perplexity != "")
  {
    var t := ProviderTable(keys);
    assert Find(t[1..][1..][1..], Perplexity) == Some(t[3]);
    assert Find(t[1..][1..], Together) == Some(t[2]);
    assert Find(t[1..][1..], Perplexity) == Some(t[3]);
    assert Find(t[1..], Groq) == Some(t[1]);
    assert Find(t[1..], Together) == Some(t[2]);
    assert Find(t[1..], Perplexity) == Some(t[3]);
  }

  /** `providers.filter(keep)`. */
  function Select(ps: seq<Provider>, keep: Provider -> bool): seq<Provider>
  {
    if ps == [] then []
    else if keep(ps[0]) then [ps[0]] + Select(ps[1..], keep)
    else Select(ps[1..], keep)
  }

  /** `Select` keeps exactly the providers for which `keep` holds. */
  lemma {:induction false} SelectMembers(ps: seq<Provider>, keep: Provider -> bool)
    ensures forall p :: p in Select(ps, keep) <==> p in ps && keep(p)
  {
    if ps != [] {
      SelectMembers(ps[1..], keep);
      assert forall p :: p in ps <==> p == ps[0] || p in ps[1..] by {
        assert ps == [ps[0]] + ps[1..];
      }
    }
  }

  /** `Select` keeps every copy of a kept provider and drops every copy of
      the others. */
  lemma {:induction false} SelectMultiset(ps: seq<Provider>, keep: Provider -> bool)
    ensures forall p :: multiset(Select(ps, keep))[p] == if keep(p) then multiset(ps)[p] else 0
  {
    if ps != [] {
      SelectMultiset(ps[1..], keep);
      assert ps == [ps[0]] + ps[1..];
    }
  }

  function Priority(p: Provider): int
  {
    p.priority
  }

  function IsEnabled(p: Provider): bool
  {
    p.enabled
  }

  /** `p.enabled && !['gemini', 'groq'].includes(p.name)`. */
  function IsEnabledExtra(p: Provider): bool
  {
    p.enabled && p.name != Gemini && p.name != Groq
  }

  /** `p => ['gemini', 'groq'].includes(p.name) && p.enabled`. */
  function IsEnabledMain(p: Provider): bool
  {
    (p.name == Gemini || p.name == Groq) && p.enabled
  }

  /** Filtering the table keeps its order: each row is kept when `keep`
      holds for it. */
  lemma TableSelect(keys: ApiKeys, keep: Provider -> bool)
    ensures var t := ProviderTable(keys);
            Select(t, keep) ==
              (if keep(t[0]) then [t[0]] else []) + (if keep(t[1]) then [t[1]] else [])
              + (if keep(t[2]) then [t[2]] else []) + (if keep(t[3]) then [t[3]] else [])
  {
    var t := ProviderTable(keys);
    assert t[1..][1..][1..][1..] == [];
    assert Select(t[1..][1..][1..], keep) == (if keep(t[3]) then [t[3]] else []);
    assert Select(t[1..][1..], keep) == (if keep(t[2]) then [t[2]] else []) + (if keep(t[3]) then [t[3]] else []);
  }

  /** The enabled additional providers of the table are the Together row
      and then the Perplexity row, each present when its key is set. */
  lemma ExtraTable(keys: ApiKeys)
    ensures var t := ProviderTable(keys);
            var extra := Select(t, IsEnabledExtra);
            && extra == (if keys.together != "" then [t[2]] else []) + (if keys.perplexity != "" then [t[3]] else [])
            && t[2].name == Together && t[3].name == Perplexity && t[2].priority <= t[3].priority
  {
    TableSelect(keys, IsEnabledExtra);
  }

  /** An entry of `getAvailableProviders`. */
  datatype Listing = Listing(name: string, limits: string, priority: nat, free: Free)

  function ListingOf(p: Provider): Listing
  {
    Listing(NameText(p.name), p.limits, p.priority, p.free)
  }

  /** `.map(p => ({ name, limits, priority, free }))`. */
  function Listings(ps: seq<Provider>): (r: seq<Listing>)
  {
    seq(|ps|, i requires 0 <= i < |ps| => ListingOf(ps[i]))
  }

  /** The listings are in ascending priority. */
  predicate ByPriority(r: seq<Listing>)
  {
    forall i, j | 0 <= i < j < |r| :: r[i].priority <= r[j].priority
  }

  /** The listings are exactly those of the enabled providers of `ps`. */
  ghost predicate ListsEnabled(r: seq<Listing>, ps: seq<Provider>)
  {
    && (forall p | p in ps && p.enabled :: ListingOf(p) in r)
    && (forall l | l in r :: exists p | p in ps :: p.enabled && l == ListingOf(p))
  }

  /** The listings of the enabled providers, sorted by priority, are in
      ascending priority and list exactly the enabled providers. */
  lemma AvailableListings(ps: seq<Provider>)
    ensures ByPriority(Listings(SortBy(Select(ps, IsEnabled), Priority)))
    ensures ListsEnabled(Listings(SortBy(Select(ps, IsEnabled), Priority)), ps)
    ensures |Listings(SortBy(Select(ps, IsEnabled), Priority))| == |Select(ps, IsEnabled)|
  {
    var selected := Select(ps, IsEnabled);
    var sorted := SortBy(selected, Priority);
    var r := Listings(sorted);
    SelectMembers(ps, IsEnabled);
    forall p | p in ps && p.enabled ensures ListingOf(p) in r {
      SortByMembers(selected, Priority, p);
      var i :| 0 <= i < |sorted| && sorted[i] == p;
      assert r[i] == ListingOf(p);
    }
    forall l | l in r ensures exists p | p in ps :: p.enabled && l == ListingOf(p) {
      var i :| 0 <= i < |r| && r[i] == l;
      SortByMembers(selected, Priority, sorted[i]);
      assert sorted[i] in ps && sorted[i].enabled;
    }
  }

  datatype ProviderStatus = ProviderStatus(primary: string, backup: string, totalEnabled: nat, recommended: nat)

  /** What `testProvider` reports; the response time is left out. */
  datatype TestResult = TestResult(success: bool, provider: string, error: Option<string>, status: string)

  const TestText := "My partner said they love me for the first time today"

  class OptimizedAIService {
    const keys: ApiKeys
    const providers: seq<Provider> := ProviderTable(keys)
    const maxRetries: nat := 3
    const groqMaxRetries: nat := 2
    const retryDelay: nat := 1000

    constructor (keys: ApiKeys)
      ensures this.keys == keys
    {
      this.keys := keys;
    }

    function GeminiPolicy(): Policy
    {
      Policy("gemini", "Gemini", EnabledNamed(providers, Gemini), maxRetries, retryDelay,
        Detailed("API Error: "), true)
    }

    function GroqPolicy(): Policy
    {
      Policy("groq", "Groq", EnabledNamed(providers, Groq), groqMaxRetries, retryDelay,
        Detailed("Groq API Error: "), false)
    }

    /** Together and Perplexity make a single attempt: a budget of no retries. */
    function TogetherPolicy(): Policy
    {
      Policy("together", "Together", EnabledNamed(providers, Together), 0, retryDelay,
        Plain("Together API Error: "), false)
    }

    function PerplexityPolicy(): Policy
    {
      Policy("perplexity", "Perplexity", EnabledNamed(providers, Perplexity), 0, retryDelay,
        Plain("Perplexity API Error: "), false)
    }

    /** Each provider's policy is enabled exactly when its key is set. */
    lemma PoliciesFollowKeys()
      ensures GeminiPolicy().enabled <==> keys.gemini != ""
      ensures GroqPolicy().enabled <==> keys.groq != ""
      ensures TogetherPolicy().enabled <==> keys.together != ""
      ensures PerplexityPolicy().enabled <==> keys.perplexity != ""
    {
      TableEnabled(keys);
    }

    /** `analyzeWithGemini(text, retryCount)`. */
    method AnalyzeWithGemini(text: string, net: Network, retryCount: nat) returns (run: Run)
      ensures run == RetryRun(GeminiPolicy(), text, net, retryCount)
      decreases maxRetries - retryCount
    {
      var provider := Find(providers, Gemini);
      if !(provider.Some? && provider.value.enabled) {
        return Run(Failure(NotConfigured(GeminiPolicy())), [], []);
      }
      var outcome := AttemptOutcome(GeminiPolicy(), net("gemini", text, retryCount));
      if outcome.Failure? && retryCount < maxRetries && IsRetryable(outcome.error) {
        var delay := retryDelay * Pow2(retryCount);
        var rest := AnalyzeWithGemini(text, net, retryCount + 1);
        return Run(rest.result, [Call("gemini", retryCount)] + rest.calls, [delay] + rest.delays);
      }
      return Run(outcome, [Call("gemini", retryCount)], []);
    }

    /** `analyzeWithGroq(text, retryCount)`. */
    method AnalyzeWithGroq(text: string, net: Network, retryCount: nat) returns (run: Run)
      ensures run == RetryRun(GroqPolicy(), text, net, retryCount)
      decreases groqMaxRetries - retryCount
    {
      var provider := Find(providers, Groq);
      if !(provider.Some? && provider.value.enabled) {
        return Run(Failure(NotConfigured(GroqPolicy())), [], []);
      }
      var outcome := AttemptOutcome(GroqPolicy(), net("groq", text, retryCount));
      if outcome.Failure? && retryCount < groqMaxRetries && IsRetryable(outcome.error) {
        var delay := retryDelay * Pow2(retryCount);
        var rest := AnalyzeWithGroq(text, net, retryCount + 1);
        return Run(rest.result, [Call("groq", retryCount)] + rest.calls, [delay] + rest.delays);
      }
      return Run(outcome, [Call("groq", retryCount)], []);
    }

    /** `analyzeWithTogether(text)`: at most one request, never a delay. */
    method AnalyzeWithTogether(text: string, net: Network) returns (run: Run)
      ensures run == RetryRun(TogetherPolicy(), text, net, 0)
      ensures |run.calls| <= 1 && run.delays == []
    {
      var provider := Find(providers, Together);
      if !(provider.Some? && provider.value.enabled) {
        RetryDisabled(TogetherPolicy(), text, net, 0);
        return Run(Failure(NotConfigured(TogetherPolicy())), [], []);
      }
      RetryLast(TogetherPolicy(), text, net, 0);
      var outcome := AttemptOutcome(TogetherPolicy(), net("together", text, 0));
      return Run(outcome, [Call("together", 0)], []);
    }

    /** `analyzeWithPerplexity(text)`: at most one request, never a delay. */
    method AnalyzeWithPerplexity(text: string, net: Network) returns (run: Run)
      ensures run == RetryRun(PerplexityPolicy(), text, net, 0)
      ensures |run.calls| <= 1 && run.delays == []
    {
      var provider := Find(providers, Perplexity);
      if !(provider.Some? && provider.value.enabled) {
        RetryDisabled(PerplexityPolicy(), text, net, 0);
        return Run(Failure(NotConfigured(PerplexityPolicy())), [], []);
      }
      RetryLast(PerplexityPolicy(), text, net, 0);
      var outcome := AttemptOutcome(PerplexityPolicy(), net("perplexity", text, 0));
      return Run(outcome, [Call("perplexity", 0)], []);
    }

    /** Gemini makes at most `maxRetries + 1` = 4 requests and Groq at most
        `groqMaxRetries + 1` = 3, whatever the network does. */
    lemma AttemptBounds(text: string, net: Network)
      ensures |RetryRun(GeminiPolicy(), text, net, 0).calls| <= 4
      ensures |RetryRun(GroqPolicy(), text, net, 0).calls| <= 3
    {
      if GeminiPolicy().enabled {
        RetryShape(GeminiPolicy(), text, net, 0);
      }
      if GroqPolicy().enabled {
        RetryShape(GroqPolicy(), text, net, 0);
      }
    }

    /** When every Gemini request fails retryably there are exactly four,
        with waits of 1000, 2000 and 4000 ms between them. */
    lemma GeminiSchedule(text: string, net: Network)
      requires GeminiPolicy().enabled
      requires forall j | 0 <= j <= 3 ::
                 Outcome(GeminiPolicy(), text, net, j).Failure?
                 && IsRetryable(Outcome(GeminiPolicy(), text, net, j).error)
      ensures |RetryRun(GeminiPolicy(), text, net, 0).calls| == 4
      ensures RetryRun(GeminiPolicy(), text, net, 0).delays == [1000, 2000, 4000]
    {
      var p := GeminiPolicy();
      RetryExhausts(p, text, net, 0);
      RetryShape(p, text, net, 0);
      var d := RetryRun(p, text, net, 0).delays;
      assert d[0] == 1000 * Pow2(0) && d[1] == 1000 * Pow2(1) && d[2] == 1000 * Pow2(2);
    }

    /** When every Groq request fails retryably there are exactly three,
        with waits of 1000 and 2000 ms between them. */
    lemma GroqSchedule(text: string, net: Network)
      requires GroqPolicy().enabled
      requires forall j | 0 <= j <= 2 ::
                 Outcome(GroqPolicy(), text, net, j).Failure?
                 && IsRetryable(Outcome(GroqPolicy(), text, net, j).error)
      ensures |RetryRun(GroqPolicy(), text, net, 0).calls| == 3
      ensures RetryRun(GroqPolicy(), text, net, 0).delays == [1000, 2000]
    {
      var p := GroqPolicy();
      RetryExhausts(p, text, net, 0);
      RetryShape(p, text, net, 0);
      var d := RetryRun(p, text, net, 0).delays;
      assert d[0] == 1000 * Pow2(0) && d[1] == 1000 * Pow2(1);
    }

    /** The enabled providers other than Gemini and Groq, by priority. */
    function AdditionalProviders(): seq<Provider>
    {
      SortBy(Select(providers, IsEnabledExtra), Priority)
    }

    /** The policies the `switch` in the loop reaches; any other name is
        skipped by its `default: continue`. */
    function ExtraPolicies(ps: seq<Provider>): seq<Policy>
    {
      if ps == [] then []
      else if ps[0].name == Together then [TogetherPolicy()] + ExtraPolicies(ps[1..])
      else if ps[0].name == Perplexity then [PerplexityPolicy()] + ExtraPolicies(ps[1..])
      else ExtraPolicies(ps[1..])
    }

    /** The order `analyzeRelationshipEntry` tries providers in. */
    function ChainPolicies(): seq<Policy>
    {
      [GeminiPolicy(), GroqPolicy()] + ExtraPolicies(AdditionalProviders())
    }

    /** A single additional row yields its own policy, */
    lemma ExtraSingle(t: Provider)
      requires t.name == Together || t.name == Perplexity
      ensures ExtraPolicies(SortBy([t], Priority))
              == if t.name == Together then [TogetherPolicy()] else [PerplexityPolicy()]
    {
      SortBySorted([t], Priority);
      assert [t][1..] == [];
    }

    /** and a Together row before a Perplexity row of larger priority yields
        both policies in that order. */
    lemma ExtraBoth(t: Provider, q: Provider)
      requires t.name == Together && q.name == Perplexity && t.priority <= q.priority
      ensures ExtraPolicies(SortBy([t, q], Priority)) == [TogetherPolicy(), PerplexityPolicy()]
    {
      SortBySorted([t, q], Priority);
      assert [t, q][1..] == [q] && [q][1..] == [];
      assert ExtraPolicies([q]) == [PerplexityPolicy()];
    }

    /** The additional policies for the enabled ones among a Together and a
        Perplexity row, Together's priority being the smaller. */
    lemma ExtraPair(t: Provider, q: Provider, useT: bool, useQ: bool)
      requires t.name == Together && q.name == Perplexity && t.priority <= q.priority
      ensures ExtraPolicies(SortBy((if useT then [t] else []) + (if useQ then [q] else []), Priority))
              == (if useT then [TogetherPolicy()] else []) + (if useQ then [PerplexityPolicy()] else [])
    {
      var extra := (if useT then [t] else []) + (if useQ then [q] else []);
      if useT && useQ {
        assert extra == [t, q];
        ExtraBoth(t, q);
      } else if useT {
        assert extra == [t];
        ExtraSingle(t);
      } else if useQ {
        assert extra == [q];
        ExtraSingle(q);
      } else {
        SortBySorted(extra, Priority);
      }
    }

    /** For the table the service builds, the chain is Gemini, Groq, then
        Together if its key is set, then Perplexity if its key is set. */
    lemma ChainOrder()
      ensures ChainPolicies() ==
              [GeminiPolicy(), GroqPolicy()]
              + ((if keys.together != "" then [TogetherPolicy()] else [])
                 + (if keys.perplexity != "" then [PerplexityPolicy()] else []))
    {
      ExtraTable(keys);
      ExtraPair(providers[2], providers[3], keys.together != "", keys.perplexity != "");
    }

    /** The chain as Gemini's run, then Groq's, then the additional ones. */
    lemma ChainUnfold(text: string, net: Network)
      ensures var gemini := RetryRun(GeminiPolicy(), text, net, 0);
              var groq := RetryRun(GroqPolicy(), text, net, 0);
              ChainRun(ChainPolicies(), text, net) ==
                if gemini.result.Success? then gemini
                else if groq.result.Success? then Then(gemini, groq)
                else Then(Then(gemini, groq), ChainRun(ExtraPolicies(AdditionalProviders()), text, net))
    {
      var extras := ExtraPolicies(AdditionalProviders());
      assert ChainPolicies() == [GeminiPolicy()] + ([GroqPolicy()] + extras);
      ChainCons(GeminiPolicy(), [GroqPolicy()] + extras, text, net);
      ChainCons(GroqPolicy(), extras, text, net);
      ThenAssoc(RetryRun(GeminiPolicy(), text, net, 0), RetryRun(GroqPolicy(), text, net, 0), ChainRun(extras, text, net));
    }

    /** `analyzeRelationshipEntry(text)`: Gemini with its retries, then Groq
        with its retries, then each enabled additional provider by
        priority; the first success is returned, and if all fail the chain
        throws its own error. */
    method AnalyzeRelationshipEntry(text: string, net: Network) returns (run: Run)
      ensures run == ChainRun(ChainPolicies(), text, net)
    {
      ChainUnfold(text, net);
      var gemini := AnalyzeWithGemini(text, net, 0);
      if gemini.result.Success? {
        return gemini;
      }
      var groq := AnalyzeWithGroq(text, net, 0);
      if groq.result.Success? {
        return Then(gemini, groq);
      }
      var acc := Then(gemini, groq);

      var additionalProviders := AdditionalProviders();
      var i := 0;
      while i < |additionalProviders|
        invariant 0 <= i <= |additionalProviders|
        invariant Then(acc, ChainRun(ExtraPolicies(additionalProviders[i..]), text, net))
                  == ChainRun(ChainPolicies(), text, net)
      {
        var provider := additionalProviders[i];
        assert additionalProviders[i..][1..] == additionalProviders[i + 1..];
        var result: Run;
        if provider.name == Together {
          result := AnalyzeWithTogether(text, net);
        } else if provider.name == Perplexity {
          result := AnalyzeWithPerplexity(text, net);
        } else {
          i := i + 1;
          continue;
        }
        if result.result.Success? {
          return Then(acc, result);
        }
        ThenAssoc(acc, result, ChainRun(ExtraPolicies(additionalProviders[i + 1..]), text, net));
        acc := Then(acc, result);
        i := i + 1;
      }
      return Then(acc, Run(Failure(AllFailed), [], []));
    }

    /** `getAvailableProviders`: exactly the enabled providers, in ascending
        priority. */
    function GetAvailableProviders(): (r: seq<Listing>)
      ensures ByPriority(r)
      ensures ListsEnabled(r, providers)
      ensures |r| == (if keys.gemini != "" then 1 else 0) + (if keys.groq != "" then 1 else 0)
                     + (if keys.together != "" then 1 else 0) + (if keys.perplexity != "" then 1 else 0)
    {
      AvailableListings(providers);
      TableEnabled(keys);
      TableSelect(keys, IsEnabled);
      Listings(SortBy(Select(providers, IsEnabled), Priority))
    }

    /** `getProviderStatus`: Gemini as primary and Groq as backup when their
        keys are set, the number of enabled providers, and how many of the
        two main ones are enabled, which is at most two and at most the
        total. */
    function GetProviderStatus(): (s: ProviderStatus)
      ensures s.primary == (if keys.gemini != "" then "gemini" else "none")
      ensures s.backup == (if keys.groq != "" then "groq" else "none")
      ensures s.totalEnabled == (if keys.gemini != "" then 1 else 0) + (if keys.groq != "" then 1 else 0)
                                + (if keys.together != "" then 1 else 0) + (if keys.perplexity != "" then 1 else 0)
      ensures s.recommended == (if keys.gemini != "" then 1 else 0) + (if keys.groq != "" then 1 else 0)
      ensures s.recommended <= 2 && s.recommended <= s.totalEnabled
    {
      TableEnabled(keys);
      TableSelect(keys, IsEnabled);
      TableSelect(keys, IsEnabledMain);
      ProviderStatus(
        if EnabledNamed(providers, Gemini) then "gemini" else "none",
        if EnabledNamed(providers, Groq) then "groq" else "none",
        |Select(providers, IsEnabled)|,
        |Select(providers, IsEnabledMain)|)
    }

    /** The policy `testProvider` runs for a name, if it knows the name. */
    function PolicyNamed(name: string): Option<Policy>
    {
      if name == "gemini" then Some(GeminiPolicy())
      else if name == "groq" then Some(GroqPolicy())
      else if name == "together" then Some(TogetherPolicy())
      else if name == "perplexity" then Some(PerplexityPolicy())
      else None
    }

    /** `testProvider(providerName)`: runs that provider's analysis on a fixed
        text and reports the outcome instead of throwing; an unknown name is
        reported as a failure. */
    method TestProvider(providerName: string, net: Network) returns (t: TestResult)
      ensures t.provider == providerName
      ensures PolicyNamed(providerName).None? ==>
                t == TestResult(false, providerName, Some("Unknown provider: " + providerName), "Failed")
      ensures PolicyNamed(providerName).Some? ==>
                var run := RetryRun(PolicyNamed(providerName).value, TestText, net, 0);
                && (t.success <==> run.result.Success?)
                && (!t.success ==> t.error == Some(run.result.error))
      ensures t.success <==> t.status != "Failed"
      ensures t.success ==>
                && t.error == None
                && t.status == (if providerName == "gemini" then "Primary"
                                else if providerName == "groq" then "Fast Backup" else "Additional Backup")
    {
      var run: Run;
      if providerName == "gemini" {
        run := AnalyzeWithGemini(TestText, net, 0);
      } else if providerName == "groq" {
        run := AnalyzeWithGroq(TestText, net, 0);
      } else if providerName == "together" {
        run := AnalyzeWithTogether(TestText, net);
      } else if providerName == "perplexity" {
        run := AnalyzeWithPerplexity(TestText, net);
      } else {
        return TestResult(false, providerName, Some("Unknown provider: " + providerName), "Failed");
      }
      if run.result.Failure? {
        return TestResult(false, providerName, Some(run.result.error), "Failed");
      }
      var status := if providerName == "gemini" then "Primary"
                    else if providerName == "groq" then "Fast Backup" else "Additional Backup";
      t := TestResult(true, providerName, None, status);
    }
  }
}
