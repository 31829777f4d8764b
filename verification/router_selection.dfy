/**
 * The pure half of the multi-model router: configuration lookup with its
 * defaults, the eligibility filter, and the four selection strategies.
 */
module RouterSelection {
  import opened Wrappers
  import opened Seqs
  import opened Interface
  import Breaker

  const DefaultWeight: int := 1
  const DefaultLatencySLAms: int := 2000

  /** The breaker state of every provider id. */
  type Breakers = map<string, Breaker.BreakerState>

  /** `cfg.find(c => c.id === id)`: the first configuration entry for `id`. */
  function FindConfig(cfg: seq<ProviderConfig>, id: string): (r: Option<ProviderConfig>)
    ensures r.Some? ==> r.value in cfg && r.value.id == id
  {
    if cfg == [] then None
    else if cfg[0].id == id then Some(cfg[0])
    else FindConfig(cfg[1..], id)
  }

  /** `find` returns the first entry with the id, and nothing only when there is none. */
  lemma {:induction false} FindConfigFirst(cfg: seq<ProviderConfig>, id: string)
    ensures FindConfig(cfg, id).None? <==> forall i :: 0 <= i < |cfg| ==> cfg[i].id != id
    ensures FindConfig(cfg, id).Some? ==>
              exists i :: 0 <= i < |cfg| && cfg[i] == FindConfig(cfg, id).value && forall j :: 0 <= j < i ==> cfg[j].id != id
  {
    if cfg != [] && cfg[0].id != id {
      FindConfigFirst(cfg[1..], id);
      var r := FindConfig(cfg, id);
      assert forall i :: 0 < i < |cfg| ==> cfg[i] == cfg[1..][i - 1];
      if r.Some? {
        var k :| 0 <= k < |cfg[1..]| && cfg[1..][k] == r.value && forall j :: 0 <= j < k ==> cfg[1..][j].id != id;
        assert cfg[k + 1] == r.value && forall j :: 0 <= j < k + 1 ==> cfg[j].id != id;
      }
    }
  }

  /** `conf?.weight ?? 1`. */
  function Weight(cfg: seq<ProviderConfig>, id: string): int {
    match FindConfig(cfg, id)
    case Some(c) => c.weight.GetOr(DefaultWeight)
    case None => DefaultWeight
  }

  /** `conf?.latencySLAms ?? 2000`. */
  function LatencySLA(cfg: seq<ProviderConfig>, id: string): int {
    match FindConfig(cfg, id)
    case Some(c) => c.latencySLAms.GetOr(DefaultLatencySLAms)
    case None => DefaultLatencySLAms
  }

  /** `conf?.enabled ?? true`. */
  predicate Enabled(cfg: seq<ProviderConfig>, id: string) {
    match FindConfig(cfg, id)
    case Some(c) => c.enabled.GetOr(true)
    case None => true
  }

  /** The defaults apply exactly when a value is not configured. */
  lemma ConfigDefaults(cfg: seq<ProviderConfig>, id: string)
    ensures (forall i :: 0 <= i < |cfg| ==> cfg[i].id != id) ==>
              Weight(cfg, id) == 1 && LatencySLA(cfg, id) == 2000 && Enabled(cfg, id)
    ensures !Enabled(cfg, id) <==> exists i :: 0 <= i < |cfg| && cfg[i].id == id && cfg[i].enabled == Some(false)
                                               && forall j :: 0 <= j < i ==> cfg[j].id != id
  {
    FindConfigFirst(cfg, id);
    var c := FindConfig(cfg, id);
    if c.Some? {
      var k :| 0 <= k < |cfg| && cfg[k] == c.value && forall j :: 0 <= j < k ==> cfg[j].id != id;
      forall i | 0 <= i < |cfg| && cfg[i].id == id && (forall j :: 0 <= j < i ==> cfg[j].id != id)
        ensures i == k
      {
      }
    }
  }

  /** The three conditions of `eligible`. */
  predicate IsEligible(cfg: seq<ProviderConfig>, breakers: Breakers, exclude: set<string>, now: int, p: Provider) {
    && p.id !in exclude
    && Enabled(cfg, p.id)
    && p.id in breakers && Breaker.Passes(breakers[p.id], now)
  }

  /**
   * `eligible(exclude)`: in registration order, exactly the providers that are
   * not excluded, not disabled, and whose breaker lets traffic through.
   */
  function Eligible(providers: seq<Provider>, cfg: seq<ProviderConfig>, breakers: Breakers, exclude: set<string>, now: int): (r: seq<Provider>)
    ensures forall p :: p in r <==> p in providers && IsEligible(cfg, breakers, exclude, now, p)
    ensures SubsequenceOf(r, providers)
  {
    Filter(providers, p => IsEligible(cfg, breakers, exclude, now, p))
  }

  /**
   * `eligible(exclude).filter(hasGenerate)`: the list every strategy chooses
   * from, in registration order (`ChatCandidatesFilter` ties it to the two
   * filters).
   */
  function ChatCandidates(providers: seq<Provider>, cfg: seq<ProviderConfig>, breakers: Breakers, exclude: set<string>, now: int): (r: seq<Provider>)
    ensures forall p {:trigger p in r} :: p in r <==> p in providers && p.hasGenerate && IsEligible(cfg, breakers, exclude, now, p)
    ensures SubsequenceOf(r, providers)
  {
    if providers == [] then []
    else
      var rest := ChatCandidates(providers[1..], cfg, breakers, exclude, now);
      if providers[0].hasGenerate && IsEligible(cfg, breakers, exclude, now, providers[0]) then [providers[0]] + rest else rest
  }

  /** The chat candidates are the eligible providers filtered by `hasGenerate`. */
  lemma {:induction false} ChatCandidatesFilter(providers: seq<Provider>, cfg: seq<ProviderConfig>, breakers: Breakers, exclude: set<string>, now: int)
    ensures ChatCandidates(providers, cfg, breakers, exclude, now)
         == Filter(Eligible(providers, cfg, breakers, exclude, now), (p: Provider) => p.hasGenerate)
  {
    if providers != [] {
      ChatCandidatesFilter(providers[1..], cfg, breakers, exclude, now);
    }
  }

  /** `eligible().filter(hasEmbed)`: the candidate list of `embed`. */
  function EmbedCandidates(providers: seq<Provider>, cfg: seq<ProviderConfig>, breakers: Breakers, now: int): (r: seq<Provider>)
    ensures forall p {:trigger p in r} :: p in r <==> p in providers && p.hasEmbed && IsEligible(cfg, breakers, {}, now, p)
    ensures SubsequenceOf(r, providers)
  {
    var e := Eligible(providers, cfg, breakers, {}, now);
    var r := Filter(e, (p: Provider) => p.hasEmbed);
    SubsequenceTrans(r, e, providers);
    r
  }

  lemma {:induction false} SubsequenceTrans<T>(a: seq<T>, b: seq<T>, c: seq<T>)
    requires SubsequenceOf(a, b) && SubsequenceOf(b, c)
    ensures SubsequenceOf(a, c)
    decreases |c|
  {
    if a != [] && c != [] {
      if b[0] == c[0] && SubsequenceOf(b[1..], c[1..]) {
        if a[0] == b[0] && SubsequenceOf(a[1..], b[1..]) {
          SubsequenceTrans(a[1..], b[1..], c[1..]);
        } else {
          SubsequenceTrans(a, b[1..], c[1..]);
        }
      } else {
        SubsequenceTrans(a, b, c[1..]);
      }
    }
  }

  // ---- smart ----

  /**
   * The order of the `smart` comparator `la - lb || wb - wa`: `a` sorts
   * strictly before `b` when its latency SLA is lower, or equal with a higher weight.
   */
  predicate SortsBefore(cfg: seq<ProviderConfig>, a: Provider, b: Provider) {
    || LatencySLA(cfg, a.id) < LatencySLA(cfg, b.id)
    || (LatencySLA(cfg, a.id) == LatencySLA(cfg, b.id) && Weight(cfg, a.id) > Weight(cfg, b.id))
  }

  /**
   * The position of `list.sort(cmp)[0]` in `list`: since the sort is stable,
   * the first provider in list order that no other provider sorts before.  It
   * is computed by a scan rather than a full sort.
   */
  function SmartIndex(cfg: seq<ProviderConfig>, list: seq<Provider>): (i: nat)
    requires list != []
    ensures i < |list|
    ensures forall j :: 0 <= j < i ==> SortsBefore(cfg, list[i], list[j])
    ensures forall j :: i < j < |list| ==> !SortsBefore(cfg, list[j], list[i])
  {
    if |list| == 1 then 0
    else
      var k := SmartIndex(cfg, list[1..]);
      assert forall j :: 0 < j < |list| ==> list[j] == list[1..][j - 1];
      if SortsBefore(cfg, list[1..][k], list[0]) then k + 1 else 0
  }

  /** The provider the `smart` strategy returns. */
  function SmartPick(cfg: seq<ProviderConfig>, list: seq<Provider>): (r: Provider)
    requires list != []
    ensures r in list
  {
    list[SmartIndex(cfg, list)]
  }

  /** The smart choice has the lowest SLA; among those the highest weight; among those the earliest. */
  lemma SmartPickIsBest(cfg: seq<ProviderConfig>, list: seq<Provider>)
    requires list != []
    ensures SmartPick(cfg, list) in list
    ensures forall q :: q in list ==> LatencySLA(cfg, SmartPick(cfg, list).id) <= LatencySLA(cfg, q.id)
    ensures forall q :: q in list && LatencySLA(cfg, q.id) == LatencySLA(cfg, SmartPick(cfg, list).id)
              ==> Weight(cfg, q.id) <= Weight(cfg, SmartPick(cfg, list).id)
  {
    var i := SmartIndex(cfg, list);
    forall q | q in list ensures !SortsBefore(cfg, q, list[i]) {
      var j :| 0 <= j < |list| && list[j] == q;
      if j < i {
        assert SortsBefore(cfg, list[i], q);
      }
    }
  }

  /** The configuration table the gateway is deployed with. */
  const DeployedConfig: seq<ProviderConfig> := [
    ProviderConfig("groq", Some(3), None, None, Some(700), None),
    ProviderConfig("openai", Some(3), None, None, Some(900), None),
    ProviderConfig("anthropic", Some(2), None, None, Some(1100), None),
    ProviderConfig("google", Some(2), None, None, Some(1200), None),
    ProviderConfig("mistral", Some(2), None, None, Some(1000), None),
    ProviderConfig("cohere", Some(1), None, None, Some(1400), None),
    ProviderConfig("ollama", Some(1), None, None, Some(25), Some(true)),
    ProviderConfig("deepseek", Some(1), None, None, Some(1200), None),
    ProviderConfig("xai", Some(1), None, None, Some(1300), None),
    ProviderConfig("azure-openai", Some(2), None, None, Some(950), None)
  ]

  /** Entries before the first one with `id` do not affect the lookup. */
  lemma {:induction false} FindConfigDrop(cfg: seq<ProviderConfig>, id: string, n: nat)
    requires n <= |cfg| && forall i :: 0 <= i < n ==> cfg[i].id != id
    ensures FindConfig(cfg, id) == FindConfig(cfg[n..], id)
  {
    if n > 0 {
      assert cfg[1..][n - 1..] == cfg[n..];
      FindConfigDrop(cfg[1..], id, n - 1);
    }
  }

  /** The deployed table gives `ollama` an SLA of 25 ms. */
  lemma OllamaSLA()
    ensures LatencySLA(DeployedConfig, "ollama") == 25
  {
    var t := DeployedConfig;
    assert |t[0].id| != 6 && |t[2].id| != 6 && |t[4].id| != 6;
    assert t[1].id[1] == 'p' && t[3].id[0] == 'g' && t[5].id[0] == 'c';
    FindConfigDrop(t, "ollama", 6);
    assert t[6..][0] == t[6];
  }

  /** In the deployed table every SLA other than `ollama`'s is at least 700 ms. */
  lemma DeployedSLA(id: string)
    ensures LatencySLA(DeployedConfig, id) == 25 ==> id == "ollama"
    ensures LatencySLA(DeployedConfig, id) >= 25
    ensures LatencySLA(DeployedConfig, id) != 25 ==> LatencySLA(DeployedConfig, id) >= 700
  {
    var c := FindConfig(DeployedConfig, id);
    if c.Some? {
      assert c.value in DeployedConfig;
    }
  }

  /** Under the deployed table, `smart` picks `ollama` whenever it is a candidate. */
  lemma SmartPicksOllama(list: seq<Provider>)
    requires exists p :: p in list && p.id == "ollama"
    ensures SmartPick(DeployedConfig, list).id == "ollama"
  {
    var o :| o in list && o.id == "ollama";
    SmartPickIsBest(DeployedConfig, list);
    OllamaSLA();
    DeployedSLA(SmartPick(DeployedConfig, list).id);
  }

  // ---- weighted ----

  /** `Math.max(1, w)`: how many copies of a provider the weighted pool holds. */
  function Copies(cfg: seq<ProviderConfig>, id: string): (n: nat)
    ensures n >= 1 && n >= Weight(cfg, id)
  {
    if Weight(cfg, id) > 1 then Weight(cfg, id) else 1
  }

  function Repeat(p: Provider, n: nat): (r: seq<Provider>)
    ensures |r| == n && forall i :: 0 <= i < n ==> r[i] == p
    ensures forall x :: x in r <==> n > 0 && x == p
  {
    if n == 0 then [] else Repeat(p, n - 1) + [p]
  }

  /** `list.flatMap(p => Array(Math.max(1, w)).fill(p))`. */
  function WeightedPool(cfg: seq<ProviderConfig>, list: seq<Provider>): (pool: seq<Provider>)
    ensures forall p :: p in pool <==> p in list
    ensures |pool| >= |list|
  {
    if list == [] then []
    else Repeat(list[0], Copies(cfg, list[0].id)) + WeightedPool(cfg, list[1..])
  }

  /** Each provider occurs in the pool `max(1, weight)` times for each time it occurs in the list. */
  lemma {:induction false} WeightedPoolCount(cfg: seq<ProviderConfig>, list: seq<Provider>, p: Provider)
    ensures multiset(WeightedPool(cfg, list))[p] == multiset(list)[p] * Copies(cfg, p.id)
  {
    if list != [] {
      WeightedPoolCount(cfg, list[1..], p);
      RepeatCount(list[0], Copies(cfg, list[0].id), p);
      CountSplit(cfg, list, p);
      var m, c := multiset(list[1..])[p], Copies(cfg, p.id);
      if list[0] == p {
        OneMore(m, c);
        assert multiset(list)[p] == 1 + m;
      } else {
        assert multiset(list)[p] == m;
      }
    }
  }

  /** The count of `p` in a list and in its pool, split at the first element. */
  lemma CountSplit(cfg: seq<ProviderConfig>, list: seq<Provider>, p: Provider)
    requires list != []
    ensures multiset(WeightedPool(cfg, list))[p]
            == multiset(Repeat(list[0], Copies(cfg, list[0].id)))[p] + multiset(WeightedPool(cfg, list[1..]))[p]
    ensures multiset(list)[p] == (if list[0] == p then 1 else 0) + multiset(list[1..])[p]
  {
    assert list == [list[0]] + list[1..];
    assert multiset(list) == multiset([list[0]]) + multiset(list[1..]);
  }

  lemma OneMore(m: int, c: int)
    ensures (1 + m) * c == c + m * c
  {
  }

  lemma {:induction false} RepeatCount(q: Provider, n: nat, p: Provider)
    ensures multiset(Repeat(q, n))[p] == if q == p then n else 0
  {
    if n > 0 {
      RepeatCount(q, n - 1, p);
      assert multiset(Repeat(q, n)) == multiset(Repeat(q, n - 1)) + multiset([q]);
    }
  }

  /**
   * `Math.floor(Math.random() * pool.length)` for a draw `rand` in [0, 1):
   * the largest index `i` below `n` with `i <= rand * n` (`DrawIndexIsFloor`).
   */
  function DrawIndex(rand: real, n: nat): (i: nat)
    requires 0.0 <= rand < 1.0 && n > 0
    ensures i < n
  {
    DrawAtMost(rand, n, n - 1)
  }

  /** The largest index `i <= k` with `i <= rand * n`, or 0. */
  function DrawAtMost(rand: real, n: nat, k: nat): (i: nat)
    ensures i <= k
  {
    if k == 0 || (k as real) <= rand * (n as real) then k else DrawAtMost(rand, n, k - 1)
  }

  /** The draw's index is the floor of `rand * n`. */
  lemma DrawIndexIsFloor(rand: real, n: nat)
    requires 0.0 <= rand < 1.0 && n > 0
    ensures DrawIndex(rand, n) == (rand * (n as real)).Floor
  {
    var x := rand * (n as real);
    assert 0.0 <= x < n as real by {
      assert (1.0 - rand) * (n as real) > 0.0;
    }
    DrawAtMostFloor(rand, n, n - 1);
  }

  lemma {:induction false} DrawAtMostFloor(rand: real, n: nat, k: nat)
    requires 0.0 <= rand * (n as real) < (k + 1) as real
    ensures DrawAtMost(rand, n, k) == (rand * (n as real)).Floor
  {
    if k > 0 && !((k as real) <= rand * (n as real)) {
      DrawAtMostFloor(rand, n, k - 1);
    }
  }

  /** Euclidean division has one quotient and remainder. */
  lemma ModUnique(a: int, n: int, q: int, r: int)
    requires n > 0 && a == q * n + r && 0 <= r < n
    ensures a % n == r
  {
    var q', r' := a / n, a % n;
    assert a == q' * n + r';
    var d := q - q';
    assert d * n == r' - r by {
      assert q * n - q' * n == (q - q') * n;
    }
    if d > 0 {
      MulAtLeast(d, n);
    } else if d < 0 {
      assert (-d) * n == -(d * n);
      MulAtLeast(-d, n);
    }
  }

  lemma {:induction false} MulAtLeast(k: int, n: int)
    requires k >= 1 && n > 0
    ensures k * n >= n
    decreases k
  {
    if k > 1 {
      MulAtLeast(k - 1, n);
      assert k * n == (k - 1) * n + n;
    }
  }

  /** `rrIdx % n`, by repeated subtraction of `n` (`CycleIsMod`). */
  function Cycle(cursor: nat, n: nat): (i: nat)
    requires n > 0
    ensures i < n
  {
    if cursor < n then cursor else Cycle(cursor - n, n)
  }

  lemma {:induction false} CycleIsMod(cursor: nat, n: nat)
    requires n > 0
    ensures Cycle(cursor, n) == cursor % n
  {
    if cursor >= n {
      CycleIsMod(cursor - n, n);
      var q, r := (cursor - n) / n, (cursor - n) % n;
      assert cursor == (q + 1) * n + r by {
        assert (q + 1) * n == q * n + n;
      }
      ModUnique(cursor, n, q + 1, r);
    }
  }

  // ---- the strategies together ----

  /**
   * The provider `pick` returns from a non-empty candidate list, given the
   * round-robin cursor and the random draw.
   */
  function Choose(strategy: RouteStrategy, cfg: seq<ProviderConfig>, list: seq<Provider>, rrIdx: nat, rand: real): (r: Provider)
    requires list != [] && 0.0 <= rand < 1.0
    ensures r in list
    ensures strategy == Failover ==> r == list[0]
  {
    match strategy
    case Failover => list[0]
    case RoundRobin => list[Cycle(rrIdx, |list|)]
    case Weighted =>
      var pool := WeightedPool(cfg, list);
      pool[DrawIndex(rand, |pool|)]
    case Smart => SmartPick(cfg, list)
  }

  /** Round-robin takes the candidate at `rrIdx mod length`. */
  lemma ChooseRoundRobin(strategy: RouteStrategy, cfg: seq<ProviderConfig>, list: seq<Provider>, rrIdx: nat, rand: real)
    requires list != [] && 0.0 <= rand < 1.0
    ensures strategy == RoundRobin ==> Choose(strategy, cfg, list, rrIdx, rand) == list[rrIdx % |list|]
  {
    CycleIsMod(rrIdx, |list|);
  }
}
