/**
 * The multi-model router: one circuit breaker per provider, a round-robin
 * cursor and a strategy, and the two dispatch loops `Generate` and `Embed`.
 *
 * Provider calls are not performed.  A call is given a script: `replies[k]`
 * is what its k-th provider invocation returns (an invocation past the end of
 * the script throws), and `draws[k]` is `Math.random()` for its k-th pick (0
 * past the end).  Each call reports the invocations it made, in order, and the
 * backoff delays it would have awaited.
 */
module Router {
  import opened Wrappers
  import opened Seqs
  import opened Interface
  import opened RouterSelection
  import Breaker

  const DefaultMaxTokens: int := 512

  /** What a chat provider does with one invocation: answer, or throw (a timeout is a throw). */
  datatype Reply = Answered(response: GenerateResponse) | Threw(message: string)

  /** What an embedding provider does with one invocation. */
  datatype EmbedReply = Embedded(response: EmbeddingsResponse) | EmbedThrew

  datatype ChatRequest = ChatRequest(messages: seq<ChatMessage>, options: GenerateOptions)

  datatype EmbedRequest = EmbedRequest(inputs: seq<string>, options: EmbedOptions)

  /** One provider invocation: to whom, with what, and whether it succeeded. */
  datatype Attempt<R> = Attempt(providerId: string, request: R, succeeded: bool)

  datatype RouterError =
    | UnknownProvider(id: string)              // "Unknown or non-chat provider"
    | CircuitOpen(id: string)                  // "Provider circuit open"
    | ProviderFailed(message: string)          // a strict pinned provider's own error
    | NoAvailableProviders(tried: seq<string>) // "No available providers for chat (tried: ...)"
    | AllProvidersFailed(tried: seq<string>)   // "All providers failed: ..."
    | EmbeddingProviderUnavailable(id: string) // "Embedding provider not available"
    | NoEmbeddingProviders                     // "No embedding providers available"
    | AllEmbeddingProvidersFailed              // "All embedding providers failed"

  /**
   * What the strategy's choices in a `generate` call depend on besides the
   * candidates: the strategy, the round-robin cursor when the call starts,
   * and the script of random draws.
   */
  datatype Routing = Routing(strategy: RouteStrategy, cursor: nat, draws: seq<real>)

  /** The reply to the k-th invocation of a call. */
  function ReplyAt(replies: seq<Reply>, k: nat): Reply {
    if k < |replies| then replies[k] else Threw("")
  }

  function EmbedReplyAt(replies: seq<EmbedReply>, k: nat): EmbedReply {
    if k < |replies| then replies[k] else EmbedThrew
  }

  /**
   * The random draw of the k-th pick of a call.  `Math.random()` returns
   * values in [0, 1); a draw outside that range, or past the end of the
   * script, reads as 0.
   */
  function DrawAt(draws: seq<real>, k: nat): (r: real)
    ensures 0.0 <= r < 1.0
    ensures k < |draws| && 0.0 <= draws[k] < 1.0 ==> r == draws[k]
  {
    if k < |draws| && 0.0 <= draws[k] < 1.0 then draws[k] else 0.0
  }

  /** `hasGenerate`: a provider is present and implements `generate`. */
  predicate HasGenerate(p: Option<Provider>) {
    p.Some? && p.value.hasGenerate
  }

  /** `hasEmbed`: a provider is present and implements `embed`. */
  predicate HasEmbed(p: Option<Provider>) {
    p.Some? && p.value.hasEmbed
  }

  /** `if (opts.providerId)`: present and not the empty string. */
  predicate Pinned(id: Option<string>) {
    id.Some? && id.value != ""
  }

  /** `{ ...opts, maxTokens: opts.maxTokens ?? 512 }`: what every chat invocation receives. */
  function SentOptions(opts: GenerateOptions): (o: GenerateOptions)
    ensures o.maxTokens.Some? && (opts.maxTokens.Some? ==> o.maxTokens == opts.maxTokens)
    ensures opts.maxTokens.None? ==> o.maxTokens == Some(512)
    ensures o.(maxTokens := opts.maxTokens) == opts
  {
    opts.(maxTokens := Some(opts.maxTokens.GetOr(DefaultMaxTokens)))
  }

  /** The wait after the failed attempt number `i` of the fallback loop. */
  function Backoff(i: nat): (ms: int)
    ensures ms >= 100
  {
    100 + i * 200
  }

  /** The delays awaited after `n` failed attempts of the fallback loop, in order, each longer than the one before. */
  function BackoffSchedule(n: nat): (s: seq<int>)
    ensures |s| == n && forall i :: 0 <= i < n ==> s[i] == Backoff(i)
    ensures forall i, j :: 0 <= i < j < n ==> s[i] < s[j]
  {
    if n == 0 then [] else BackoffSchedule(n - 1) + [Backoff(n - 1)]
  }

  function Ids<R>(log: seq<Attempt<R>>): (ids: seq<string>)
    ensures |ids| == |log| && forall i :: 0 <= i < |log| ==> ids[i] == log[i].providerId
  {
    seq(|log|, i requires 0 <= i < |log| => log[i].providerId)
  }

  function IdSet<R>(log: seq<Attempt<R>>): (s: set<string>)
    ensures forall id :: id in s <==> exists i :: 0 <= i < |log| && log[i].providerId == id
  {
    set i | 0 <= i < |log| :: log[i].providerId
  }

  ghost predicate DistinctIds<R>(log: seq<Attempt<R>>) {
    forall i, j :: 0 <= i < j < |log| ==> log[i].providerId != log[j].providerId
  }

  /** Every invocation of `log` failed. */
  ghost predicate AllFailed<R>(log: seq<Attempt<R>>) {
    forall i :: 0 <= i < |log| ==> !log[i].succeeded
  }

  /** The number of invocations in `log` that failed. */
  function FailedCount<R>(log: seq<Attempt<R>>): nat
    decreases |log|
  {
    if log == [] then 0
    else FailedCount(log[..|log| - 1]) + if log[|log| - 1].succeeded then 0 else 1
  }

  /** The ids of the invocations of two runs, one after the other. */
  lemma IdsAppend<R>(a: seq<Attempt<R>>, b: seq<Attempt<R>>)
    ensures Ids(a + b) == Ids(a) + Ids(b)
    ensures IdSet(a + b) == IdSet(a) + IdSet(b)
  {
    forall id | id in IdSet(a + b) ensures id in IdSet(a) + IdSet(b) {
      var i :| 0 <= i < |a + b| && (a + b)[i].providerId == id;
      if i >= |a| {
        assert b[i - |a|].providerId == id;
      }
    }
    forall id | id in IdSet(a) ensures id in IdSet(a + b) {
      var i :| 0 <= i < |a| && a[i].providerId == id;
      assert (a + b)[i].providerId == id;
    }
    forall id | id in IdSet(b) ensures id in IdSet(a + b) {
      var i :| 0 <= i < |b| && b[i].providerId == id;
      assert (a + b)[|a| + i].providerId == id;
    }
  }

  /** One more invocation, to a provider not invoked yet. */
  lemma DistinctSnoc<R>(log: seq<Attempt<R>>, a: Attempt<R>)
    requires DistinctIds(log) && a.providerId !in IdSet(log)
    ensures DistinctIds(log + [a]) && IdSet(log + [a]) == IdSet(log) + {a.providerId}
  {
    IdsAppend(log, [a]);
    assert [a][0].providerId == a.providerId;
    forall i | 0 <= i < |log| ensures (log + [a])[i].providerId != a.providerId {
      assert log[i].providerId in IdSet(log);
    }
  }

  /** The breaker update the router makes after one invocation. */
  function Record(b: Breakers, id: string, succeeded: bool, now: int): Breakers {
    if id !in b then b
    else if succeeded then b[id := Breaker.AfterSuccess(b[id])]
    else b[id := Breaker.AfterFailure(b[id], now, Breaker.DefaultMaxFailures, Breaker.DefaultCoolDownMs)]
  }

  /** The breaker states after the router has recorded every invocation of `log`. */
  function AfterAttempts<R>(b: Breakers, log: seq<Attempt<R>>, now: int): (r: Breakers)
    ensures r.Keys == b.Keys
    decreases |log|
  {
    if log == [] then b
    else
      var last := log[|log| - 1];
      Record(AfterAttempts(b, log[..|log| - 1], now), last.providerId, last.succeeded, now)
  }

  /** Recording invocations changes only the breakers of the providers invoked. */
  lemma {:induction false} AfterAttemptsElsewhere<R>(b: Breakers, log: seq<Attempt<R>>, now: int, id: string)
    requires forall i :: 0 <= i < |log| ==> log[i].providerId != id
    ensures id in b ==> AfterAttempts(b, log, now)[id] == b[id]
    decreases |log|
  {
    if log != [] {
      AfterAttemptsElsewhere(b, log[..|log| - 1], now, id);
    }
  }

  /**
   * In a call where no provider is invoked twice, each breaker records at most
   * one outcome: a provider that failed has one more failure, one that
   * answered has its counter zeroed.
   */
  lemma {:induction false} AfterAttemptsOnce<R>(b: Breakers, log: seq<Attempt<R>>, now: int, k: nat)
    requires DistinctIds(log) && k < |log| && log[k].providerId in b
    ensures var id := log[k].providerId;
      AfterAttempts(b, log, now)[id] ==
        if log[k].succeeded then Breaker.AfterSuccess(b[id])
        else Breaker.AfterFailure(b[id], now, Breaker.DefaultMaxFailures, Breaker.DefaultCoolDownMs)
    decreases |log|
  {
    var n := |log| - 1;
    var prefix := log[..n];
    if k == n {
      AfterAttemptsElsewhere(b, prefix, now, log[k].providerId);
    } else {
      AfterAttemptsOnce(b, prefix, now, k);
      AfterAttemptsElsewhere(b, prefix, now, log[n].providerId);
    }
  }

  /** Recording one more invocation after a run. */
  lemma AfterAttemptsSnoc<R>(b: Breakers, log: seq<Attempt<R>>, a: Attempt<R>, now: int)
    ensures AfterAttempts(b, log + [a], now) == Record(AfterAttempts(b, log, now), a.providerId, a.succeeded, now)
  {
    assert (log + [a])[..|log|] == log;
  }

  /** Recording two runs of invocations one after the other. */
  lemma {:induction false} AfterAttemptsAppend<R>(b: Breakers, first: seq<Attempt<R>>, second: seq<Attempt<R>>, now: int)
    ensures AfterAttempts(b, first + second, now) == AfterAttempts(AfterAttempts(b, first, now), second, now)
    decreases |second|
  {
    if second == [] {
      assert first + second == first;
    } else {
      var n := |second| - 1;
      assert (first + second)[..|first + second| - 1] == first + second[..n];
      AfterAttemptsAppend(b, first, second[..n], now);
    }
  }

  /** A registered provider with this id implements `generate`. */
  ghost predicate IsChatProvider(providers: seq<Provider>, id: string) {
    exists p :: p in providers && p.id == id && p.hasGenerate
  }

  /**
   * What the fallback loop may invoke: each invocation carries `request`, the
   * k-th is answered by the reply number `offset + k`, and goes to a chat
   * provider that is enabled, not in `excluded`, and whose breaker let
   * traffic through in the states `b0` the loop started from.
   */
  ghost predicate ChatLog(tail: seq<Attempt<ChatRequest>>, request: ChatRequest, replies: seq<Reply>, offset: nat,
                          providers: seq<Provider>, cfg: seq<ProviderConfig>, b0: Breakers, excluded: set<string>, now: int)
  {
    forall i :: 0 <= i < |tail| ==>
      && tail[i].request == request
      && tail[i].succeeded == ReplyAt(replies, offset + i).Answered?
      && IsChatProvider(providers, tail[i].providerId)
      && Enabled(cfg, tail[i].providerId)
      && tail[i].providerId in b0 && Breaker.Passes(b0[tail[i].providerId], now)
      && tail[i].providerId !in excluded
  }

  lemma ChatLogSnoc(tail: seq<Attempt<ChatRequest>>, a: Attempt<ChatRequest>, request: ChatRequest, replies: seq<Reply>, offset: nat,
                    providers: seq<Provider>, cfg: seq<ProviderConfig>, b0: Breakers, excluded: set<string>, now: int)
    requires ChatLog(tail, request, replies, offset, providers, cfg, b0, excluded, now)
    requires a.request == request && a.succeeded == ReplyAt(replies, offset + |tail|).Answered?
    requires IsChatProvider(providers, a.providerId) && Enabled(cfg, a.providerId)
    requires a.providerId in b0 && Breaker.Passes(b0[a.providerId], now) && a.providerId !in excluded
    ensures ChatLog(tail + [a], request, replies, offset, providers, cfg, b0, excluded, now)
  {
  }

  /**
   * The id of the provider `pick` returns given the breaker states `b` and
   * the ids `tried`: the choice of `strategy`, at the round-robin position
   * `cursor` and with the draw `rand`, among the chat candidates left; none
   * when no candidate is left.
   */
  function PickedId(strategy: RouteStrategy, cfg: seq<ProviderConfig>, providers: seq<Provider>, b: Breakers,
                    tried: set<string>, now: int, cursor: nat, rand: real): Option<string>
    requires 0.0 <= rand < 1.0
  {
    var list := ChatCandidates(providers, cfg, b, tried, now);
    if list == [] then None else Some(Choose(strategy, cfg, list, cursor, rand).id)
  }

  /**
   * `id` is the fallback loop's pick after the attempts `done`: the pick of
   * the routing `rt` given the breaker states after `done`, the ids of `done`
   * and `excluded` as tried, the cursor advanced once per earlier round-robin
   * pick, and the draw of that round.
   */
  ghost predicate StrategyPick(done: seq<Attempt<ChatRequest>>, id: string, rt: Routing,
                               providers: seq<Provider>, cfg: seq<ProviderConfig>, b0: Breakers, excluded: set<string>, now: int)
  {
    var k := |done|;
    PickedId(rt.strategy, cfg, providers, AfterAttempts(b0, done, now), excluded + IdSet(done), now,
             rt.cursor + (if rt.strategy == RoundRobin then k else 0), DrawAt(rt.draws, k)) == Some(id)
  }

  /** Every attempt of the fallback loop went to the provider the strategy picked for it. */
  ghost predicate PickLog(tail: seq<Attempt<ChatRequest>>, rt: Routing,
                          providers: seq<Provider>, cfg: seq<ProviderConfig>, b0: Breakers, excluded: set<string>, now: int)
  {
    forall i {:trigger StrategyPick(tail[..i], tail[i].providerId, rt, providers, cfg, b0, excluded, now)} :: 0 <= i < |tail| ==>
      StrategyPick(tail[..i], tail[i].providerId, rt, providers, cfg, b0, excluded, now)
  }

  /** The pick from the state the loop has reached after `tail` is the strategy's pick after `tail`. */
  lemma PickedAfter(tail: seq<Attempt<ChatRequest>>, id: string, rt: Routing,
                    providers: seq<Provider>, cfg: seq<ProviderConfig>, b0: Breakers, excluded: set<string>, now: int,
                    strategy: RouteStrategy, b: Breakers, tried: set<string>, cursor: nat, rand: real)
    requires rt.strategy == strategy && b == AfterAttempts(b0, tail, now) && tried == excluded + IdSet(tail)
    requires cursor == rt.cursor + (if rt.strategy == RoundRobin then |tail| else 0) && rand == DrawAt(rt.draws, |tail|)
    requires PickedId(strategy, cfg, providers, b, tried, now, cursor, rand) == Some(id)
    ensures StrategyPick(tail, id, rt, providers, cfg, b0, excluded, now)
  {
    assert PickedId(strategy, cfg, providers, b, tried, now, cursor, rand)
        == PickedId(rt.strategy, cfg, providers, AfterAttempts(b0, tail, now), excluded + IdSet(tail), now,
                    rt.cursor + (if rt.strategy == RoundRobin then |tail| else 0), DrawAt(rt.draws, |tail|));
  }

  /** The log grows by an attempt on the strategy's pick after the attempts already logged. */
  lemma PickLogSnoc(tail: seq<Attempt<ChatRequest>>, a: Attempt<ChatRequest>, rt: Routing,
                    providers: seq<Provider>, cfg: seq<ProviderConfig>, b0: Breakers, excluded: set<string>, now: int)
    requires PickLog(tail, rt, providers, cfg, b0, excluded, now)
    requires StrategyPick(tail, a.providerId, rt, providers, cfg, b0, excluded, now)
    ensures PickLog(tail + [a], rt, providers, cfg, b0, excluded, now)
  {
    var t := tail + [a];
    forall i | 0 <= i < |t| ensures StrategyPick(t[..i], t[i].providerId, rt, providers, cfg, b0, excluded, now) {
      if i < |tail| {
        assert t[..i] == tail[..i] && t[i] == tail[i];
        assert StrategyPick(tail[..i], tail[i].providerId, rt, providers, cfg, b0, excluded, now);
      } else {
        assert t[..i] == tail;
      }
    }
  }

  /** Under failover, every attempt of the loop goes to the first chat candidate left. */
  lemma PickLogFailover(tail: seq<Attempt<ChatRequest>>, rt: Routing,
                        providers: seq<Provider>, cfg: seq<ProviderConfig>, b0: Breakers, excluded: set<string>, now: int, i: nat)
    requires PickLog(tail, rt, providers, cfg, b0, excluded, now) && rt.strategy == Failover && i < |tail|
    ensures var list := ChatCandidates(providers, cfg, AfterAttempts(b0, tail[..i], now), excluded + IdSet(tail[..i]), now);
      list != [] && tail[i].providerId == list[0].id
  {
    assert StrategyPick(tail[..i], tail[i].providerId, rt, providers, cfg, b0, excluded, now);
  }

  /**
   * Under round-robin, the i-th attempt of the loop goes to the candidate at
   * position `cursor + i`, modulo the number of chat candidates left.
   */
  lemma PickLogRoundRobin(tail: seq<Attempt<ChatRequest>>, rt: Routing,
                          providers: seq<Provider>, cfg: seq<ProviderConfig>, b0: Breakers, excluded: set<string>, now: int, i: nat)
    requires PickLog(tail, rt, providers, cfg, b0, excluded, now) && rt.strategy == RoundRobin && i < |tail|
    ensures var list := ChatCandidates(providers, cfg, AfterAttempts(b0, tail[..i], now), excluded + IdSet(tail[..i]), now);
      list != [] && tail[i].providerId == list[(rt.cursor + i) % |list|].id
  {
    assert StrategyPick(tail[..i], tail[i].providerId, rt, providers, cfg, b0, excluded, now);
    var list := ChatCandidates(providers, cfg, AfterAttempts(b0, tail[..i], now), excluded + IdSet(tail[..i]), now);
    var rand := DrawAt(rt.draws, i);
    assert list != [] && tail[i].providerId == Choose(RoundRobin, cfg, list, rt.cursor + i, rand).id;
    ChooseRoundRobin(RoundRobin, cfg, list, rt.cursor + i, rand);
  }

  /**
   * What the embedding loop invokes: the candidates in order, each with
   * `request`, the k-th answered by the reply number `offset + k`.
   */
  ghost predicate EmbedLog(tail: seq<Attempt<EmbedRequest>>, request: EmbedRequest, replies: seq<EmbedReply>, offset: nat, candidates: seq<Provider>) {
    && |tail| <= |candidates|
    && forall i :: 0 <= i < |tail| ==>
         && tail[i].request == request
         && tail[i].succeeded == EmbedReplyAt(replies, offset + i).Embedded?
         && tail[i].providerId == candidates[i].id
  }

  lemma EmbedLogSnoc(tail: seq<Attempt<EmbedRequest>>, request: EmbedRequest, replies: seq<EmbedReply>, offset: nat, candidates: seq<Provider>)
    requires EmbedLog(tail, request, replies, offset, candidates) && |tail| < |candidates|
    ensures EmbedLog(tail + [Attempt(candidates[|tail|].id, request, EmbedReplyAt(replies, offset + |tail|).Embedded?)],
                     request, replies, offset, candidates)
  {
  }

  /**
   * What the candidate loop of `embed` has done once it stops: the candidates
   * in order, all but the last failed, and the reply of the last one exactly
   * when it answered; otherwise every candidate was invoked.
   */
  ghost predicate EmbedLoopOutcome(res: Result<EmbeddingsResponse, RouterError>, tail: seq<Attempt<EmbedRequest>>,
                                   request: EmbedRequest, replies: seq<EmbedReply>, offset: nat, candidates: seq<Provider>)
  {
    && EmbedLog(tail, request, replies, offset, candidates)
    && (tail != [] ==> AllFailed(tail[..|tail| - 1]))
    && (res.Ok? <==> tail != [] && tail[|tail| - 1].succeeded)
    && (res.Ok? ==> res.value == EmbedReplyAt(replies, offset + |tail| - 1).response)
    && (res.Err? ==> res == Err(AllEmbeddingProvidersFailed) && |tail| == |candidates|)
  }

  /** The candidate loop stops because its last invocation was answered. */
  lemma EmbedAnswered(tail: seq<Attempt<EmbedRequest>>, a: Attempt<EmbedRequest>, request: EmbedRequest,
                      replies: seq<EmbedReply>, offset: nat, candidates: seq<Provider>)
    requires AllFailed(tail) && EmbedLog(tail + [a], request, replies, offset, candidates)
    requires a.succeeded && EmbedReplyAt(replies, offset + |tail|).Embedded?
    ensures EmbedLoopOutcome(Ok(EmbedReplyAt(replies, offset + |tail|).response), tail + [a], request, replies, offset, candidates)
  {
    assert (tail + [a])[..|tail|] == tail;
  }

  /** The ids of a list of providers. */
  function ProviderIds(ps: seq<Provider>): set<string>
    decreases |ps|
  {
    if ps == [] then {} else ProviderIds(ps[..|ps| - 1]) + {ps[|ps| - 1].id}
  }

  /** `ProviderIds` holds exactly the ids of the providers listed. */
  lemma {:induction false} ProviderIdsSpec(ps: seq<Provider>)
    ensures ProviderIds(ps) == set p | p in ps :: p.id
    decreases |ps|
  {
    if ps != [] {
      var n := |ps| - 1;
      ProviderIdsSpec(ps[..n]);
      assert ps == ps[..n] + [ps[n]];
      assert forall p :: p in ps <==> p in ps[..n] || p == ps[n];
    }
  }

  class MultiModelRouter {
    const providers: seq<Provider>
    const cfg: seq<ProviderConfig>
    /** `this.cb`: one breaker object per provider id. */
    const cb: map<string, Breaker.CircuitBreaker>
    var rrIdx: nat
    var strategy: RouteStrategy
    /** Which id each breaker object belongs to: no object serves two ids. */
    ghost const owner: map<Breaker.CircuitBreaker, string>
    /** The state of every breaker, by provider id. */
    ghost var breakers: Breakers

    ghost predicate Valid()
      reads this`breakers, cb.Values
    {
      && (forall p :: p in providers ==> p.id in cb)
      && (forall id :: id in cb ==> cb[id] in owner && owner[cb[id]] == id)
      && (forall id :: id in cb ==>
            cb[id].maxFailures == Breaker.DefaultMaxFailures && cb[id].coolDownMs == Breaker.DefaultCoolDownMs)
      && breakers.Keys == cb.Keys
      && (forall id :: id in cb ==> cb[id].State() == breakers[id])
    }

    /** The breaker states read off the breaker objects. */
    function States(): (b: Breakers)
      reads this`breakers, cb.Values
      requires Valid()
      ensures b == breakers
    {
      map id | id in cb :: cb[id].State()
    }

    /** `this.cb`'s construction: a fresh breaker with the default thresholds for each provider id. */
    static method NewBreakers(providers: seq<Provider>)
      returns (m: map<string, Breaker.CircuitBreaker>, ghost own: map<Breaker.CircuitBreaker, string>, ghost bs: Breakers)
      ensures m.Keys == bs.Keys == ProviderIds(providers)
      ensures forall id :: id in m ==> fresh(m[id])
      ensures forall id :: id in m ==> m[id] in own && own[m[id]] == id
      ensures forall id :: id in m ==>
                && m[id].State() == Breaker.Initial == bs[id]
                && m[id].maxFailures == Breaker.DefaultMaxFailures && m[id].coolDownMs == Breaker.DefaultCoolDownMs
    {
      m, own, bs := map[], map[], map[];
      var i := 0;
      while i < |providers|
        invariant 0 <= i <= |providers|
        invariant m.Keys == bs.Keys == ProviderIds(providers[..i])
        invariant forall id :: id in m ==> fresh(m[id])
        invariant forall id :: id in m ==> m[id] in own && own[m[id]] == id
        invariant forall id :: id in m ==>
                    && m[id].State() == Breaker.Initial == bs[id]
                    && m[id].maxFailures == Breaker.DefaultMaxFailures && m[id].coolDownMs == Breaker.DefaultCoolDownMs
      {
        var b := new Breaker.CircuitBreaker();
        m := m[providers[i].id := b];
        own := own[b := providers[i].id];
        bs := bs[providers[i].id := Breaker.Initial];
        assert providers[..i + 1][..i] == providers[..i];
        i := i + 1;
      }
      assert providers[..i] == providers;
    }

    constructor (providers: seq<Provider>, cfg: seq<ProviderConfig>, strategy: RouteStrategy := Smart)
      ensures Valid()
      ensures this.providers == providers && this.cfg == cfg && this.strategy == strategy && rrIdx == 0
      ensures cb.Keys == set p | p in providers :: p.id
      ensures fresh(cb.Values)
      ensures forall id :: id in breakers ==> breakers[id] == Breaker.Initial
    {
      var m;
      ghost var own, bs;
      m, own, bs := NewBreakers(providers);
      ProviderIdsSpec(providers);
      this.providers := providers;
      this.cfg := cfg;
      this.cb := m;
      this.owner := own;
      this.breakers := bs;
      this.strategy := strategy;
      rrIdx := 0;
    }

    method SetStrategy(s: RouteStrategy)
      modifies this`strategy
      ensures strategy == s
    {
      strategy := s;
    }

    /** `providers.find(p => p.id === id)`. */
    function GetProvider(id: string): (r: Option<Provider>)
      ensures r.Some? ==> r.value in providers && r.value.id == id
    {
      Find(providers, id)
    }

    static function Find(ps: seq<Provider>, id: string): (r: Option<Provider>)
      ensures r.Some? ==> r.value in ps && r.value.id == id
    {
      if ps == [] then None
      else if ps[0].id == id then Some(ps[0])
      else Find(ps[1..], id)
    }

    /** `find` returns the first provider with the id, and nothing only when there is none. */
    static lemma {:induction false} FindFirst(ps: seq<Provider>, id: string)
      ensures Find(ps, id).None? <==> forall p :: p in ps ==> p.id != id
      ensures Find(ps, id).Some? ==>
                exists i :: 0 <= i < |ps| && ps[i] == Find(ps, id).value && forall j :: 0 <= j < i ==> ps[j].id != id
    {
      if ps != [] && ps[0].id != id {
        FindFirst(ps[1..], id);
        var r := Find(ps, id);
        assert forall i :: 0 < i < |ps| ==> ps[i] == ps[1..][i - 1];
        if r.Some? {
          var k :| 0 <= k < |ps[1..]| && ps[1..][k] == r.value && forall j :: 0 <= j < k ==> ps[1..][j].id != id;
          assert ps[k + 1] == r.value && forall j :: 0 <= j < k + 1 ==> ps[j].id != id;
        }
      }
    }

    /** The pinned provider of a `generate` call is attempted before the fallback loop. */
    ghost predicate PinnedAttempted(opts: GenerateOptions, b: Breakers, now: int) {
      && Pinned(opts.providerId)
      && HasGenerate(GetProvider(opts.providerId.value))
      && opts.providerId.value in b
      && Breaker.Passes(b[opts.providerId.value], now)
    }

    /** The pinned provider of an `embed` call is invoked before the candidate loop. */
    ghost predicate EmbedPinned(opts: EmbedOptions) {
      Pinned(opts.providerId) && HasEmbed(GetProvider(opts.providerId.value))
    }

    /** `recordSuccess` or `recordFailure` on the breaker of `id`, and on no other. */
    method RecordOutcome(id: string, succeeded: bool, now: int)
      requires Valid() && id in cb
      modifies this`breakers, cb[id]
      ensures Valid()
      ensures breakers == Record(old(breakers), id, succeeded, now)
    {
      if succeeded {
        cb[id].RecordSuccess();
      } else {
        cb[id].RecordFailure(now);
      }
      breakers := Record(breakers, id, succeeded, now);
      assert forall j :: j in cb && j != id ==> cb[j] != cb[id] && cb[j].State() == old(cb[j].State());
    }

    /**
     * `pick`: the strategy's choice among the eligible chat providers, none
     * when there is none; round robin advances its cursor only when it chooses.
     */
    method Pick(exclude: set<string>, now: int, rand: real) returns (r: Option<Provider>)
      requires Valid() && 0.0 <= rand < 1.0
      modifies this`rrIdx
      ensures Valid() && breakers == old(breakers)
      ensures var list := ChatCandidates(providers, cfg, breakers, exclude, now);
        && (r.None? <==> list == [])
        && (r.Some? ==> r.value in list && r.value == Choose(strategy, cfg, list, old(rrIdx), rand))
        && (r.Some? ==> r.value in providers && r.value.hasGenerate && IsEligible(cfg, breakers, exclude, now, r.value))
        && rrIdx == (if strategy == RoundRobin && list != [] then old(rrIdx) + 1 else old(rrIdx))
    {
      var list := ChatCandidates(providers, cfg, States(), exclude, now);
      if list == [] {
        return None;
      }
      r := Some(Choose(strategy, cfg, list, rrIdx, rand));
      if strategy == RoundRobin {
        rrIdx := rrIdx + 1;
      }
    }

    /**
     * The facts the fallback loop keeps about the attempts `tail` made so far
     * (all failed, each to a distinct eligible chat provider) and the backoffs
     * awaited after them; `tried` holds the ids of `lead` and `tail`.
     */
    ghost predicate LoopState(tail: seq<Attempt<ChatRequest>>, backoffs: seq<int>, tried: set<string>, lead: seq<Attempt<ChatRequest>>,
                              request: ChatRequest, replies: seq<Reply>, b0: Breakers, now: int)
    {
      && |tail| <= |providers|
      && ChatLog(tail, request, replies, |lead|, providers, cfg, b0, IdSet(lead), now)
      && AllFailed(tail) && DistinctIds(tail)
      && tried == IdSet(lead) + IdSet(tail)
      && FailedCount(tail) == |tail|
      && backoffs == BackoffSchedule(|tail|)
    }

    /**
     * What the fallback loop has done once it stops: at most one attempt per
     * provider, each to a distinct eligible chat provider, all but the last
     * failed, and one backoff per failure.
     */
    ghost predicate FallbackLog(tail: seq<Attempt<ChatRequest>>, backoffs: seq<int>, lead: seq<Attempt<ChatRequest>>,
                                request: ChatRequest, replies: seq<Reply>, b0: Breakers, now: int)
    {
      && |tail| <= |providers|
      && ChatLog(tail, request, replies, |lead|, providers, cfg, b0, IdSet(lead), now)
      && DistinctIds(tail)
      && (tail != [] ==> AllFailed(tail[..|tail| - 1]))
      && backoffs == BackoffSchedule(FailedCount(tail))
    }

    /** One more attempt of the fallback loop, on a provider `pick` may return. */
    lemma LoopStateNext(tail: seq<Attempt<ChatRequest>>, backoffs: seq<int>, tried: set<string>, lead: seq<Attempt<ChatRequest>>,
                        request: ChatRequest, replies: seq<Reply>, b0: Breakers, now: int, q: Provider, answered: bool)
      requires LoopState(tail, backoffs, tried, lead, request, replies, b0, now) && |tail| < |providers|
      requires q in providers && q.hasGenerate && IsEligible(cfg, AfterAttempts(b0, tail, now), tried, now, q)
      requires answered == ReplyAt(replies, |lead| + |tail|).Answered?
      ensures var t := tail + [Attempt(q.id, request, answered)];
        && AfterAttempts(b0, t, now) == Record(AfterAttempts(b0, tail, now), q.id, answered, now)
        && (answered ==> FallbackLog(t, backoffs, lead, request, replies, b0, now))
        && (!answered ==> LoopState(t, backoffs + [Backoff(|tail|)], tried + {q.id}, lead, request, replies, b0, now))
    {
      var a := Attempt(q.id, request, answered);
      var t := tail + [a];
      assert q.id !in IdSet(tail) && q.id !in IdSet(lead);
      AfterAttemptsElsewhere(b0, tail, now, q.id);
      ChatLogSnoc(tail, a, request, replies, |lead|, providers, cfg, b0, IdSet(lead), now);
      DistinctSnoc(tail, a);
      AfterAttemptsSnoc(b0, tail, a, now);
      assert t[..|tail|] == tail;
    }

    /**
     * The result of the fallback loop given its attempts `tail` and the breaker
     * states `b` it ends with: the reply of the last attempt when it succeeded,
     * otherwise `NoAvailableProviders` when no untried chat provider was
     * eligible, or `AllProvidersFailed` after one attempt per provider; both
     * report the ids tried, pinned one first.
     */
    ghost predicate FallbackOutcome(res: Result<GenerateResponse, RouterError>, tail: seq<Attempt<ChatRequest>>,
                                    lead: seq<Attempt<ChatRequest>>, replies: seq<Reply>, b: Breakers, now: int)
    {
      && (res.Ok? <==> tail != [] && tail[|tail| - 1].succeeded)
      && (res.Ok? ==> ReplyAt(replies, |lead| + |tail| - 1).Answered? && res.value == ReplyAt(replies, |lead| + |tail| - 1).response)
      && (res.Err? ==> res.error.NoAvailableProviders? || res.error.AllProvidersFailed?)
      && (res.Err? && res.error.AllProvidersFailed? ==> res.error.tried == Ids(lead + tail) && |tail| == |providers|)
      && (res.Err? && res.error.NoAvailableProviders? ==>
            res.error.tried == Ids(lead + tail) && ChatCandidates(providers, cfg, b, IdSet(lead + tail), now) == [])
    }

    /**
     * The fallback loop has stopped after the attempts `tail`, leaving the
     * breakers `b` and the result `res`.
     */
    ghost predicate FallbackDone(res: Result<GenerateResponse, RouterError>, tail: seq<Attempt<ChatRequest>>, backoffs: seq<int>,
                                 lead: seq<Attempt<ChatRequest>>, request: ChatRequest, replies: seq<Reply>, b0: Breakers, b: Breakers, now: int)
    {
      && FallbackLog(tail, backoffs, lead, request, replies, b0, now)
      && b == AfterAttempts(b0, tail, now)
      && FallbackOutcome(res, tail, lead, replies, b, now)
    }

    /** The loop stops because `pick` found no candidate. */
    lemma FallbackNoneLeft(tail: seq<Attempt<ChatRequest>>, backoffs: seq<int>, tried: set<string>, lead: seq<Attempt<ChatRequest>>,
                           request: ChatRequest, replies: seq<Reply>, b0: Breakers, b: Breakers, now: int)
      requires LoopState(tail, backoffs, tried, lead, request, replies, b0, now) && b == AfterAttempts(b0, tail, now)
      requires ChatCandidates(providers, cfg, b, tried, now) == []
      ensures FallbackDone(Err(NoAvailableProviders(Ids(lead + tail))), tail, backoffs, lead, request, replies, b0, b, now)
    {
      IdsAppend(lead, tail);
    }

    /** The loop stops after one failed attempt per provider. */
    lemma FallbackExhausted(tail: seq<Attempt<ChatRequest>>, backoffs: seq<int>, tried: set<string>, lead: seq<Attempt<ChatRequest>>,
                            request: ChatRequest, replies: seq<Reply>, b0: Breakers, b: Breakers, now: int)
      requires LoopState(tail, backoffs, tried, lead, request, replies, b0, now) && |tail| >= |providers|
      requires b == AfterAttempts(b0, tail, now)
      ensures FallbackDone(Err(AllProvidersFailed(Ids(lead + tail))), tail, backoffs, lead, request, replies, b0, b, now)
    {
    }

    /**
     * One attempt of the fallback loop on the provider `q`, as it stands
     * after the invocation: `reply` is the next reply of the script, the
     * breakers `b` have recorded it, and the loop state is extended by it.
     */
    ghost predicate Stepped(q: Provider, reply: Reply, b: Breakers, tail: seq<Attempt<ChatRequest>>, backoffs: seq<int>,
                            tried: set<string>, lead: seq<Attempt<ChatRequest>>, request: ChatRequest, replies: seq<Reply>,
                            b0: Breakers, now: int)
    {
      var t := tail + [Attempt(q.id, request, reply.Answered?)];
      && reply == ReplyAt(replies, |lead| + |tail|)
      && b == AfterAttempts(b0, t, now)
      && (reply.Answered? ==> FallbackLog(t, backoffs, lead, request, replies, b0, now))
      && (!reply.Answered? ==> LoopState(t, backoffs + [Backoff(|tail|)], tried + {q.id}, lead, request, replies, b0, now))
    }

    /** The loop stops because its last attempt, on `q`, was answered. */
    lemma FallbackAnswered(q: Provider, reply: Reply, b: Breakers, tail: seq<Attempt<ChatRequest>>, backoffs: seq<int>,
                           tried: set<string>, lead: seq<Attempt<ChatRequest>>, request: ChatRequest, replies: seq<Reply>,
                           b0: Breakers, now: int)
      requires Stepped(q, reply, b, tail, backoffs, tried, lead, request, replies, b0, now) && reply.Answered?
      ensures FallbackDone(Ok(reply.response), tail + [Attempt(q.id, request, reply.Answered?)], backoffs, lead, request, replies, b0, b, now)
    {
      assert (tail + [Attempt(q.id, request, reply.Answered?)])[|tail|] == Attempt(q.id, request, reply.Answered?);
    }

    /**
     * The invocation of one picked provider in the fallback loop: its reply is
     * the next one of the script, and its outcome is recorded on its breaker.
     */
    method Invoke(request: ChatRequest, lead: seq<Attempt<ChatRequest>>, tail: seq<Attempt<ChatRequest>>, backoffs: seq<int>,
                  tried: set<string>, now: int, replies: seq<Reply>, q: Provider, ghost b0: Breakers)
      returns (reply: Reply)
      requires Valid()
      requires LoopState(tail, backoffs, tried, lead, request, replies, b0, now) && |tail| < |providers|
      requires breakers == AfterAttempts(b0, tail, now)
      requires q in providers && q.hasGenerate && IsEligible(cfg, breakers, tried, now, q)
      modifies this`breakers, cb.Values
      ensures Valid()
      ensures Stepped(q, reply, breakers, tail, backoffs, tried, lead, request, replies, b0, now)
    {
      reply := ReplyAt(replies, |lead| + |tail|);
      LoopStateNext(tail, backoffs, tried, lead, request, replies, b0, now, q, reply.Answered?);
      RecordOutcome(q.id, reply.Answered?, now);
    }

    /**
     * The pick of one round of the fallback loop among the eligible chat
     * providers not yet tried: the strategy's pick of the routing `rt` after
     * the attempts `tail`.
     */
    method FallbackPick(request: ChatRequest, lead: seq<Attempt<ChatRequest>>, tail: seq<Attempt<ChatRequest>>, tried: set<string>, now: int,
                        draws: seq<real>, ghost b0: Breakers, ghost rt: Routing)
      returns (p: Option<Provider>)
      requires Valid()
      requires breakers == AfterAttempts(b0, tail, now) && tried == IdSet(lead) + IdSet(tail)
      requires rt.strategy == strategy && rt.draws == draws && rrIdx == rt.cursor + (if strategy == RoundRobin then |tail| else 0)
      requires PickLog(tail, rt, providers, cfg, b0, IdSet(lead), now)
      modifies this`rrIdx
      ensures Valid() && breakers == old(breakers)
      ensures p.None? ==> rrIdx == old(rrIdx) && ChatCandidates(providers, cfg, breakers, tried, now) == []
      ensures p.Some? ==> p.value in providers && p.value.hasGenerate && IsEligible(cfg, breakers, tried, now, p.value)
      ensures p.Some? ==> rrIdx == if strategy == RoundRobin then old(rrIdx) + 1 else old(rrIdx)
      ensures p.Some? ==> StrategyPick(tail, p.value.id, rt, providers, cfg, b0, IdSet(lead), now)
      ensures p.Some? ==> forall ok: bool :: PickLog(tail + [Attempt(p.value.id, request, ok)], rt, providers, cfg, b0, IdSet(lead), now)
    {
      var rand := DrawAt(draws, |tail|);
      p := Pick(tried, now, rand);
      if p.Some? {
        PickedAfter(tail, p.value.id, rt, providers, cfg, b0, IdSet(lead), now, strategy, breakers, tried, old(rrIdx), rand);
        forall ok: bool
          ensures PickLog(tail + [Attempt(p.value.id, request, ok)], rt, providers, cfg, b0, IdSet(lead), now)
        {
          PickLogSnoc(tail, Attempt(p.value.id, request, ok), rt, providers, cfg, b0, IdSet(lead), now);
        }
      }
    }

    /**
     * One round of the fallback loop: pick among the eligible chat providers
     * not yet tried, and invoke the pick.
     */
    method FallbackStep(request: ChatRequest, lead: seq<Attempt<ChatRequest>>, tail: seq<Attempt<ChatRequest>>, backoffs: seq<int>,
                        tried: set<string>, now: int, replies: seq<Reply>, draws: seq<real>, ghost b0: Breakers, ghost rt: Routing)
      returns (p: Option<Provider>, reply: Reply)
      requires Valid()
      requires LoopState(tail, backoffs, tried, lead, request, replies, b0, now) && |tail| < |providers|
      requires breakers == AfterAttempts(b0, tail, now)
      requires rt.strategy == strategy && rt.draws == draws && rrIdx == rt.cursor + (if strategy == RoundRobin then |tail| else 0)
      requires PickLog(tail, rt, providers, cfg, b0, IdSet(lead), now)
      modifies this`rrIdx, this`breakers, cb.Values
      ensures Valid()
      ensures p.None? ==> breakers == old(breakers) && rrIdx == old(rrIdx) && ChatCandidates(providers, cfg, breakers, tried, now) == []
      ensures p.Some? ==> Stepped(p.value, reply, breakers, tail, backoffs, tried, lead, request, replies, b0, now)
      ensures p.Some? ==> rrIdx == if strategy == RoundRobin then old(rrIdx) + 1 else old(rrIdx)
      ensures p.Some? ==> PickLog(tail + [Attempt(p.value.id, request, reply.Answered?)], rt, providers, cfg, b0, IdSet(lead), now)
    {
      p := FallbackPick(request, lead, tail, tried, now, draws, b0, rt);
      if p.None? {
        return p, ReplyAt(replies, |lead| + |tail|);
      }
      reply := Invoke(request, lead, tail, backoffs, tried, now, replies, p.value, b0);
    }

    /**
     * The fallback loop of `generate`: up to `|providers|` attempts, each on
     * the strategy's choice among the eligible chat providers not yet tried,
     * with a growing backoff after each failure.  `lead` holds the failed
     * pinned attempt, if any: it counts as tried, and its invocation precedes
     * those of the loop.
     */
    method Fallback(request: ChatRequest, lead: seq<Attempt<ChatRequest>>, now: int, replies: seq<Reply>, draws: seq<real>)
      returns (res: Result<GenerateResponse, RouterError>, tail: seq<Attempt<ChatRequest>>, backoffs: seq<int>)
      requires Valid()
      modifies this`rrIdx, this`breakers, cb.Values
      ensures Valid()
      ensures FallbackDone(res, tail, backoffs, lead, request, replies, old(breakers), breakers, now)
      ensures PickLog(tail, Routing(strategy, old(rrIdx), draws), providers, cfg, old(breakers), IdSet(lead), now)
      ensures rrIdx == if strategy == RoundRobin then old(rrIdx) + |tail| else old(rrIdx)
    {
      ghost var b0 := breakers;
      ghost var rt := Routing(strategy, rrIdx, draws);
      tail, backoffs := [], [];
      var tried := IdSet(lead);
      while |tail| < |providers|
        invariant Valid() && LoopState(tail, backoffs, tried, lead, request, replies, b0, now)
        invariant breakers == AfterAttempts(b0, tail, now)
        invariant rrIdx == if strategy == RoundRobin then old(rrIdx) + |tail| else old(rrIdx)
        invariant PickLog(tail, rt, providers, cfg, b0, IdSet(lead), now)
      {
        var p, reply := FallbackStep(request, lead, tail, backoffs, tried, now, replies, draws, b0, rt);
        if p.None? {
          FallbackNoneLeft(tail, backoffs, tried, lead, request, replies, b0, breakers, now);
          return Err(NoAvailableProviders(Ids(lead + tail))), tail, backoffs;
        }
        var a := Attempt(p.value.id, request, reply.Answered?);
        if reply.Answered? {
          FallbackAnswered(p.value, reply, breakers, tail, backoffs, tried, lead, request, replies, b0, now);
          return Ok(reply.response), tail + [a], backoffs;
        }
        backoffs := backoffs + [Backoff(|tail|)];
        tail := tail + [a];
        tried := tried + {p.value.id};
      }
      FallbackExhausted(tail, backoffs, tried, lead, request, replies, b0, breakers, now);
      return Err(AllProvidersFailed(Ids(lead + tail))), tail, backoffs;
    }

    /**
     * What every `generate` call guarantees about its invocations `calls` and
     * its result: each sent `request` to a chat provider and got the reply of
     * the script, no provider was invoked twice, every invocation but the last
     * failed, and the call succeeds with the last reply exactly when that one
     * answered.
     */
    ghost predicate ChatCallLog(calls: seq<Attempt<ChatRequest>>, request: ChatRequest, replies: seq<Reply>,
                                res: Result<GenerateResponse, RouterError>)
    {
      && (forall i :: 0 <= i < |calls| ==> calls[i].request == request)
      && (forall i :: 0 <= i < |calls| ==> calls[i].succeeded == ReplyAt(replies, i).Answered?)
      && (forall i :: 0 <= i < |calls| ==> IsChatProvider(providers, calls[i].providerId))
      && DistinctIds(calls)
      && (calls != [] ==> AllFailed(calls[..|calls| - 1]))
      && (res.Ok? <==> calls != [] && calls[|calls| - 1].succeeded)
      && (res.Ok? ==> ReplyAt(replies, |calls| - 1).Answered? && res.value == ReplyAt(replies, |calls| - 1).response)
    }

    /**
     * The pinned step of `generate`, from the breaker states `b` it starts
     * with: a pinned id that names no chat provider ends the call; a pinned
     * provider whose breaker is open ends a strict call and is skipped
     * otherwise; a pinned provider whose breaker passes is invoked once
     * (`lead`), and its answer, or its failure under `strictProvider`, ends
     * the call.  `early` is the result when the call ends there.
     */
    ghost predicate PinnedOutcome(opts: GenerateOptions, request: ChatRequest, b: Breakers, now: int, replies: seq<Reply>,
                                  early: Option<Result<GenerateResponse, RouterError>>, lead: seq<Attempt<ChatRequest>>)
    {
      && (PinnedAttempted(opts, b, now) ==>
            && lead == [Attempt(opts.providerId.value, request, ReplyAt(replies, 0).Answered?)]
            && IsChatProvider(providers, opts.providerId.value)
            && early == if ReplyAt(replies, 0).Answered? then Some(Ok(ReplyAt(replies, 0).response))
                        else if opts.strictProvider then Some(Err(ProviderFailed(ReplyAt(replies, 0).message)))
                        else None)
      && (!PinnedAttempted(opts, b, now) ==> lead == [])
      && (!Pinned(opts.providerId) ==> early == None)
      && (Pinned(opts.providerId) && !HasGenerate(GetProvider(opts.providerId.value)) ==>
            early == Some(Err(UnknownProvider(opts.providerId.value))))
      && (Pinned(opts.providerId) && HasGenerate(GetProvider(opts.providerId.value)) && !PinnedAttempted(opts, b, now) ==>
            early == if opts.strictProvider then Some(Err(CircuitOpen(opts.providerId.value))) else None)
    }

    method PinnedStep(request: ChatRequest, opts: GenerateOptions, now: int, replies: seq<Reply>)
      returns (early: Option<Result<GenerateResponse, RouterError>>, lead: seq<Attempt<ChatRequest>>)
      requires Valid()
      modifies this`breakers, cb.Values
      ensures Valid()
      ensures breakers == AfterAttempts(old(breakers), lead, now)
      ensures PinnedOutcome(opts, request, old(breakers), now, replies, early, lead)
    {
      lead := [];
      early := None;
      if Pinned(opts.providerId) {
        var chosen := GetProvider(opts.providerId.value);
        if !HasGenerate(chosen) {
          return Some(Err(UnknownProvider(opts.providerId.value))), [];
        }
        var p := chosen.value;
        if !cb[p.id].CanPass(now) {
          if opts.strictProvider {
            early := Some(Err(CircuitOpen(p.id)));
          }
        } else {
          assert IsChatProvider(providers, p.id);
          var r := ReplyAt(replies, 0);
          lead := [Attempt(p.id, request, r.Answered?)];
          RecordOutcome(p.id, r.Answered?, now);
          if r.Answered? {
            early := Some(Ok(r.response));
          } else if opts.strictProvider {
            early := Some(Err(ProviderFailed(r.message)));
          }
        }
      }
    }

    /** What `generate` promises about its pinned provider, from the breaker states `b` it starts with. */
    ghost predicate PinnedCases(opts: GenerateOptions, b: Breakers, now: int, replies: seq<Reply>,
                                res: Result<GenerateResponse, RouterError>, calls: seq<Attempt<ChatRequest>>, backoffs: seq<int>)
    {
      && (Pinned(opts.providerId) && !HasGenerate(GetProvider(opts.providerId.value)) ==>
            res == Err(UnknownProvider(opts.providerId.value)) && calls == [] && backoffs == [])
      && (Pinned(opts.providerId) && HasGenerate(GetProvider(opts.providerId.value)) && !PinnedAttempted(opts, b, now) ==>
            if opts.strictProvider then res == Err(CircuitOpen(opts.providerId.value)) && calls == [] && backoffs == []
            else opts.providerId.value !in IdSet(calls))
      && (PinnedAttempted(opts, b, now) ==> calls != [] && calls[0].providerId == opts.providerId.value)
      && (PinnedAttempted(opts, b, now) && opts.strictProvider ==>
            |calls| == 1 && (res.Err? ==> ReplyAt(replies, 0).Threw? && res.error == ProviderFailed(ReplyAt(replies, 0).message)))
    }

    /**
     * A `generate` call gets to the fallback loop unless a pinned id names no
     * chat provider or the call is strict about its pinned provider.
     */
    ghost predicate ReachesLoop(opts: GenerateOptions) {
      !Pinned(opts.providerId) || (HasGenerate(GetProvider(opts.providerId.value)) && !opts.strictProvider)
    }

    /**
     * What `generate` promises about its fallback loop: at most one invocation
     * per provider after the pinned one, each to the provider the strategy
     * `rt` picks among the chat candidates left (enabled, not tried before,
     * and whose breaker lets traffic through); one backoff per failure in the
     * loop; once the loop is reached, only its two errors, which report the
     * ids tried; `b'` are the final breaker states.
     */
    ghost predicate LoopCases(opts: GenerateOptions, rt: Routing, request: ChatRequest, b: Breakers, b': Breakers, now: int, replies: seq<Reply>,
                              res: Result<GenerateResponse, RouterError>, calls: seq<Attempt<ChatRequest>>, backoffs: seq<int>)
    {
      && (var lead := if PinnedAttempted(opts, b, now) then 1 else 0;
          && lead <= |calls| <= lead + |providers|
          && ChatLog(calls[lead..], request, replies, lead, providers, cfg, AfterAttempts(b, calls[..lead], now), IdSet(calls[..lead]), now)
          && PickLog(calls[lead..], rt, providers, cfg, AfterAttempts(b, calls[..lead], now), IdSet(calls[..lead]), now)
          && backoffs == BackoffSchedule(FailedCount(calls[lead..]))
          && (res.Err? && res.error.AllProvidersFailed? ==> res.error.tried == Ids(calls) && |calls| == lead + |providers|))
      && (res.Err? && res.error.NoAvailableProviders? ==>
            res.error.tried == Ids(calls) && ChatCandidates(providers, cfg, b', IdSet(calls), now) == [])
      && (ReachesLoop(opts) && res.Err? ==> res.error.NoAvailableProviders? || res.error.AllProvidersFailed?)
    }

    /**
     * What `generate` promises, from the breaker states `b` it starts with to
     * the states `b'` it leaves: its invocations and result, the breaker
     * updates, the pinned cases and the fallback loop.
     */
    ghost predicate GenerateOutcome(opts: GenerateOptions, rt: Routing, request: ChatRequest, b: Breakers, b': Breakers, now: int, replies: seq<Reply>,
                                    res: Result<GenerateResponse, RouterError>, calls: seq<Attempt<ChatRequest>>, backoffs: seq<int>)
    {
      && ChatCallLog(calls, request, replies, res)
      && b' == AfterAttempts(b, calls, now)
      && PinnedCases(opts, b, now, replies, res, calls, backoffs)
      && LoopCases(opts, rt, request, b, b', now, replies, res, calls, backoffs)
    }

    /**
     * `generate`: the pinned provider first when there is one, then the
     * fallback loop over the other eligible chat providers.
     */
    method Generate(messages: seq<ChatMessage>, opts: GenerateOptions, now: int, replies: seq<Reply>, draws: seq<real>)
      returns (res: Result<GenerateResponse, RouterError>, calls: seq<Attempt<ChatRequest>>, backoffs: seq<int>)
      requires Valid()
      modifies this`rrIdx, this`breakers, cb.Values
      ensures Valid()
      ensures GenerateOutcome(opts, Routing(strategy, old(rrIdx), draws), ChatRequest(messages, SentOptions(opts)), old(breakers), breakers,
                              now, replies, res, calls, backoffs)
      ensures var lead := if PinnedAttempted(opts, old(breakers), now) then 1 else 0;
        rrIdx == if strategy == RoundRobin then old(rrIdx) + (|calls| - lead) else old(rrIdx)
    {
      var request := ChatRequest(messages, SentOptions(opts));
      var early, lead := PinnedStep(request, opts, now, replies);
      if early.Some? {
        GenerateEarly(opts, Routing(strategy, old(rrIdx), draws), request, old(breakers), breakers, now, replies, early, lead);
        return early.value, lead, [];
      }
      ghost var b1 := breakers;
      var tail;
      res, tail, backoffs := Fallback(request, lead, now, replies, draws);
      calls := lead + tail;
      GenerateLate(opts, Routing(strategy, old(rrIdx), draws), request, old(breakers), b1, breakers, now, replies, lead, tail, res, backoffs);
    }

    /** `generate` ending in its pinned step. */
    lemma GenerateEarly(opts: GenerateOptions, rt: Routing, request: ChatRequest, b: Breakers, b': Breakers, now: int, replies: seq<Reply>,
                        early: Option<Result<GenerateResponse, RouterError>>, lead: seq<Attempt<ChatRequest>>)
      requires PinnedOutcome(opts, request, b, now, replies, early, lead) && early.Some?
      requires b' == AfterAttempts(b, lead, now)
      ensures GenerateOutcome(opts, rt, request, b, b', now, replies, early.value, lead, [])
      ensures PinnedAttempted(opts, b, now) ==> |lead| == 1
      ensures !PinnedAttempted(opts, b, now) ==> lead == []
    {
      if lead != [] {
        PinnedLog(lead, request, replies, early.value);
        assert lead[1..] == [];
      } else {
        PinnedLog(lead, request, replies, early.value);
      }
    }

    /** `generate` reaching the fallback loop. */
    lemma GenerateLate(opts: GenerateOptions, rt: Routing, request: ChatRequest, b: Breakers, b1: Breakers, b': Breakers, now: int, replies: seq<Reply>,
                       lead: seq<Attempt<ChatRequest>>, tail: seq<Attempt<ChatRequest>>, res: Result<GenerateResponse, RouterError>,
                       backoffs: seq<int>)
      requires PinnedOutcome(opts, request, b, now, replies, None, lead)
      requires b1 == AfterAttempts(b, lead, now)
      requires FallbackDone(res, tail, backoffs, lead, request, replies, b1, b', now)
      requires PickLog(tail, rt, providers, cfg, b1, IdSet(lead), now)
      ensures GenerateOutcome(opts, rt, request, b, b', now, replies, res, lead + tail, backoffs)
    {
      AfterAttemptsAppend(b, lead, tail, now);
      JoinLog(lead, tail, request, replies, b1, now, res);
      LatePinned(opts, request, b, b1, now, replies, lead, tail, res, backoffs);
      LateLoop(opts, rt, request, b, b1, b', now, replies, lead, tail, res, backoffs);
    }

    lemma LatePinned(opts: GenerateOptions, request: ChatRequest, b: Breakers, b1: Breakers, now: int, replies: seq<Reply>,
                     lead: seq<Attempt<ChatRequest>>, tail: seq<Attempt<ChatRequest>>, res: Result<GenerateResponse, RouterError>,
                     backoffs: seq<int>)
      requires PinnedOutcome(opts, request, b, now, replies, None, lead) && b1 == AfterAttempts(b, lead, now)
      requires ChatLog(tail, request, replies, |lead|, providers, cfg, b1, IdSet(lead), now)
      requires res.Ok? || res.error.NoAvailableProviders? || res.error.AllProvidersFailed?
      ensures PinnedCases(opts, b, now, replies, res, lead + tail, backoffs)
    {
      IdsAppend(lead, tail);
      if PinnedAttempted(opts, b, now) {
        assert (lead + tail)[0] == lead[0];
      } else if Pinned(opts.providerId) && HasGenerate(GetProvider(opts.providerId.value)) && !opts.strictProvider {
        var id := opts.providerId.value;
        assert lead + tail == tail && b1 == b;
        forall i | 0 <= i < |tail| ensures tail[i].providerId != id {
          assert tail[i].providerId in b1 && Breaker.Passes(b1[tail[i].providerId], now);
        }
      }
    }

    lemma LateLoop(opts: GenerateOptions, rt: Routing, request: ChatRequest, b: Breakers, b1: Breakers, b': Breakers, now: int, replies: seq<Reply>,
                   lead: seq<Attempt<ChatRequest>>, tail: seq<Attempt<ChatRequest>>, res: Result<GenerateResponse, RouterError>,
                   backoffs: seq<int>)
      requires PinnedOutcome(opts, request, b, now, replies, None, lead) && b1 == AfterAttempts(b, lead, now)
      requires FallbackLog(tail, backoffs, lead, request, replies, b1, now)
      requires FallbackOutcome(res, tail, lead, replies, b', now)
      requires PickLog(tail, rt, providers, cfg, b1, IdSet(lead), now)
      ensures LoopCases(opts, rt, request, b, b', now, replies, res, lead + tail, backoffs)
    {
      assert (lead + tail)[|lead|..] == tail;
      assert (lead + tail)[..|lead|] == lead;
    }

    /** The log of a `generate` call that ends in its pinned step. */
    lemma PinnedLog(lead: seq<Attempt<ChatRequest>>, request: ChatRequest, replies: seq<Reply>, res: Result<GenerateResponse, RouterError>)
      requires |lead| <= 1
      requires lead != [] ==> lead[0].request == request && lead[0].succeeded == ReplyAt(replies, 0).Answered?
                              && IsChatProvider(providers, lead[0].providerId)
      requires res.Ok? <==> lead != [] && lead[0].succeeded
      requires res.Ok? ==> res.value == ReplyAt(replies, 0).response
      ensures ChatCallLog(lead, request, replies, res)
    {
    }

    /** The log of a `generate` call that reaches the fallback loop: the failed pinned invocation, if any, then the loop's. */
    lemma JoinLog(lead: seq<Attempt<ChatRequest>>, tail: seq<Attempt<ChatRequest>>, request: ChatRequest,
                  replies: seq<Reply>, b1: Breakers, now: int, res: Result<GenerateResponse, RouterError>)
      requires |lead| <= 1
      requires lead != [] ==> lead[0].request == request && lead[0].succeeded == ReplyAt(replies, 0).Answered?
                              && IsChatProvider(providers, lead[0].providerId) && !lead[0].succeeded
      requires ChatLog(tail, request, replies, |lead|, providers, cfg, b1, IdSet(lead), now) && DistinctIds(tail)
      requires tail != [] ==> AllFailed(tail[..|tail| - 1])
      requires res.Ok? <==> tail != [] && tail[|tail| - 1].succeeded
      requires res.Ok? ==> ReplyAt(replies, |lead| + |tail| - 1).Answered? && res.value == ReplyAt(replies, |lead| + |tail| - 1).response
      ensures ChatCallLog(lead + tail, request, replies, res)
    {
      if lead == [] {
        assert lead + tail == tail;
      } else {
        var x := lead[0];
        assert lead == [x];
        JoinOne(x, tail, request, replies, b1, now, res);
      }
    }

    lemma JoinOne(x: Attempt<ChatRequest>, tail: seq<Attempt<ChatRequest>>, request: ChatRequest,
                  replies: seq<Reply>, b1: Breakers, now: int, res: Result<GenerateResponse, RouterError>)
      requires x.request == request && x.succeeded == ReplyAt(replies, 0).Answered?
      requires IsChatProvider(providers, x.providerId) && !x.succeeded
      requires ChatLog(tail, request, replies, 1, providers, cfg, b1, IdSet([x]), now) && DistinctIds(tail)
      requires tail != [] ==> AllFailed(tail[..|tail| - 1])
      requires res.Ok? <==> tail != [] && tail[|tail| - 1].succeeded
      requires res.Ok? ==> ReplyAt(replies, 1 + |tail| - 1).Answered? && res.value == ReplyAt(replies, 1 + |tail| - 1).response
      ensures ChatCallLog([x] + tail, request, replies, res)
    {
      JoinEach(x, tail, request, replies, b1, now);
      JoinDistinct(x, tail, request, replies, b1, now);
      JoinFailed(x, tail);
      if tail != [] {
        assert ([x] + tail)[|tail|] == tail[|tail| - 1];
      }
    }

    lemma JoinEach(x: Attempt<ChatRequest>, tail: seq<Attempt<ChatRequest>>, request: ChatRequest,
                   replies: seq<Reply>, b1: Breakers, now: int)
      requires x.request == request && x.succeeded == ReplyAt(replies, 0).Answered? && IsChatProvider(providers, x.providerId)
      requires ChatLog(tail, request, replies, 1, providers, cfg, b1, IdSet([x]), now)
      ensures var calls := [x] + tail;
        forall i :: 0 <= i < |calls| ==> calls[i].request == request && calls[i].succeeded == ReplyAt(replies, i).Answered?
                                          && IsChatProvider(providers, calls[i].providerId)
    {
      var calls := [x] + tail;
      forall i | 0 <= i < |calls| ensures calls[i].request == request && calls[i].succeeded == ReplyAt(replies, i).Answered?
        && IsChatProvider(providers, calls[i].providerId)
      {
        if i >= 1 {
          assert calls[i] == tail[i - 1];
        }
      }
    }

    lemma JoinDistinct(x: Attempt<ChatRequest>, tail: seq<Attempt<ChatRequest>>, request: ChatRequest,
                       replies: seq<Reply>, b1: Breakers, now: int)
      requires ChatLog(tail, request, replies, 1, providers, cfg, b1, IdSet([x]), now) && DistinctIds(tail)
      ensures DistinctIds([x] + tail)
    {
      var calls := [x] + tail;
      assert [x][0].providerId == x.providerId;
      forall i, j | 0 <= i < j < |calls| ensures calls[i].providerId != calls[j].providerId {
        assert calls[j] == tail[j - 1];
        if i >= 1 {
          assert calls[i] == tail[i - 1];
        }
      }
    }

    static lemma JoinFailed<R>(x: Attempt<R>, tail: seq<Attempt<R>>)
      requires !x.succeeded
      requires tail != [] ==> AllFailed(tail[..|tail| - 1])
      ensures AllFailed(([x] + tail)[..|tail|])
    {
      var calls := [x] + tail;
      forall i | 0 <= i < |tail| ensures !calls[i].succeeded {
        if i >= 1 {
          assert calls[i] == tail[..|tail| - 1][i - 1];
        }
      }
    }

    /** One invocation of the candidate loop of `embed`: the next candidate, its reply, and its breaker update. */
    method EmbedInvoke(request: EmbedRequest, offset: nat, candidates: seq<Provider>, tail: seq<Attempt<EmbedRequest>>, now: int,
                       replies: seq<EmbedReply>, ghost b0: Breakers)
      returns (reply: EmbedReply)
      requires Valid() && |tail| < |candidates| && candidates[|tail|] in providers
      requires EmbedLog(tail, request, replies, offset, candidates)
      requires breakers == AfterAttempts(b0, tail, now)
      modifies this`breakers, cb.Values
      ensures Valid()
      ensures reply == EmbedReplyAt(replies, offset + |tail|)
      ensures var t := tail + [Attempt(candidates[|tail|].id, request, reply.Embedded?)];
        EmbedLog(t, request, replies, offset, candidates) && breakers == AfterAttempts(b0, t, now)
    {
      var p := candidates[|tail|];
      reply := EmbedReplyAt(replies, offset + |tail|);
      var a := Attempt(p.id, request, reply.Embedded?);
      EmbedLogSnoc(tail, request, replies, offset, candidates);
      AfterAttemptsSnoc(b0, tail, a, now);
      RecordOutcome(p.id, reply.Embedded?, now);
    }

    /**
     * The candidate loop of `embed`: each candidate in order until one
     * answers, with no backoff.  `offset` invocations precede the loop, so its
     * own invocations are those numbered from `offset` on.
     */
    method EmbedLoop(request: EmbedRequest, offset: nat, candidates: seq<Provider>, now: int, replies: seq<EmbedReply>)
      returns (res: Result<EmbeddingsResponse, RouterError>, tail: seq<Attempt<EmbedRequest>>)
      requires Valid()
      requires forall p :: p in candidates ==> p in providers
      modifies this`breakers, cb.Values
      ensures Valid()
      ensures breakers == AfterAttempts(old(breakers), tail, now)
      ensures EmbedLoopOutcome(res, tail, request, replies, offset, candidates)
    {
      ghost var b0 := breakers;
      tail := [];
      while |tail| < |candidates|
        invariant Valid()
        invariant EmbedLog(tail, request, replies, offset, candidates) && AllFailed(tail)
        invariant breakers == AfterAttempts(b0, tail, now)
      {
        var reply := EmbedInvoke(request, offset, candidates, tail, now, replies, b0);
        var a := Attempt(candidates[|tail|].id, request, reply.Embedded?);
        if reply.Embedded? {
          EmbedAnswered(tail, a, request, replies, offset, candidates);
          return Ok(reply.response), tail + [a];
        }
        tail := tail + [a];
      }
      return Err(AllEmbeddingProvidersFailed), tail;
    }

    /**
     * What every `embed` call guarantees about its invocations `calls` and its
     * result: each sent `request` and got the reply of the script, every
     * invocation but the last failed, and the call succeeds with the last
     * reply exactly when that one answered.
     */
    ghost predicate EmbedCallLog(calls: seq<Attempt<EmbedRequest>>, request: EmbedRequest, replies: seq<EmbedReply>,
                                 res: Result<EmbeddingsResponse, RouterError>)
    {
      && (forall i :: 0 <= i < |calls| ==> calls[i].request == request)
      && (forall i :: 0 <= i < |calls| ==> calls[i].succeeded == EmbedReplyAt(replies, i).Embedded?)
      && (calls != [] ==> AllFailed(calls[..|calls| - 1]))
      && (res.Ok? <==> calls != [] && calls[|calls| - 1].succeeded)
      && (res.Ok? ==> EmbedReplyAt(replies, |calls| - 1).Embedded? && res.value == EmbedReplyAt(replies, |calls| - 1).response)
    }

    /**
     * What `embed` promises about whom it invokes, given the list
     * `candidates` of eligible embedding providers it computes after the
     * pinned step: a pinned id that names no embedding provider ends the call;
     * a pinned embedding provider is invoked first; unless it answered, the
     * candidates follow in order, and the errors tell no candidate from all
     * candidates failing.
     */
    ghost predicate EmbedCases(opts: EmbedOptions, res: Result<EmbeddingsResponse, RouterError>,
                               calls: seq<Attempt<EmbedRequest>>, candidates: seq<Provider>)
    {
      && (Pinned(opts.providerId) && !HasEmbed(GetProvider(opts.providerId.value)) ==>
            res == Err(EmbeddingProviderUnavailable(opts.providerId.value)) && calls == [])
      && (EmbedPinned(opts) ==> calls != [] && calls[0].providerId == opts.providerId.value)
      && (var lead := if EmbedPinned(opts) then 1 else 0;
          !(Pinned(opts.providerId) && !HasEmbed(GetProvider(opts.providerId.value))) && !(lead == 1 && calls[0].succeeded) ==>
            && lead <= |calls| <= lead + |candidates|
            && (forall i :: lead <= i < |calls| ==> calls[i].providerId == candidates[i - lead].id)
            && (candidates == [] ==> res == Err(NoEmbeddingProviders))
            && (candidates != [] && res.Err? ==> res == Err(AllEmbeddingProvidersFailed) && |calls| == lead + |candidates|))
    }

    /**
     * The pinned step of `embed`: a pinned id that names no embedding provider
     * ends the call; a pinned embedding provider is invoked once (`lead`),
     * without consulting its breaker, and its answer ends the call.
     */
    ghost predicate EmbedPinnedOutcome(opts: EmbedOptions, request: EmbedRequest, replies: seq<EmbedReply>,
                                       early: Option<Result<EmbeddingsResponse, RouterError>>, lead: seq<Attempt<EmbedRequest>>)
    {
      && (EmbedPinned(opts) ==>
            && lead == [Attempt(opts.providerId.value, request, EmbedReplyAt(replies, 0).Embedded?)]
            && early == if EmbedReplyAt(replies, 0).Embedded? then Some(Ok(EmbedReplyAt(replies, 0).response)) else None)
      && (!EmbedPinned(opts) ==> lead == [])
      && (!Pinned(opts.providerId) ==> early == None)
      && (Pinned(opts.providerId) && !HasEmbed(GetProvider(opts.providerId.value)) ==>
            early == Some(Err(EmbeddingProviderUnavailable(opts.providerId.value))))
    }

    method EmbedPinnedStep(request: EmbedRequest, opts: EmbedOptions, now: int, replies: seq<EmbedReply>)
      returns (early: Option<Result<EmbeddingsResponse, RouterError>>, lead: seq<Attempt<EmbedRequest>>)
      requires Valid()
      modifies this`breakers, cb.Values
      ensures Valid()
      ensures breakers == AfterAttempts(old(breakers), lead, now)
      ensures EmbedPinnedOutcome(opts, request, replies, early, lead)
    {
      lead := [];
      early := None;
      if Pinned(opts.providerId) {
        var p := GetProvider(opts.providerId.value);
        if !HasEmbed(p) {
          return Some(Err(EmbeddingProviderUnavailable(opts.providerId.value))), [];
        }
        var r := EmbedReplyAt(replies, 0);
        lead := [Attempt(p.value.id, request, r.Embedded?)];
        RecordOutcome(p.value.id, r.Embedded?, now);
        if r.Embedded? {
          early := Some(Ok(r.response));
        }
      }
    }

    /**
     * `embed`: the pinned provider once (without consulting its breaker), and
     * on its failure, or without a pinned provider, every eligible embedding
     * provider in order, the list `candidates` fixed before the loop, until
     * one answers.
     */
    method Embed(inputs: seq<string>, opts: EmbedOptions, now: int, replies: seq<EmbedReply>)
      returns (res: Result<EmbeddingsResponse, RouterError>, calls: seq<Attempt<EmbedRequest>>, ghost candidates: seq<Provider>)
      requires Valid()
      modifies this`breakers, cb.Values
      ensures Valid()
      ensures EmbedCallLog(calls, EmbedRequest(inputs, opts), replies, res)
      ensures breakers == AfterAttempts(old(breakers), calls, now)
      ensures EmbedCases(opts, res, calls, candidates)
      ensures var lead := if EmbedPinned(opts) then 1 else 0;
        candidates == EmbedCandidates(providers, cfg, AfterAttempts(old(breakers), calls[..lead], now), now)
    {
      var request := EmbedRequest(inputs, opts);
      var early, lead := EmbedPinnedStep(request, opts, now, replies);
      candidates := EmbedCandidates(providers, cfg, breakers, now);
      if early.Some? {
        EmbedEarly(opts, request, replies, early, lead, candidates);
        return early.value, lead, candidates;
      }
      var list := EmbedCandidates(providers, cfg, States(), now);
      if list == [] {
        EmbedNoCandidates(opts, request, replies, lead);
        return Err(NoEmbeddingProviders), lead, candidates;
      }
      var tail;
      res, tail := EmbedLoop(request, |lead|, list, now, replies);
      calls := lead + tail;
      assert calls[..|lead|] == lead;
      AfterAttemptsAppend(old(breakers), lead, tail, now);
      EmbedLate(opts, request, replies, lead, tail, candidates, res);
    }

    /** `embed` ending in its pinned step. */
    lemma EmbedEarly(opts: EmbedOptions, request: EmbedRequest, replies: seq<EmbedReply>,
                     early: Option<Result<EmbeddingsResponse, RouterError>>, lead: seq<Attempt<EmbedRequest>>, candidates: seq<Provider>)
      requires EmbedPinnedOutcome(opts, request, replies, early, lead) && early.Some?
      ensures EmbedCallLog(lead, request, replies, early.value)
      ensures EmbedCases(opts, early.value, lead, candidates)
      ensures lead[..if EmbedPinned(opts) then 1 else 0] == lead
    {
    }

    /** `embed` with no candidate after its pinned step. */
    lemma EmbedNoCandidates(opts: EmbedOptions, request: EmbedRequest, replies: seq<EmbedReply>, lead: seq<Attempt<EmbedRequest>>)
      requires EmbedPinnedOutcome(opts, request, replies, None, lead)
      ensures EmbedCallLog(lead, request, replies, Err(NoEmbeddingProviders))
      ensures EmbedCases(opts, Err(NoEmbeddingProviders), lead, [])
      ensures lead[..if EmbedPinned(opts) then 1 else 0] == lead
    {
    }

    /** `embed` reaching its candidate loop. */
    lemma EmbedLate(opts: EmbedOptions, request: EmbedRequest, replies: seq<EmbedReply>,
                    lead: seq<Attempt<EmbedRequest>>, tail: seq<Attempt<EmbedRequest>>, candidates: seq<Provider>,
                    res: Result<EmbeddingsResponse, RouterError>)
      requires EmbedPinnedOutcome(opts, request, replies, None, lead) && candidates != []
      requires EmbedLoopOutcome(res, tail, request, replies, |lead|, candidates)
      ensures EmbedCallLog(lead + tail, request, replies, res)
      ensures EmbedCases(opts, res, lead + tail, candidates)
    {
      EmbedCalls(lead, tail, request, replies, candidates);
      EmbedLateResult(lead, tail, request, replies, res);
      EmbedLateCases(opts, request, replies, lead, tail, candidates, res);
    }

    lemma EmbedLateCases(opts: EmbedOptions, request: EmbedRequest, replies: seq<EmbedReply>,
                         lead: seq<Attempt<EmbedRequest>>, tail: seq<Attempt<EmbedRequest>>, candidates: seq<Provider>,
                         res: Result<EmbeddingsResponse, RouterError>)
      requires EmbedPinnedOutcome(opts, request, replies, None, lead) && candidates != []
      requires EmbedLog(tail, request, replies, |lead|, candidates)
      requires res.Err? ==> res == Err(AllEmbeddingProvidersFailed) && |tail| == |candidates|
      ensures EmbedCases(opts, res, lead + tail, candidates)
    {
      var calls := lead + tail;
      var n := if EmbedPinned(opts) then 1 else 0;
      assert |lead| == n;
      forall i | n <= i < |calls| ensures calls[i].providerId == candidates[i - n].id {
        assert calls[i] == tail[i - n];
      }
    }

    static lemma EmbedLateResult(lead: seq<Attempt<EmbedRequest>>, tail: seq<Attempt<EmbedRequest>>, request: EmbedRequest,
                                 replies: seq<EmbedReply>, res: Result<EmbeddingsResponse, RouterError>)
      requires |lead| <= 1 && (lead != [] ==> !lead[0].succeeded)
      requires forall i :: 0 <= i < |tail| ==> tail[i].succeeded == EmbedReplyAt(replies, |lead| + i).Embedded?
      requires res.Ok? <==> tail != [] && tail[|tail| - 1].succeeded
      requires res.Ok? ==> res.value == EmbedReplyAt(replies, |lead| + |tail| - 1).response
      ensures res.Ok? <==> lead + tail != [] && (lead + tail)[|lead + tail| - 1].succeeded
      ensures res.Ok? ==> EmbedReplyAt(replies, |lead + tail| - 1).Embedded? && res.value == EmbedReplyAt(replies, |lead + tail| - 1).response
    {
      if tail != [] {
        assert (lead + tail)[|lead + tail| - 1] == tail[|tail| - 1];
      }
    }

    /** The facts of `Embed` about its whole log, from those of the pinned invocation and of the loop. */
    static lemma EmbedCalls(lead: seq<Attempt<EmbedRequest>>, tail: seq<Attempt<EmbedRequest>>, request: EmbedRequest,
                            replies: seq<EmbedReply>, candidates: seq<Provider>)
      requires |lead| <= 1
      requires forall i :: 0 <= i < |lead| ==> lead[i].request == request && lead[i].succeeded == EmbedReplyAt(replies, i).Embedded?
      requires forall i :: 0 <= i < |lead| ==> !lead[i].succeeded
      requires EmbedLog(tail, request, replies, |lead|, candidates)
      requires tail != [] ==> AllFailed(tail[..|tail| - 1])
      ensures var calls := lead + tail;
        && (forall i :: 0 <= i < |calls| ==> calls[i].request == request)
        && (forall i :: 0 <= i < |calls| ==> calls[i].succeeded == EmbedReplyAt(replies, i).Embedded?)
        && (forall i :: |lead| <= i < |calls| ==> calls[i].providerId == candidates[i - |lead|].id)
        && (calls != [] ==> AllFailed(calls[..|calls| - 1]))
    {
      var calls := lead + tail;
      forall i | |lead| <= i < |calls| ensures calls[i] == tail[i - |lead|] {
      }
      if calls != [] {
        forall i | 0 <= i < |calls| - 1 ensures !calls[i].succeeded {
          if i >= |lead| {
            assert calls[i] == tail[..|tail| - 1][i - |lead|];
          }
        }
      }
    }
  }
}
