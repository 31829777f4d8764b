/**
 * The retrieval-augmented answer: search the vector store, and either answer
 * with a fixed message when nothing was retrieved, or build a numbered
 * context block and a two-message prompt, hand it to the router's
 * `generate`, and attach the retrieved chunks as references.
 */
module Pipeline {
  import opened Wrappers
  import opened Interface
  import R = Router
  import VS = VectorStore

  /** The substring ("answer", in Arabic) whose presence in the system prompt selects the Arabic message. */
  const ArabicMarker: string := "أجب"
  const ArabicNoContext: string := "لا توجد معلومات كافية في الفهرس للإجابة على السؤال."
  const EnglishNoContext: string := "Insufficient indexed context to answer this question."
  const DefaultSystem: string := "You are a helpful, precise assistant. Cite facts only from the provided CONTEXT."
  const Instructions: string := "INSTRUCTIONS: If the answer is not in the context, say you do not have enough information."
  const NotApplicable: string := "n/a"
  const DefaultMaxTokens: int := 512
  const DefaultTemperature: real := 0.2

  /** The options of `answer`. */
  datatype AnswerOptions = AnswerOptions(
    k: Option<int>,
    system: Option<string>,
    maxTokens: Option<int>,
    temperature: Option<real>,
    providerId: Option<string>,
    model: Option<string>)

  /** `{ id, meta }` of a retrieved chunk. */
  datatype Reference = Reference(id: string, meta: Option<Meta>)

  datatype AnswerResult = AnswerResult(providerId: string, model: string, output: string, references: seq<Reference>)

  // ---------------------------------------------------------------------------
  // Strings

  /** `s.includes(t)`: `t` occurs in `s` at some position. */
  predicate Contains(s: string, t: string)
    decreases |s|
  {
    (|t| <= |s| && s[..|t|] == t) || (s != [] && Contains(s[1..], t))
  }

  /** `t` occurs in `s` at position `i`. */
  ghost predicate OccursAt(s: string, t: string, i: int) {
    0 <= i && i + |t| <= |s| && s[i..i + |t|] == t
  }

  /** `Contains` finds exactly the substrings that occur at some position. */
  lemma {:induction false} ContainsSpec(s: string, t: string)
    ensures Contains(s, t) <==> exists i :: OccursAt(s, t, i)
    decreases |s|
  {
    if s == [] {
      if |t| == 0 {
        assert OccursAt(s, t, 0);
      }
    } else {
      ContainsSpec(s[1..], t);
      if |t| <= |s| && s[..|t|] == t {
        assert OccursAt(s, t, 0);
      } else if Contains(s[1..], t) {
        var i :| OccursAt(s[1..], t, i);
        assert s[i + 1..i + 1 + |t|] == s[1..][i..i + |t|];
        assert OccursAt(s, t, i + 1);
      } else if exists i :: OccursAt(s, t, i) {
        var i :| OccursAt(s, t, i);
        assert i != 0;
        assert s[1..][i - 1..i - 1 + |t|] == s[i..i + |t|];
        assert OccursAt(s[1..], t, i - 1);
        assert false;
      }
    }
  }

  function DigitChar(d: nat): (c: char)
    requires d < 10
  {
    "0123456789"[d]
  }

  /** The decimal numeral of `n`, as a template literal prints it. */
  function NatToString(n: nat): (s: string)
    ensures s != [] && forall i :: 0 <= i < |s| ==> '0' <= s[i] <= '9'
    decreases n
  {
    if n < 10 then [DigitChar(n)] else NatToString(n / 10) + [DigitChar(n % 10)]
  }

  /** The value of a decimal numeral. */
  function ParseNat(s: string): nat
    requires forall i :: 0 <= i < |s| ==> '0' <= s[i] <= '9'
    decreases |s|
  {
    if s == [] then 0 else ParseNat(s[..|s| - 1]) * 10 + (s[|s| - 1] as int - '0' as int)
  }

  /** The numeral printed for `n` reads back as `n`: distinct references get distinct labels. */
  lemma {:induction false} NatToStringRoundTrip(n: nat)
    ensures ParseNat(NatToString(n)) == n
    decreases n
  {
    if n >= 10 {
      NatToStringRoundTrip(n / 10);
      var s := NatToString(n);
      assert s[..|s| - 1] == NatToString(n / 10);
    }
  }

  /** `lines.join(sep)`. */
  function Join(lines: seq<string>, sep: string): (s: string)
    decreases |lines|
  {
    if lines == [] then ""
    else if |lines| == 1 then lines[0]
    else lines[0] + sep + Join(lines[1..], sep)
  }

  /** The position of the first `c` in `s`, or `|s|` when there is none. */
  function IndexOf(s: string, c: char): (i: nat)
    ensures i <= |s| && (i < |s| ==> s[i] == c) && forall j :: 0 <= j < i ==> s[j] != c
    decreases |s|
  {
    if s == [] then 0 else if s[0] == c then 0 else 1 + IndexOf(s[1..], c)
  }

  /** `s.split(c)` for a one-character separator. */
  function Split(s: string, c: char): (lines: seq<string>)
    ensures lines != []
    decreases |s|
  {
    var i := IndexOf(s, c);
    if i == |s| then [s] else [s[..i]] + Split(s[i + 1..], c)
  }

  /** A line free of the separator ends at the first separator that follows it. */
  lemma SplitFirst(a: string, c: char, b: string)
    requires c !in a
    ensures var s := a + [c] + b; IndexOf(s, c) == |a| && s[..|a|] == a && s[|a| + 1..] == b
  {
    var s := a + [c] + b;
    var i := IndexOf(s, c);
    assert s[|a|] == c;
    assert s[..|a|] == a;
    assert s[|a| + 1..] == b;
  }

  /** A string free of the separator has no separator to split at. */
  lemma SplitNone(a: string, c: char)
    requires c !in a
    ensures IndexOf(a, c) == |a|
  {
  }

  /** Lines free of the separator are recovered from their join. */
  lemma {:induction false} SplitJoin(lines: seq<string>, c: char)
    requires lines != [] && forall k :: 0 <= k < |lines| ==> c !in lines[k]
    ensures Split(Join(lines, [c]), c) == lines
    decreases |lines|
  {
    if |lines| == 1 {
      SplitNone(lines[0], c);
    } else {
      var rest := Join(lines[1..], [c]);
      assert Join(lines, [c]) == lines[0] + [c] + rest;
      SplitFirst(lines[0], c, rest);
      SplitJoin(lines[1..], c);
      assert lines == [lines[0]] + lines[1..];
    }
  }

  // ---------------------------------------------------------------------------
  // The prompt

  /** The reply when nothing was retrieved: Arabic when the system prompt asks for an answer in Arabic. */
  function NoContextMessage(system: Option<string>): (m: string)
    ensures m == ArabicNoContext <==> system.Some? && Contains(system.value, ArabicMarker)
    ensures m == ArabicNoContext || m == EnglishNoContext
  {
    if system.Some? && system.value != "" && Contains(system.value, ArabicMarker) then ArabicNoContext else EnglishNoContext
  }

  /** `[${i + 1}] ${c.text}`: the context entry of the i-th retrieved chunk. */
  function Entry(i: nat, text: string): string {
    "[" + NatToString(i + 1) + "] " + text
  }

  /** One entry per retrieved chunk, numbered from 1 in retrieval order. */
  function Entries(hits: seq<DocChunk>): (lines: seq<string>)
    ensures |lines| == |hits|
    ensures forall i :: 0 <= i < |hits| ==> lines[i] == Entry(i, hits[i].text)
  {
    seq(|hits|, i requires 0 <= i < |hits| => Entry(i, hits[i].text))
  }

  /** The context block: the entries joined by newlines. */
  function ContextBlock(hits: seq<DocChunk>): string {
    Join(Entries(hits), "\n")
  }

  /** Retrieved texts without a newline can be read back, entry by entry, from the context block. */
  lemma ContextBlockLines(hits: seq<DocChunk>)
    requires hits != [] && forall i :: 0 <= i < |hits| ==> '\n' !in hits[i].text
    ensures var lines := Split(ContextBlock(hits), '\n');
      |lines| == |hits| && forall i :: 0 <= i < |hits| ==> lines[i] == Entry(i, hits[i].text)
  {
    var lines := Entries(hits);
    forall i | 0 <= i < |lines| ensures '\n' !in lines[i] {
      assert lines[i] == "[" + NatToString(i + 1) + "] " + hits[i].text;
      assert '\n' !in NatToString(i + 1);
    }
    SplitJoin(lines, '\n');
  }

  function UserContent(question: string, context: string): string {
    "QUESTION: " + question + "\n\nCONTEXT:\n" + context + "\n\n" + Instructions
  }

  /**
   * The two messages sent: the system prompt (the caller's, or the default
   * one), then the question with the context block and the instructions.
   */
  function PromptMessages(question: string, system: Option<string>, hits: seq<DocChunk>): (ms: seq<ChatMessage>)
    ensures |ms| == 2 && ms[0].role == System && ms[1].role == User
    ensures ms[0].content == if system.Some? then system.value else DefaultSystem
    ensures var head := "QUESTION: " + question;
      var start := |head| + |"\n\nCONTEXT:\n"|;
      var ctx := ContextBlock(hits);
      && |ms[1].content| == start + |ctx| + 2 + |Instructions|
      && ms[1].content[..|head|] == head
      && ms[1].content[start..start + |ctx|] == ctx
      && ms[1].content[start + |ctx| + 2..] == Instructions
  {
    var content := UserContent(question, ContextBlock(hits));
    [ChatMessage(System, system.GetOr(DefaultSystem)), ChatMessage(User, content)]
  }

  /** The options `answer` passes to `generate`. */
  function GenOptions(opts: AnswerOptions): (g: GenerateOptions)
    ensures g.maxTokens == Some(if opts.maxTokens.Some? then opts.maxTokens.value else DefaultMaxTokens)
    ensures g.temperature == Some(if opts.temperature.Some? then opts.temperature.value else DefaultTemperature)
    ensures g.providerId == opts.providerId && g.model == opts.model && !g.strictProvider
  {
    GenerateOptions(opts.providerId, opts.model, Some(opts.maxTokens.GetOr(DefaultMaxTokens)),
                    Some(opts.temperature.GetOr(DefaultTemperature)), false)
  }

  /** `topK.map(c => ({ id: c.id, meta: c.meta }))`. */
  function References(hits: seq<DocChunk>): (refs: seq<Reference>)
    ensures |refs| == |hits| && forall i :: 0 <= i < |hits| ==> refs[i] == Reference(hits[i].id, hits[i].meta)
  {
    seq(|hits|, i requires 0 <= i < |hits| => Reference(hits[i].id, hits[i].meta))
  }

  /** `{ ...res, references }`, or the router's error. */
  function WithReferences(res: Result<GenerateResponse, R.RouterError>, hits: seq<DocChunk>): (r: Result<AnswerResult, R.RouterError>)
    ensures res.Err? <==> r.Err?
    ensures res.Err? ==> r.error == res.error
    ensures res.Ok? ==> && r.value.providerId == res.value.providerId && r.value.model == res.value.model
                        && r.value.output == res.value.output && r.value.references == References(hits)
  {
    match res
    case Ok(g) => Ok(AnswerResult(g.providerId, g.model, g.output, References(hits)))
    case Err(e) => Err(e)
  }

  // ---------------------------------------------------------------------------
  // The pipeline object

  class RAGPipeline {
    const router: R.MultiModelRouter
    const vs: VS.InMemoryVectorStore

    constructor (router: R.MultiModelRouter, vs: VS.InMemoryVectorStore)
      ensures this.router == router && this.vs == vs
    {
      this.router := router;
      this.vs := vs;
    }

    /** `getIndexStats`: the store's `stats`. */
    function GetIndexStats(): (r: VS.Stats)
      reads vs
      ensures r.count == |vs.store|
      ensures r.dim == if vs.store == [] then 0 else |vs.store[0].vector|
      ensures |r.sampleIds| == if |vs.store| < VS.SampleSize then |vs.store| else VS.SampleSize
      ensures forall i :: 0 <= i < |r.sampleIds| ==> r.sampleIds[i] == vs.store[i].id
    {
      vs.GetStats()
    }

    /**
     * `answer`: retrieve `opts.k ?? 5` chunks; with none, the fixed message
     * and no router call; otherwise one `generate` call with the prompt, the
     * result carrying the references in retrieval order.
     */
    method Answer(question: string, opts: AnswerOptions, now: int, replies: seq<R.Reply>, draws: seq<real>)
      returns (r: Result<AnswerResult, R.RouterError>, calls: seq<R.Attempt<R.ChatRequest>>, backoffs: seq<int>,
               ghost gen: Option<Result<GenerateResponse, R.RouterError>>)
      requires router.Valid() && vs.Comparable(question)
      modifies router`rrIdx, router`breakers, router.cb.Values
      ensures router.Valid()
      ensures var hits := vs.SearchWithVector(question, opts.k.GetOr(VS.DefaultK));
        hits == [] ==>
          && r == Ok(AnswerResult(NotApplicable, NotApplicable, NoContextMessage(opts.system), []))
          && calls == [] && backoffs == [] && gen == None
          && router.breakers == old(router.breakers) && router.rrIdx == old(router.rrIdx)
      ensures var hits := vs.SearchWithVector(question, opts.k.GetOr(VS.DefaultK));
        var g := GenOptions(opts);
        hits != [] ==>
          && gen.Some?
          && router.GenerateOutcome(g, R.Routing(router.strategy, old(router.rrIdx), draws), R.ChatRequest(PromptMessages(question, opts.system, hits), R.SentOptions(g)),
                                    old(router.breakers), router.breakers, now, replies, gen.value, calls, backoffs)
          && r == WithReferences(gen.value, hits)
    {
      var hits := vs.SearchWithVector(question, opts.k.GetOr(VS.DefaultK));
      if hits == [] {
        return Ok(AnswerResult(NotApplicable, NotApplicable, NoContextMessage(opts.system), [])), [], [], None;
      }
      var messages := PromptMessages(question, opts.system, hits);
      var res;
      res, calls, backoffs := router.Generate(messages, GenOptions(opts), now, replies, draws);
      gen := Some(res);
      r := WithReferences(res, hits);
    }
  }
}
