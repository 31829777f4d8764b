/**
 * The records the router, the vector store and the pipeline exchange.  A
 * provider is represented only by its id and by which of the two optional
 * operations (`generate`, `embed`) it implements; what it answers to a call is
 * an input of the model (see `Router`).
 */
module Interface {
  import opened Wrappers

  datatype Role = System | User | Assistant | Tool

  datatype ChatMessage = ChatMessage(role: Role, content: string)

  datatype RouteStrategy = Failover | RoundRobin | Weighted | Smart

  /** Per-provider policy; `maxRPS` and `maxCostPer1K` are accepted but never consulted. */
  datatype ProviderConfig = ProviderConfig(
    id: string,
    weight: Option<int>,
    maxRPS: Option<int>,
    maxCostPer1K: Option<real>,
    latencySLAms: Option<int>,
    enabled: Option<bool>)

  datatype Provider = Provider(id: string, hasGenerate: bool, hasEmbed: bool)

  /**
   * The request options the router reads or forwards.  `strictProvider` is
   * false when absent; the remaining options of the source (topP, system,
   * stop, timeoutMs, metadata) are forwarded untouched and are not modelled.
   */
  datatype GenerateOptions = GenerateOptions(
    providerId: Option<string>,
    model: Option<string>,
    maxTokens: Option<int>,
    temperature: Option<real>,
    strictProvider: bool)

  datatype EmbedOptions = EmbedOptions(model: Option<string>, timeoutMs: Option<int>, providerId: Option<string>)

  datatype GenerateResponse = GenerateResponse(providerId: string, model: string, output: string)

  datatype EmbeddingsResponse = EmbeddingsResponse(providerId: string, model: string, vectors: seq<seq<real>>)

  /** Values of the free-form chunk metadata. */
  datatype MetaValue = Str(s: string) | Num(n: real) | Flag(b: bool)

  type Meta = map<string, MetaValue>

  /** An indexed chunk; every chunk the store holds carries a vector. */
  datatype DocChunk = DocChunk(id: string, text: string, vector: seq<real>, meta: Option<Meta>)
}
