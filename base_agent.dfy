/**
 * The shared agent plumbing (backend/agents/base_agent.py): inference
 * presets, the chat messages and options sent to the model server, and the
 * two calls. The server itself is a `Backend`: what it answers to each
 * request of each round is given, not computed.
 */
module BaseAgent {
  import opened Wrappers
  import opened Text
  import opened StreamFramer

  /** The `inference_options` dictionary. */
  datatype Options = Options(
    numPredict: int, temperature: real, topP: real, topK: int, repeatPenalty: real, numCtx: int)

  /** The preset chosen at construction: short, cool and narrow in fast mode. */
  function Preset(fastMode: bool): Options {
    if fastMode then Options(384, 0.5, 0.7, 20, 1.1, 1024)
    else Options(640, 0.6, 0.8, 30, 1.1, 2048)
  }

  datatype Message = Message(role: string, content: string)

  /** The request body posted to the chat endpoint. */
  datatype Request = Request(url: string, model: string, messages: seq<Message>, stream: bool, options: Options)

  /** What the server answered to a non-streaming request: the message content (`""` when absent), or a failure. */
  datatype Reply = Answer(content: string) | Failure(message: string)

  /**
   * The model server. `complete` and `stream` answer the request sent in the
   * given round; `parse` is `json.loads` as the stream framer sees it.
   */
  datatype Backend = Backend(
    complete: (nat, Request) -> Reply,
    stream: (nat, Request) -> StreamReply,
    parse: string -> Parsed)

  /** An agent: its name, server address, model and mode. */
  datatype Agent = Agent(name: string, ollamaUrl: string, model: string, fastMode: bool)
  {
    function ApiUrl(): string { ollamaUrl + "/api/chat" }

    function InferenceOptions(): Options { Preset(fastMode) }
  }

  const DefaultUrl: string := "http://localhost:11434"

  const DefaultModel: string := "qwen2.5:1.5b"

  /** The agent constructors' defaults: local server, small model, fast mode. */
  function MakeAgent(name: string): (a: Agent)
    ensures a.ApiUrl() == "http://localhost:11434/api/chat"
    ensures a.InferenceOptions().numPredict == 384 && a.InferenceOptions().numCtx == 1024
  {
    Agent(name, DefaultUrl, DefaultModel, true)
  }

  /** A system message when the system prompt is non-empty, then the user message. */
  function Messages(prompt: string, system: string): (ms: seq<Message>)
    ensures |ms| == (if system == "" then 1 else 2)
    ensures ms[|ms| - 1] == Message("user", prompt)
    ensures system != "" ==> ms[0] == Message("system", system)
  {
    (if system != "" then [Message("system", system)] else []) + [Message("user", prompt)]
  }

  /** A copy of the preset with only the requested fields replaced. */
  function WithOverrides(base: Options, maxTokens: Option<int>, temperature: Option<real>): (o: Options)
    ensures o.numPredict == (if maxTokens.Some? then maxTokens.value else base.numPredict)
    ensures o.temperature == (if temperature.Some? then temperature.value else base.temperature)
    ensures o.topP == base.topP && o.topK == base.topK
    ensures o.repeatPenalty == base.repeatPenalty && o.numCtx == base.numCtx
  {
    var o := if maxTokens.Some? then base.(numPredict := maxTokens.value) else base;
    if temperature.Some? then o.(temperature := temperature.value) else o
  }

  /** Overriding nothing leaves the preset as it is. */
  lemma NoOverrides(base: Options)
    ensures WithOverrides(base, None, None) == base
  {
  }

  function Payload(agent: Agent, prompt: string, system: string, maxTokens: Option<int>,
                   temperature: Option<real>, stream: bool): (req: Request)
    ensures req.url == agent.ApiUrl() && req.model == agent.model && req.stream == stream
    ensures req.messages == Messages(prompt, system)
    ensures req.options == WithOverrides(agent.InferenceOptions(), maxTokens, temperature)
  {
    Request(agent.ApiUrl(), agent.model, Messages(prompt, system), stream,
            WithOverrides(agent.InferenceOptions(), maxTokens, temperature))
  }

  /**
   * `_call_ollama`: the stripped answer, or an exception whose text names
   * the failure. A successful answer never has whitespace at either end.
   */
  function Call(backend: Backend, round: nat, agent: Agent, prompt: string, system: string,
                maxTokens: Option<int>, temperature: Option<real>): (r: Result<string>)
    ensures var reply := backend.complete(round, Payload(agent, prompt, system, maxTokens, temperature, false));
            (r.Ok? <==> reply.Answer?)
            && (r.Ok? ==> r.value == Strip(reply.content))
            && (r.Err? ==> r.message == ErrorPrefix + reply.message)
    ensures r.Ok? ==> Strip(r.value) == r.value
  {
    match backend.complete(round, Payload(agent, prompt, system, maxTokens, temperature, false))
    case Answer(c) =>
      StripIdempotent(c);
      Ok(Strip(c))
    case Failure(m) => Err(ErrorPrefix + m)
  }

  /** `_call_ollama_stream`: the tokens the framer yields for the streamed reply. */
  function CallStream(backend: Backend, round: nat, agent: Agent, prompt: string, system: string,
                      maxTokens: Option<int>, temperature: Option<real>): (out: StreamOutcome)
    ensures AllNonEmpty(out.tokens)
    ensures out.raised.Some? ==> StartsWith(out.raised.value, ErrorPrefix)
  {
    var reply := backend.stream(round, Payload(agent, prompt, system, maxTokens, temperature, true));
    StreamTokensNonEmpty(reply, backend.parse);
    StreamRaises(reply, backend.parse);
    var out := StreamTokens(reply, backend.parse);
    assert out.raised.Some? ==> (ErrorPrefix + reply.failure.value)[..|ErrorPrefix|] == ErrorPrefix;
    out
  }
}
