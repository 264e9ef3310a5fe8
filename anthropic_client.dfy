/**
 * The request-building half of `AnthropicClient`: configuration defaults,
 * system-prompt and tool formatting, the prompt-cache annotator, the
 * parameters of `complete` and `countTokens`, the mapping of the SDK's
 * abort error, and the cost estimate. The SDK and its network calls are
 * parameters: each is a function from the parameters the client builds to
 * what the SDK does with them.
 */
module AnthropicClient {
  import opened Wrappers

  // ---------------------------------------------------------------------
  // Messages
  // ---------------------------------------------------------------------

  datatype Role = User | Assistant

  /** The one cache marker the client attaches: `{type: "ephemeral"}`. */
  datatype CacheControl = Ephemeral

  /**
   * A content block. Blocks a caller supplies carry no `cache_control`
   * (the `Message` type has no such key); the annotator adds it to the
   * block it marks. An image source is always base64-encoded.
   */
  datatype ContentBlock =
    | TextBlock(text: string, cacheControl: Option<CacheControl>)
    | ImageBlock(mediaType: string, data: string, cacheControl: Option<CacheControl>)

  /** `content` is either a plain string or an array of blocks. */
  datatype Content = Text(value: string) | Blocks(blocks: seq<ContentBlock>)

  datatype Message = Message(role: Role, content: Content)

  // ---------------------------------------------------------------------
  // Tools
  // ---------------------------------------------------------------------

  /**
   * A tool's JSON schema: `{type: "object", properties, required?}`. The
   * client never looks inside a property's schema, so each is kept as its
   * serialised text.
   */
  datatype InputSchema = InputSchema(properties: map<string, string>, required: Option<seq<string>>)

  /** A tool as the caller describes it. */
  datatype ToolSpec = ToolSpec(name: string, description: Option<string>, inputSchema: InputSchema)

  /** A tool as the service receives it: `{name, description, input_schema}`. */
  datatype ToolParam = ToolParam(name: string, description: string, inputSchema: InputSchema)

  // ---------------------------------------------------------------------
  // Client configuration
  // ---------------------------------------------------------------------

  const Claude37Sonnet := "claude-3-7-sonnet-20250219"
  const MaxTokens := 8000
  const DefaultThinkingBudgetTokens := 4000

  /** `AnthropicClientOptions`; `apiKey` and `baseURL` only reach the SDK client. */
  datatype ClientOptions = ClientOptions(
    apiKey: string,
    model: Option<string>,
    maxTokens: Option<int>,
    enableThinking: Option<bool>,
    thinkingBudgetTokens: Option<int>,
    baseURL: Option<string>)

  /** The fields an `AnthropicClient` fixes at construction and never changes. */
  datatype Client = Client(model: string, maxTokens: int, enableThinking: bool, thinkingBudgetTokens: int)

  /** JavaScript `s || fallback` for an optional string: absent and "" are falsy. */
  function StringOr(s: Option<string>, fallback: string): string
  {
    if s.Some? && s.value != "" then s.value else fallback
  }

  /** JavaScript `n || fallback` for an optional number: absent and 0 are falsy. */
  function NumberOr(n: Option<int>, fallback: int): int
  {
    if n.Some? && n.value != 0 then n.value else fallback
  }

  /** JavaScript `b ?? fallback`: only an absent value is replaced. */
  function BoolOrDefault(b: Option<bool>, fallback: bool): bool
  {
    if b.Some? then b.value else fallback
  }

  /** The constructor's defaulting rules. */
  function NewClient(options: ClientOptions): (c: Client)
    ensures options.model == None || options.model == Some("") ==> c.model == Claude37Sonnet
    ensures options.model.Some? && options.model.value != "" ==> c.model == options.model.value
    ensures options.maxTokens == None || options.maxTokens == Some(0) ==> c.maxTokens == MaxTokens
    ensures options.maxTokens.Some? && options.maxTokens.value != 0 ==> c.maxTokens == options.maxTokens.value
    ensures c.enableThinking <==> options.enableThinking != Some(false)
    ensures options.thinkingBudgetTokens == None || options.thinkingBudgetTokens == Some(0) ==>
              c.thinkingBudgetTokens == DefaultThinkingBudgetTokens
    ensures options.thinkingBudgetTokens.Some? && options.thinkingBudgetTokens.value != 0 ==>
              c.thinkingBudgetTokens == options.thinkingBudgetTokens.value
    ensures c.model != "" && c.maxTokens != 0 && c.thinkingBudgetTokens != 0
  {
    Client(
      StringOr(options.model, Claude37Sonnet),
      NumberOr(options.maxTokens, MaxTokens),
      BoolOrDefault(options.enableThinking, true),
      NumberOr(options.thinkingBudgetTokens, DefaultThinkingBudgetTokens))
  }

  // ---------------------------------------------------------------------
  // System prompt and tool formatting
  // ---------------------------------------------------------------------

  /** A system block: `{type: "text", text}`. */
  datatype SystemBlock = SystemText(text: string)

  /** The `system` field: absent for a missing or empty prompt, else one text block. */
  function FormatSystem(systemPrompt: Option<string>): (system: Option<seq<SystemBlock>>)
    ensures system.None? <==> systemPrompt == None || systemPrompt == Some("")
    ensures system.Some? ==> system.value == [SystemText(systemPrompt.value)]
  {
    if systemPrompt.Some? && systemPrompt.value != "" then Some([SystemText(systemPrompt.value)]) else None
  }

  /** One tool flattened for the service; a missing description becomes "". */
  function FormatTool(tool: ToolSpec): (t: ToolParam)
    ensures t.name == tool.name && t.inputSchema == tool.inputSchema
    ensures tool.description.None? ==> t.description == ""
    ensures tool.description.Some? ==> t.description == tool.description.value
  {
    ToolParam(tool.name, StringOr(tool.description, ""), tool.inputSchema)
  }

  /** `tools.map(...)`: every tool flattened, in order. */
  function FormatTools(tools: seq<ToolSpec>): (r: seq<ToolParam>)
    ensures |r| == |tools|
  {
    if tools == [] then [] else [FormatTool(tools[0])] + FormatTools(tools[1..])
  }

  lemma {:induction false} FormatToolsPointwise(tools: seq<ToolSpec>)
    ensures forall i :: 0 <= i < |tools| ==> FormatTools(tools)[i] == FormatTool(tools[i])
  {
    if tools != [] {
      FormatToolsPointwise(tools[1..]);
      forall i | 0 <= i < |tools|
        ensures FormatTools(tools)[i] == FormatTool(tools[i])
      {
        if i > 0 {
          assert FormatTools(tools)[i] == FormatTools(tools[1..])[i - 1];
        }
      }
    }
  }

  /** The `tools` field: the formatted list (tools default to []), absent when it is empty. */
  function ToolsField(tools: Option<seq<ToolSpec>>): (field: Option<seq<ToolParam>>)
    ensures field.None? <==> tools == None || tools == Some([])
    ensures field.Some? ==> |field.value| == |tools.value|
    ensures field.Some? ==> forall i :: 0 <= i < |tools.value| ==>
              field.value[i].name == tools.value[i].name
              && field.value[i].inputSchema == tools.value[i].inputSchema
              && field.value[i].description == StringOr(tools.value[i].description, "")
  {
    var formatted := FormatTools(if tools.Some? then tools.value else []);
    FormatToolsPointwise(if tools.Some? then tools.value else []);
    if |formatted| > 0 then Some(formatted) else None
  }

  // ---------------------------------------------------------------------
  // Cache annotator
  // ---------------------------------------------------------------------

  /** `{...block, cache_control: {type: "ephemeral"}}`. */
  function WithCacheControl(block: ContentBlock): (b: ContentBlock)
    ensures b.cacheControl == Some(Ephemeral)
    ensures b.(cacheControl := block.cacheControl) == block
  {
    block.(cacheControl := Some(Ephemeral))
  }

  /** Mark the last block of a block list; every other block is kept. */
  function MarkLastBlock(blocks: seq<ContentBlock>): (r: seq<ContentBlock>)
    ensures |r| == |blocks|
    ensures forall j :: 0 <= j < |blocks| - 1 ==> r[j] == blocks[j]
    ensures |blocks| > 0 ==> r[|blocks| - 1] == WithCacheControl(blocks[|blocks| - 1])
  {
    seq(|blocks|, j requires 0 <= j < |blocks| =>
      if j != |blocks| - 1 then blocks[j] else WithCacheControl(blocks[j]))
  }

  /**
   * `withLastMessageCached`: only the last message, and only when its
   * content is a block array, is rewritten, and within it only the last block.
   */
  function WithLastMessageCached(messages: seq<Message>): (r: seq<Message>)
    ensures |r| == |messages|
    ensures forall i :: 0 <= i < |messages| - 1 ==> r[i] == messages[i]
    ensures messages == [] || messages[|messages| - 1].content.Text? ==> r == messages
    ensures messages != [] && messages[|messages| - 1].content.Blocks? ==>
              var last, out := messages[|messages| - 1], r[|messages| - 1];
              && out.role == last.role
              && out.content.Blocks?
              && |out.content.blocks| == |last.content.blocks|
              && (forall j :: 0 <= j < |last.content.blocks| - 1 ==> out.content.blocks[j] == last.content.blocks[j])
              && (|last.content.blocks| > 0 ==>
                    out.content.blocks[|last.content.blocks| - 1]
                    == WithCacheControl(last.content.blocks[|last.content.blocks| - 1]))
  {
    seq(|messages|, i requires 0 <= i < |messages| =>
      if i != |messages| - 1 || !messages[i].content.Blocks? then messages[i]
      else messages[i].(content := Blocks(MarkLastBlock(messages[i].content.blocks))))
  }

  /** Block `j` of message `i` carries a cache marker. */
  predicate Marked(messages: seq<Message>, i: int, j: int)
  {
    && 0 <= i < |messages|
    && messages[i].content.Blocks?
    && 0 <= j < |messages[i].content.blocks|
    && messages[i].content.blocks[j].cacheControl.Some?
  }

  /** (i, j) is the last block of the last message. */
  predicate IsLastBlockOfLastMessage(messages: seq<Message>, i: int, j: int)
  {
    && messages != []
    && i == |messages| - 1
    && messages[i].content.Blocks?
    && j == |messages[i].content.blocks| - 1
    && j >= 0
  }

  /** The annotator marks exactly one new position, the last block of the last message. */
  lemma MarkedPositions(messages: seq<Message>)
    ensures forall i, j ::
              Marked(WithLastMessageCached(messages), i, j)
              <==> Marked(messages, i, j) || IsLastBlockOfLastMessage(messages, i, j)
  {
  }

  /** Number of marked blocks in a block list. */
  function MarkedBlockCount(blocks: seq<ContentBlock>): nat
  {
    if blocks == [] then 0
    else MarkedBlockCount(blocks[..|blocks| - 1]) + (if blocks[|blocks| - 1].cacheControl.Some? then 1 else 0)
  }

  /** Number of marked blocks across a conversation. */
  function MarkedCount(messages: seq<Message>): nat
  {
    if messages == [] then 0
    else
      var last := messages[|messages| - 1];
      MarkedCount(messages[..|messages| - 1]) + (if last.content.Blocks? then MarkedBlockCount(last.content.blocks) else 0)
  }

  /** No block of the conversation carries a marker (true of every caller-built conversation). */
  ghost predicate NoneMarked(messages: seq<Message>)
  {
    forall i, j :: !Marked(messages, i, j)
  }

  lemma {:induction false} UnmarkedBlocksCountZero(blocks: seq<ContentBlock>)
    requires forall j :: 0 <= j < |blocks| ==> blocks[j].cacheControl.None?
    ensures MarkedBlockCount(blocks) == 0
  {
    if blocks != [] {
      UnmarkedBlocksCountZero(blocks[..|blocks| - 1]);
    }
  }

  lemma {:induction false} UnmarkedCountZero(messages: seq<Message>)
    requires NoneMarked(messages)
    ensures MarkedCount(messages) == 0
  {
    if messages != [] {
      var n := |messages|;
      var init := messages[..n - 1];
      assert NoneMarked(init) by {
        forall i, j ensures !Marked(init, i, j) {
          assert Marked(init, i, j) ==> Marked(messages, i, j);
        }
      }
      UnmarkedCountZero(init);
      if messages[n - 1].content.Blocks? {
        var bs := messages[n - 1].content.blocks;
        forall j | 0 <= j < |bs| ensures bs[j].cacheControl.None? {
          assert !Marked(messages, n - 1, j);
        }
        UnmarkedBlocksCountZero(bs);
      }
    }
  }

  /**
   * On a conversation with no markers whose last message has block content,
   * the annotated conversation has exactly one marked block: the last block
   * of the last message.
   */
  lemma {:induction false} ExactlyOneBlockMarked(messages: seq<Message>)
    requires NoneMarked(messages)
    requires messages != [] && messages[|messages| - 1].content.Blocks?
    requires |messages[|messages| - 1].content.blocks| > 0
    ensures MarkedCount(WithLastMessageCached(messages)) == 1
    ensures Marked(WithLastMessageCached(messages), |messages| - 1, |messages[|messages| - 1].content.blocks| - 1)
  {
    var r := WithLastMessageCached(messages);
    var n := |messages|;
    var init := messages[..n - 1];
    assert r[..n - 1] == init;
    assert NoneMarked(init) by {
      forall i, j ensures !Marked(init, i, j) {
        assert Marked(init, i, j) ==> Marked(messages, i, j);
      }
    }
    UnmarkedCountZero(init);
    var bs := messages[n - 1].content.blocks;
    var out := r[n - 1].content.blocks;
    var k := |bs|;
    var prefix := bs[..k - 1];
    assert out[..k - 1] == prefix;
    forall j | 0 <= j < |prefix| ensures prefix[j].cacheControl.None? {
      assert !Marked(messages, n - 1, j);
    }
    UnmarkedBlocksCountZero(prefix);
    assert MarkedBlockCount(out) == 1;
  }

  /** With plain-string last content, or nothing to annotate, no block is marked. */
  lemma PlainTextLeftUnmarked(messages: seq<Message>)
    requires NoneMarked(messages)
    requires messages == [] || messages[|messages| - 1].content.Text?
    ensures WithLastMessageCached(messages) == messages
    ensures MarkedCount(WithLastMessageCached(messages)) == 0
  {
    UnmarkedCountZero(messages);
  }

  // ---------------------------------------------------------------------
  // Parameters of `complete`
  // ---------------------------------------------------------------------

  /** The arguments of `complete`; `tools` defaults to [] and `stream` to false. */
  datatype CompleteRequest = CompleteRequest(
    messages: seq<Message>,
    systemPrompt: Option<string>,
    tools: Option<seq<ToolSpec>>,
    stream: Option<bool>)

  /** `thinking: {type: "enabled", budget_tokens}`. */
  datatype ThinkingParam = ThinkingEnabled(budgetTokens: int)

  /**
   * The parameters handed to the SDK. An optional field that is None is
   * absent from the request; `thinking` is None in the base parameters.
   */
  datatype MessageParams = MessageParams(
    model: string,
    maxTokens: int,
    messages: seq<Message>,
    system: Option<seq<SystemBlock>>,
    tools: Option<seq<ToolParam>>,
    stream: bool,
    thinking: Option<ThinkingParam>)

  /** `baseParams`: configured model and limit, annotated messages, optional system and tools. */
  function BuildBaseParams(client: Client, request: CompleteRequest): (p: MessageParams)
    ensures p.model == client.model && p.maxTokens == client.maxTokens
    ensures p.messages == WithLastMessageCached(request.messages)
    ensures p.system == FormatSystem(request.systemPrompt)
    ensures p.tools == ToolsField(request.tools)
    ensures p.stream <==> request.stream == Some(true)
    ensures p.thinking.None?
  {
    MessageParams(
      client.model,
      client.maxTokens,
      WithLastMessageCached(request.messages),
      FormatSystem(request.systemPrompt),
      ToolsField(request.tools),
      BoolOrDefault(request.stream, false),
      None)
  }

  /** `params`: the base parameters, plus `thinking` exactly when thinking is enabled. */
  function BuildParams(client: Client, request: CompleteRequest): (p: MessageParams)
    ensures p.thinking.Some? <==> client.enableThinking
    ensures p.thinking.Some? ==> p.thinking.value.budgetTokens == client.thinkingBudgetTokens
    ensures p.(thinking := None) == BuildBaseParams(client, request)
  {
    var base := BuildBaseParams(client, request);
    if client.enableThinking then base.(thinking := Some(ThinkingEnabled(client.thinkingBudgetTokens))) else base
  }

  /** A default client sending `[{role: user, content: "Hi"}]` alone. */
  lemma SingleUserMessageScenario()
    ensures var client := NewClient(ClientOptions("key", None, None, None, None, None));
            var messages := [Message(User, Text("Hi"))];
            BuildParams(client, CompleteRequest(messages, None, None, None))
            == MessageParams(Claude37Sonnet, 8000, messages, None, None, false, Some(ThinkingEnabled(4000)))
  {
  }

  // ---------------------------------------------------------------------
  // Dispatch and the abort-error mapping
  // ---------------------------------------------------------------------

  /** The SDK call `complete` makes: `messages.create` or `beta.messages.stream`. */
  datatype SdkCall = MessagesCreate(params: MessageParams) | BetaMessagesStream(params: MessageParams)

  function SdkCallFor(params: MessageParams): (call: SdkCall)
    ensures call.params == params
    ensures call.BetaMessagesStream? <==> params.stream
  {
    if params.stream then BetaMessagesStream(params) else MessagesCreate(params)
  }

  /** A thrown JavaScript error, by its `name` and `message`. */
  datatype ThrownError = ThrownError(name: string, message: string)

  const ApiUserAbortName := "APIUserAbortError"

  /** `new DOMException("Aborted", "AbortError")`. */
  const AbortError := ThrownError("AbortError", "Aborted")

  /** The catch block: the SDK's user-abort error becomes an `AbortError`, anything else is rethrown. */
  function NormalizeAbortError(error: ThrownError): (e: ThrownError)
    ensures e.name != ApiUserAbortName
    ensures e.name == "AbortError" <==> error.name in {ApiUserAbortName, "AbortError"}
    ensures error.name != ApiUserAbortName ==> e == error
    ensures error.name == ApiUserAbortName ==> e == AbortError
  {
    if error.name == ApiUserAbortName then AbortError else error
  }

  lemma NormalizeAbortErrorIdempotent(error: ThrownError)
    ensures NormalizeAbortError(NormalizeAbortError(error)) == NormalizeAbortError(error)
  {
  }

  /** How a promise the caller awaits ends. */
  datatype Settlement<H> = Fulfilled(value: H) | Rejected(error: ThrownError)

  /**
   * What an SDK call does: throw before returning, or return a value that,
   * once awaited, fulfils with a response handle or rejects.
   */
  datatype SdkOutcome<H> = ThrowsSync(error: ThrownError) | Returns(settlement: Settlement<H>)

  /**
   * `complete` as written: the SDK call's result is returned without
   * `await`, so only a synchronous throw reaches the catch block; a
   * rejection of the returned promise reaches the caller unchanged.
   */
  function CompleteAsWritten<H>(client: Client, request: CompleteRequest, sdk: SdkCall -> SdkOutcome<H>): (r: Settlement<H>)
    ensures var outcome := sdk(SdkCallFor(BuildParams(client, request)));
            && (outcome.ThrowsSync? ==> r == Rejected(NormalizeAbortError(outcome.error)))
            && (outcome.Returns? ==> r == outcome.settlement)
  {
    match sdk(SdkCallFor(BuildParams(client, request)))
    case ThrowsSync(e) => Rejected(NormalizeAbortError(e))
    case Returns(s) => s
  }

  /** As written, a user abort delivered through the returned promise escapes unmapped. */
  lemma AbortThroughPromiseEscapes(client: Client, request: CompleteRequest)
    ensures var sdk := (call: SdkCall) => SdkOutcome<int>.Returns(Rejected(ThrownError(ApiUserAbortName, "Request was aborted.")));
            var r := CompleteAsWritten(client, request, sdk);
            r.Rejected? && r.error.name == ApiUserAbortName
  {
  }

  /**
   * `complete` with the SDK call awaited inside the `try`: every error,
   * synchronous or from the awaited promise, goes through the mapping.
   */
  function Complete<H>(client: Client, request: CompleteRequest, sdk: SdkCall -> SdkOutcome<H>): (r: Settlement<H>)
    ensures r.Rejected? ==> r.error.name != ApiUserAbortName
    ensures var outcome := sdk(SdkCallFor(BuildParams(client, request)));
            && (r.Fulfilled? <==> outcome.Returns? && outcome.settlement.Fulfilled?)
            && (r.Fulfilled? ==> r.value == outcome.settlement.value)
            && (outcome.ThrowsSync? ==> r == Rejected(NormalizeAbortError(outcome.error)))
            && (outcome.Returns? && outcome.settlement.Rejected? ==>
                  r == Rejected(NormalizeAbortError(outcome.settlement.error)))
  {
    match sdk(SdkCallFor(BuildParams(client, request)))
    case ThrowsSync(e) => Rejected(NormalizeAbortError(e))
    case Returns(Fulfilled(h)) => Fulfilled(h)
    case Returns(Rejected(e)) => Rejected(NormalizeAbortError(e))
  }

  /** Whatever the SDK's abort looks like, the caller of `Complete` sees one `AbortError`. */
  lemma CancellationNormalized<H>(client: Client, request: CompleteRequest, sdk: SdkCall -> SdkOutcome<H>)
    requires var outcome := sdk(SdkCallFor(BuildParams(client, request)));
             || (outcome.ThrowsSync? && outcome.error.name == ApiUserAbortName)
             || (outcome.Returns? && outcome.settlement.Rejected? && outcome.settlement.error.name == ApiUserAbortName)
    ensures Complete(client, request, sdk) == Rejected(AbortError)
  {
  }

  /** The two agree whenever the SDK fails synchronously or fulfils. */
  lemma CompleteAgreesUnlessPromiseRejects<H>(client: Client, request: CompleteRequest, sdk: SdkCall -> SdkOutcome<H>)
    requires var outcome := sdk(SdkCallFor(BuildParams(client, request)));
             !(outcome.Returns? && outcome.settlement.Rejected?)
    ensures Complete(client, request, sdk) == CompleteAsWritten(client, request, sdk)
  {
  }

  // ---------------------------------------------------------------------
  // countTokens
  // ---------------------------------------------------------------------

  /** The arguments of `countTokens`; `tools` defaults to []. */
  datatype CountTokensRequest = CountTokensRequest(
    messages: seq<Message>,
    systemPrompt: Option<string>,
    tools: Option<seq<ToolSpec>>)

  /** The dry-run request: no `max_tokens`, `stream` or `thinking` field exists. */
  datatype CountTokensParams = CountTokensParams(
    model: string,
    messages: seq<Message>,
    system: Option<seq<SystemBlock>>,
    tools: Option<seq<ToolParam>>)

  function BuildCountTokensParams(client: Client, request: CountTokensRequest): (p: CountTokensParams)
    ensures p.model == client.model
    ensures p.messages == request.messages
    ensures p.system == FormatSystem(request.systemPrompt)
    ensures p.tools == ToolsField(request.tools)
  {
    CountTokensParams(client.model, request.messages, FormatSystem(request.systemPrompt), ToolsField(request.tools))
  }

  /**
   * For the same conversation, the dry run sends what `complete` sends
   * except that its messages are not annotated.
   */
  lemma CountTokensMatchesComplete(client: Client, request: CompleteRequest)
    ensures var p := BuildParams(client, request);
            var q := BuildCountTokensParams(client, CountTokensRequest(request.messages, request.systemPrompt, request.tools));
            && q.model == p.model
            && q.system == p.system
            && q.tools == p.tools
            && q.messages == request.messages
            && p.messages == WithLastMessageCached(q.messages)
  {
  }

  /** `countTokens`: the `input_tokens` the service reports for the dry-run parameters. */
  function CountTokens(client: Client, request: CountTokensRequest, countTokensApi: CountTokensParams -> nat): (n: nat)
    ensures n == countTokensApi(CountTokensParams(client.model, request.messages,
                                                  FormatSystem(request.systemPrompt), ToolsField(request.tools)))
  {
    countTokensApi(BuildCountTokensParams(client, request))
  }

  // ---------------------------------------------------------------------
  // Cost estimate
  // ---------------------------------------------------------------------

  /** Token usage as the service reports it; the two cache counts may be absent. */
  datatype Usage = Usage(
    inputTokens: nat,
    outputTokens: nat,
    cacheCreationInputTokens: Option<nat>,
    cacheReadInputTokens: Option<nat>)

  /** Claude 3.7 Sonnet prices, per million tokens. */
  const InputPrice: real := 3.0
  const OutputPrice: real := 15.0
  const CacheCreationInputPrice: real := 3.75
  const CacheReadInputPrice: real := 0.3

  /** `?? 0` on an optional count. */
  function CountOrZero(n: Option<nat>): nat
  {
    if n.Some? then n.value else 0
  }

  /** `calculateCost`, in exact arithmetic: four per-million-token terms. */
  function CalculateCost(usage: Usage): (cost: real)
    ensures cost == (3.0 * usage.inputTokens as real + 15.0 * usage.outputTokens as real
                     + 3.75 * CountOrZero(usage.cacheCreationInputTokens) as real
                     + 0.3 * CountOrZero(usage.cacheReadInputTokens) as real) / 1000000.0
    ensures cost >= 0.0
    ensures cost == 0.0 <==>
              usage.inputTokens == 0 && usage.outputTokens == 0
              && CountOrZero(usage.cacheCreationInputTokens) == 0 && CountOrZero(usage.cacheReadInputTokens) == 0
  {
    (usage.inputTokens as real * InputPrice) / 1000000.0
    + (usage.outputTokens as real * OutputPrice) / 1000000.0
    + (CountOrZero(usage.cacheCreationInputTokens) as real * CacheCreationInputPrice) / 1000000.0
    + (CountOrZero(usage.cacheReadInputTokens) as real * CacheReadInputPrice) / 1000000.0
  }

  /** More tokens of any kind never cost less. */
  lemma CostMonotone(u: Usage, v: Usage)
    requires u.inputTokens <= v.inputTokens && u.outputTokens <= v.outputTokens
    requires CountOrZero(u.cacheCreationInputTokens) <= CountOrZero(v.cacheCreationInputTokens)
    requires CountOrZero(u.cacheReadInputTokens) <= CountOrZero(v.cacheReadInputTokens)
    ensures CalculateCost(u) <= CalculateCost(v)
  {
  }

  /** A million tokens of each kind costs the sum of the four rates. */
  lemma MillionOfEachCostsSumOfRates()
    ensures CalculateCost(Usage(1000000, 1000000, Some(1000000), Some(1000000)))
            == InputPrice + OutputPrice + CacheCreationInputPrice + CacheReadInputPrice
    ensures CalculateCost(Usage(0, 0, None, None)) == 0.0
  {
  }
}
