/**
 * The provider-independent logic of `src/llm/llm_module.py`: client selection, the outbound
 * request, the keyword emotion classifier, the rolling conversation window and the canned
 * reply on failure. The provider itself is an oracle `api(request, i)`: what its i-th call
 * with `request` does under the executor's deadline.
 */
module Llm {
  import opened Wrappers
  import opened Seqs
  import opened Strings
  import opened Values
  import opened Chat
  import opened ErrorHandling
  import Events

  datatype Provider = OpenAI | Ollama | Gemini

  function ProviderValue(p: Provider): string {
    match p
    case OpenAI => "openai"
    case Ollama => "ollama"
    case Gemini => "gemini"
  }

  datatype LlmConfig = LlmConfig(
    provider: Provider,
    model: string,
    apiKey: Option<string>,
    temperature: real,
    maxTokens: int,
    systemPrompt: string,
    ollamaBaseUrl: string,
    fallbackEnabled: bool,
    fallbackProvider: Option<Provider>,
    fallbackModel: Option<string>)

  const DefaultLlmConfig := LlmConfig(OpenAI, "gpt-4.1-mini", None, 0.7, 500, "You are a friendly VTuber companion.",
                                      "http://localhost:11434", false, None, None)

  /** The client built at start-up, or none when no API key was found. */
  datatype Client =
    | NoClient
    | ChatClient(baseUrl: Option<string>, apiKey: string)
    | GeminiClient(modelName: string)

  /** A Python string that is neither `None` nor empty. */
  predicate Truthy(s: Option<string>) {
    s.Some? && s.value != ""
  }

  /** Python's `a or b` on optional strings. */
  function Or(a: Option<string>, b: Option<string>): (r: Option<string>)
    ensures Truthy(r) <==> Truthy(a) || Truthy(b)
    ensures Truthy(a) ==> r == a
    ensures !Truthy(a) ==> r == b
  {
    if Truthy(a) then a else b
  }

  /** `os.getenv(name)` over the environment `env`. */
  function Getenv(env: map<string, string>, name: string): Option<string> {
    if name in env then Some(env[name]) else None
  }

  /** Gemini model names carry the `models/` prefix; a name that has it is kept. */
  function GeminiModelName(model: string): (name: string)
    ensures StartsWith(name, "models/")
    ensures StartsWith(model, "models/") ==> name == model
    ensures !StartsWith(model, "models/") ==> name == "models/" + model
  {
    if StartsWith(model, "models/") then model else "models/" + model
  }

  /** Prefixing twice is the same as prefixing once. */
  lemma GeminiModelNameIdempotent(model: string)
    ensures GeminiModelName(GeminiModelName(model)) == GeminiModelName(model)
  {
  }

  /**
   * `_initialize_client`: OpenAI takes the configured key or `OPENAI_API_KEY`; Ollama always
   * gets a client on `<base>/v1`; Gemini takes the configured key, `GEMINI_API_KEY` or
   * `GOOGLE_API_KEY` and a prefixed model name. Without a key there is no client.
   */
  function InitClient(config: LlmConfig, env: map<string, string>): (c: Client)
    ensures config.provider == OpenAI ==>
              (c.ChatClient? <==> Truthy(config.apiKey) || Truthy(Getenv(env, "OPENAI_API_KEY")))
    ensures config.provider == OpenAI && Truthy(config.apiKey) ==> c == ChatClient(None, config.apiKey.value)
    ensures config.provider == Ollama ==> c == ChatClient(Some(config.ollamaBaseUrl + "/v1"), "ollama")
    ensures config.provider == Gemini ==>
              (c.GeminiClient? <==> Truthy(config.apiKey) || Truthy(Getenv(env, "GEMINI_API_KEY"))
                                    || Truthy(Getenv(env, "GOOGLE_API_KEY")))
    ensures config.provider == Gemini && c.GeminiClient? ==> c.modelName == GeminiModelName(config.model)
    ensures c.NoClient? || c.GeminiClient? ==> config.provider != Ollama
  {
    match config.provider
    case OpenAI =>
      var key := Or(config.apiKey, Getenv(env, "OPENAI_API_KEY"));
      if Truthy(key) then ChatClient(None, key.value) else NoClient
    case Ollama =>
      ChatClient(Some(config.ollamaBaseUrl + "/v1"), "ollama")
    case Gemini =>
      var key := Or(Or(config.apiKey, Getenv(env, "GEMINI_API_KEY")), Getenv(env, "GOOGLE_API_KEY"));
      if Truthy(key) then GeminiClient(GeminiModelName(config.model)) else NoClient
  }

  // ---------------------------------------------------------------- emotion

  const HappyWords: seq<string> := ["!", "great", "awesome", "wonderful", "happy", "excited"]
  const SadWords: seq<string> := ["sorry", "unfortunately", "sad", "disappointed"]
  const ConfusedWords: seq<string> := ["?", "hmm", "not sure", "maybe"]
  const SurprisedWords: seq<string> := ["wow", "amazing", "incredible", "surprising"]

  /** `any(word in text for word in words)`. */
  predicate AnyOccurs(text: string, words: seq<string>) {
    exists i :: 0 <= i < |words| && Contains(text, words[i])
  }

  /**
   * `_detect_emotion`: on the lower-cased text, the first of happy, sad, confused and
   * surprised with a keyword in it, else neutral.
   */
  function DetectEmotion(text: string): (emotion: string)
    ensures emotion in ["happy", "sad", "confused", "surprised", "neutral"]
  {
    var t := Lower(text);
    if AnyOccurs(t, HappyWords) then "happy"
    else if AnyOccurs(t, SadWords) then "sad"
    else if AnyOccurs(t, ConfusedWords) then "confused"
    else if AnyOccurs(t, SurprisedWords) then "surprised"
    else "neutral"
  }

  /**
   * The categories are tried in a fixed order: a keyword of a category wins over every later
   * category, whatever else the text holds.
   */
  lemma EmotionPriority(text: string, i: nat)
    ensures i < |HappyWords| && Contains(Lower(text), HappyWords[i]) ==> DetectEmotion(text) == "happy"
    ensures i < |SadWords| && Contains(Lower(text), SadWords[i]) ==> DetectEmotion(text) in ["happy", "sad"]
    ensures i < |ConfusedWords| && Contains(Lower(text), ConfusedWords[i]) ==>
              DetectEmotion(text) in ["happy", "sad", "confused"]
    ensures i < |SurprisedWords| && Contains(Lower(text), SurprisedWords[i]) ==> DetectEmotion(text) != "neutral"
  {
  }

  /**
   * Each label exactly characterised: a category is chosen when one of its keywords occurs in
   * the lower-cased text and none of an earlier category does.
   */
  lemma EmotionCategories(text: string)
    ensures var t := Lower(text);
            && (DetectEmotion(text) == "happy" <==> AnyOccurs(t, HappyWords))
            && (DetectEmotion(text) == "sad" <==> !AnyOccurs(t, HappyWords) && AnyOccurs(t, SadWords))
            && (DetectEmotion(text) == "confused" <==>
                  !AnyOccurs(t, HappyWords) && !AnyOccurs(t, SadWords) && AnyOccurs(t, ConfusedWords))
            && (DetectEmotion(text) == "surprised" <==>
                  !AnyOccurs(t, HappyWords) && !AnyOccurs(t, SadWords) && !AnyOccurs(t, ConfusedWords)
                  && AnyOccurs(t, SurprisedWords))
  {
  }

  /** Neutral exactly when no keyword of any category occurs. */
  lemma NeutralIffNoKeyword(text: string)
    ensures DetectEmotion(text) == "neutral" <==>
              !AnyOccurs(Lower(text), HappyWords + SadWords + ConfusedWords + SurprisedWords)
  {
    var t := Lower(text);
    var all := HappyWords + SadWords + ConfusedWords + SurprisedWords;
    if AnyOccurs(t, all) {
      var i :| 0 <= i < |all| && Contains(t, all[i]);
      if i < 6 {
        assert all[i] == HappyWords[i];
      } else if i < 10 {
        assert all[i] == SadWords[i - 6];
      } else if i < 14 {
        assert all[i] == ConfusedWords[i - 10];
      } else {
        assert all[i] == SurprisedWords[i - 14];
      }
    }
    if AnyOccurs(t, HappyWords) {
      var i :| 0 <= i < |HappyWords| && Contains(t, HappyWords[i]);
      assert all[i] == HappyWords[i];
    } else if AnyOccurs(t, SadWords) {
      var i :| 0 <= i < |SadWords| && Contains(t, SadWords[i]);
      assert all[i + 6] == SadWords[i];
    } else if AnyOccurs(t, ConfusedWords) {
      var i :| 0 <= i < |ConfusedWords| && Contains(t, ConfusedWords[i]);
      assert all[i + 10] == ConfusedWords[i];
    } else if AnyOccurs(t, SurprisedWords) {
      var i :| 0 <= i < |SurprisedWords| && Contains(t, SurprisedWords[i]);
      assert all[i + 14] == SurprisedWords[i];
    }
  }

  /** Case does not matter: the classifier sees only the lower-cased text. */
  lemma EmotionIgnoresCase(text: string)
    ensures DetectEmotion(Lower(text)) == DetectEmotion(text)
  {
    LowerIdempotent(text);
  }

  /** A happy keyword wins over the question mark that would make the text confused. */
  lemma EmotionHappyBeatsConfused()
    ensures DetectEmotion("Great?") == "happy"
  {
    var t := Lower("Great?");
    assert t[0..5] == "great";
    ContainsAt(t, "great", 0);
    assert Contains(t, HappyWords[1]);
    assert AnyOccurs(t, HappyWords);
  }

  /** A text in which no keyword occurs is neutral. */
  lemma EmotionNoKeyword()
    ensures DetectEmotion("ok") == "neutral"
  {
    var t := Lower("ok");
    assert t == "ok";
    NoOccurrence(t, "!");
    NoOccurrence(t, "?");
    NeutralIffNoKeyword("ok");
  }

  /** A character that is not in the text does not occur in it. */
  lemma NoOccurrence(text: string, word: string)
    requires |word| == 1 && forall i :: 0 <= i < |text| ==> text[i] != word[0]
    ensures !Contains(text, word)
  {
    ContainsIffOccurrence(text, word);
  }

  // ---------------------------------------------------------------- requests

  /** What one provider call is sent. */
  datatype Request =
    | ChatRequest(model: string, messages: seq<Message>, temperature: real, maxTokens: int)
    | GeminiRequest(prompt: string, temperature: real, maxOutputTokens: int)

  /**
   * The reply text as the caller reads it: a string, `None` (a chat message without content),
   * or an exception raised by the accessor itself (Gemini's `response.text` on a reply without
   * text).
   */
  datatype Content = Text(s: string) | NullContent | TextRaises(error: Exception)

  /** A chat reply's `usage`: no such attribute, present but `None`, or a report with a total. */
  datatype Usage = NoUsage | NullUsage | Usage(totalTokens: int)

  /** What a provider call returns. Gemini replies carry no usage that is read. */
  datatype Reply = Reply(content: Content, usage: Usage)

  /** What `None.lower()` raises inside `_detect_emotion`. */
  const NoneLowerError := Exception("AttributeError", "'NoneType' object has no attribute 'lower'")

  /** What `None.total_tokens` raises while the result dictionary is built. */
  const NoneTokensError := Exception("AttributeError", "'NoneType' object has no attribute 'total_tokens'")

  /** `system_prompt or self.config.system_prompt`. */
  function EffectivePrompt(config: LlmConfig, systemPrompt: Option<string>): (p: string)
    ensures Truthy(systemPrompt) ==> p == systemPrompt.value
    ensures !Truthy(systemPrompt) ==> p == config.systemPrompt
  {
    if Truthy(systemPrompt) then systemPrompt.value else config.systemPrompt
  }

  /** The chat message list: the system message, the history if asked for, the user message last. */
  function BuildMessages(system: string, history: seq<Message>, user: string, includeHistory: bool): (msgs: seq<Message>)
    ensures |msgs| == 2 + (if includeHistory then |history| else 0)
    ensures msgs[0] == Message(SystemRole, system) && msgs[|msgs| - 1] == Message(UserRole, user)
    ensures includeHistory ==> msgs[1..|msgs| - 1] == history
  {
    [Message(SystemRole, system)] + (if includeHistory then history else []) + [Message(UserRole, user)]
  }

  /** The role label a history entry gets in a Gemini prompt; any role but "user" is the assistant. */
  function RoleLabel(role: string): string {
    if role == UserRole then "User" else "Assistant"
  }

  function HistoryLine(m: Message): string {
    RoleLabel(m.role) + ": " + m.content + "\n"
  }

  /** The prompt line of each history entry, in order. */
  function Lines(history: seq<Message>): (ls: seq<string>)
    ensures |ls| == |history|
    ensures forall i :: 0 <= i < |history| ==> ls[i] == HistoryLine(history[i])
  {
    seq(|history|, i requires 0 <= i < |history| => HistoryLine(history[i]))
  }

  /** The history as prompt text: its lines, one after the other. */
  function HistoryLines(history: seq<Message>): string {
    Concat(Lines(history))
  }

  /** One more history entry adds its line at the end. */
  lemma HistoryLinesSnoc(s: seq<Message>, m: Message)
    ensures HistoryLines(s + [m]) == HistoryLines(s) + HistoryLine(m)
  {
    assert Lines(s + [m]) == Lines(s) + [HistoryLine(m)];
    assert (Lines(s) + [HistoryLine(m)])[..|s|] == Lines(s);
  }

  /** The lines of two histories one after the other are the lines of each, one after the other. */
  lemma HistoryLinesAppend(a: seq<Message>, b: seq<Message>)
    ensures HistoryLines(a + b) == HistoryLines(a) + HistoryLines(b)
  {
    assert Lines(a + b) == Lines(a) + Lines(b);
    ConcatAppend(Lines(a), Lines(b));
  }

  /** The start of a Gemini prompt: the system prompt and a blank line. */
  function PromptHeader(system: string): string {
    system + "\n\n"
  }

  /** The end of a Gemini prompt: the user's message and the cue for the reply. */
  function PromptTail(user: string): string {
    "User: " + user + "\nAssistant:"
  }

  /** The single text the Gemini path sends: header, history lines when asked for, tail. */
  function GeminiPromptText(system: string, history: seq<Message>, user: string, includeHistory: bool): (prompt: string)
    ensures var head, tail := PromptHeader(system), PromptTail(user);
            && |head| + |tail| <= |prompt|
            && prompt[..|head|] == head
            && prompt[|prompt| - |tail|..] == tail
            && prompt[|head|..|prompt| - |tail|] == (if includeHistory then HistoryLines(history) else "")
  {
    PromptHeader(system) + (if includeHistory then HistoryLines(history) else "") + PromptTail(user)
  }

  /** Appending the next entry's line to a prompt that holds the lines before it. */
  lemma PromptLineStep(header: string, history: seq<Message>, i: nat)
    requires i < |history|
    ensures header + HistoryLines(history[..i + 1]) == (header + HistoryLines(history[..i])) + HistoryLine(history[i])
  {
    assert history[..i + 1] == history[..i] + [history[i]];
    HistoryLinesSnoc(history[..i], history[i]);
    var x, y, z := header, HistoryLines(history[..i]), HistoryLine(history[i]);
    assert (x + y) + z == x + (y + z);
  }

  /** Builds the Gemini prompt line by line, as `_generate_gemini` does with `+=`. */
  method BuildGeminiPrompt(system: string, history: seq<Message>, user: string, includeHistory: bool)
    returns (prompt: string)
    ensures prompt == GeminiPromptText(system, history, user, includeHistory)
  {
    var header := PromptHeader(system);
    prompt := header;
    if includeHistory && |history| > 0 {
      var i := 0;
      while i < |history|
        invariant 0 <= i <= |history|
        invariant prompt == header + HistoryLines(history[..i])
      {
        PromptLineStep(header, history, i);
        prompt := prompt + HistoryLine(history[i]);
        i := i + 1;
      }
      assert history[..i] == history;
    } else {
      assert includeHistory ==> history == [] && HistoryLines(history) == "";
      assert prompt == header + "";
    }
    prompt := prompt + PromptTail(user);
  }

  /** The request the configured provider is sent. */
  function OutboundRequest(config: LlmConfig, system: string, history: seq<Message>, user: string, includeHistory: bool): (r: Request)
    ensures r.GeminiRequest? <==> config.provider == Gemini
    ensures r.ChatRequest? ==> r.model == config.model && r.temperature == config.temperature && r.maxTokens == config.maxTokens
    ensures r.ChatRequest? ==> |r.messages| >= 2 && r.messages[0] == Message(SystemRole, system) && r.messages[|r.messages| - 1] == Message(UserRole, user)
    ensures r.GeminiRequest? ==> r.temperature == config.temperature && r.maxOutputTokens == config.maxTokens
    ensures r.GeminiRequest? ==> PromptHeader(system) <= r.prompt
  {
    if config.provider == Gemini then
      GeminiRequest(GeminiPromptText(system, history, user, includeHistory), config.temperature, config.maxTokens)
    else
      ChatRequest(config.model, BuildMessages(system, history, user, includeHistory), config.temperature, config.maxTokens)
  }

  /** What the executor retries: the provider call, or a failure when there is no client. */
  function ProviderCalls(client: Client, request: Request, api: (Request, nat) -> Attempt<Reply>): (calls: nat -> Attempt<Reply>)
    ensures client.NoClient? ==> forall i: nat :: calls(i).Completed? && calls(i).outcome.Raised?
    ensures !client.NoClient? ==> forall i: nat :: calls(i) == api(request, i)
  {
    (i: nat) =>
      if client.NoClient? then
        Completed(Raised(Exception("Exception",
          if request.GeminiRequest? then "Gemini client not initialized" else "LLM client not initialized")))
      else api(request, i)
  }

  // ---------------------------------------------------------------- history

  /** The history after one exchange: the pair appended, then only the last 20 entries kept. */
  function Window(history: seq<Message>, user: string, reply: string): (h: seq<Message>)
    ensures |h| <= 20
    ensures |h| >= 2 && h[|h| - 2..] == [Message(UserRole, user), Message(AssistantRole, reply)]
    ensures h == TailSlice(history, 18) + [Message(UserRole, user), Message(AssistantRole, reply)]
  {
    var appended := history + [Message(UserRole, user), Message(AssistantRole, reply)];
    if |appended| > 20 then appended[|appended| - 20..] else appended
  }

  // ---------------------------------------------------------------- results

  const Apology := "I'm sorry, I'm having trouble thinking right now. Could you try again?"

  /** The result dictionary of a successful generation. */
  function SuccessResult(text: string, model: string, provider: string, tokens: int): (r: map<string, Value>)
    ensures r.Keys == {"response", "emotion", "model", "provider", "tokens_used", "fallback_used"}
    ensures r["response"] == Str(text) && r["emotion"] == Str(DetectEmotion(text))
    ensures r["fallback_used"] == Bool(false)
    ensures r["model"] == Str(model) && r["provider"] == Str(provider) && r["tokens_used"] == Int(tokens)
  {
    map["response" := Str(text), "emotion" := Str(DetectEmotion(text)), "model" := Str(model),
        "provider" := Str(provider), "tokens_used" := Int(tokens), "fallback_used" := Bool(false)]
  }

  /** The canned reply. */
  const FallbackResult: map<string, Value> :=
    map["response" := Str(Apology), "emotion" := Str("confused"), "fallback_used" := Bool(true)]

  /** The token count reported: the chat usage total when there is one, 0 without a `usage` attribute and always 0 for Gemini. */
  function TokensUsed(request: Request, reply: Reply): (n: int)
    ensures request.GeminiRequest? || reply.usage.NoUsage? ==> n == 0
    ensures request.ChatRequest? && reply.usage.Usage? ==> n == reply.usage.totalTokens
  {
    if request.ChatRequest? && reply.usage.Usage? then reply.usage.totalTokens else 0
  }

  /**
   * How handling a returned reply ends: a result with its text and token count, or an exception;
   * `kept` is the reply text when the exchange had already joined the history when it was raised.
   */
  datatype Ending = Answered(text: string, tokens: int) | Broken(error: Exception, kept: Option<string>)

  /**
   * The steps after the executor returns: read the text, classify it, append the exchange,
   * build the result. Reading the text may raise; a `None` text makes the classifier raise;
   * a chat `usage` of `None` raises only after the exchange joined the history.
   */
  function Finish(request: Request, reply: Reply): (f: Ending)
    ensures f.Answered? <==> reply.content.Text? && !(request.ChatRequest? && reply.usage.NullUsage?)
    ensures f.Answered? ==> f.text == reply.content.s && f.tokens == TokensUsed(request, reply)
    ensures reply.content.TextRaises? ==> f == Broken(reply.content.error, None)
    ensures reply.content.NullContent? ==> f == Broken(NoneLowerError, None)
    ensures f.Broken? && f.kept.Some? ==> request.ChatRequest? && reply.content == Text(f.kept.value)
  {
    match reply.content
    case TextRaises(e) => Broken(e, None)
    case NullContent => Broken(NoneLowerError, None)
    case Text(text) =>
      if request.ChatRequest? && reply.usage.NullUsage? then Broken(NoneTokensError, Some(text))
      else Answered(text, TokensUsed(request, reply))
  }

  /** The `LLM_ERROR` event published for exception `e` while answering `user`. */
  function ErrorReport(e: Exception, user: string): (ev: Events.Event)
    ensures ev.kind == Events.LlmError && ev.source == Some("llm_module")
    ensures ev.data.Keys == {"error", "message"} && ev.data["error"] == Str(e.message) && ev.data["message"] == Str(user)
  {
    Events.Event(Events.LlmError, map["error" := Str(e.message), "message" := Str(user)], Some("llm_module"))
  }

  class LlmModule {
    const config: LlmConfig
    const client: Client
    const errorHandler: ErrorHandler
    const bus: Events.EventBus
    var conversationHistory: seq<Message>

    /** The client is chosen from the configuration and the environment; the history starts empty. */
    constructor (config: LlmConfig, errorHandler: ErrorHandler, bus: Events.EventBus, env: map<string, string>)
      ensures this.config == config && this.errorHandler == errorHandler && this.bus == bus
      ensures client == InitClient(config, env)
      ensures conversationHistory == []
    {
      this.config := config;
      this.errorHandler := errorHandler;
      this.bus := bus;
      client := InitClient(config, env);
      conversationHistory := [];
    }

    /**
     * `generate_response`: send the request through the executor (no executor fallback), whose
     * statistics count the failed calls, then handle what it gives back as `Respond` does.
     */
    method GenerateResponse(user: string, systemPrompt: Option<string>, includeHistory: bool,
                            api: (Request, nat) -> Attempt<Reply>, behave: Events.Behaviour)
      returns (result: map<string, Value>, request: Request)
      requires bus.Valid()
      modifies this, errorHandler, bus
      ensures bus.Valid() && bus.subscribers == old(bus.subscribers)
      ensures request == OutboundRequest(config, EffectivePrompt(config, systemPrompt), old(conversationHistory), user, includeHistory)
      ensures var calls := Settled(ProviderCalls(client, request, api));
              var failures := Failures(errorHandler.config, calls);
              errorHandler.errorCounts
              == CountsAfterRetry(old(errorHandler.errorCounts), LlmApiError, failures, failures < AttemptBudget(errorHandler.config))
      ensures var outcome := Retry(errorHandler.config, Settled(ProviderCalls(client, request, api)), None).result;
              Responded(outcome, request, user, behave, old(conversationHistory), old(bus.history), old(bus.subscribers), result)
    {
      var system := EffectivePrompt(config, systemPrompt);
      if config.provider == Gemini {
        var prompt := BuildGeminiPrompt(system, conversationHistory, user, includeHistory);
        request := GeminiRequest(prompt, config.temperature, config.maxTokens);
      } else {
        request := ChatRequest(config.model, BuildMessages(system, conversationHistory, user, includeHistory),
                               config.temperature, config.maxTokens);
      }
      var run := errorHandler.HandleWithRetryAsync(ProviderCalls(client, request, api), LlmApiError, None);
      result := Respond(user, request, run.result, behave);
    }

    /**
     * The state after handling the executor's `outcome`. When the reply is handled to the end
     * the exchange joins the window and an `LLM_RESPONSE` event carries the result. On any
     * exception (the executor's, or one raised while the reply is handled) an `LLM_ERROR`
     * event carries the error and the user message and the canned reply is the result; the
     * history is unchanged unless the exchange had already joined it.
     */
    ghost predicate Responded(outcome: Outcome<Reply>, request: Request, user: string, behave: Events.Behaviour,
                              history0: seq<Message>, events0: seq<Events.Event>,
                              subscribers: map<Events.EventType, seq<Events.Handler>>, result: map<string, Value>)
      reads this, bus
    {
      match outcome
      case Returned(reply) =>
        (match Finish(request, reply)
         case Answered(text, tokens) =>
           && result == SuccessResult(text, config.model, ProviderValue(config.provider), tokens)
           && conversationHistory == Window(history0, user, text)
           && bus.history == Events.RecordAll(events0,
                Events.PublishTrace(subscribers, behave, Events.Event(Events.LlmResponse, result, Some("llm_module"))).published,
                bus.maxHistory)
         case Broken(e, kept) =>
           && result == FallbackResult
           && conversationHistory == (if kept.Some? then Window(history0, user, kept.value) else history0)
           && bus.history == Events.RecordAll(events0, Events.PublishTrace(subscribers, behave, ErrorReport(e, user)).published, bus.maxHistory))
      case Raised(e) =>
        && result == FallbackResult
        && conversationHistory == history0
        && bus.history == Events.RecordAll(events0, Events.PublishTrace(subscribers, behave, ErrorReport(e, user)).published, bus.maxHistory)
    }

    /** The `try` block after the executor returns, and its `except` branch. */
    method Respond(user: string, request: Request, outcome: Outcome<Reply>, behave: Events.Behaviour)
      returns (result: map<string, Value>)
      requires bus.Valid()
      modifies this, bus
      ensures bus.Valid() && bus.subscribers == old(bus.subscribers)
      ensures Responded(outcome, request, user, behave, old(conversationHistory), old(bus.history), old(bus.subscribers), result)
    {
      match outcome {
        case Returned(reply) =>
          match Finish(request, reply) {
            case Answered(text, tokens) =>
              conversationHistory := Window(conversationHistory, user, text);
              result := SuccessResult(text, config.model, ProviderValue(config.provider), tokens);
              var _ := bus.Publish(Events.Event(Events.LlmResponse, result, Some("llm_module")), behave);
            case Broken(e, kept) =>
              if kept.Some? {
                conversationHistory := Window(conversationHistory, user, kept.value);
              }
              var _ := bus.Publish(ErrorReport(e, user), behave);
              result := FallbackResult;
          }
        case Raised(e) =>
          var _ := bus.Publish(ErrorReport(e, user), behave);
          result := FallbackResult;
      }
    }

    /** `clear_history`. */
    method ClearHistory()
      modifies this
      ensures conversationHistory == []
    {
      conversationHistory := [];
    }

    /** `get_history`: a copy, entry for entry equal to the current history. */
    function GetHistory(): (h: seq<Message>)
      reads this
      ensures |h| == |conversationHistory|
      ensures forall i :: 0 <= i < |h| ==> h[i] == conversationHistory[i]
    {
      conversationHistory
    }
  }
}
