/** The language-model client plumbing: recognising a provider's refusal of
    JSON mode, converting Gemini-style messages to chat messages, the single
    retry without JSON mode, and the client cache keyed by configuration with
    its provider dispatch. The completion endpoint is a parameter and a client
    is represented by its configuration. */
module Config {
  import opened Wrappers
  import opened Text

  // ---------------------------------------------------------------------
  // Recognising a refused JSON mode

  const JsonModeMarkers: seq<string> := ["json mode is not enabled", "response_format", "json_object"]

  /** `_is_json_mode_unsupported_error`: the lower-cased error text names JSON mode. */
  predicate IsJsonModeUnsupported(message: string) {
    var m := Lower(message);
    Contains(m, JsonModeMarkers[0]) || Contains(m, JsonModeMarkers[1]) || Contains(m, JsonModeMarkers[2])
  }

  /** A text that contains a lower-case marker still contains it once lower-cased. */
  lemma LowerKeepsMarker(s: string, marker: string)
    requires Lower(marker) == marker
    requires Contains(s, marker)
    ensures Contains(Lower(s), marker)
  {
    var i :| 0 <= i <= |s| && marker <= s[i..];
    var l := Lower(s);
    forall k | 0 <= k < |marker|
      ensures l[i + k] == marker[k]
    {
      assert s[i..][k] == marker[k];
      assert Lower(marker)[k] == LowerChar(marker[k]);
    }
    assert marker <= l[i..];
  }

  /** The check ignores case: upper-casing any letter of the message does not change it, and
      any message naming one of the markers as written is recognised. */
  lemma JsonModeCheckIgnoresCase(message: string)
    ensures IsJsonModeUnsupported(Lower(message)) <==> IsJsonModeUnsupported(message)
    ensures (exists k :: 0 <= k < |JsonModeMarkers| && Contains(message, JsonModeMarkers[k])) ==>
              IsJsonModeUnsupported(message)
  {
    LowerIdempotent(message);
    forall k | 0 <= k < |JsonModeMarkers| && Contains(message, JsonModeMarkers[k])
      ensures IsJsonModeUnsupported(message)
    {
      MarkerIsLower(k);
      LowerKeepsMarker(message, JsonModeMarkers[k]);
    }
  }

  /** The markers are written in lower case. */
  lemma MarkerIsLower(k: int)
    requires 0 <= k < |JsonModeMarkers|
    ensures Lower(JsonModeMarkers[k]) == JsonModeMarkers[k]
  {
    var m := JsonModeMarkers[k];
    forall i | 0 <= i < |m| ensures Lower(m)[i] == m[i] {
    }
  }

  // ---------------------------------------------------------------------
  // Message conversion

  /** A Gemini-style message: a role and either `parts` or `content` (either may be absent). */
  datatype GeminiMessage = GeminiMessage(role: string, parts: Option<seq<string>>, content: Option<string>)

  /** A chat message as the OpenAI-compatible endpoint takes it. */
  datatype ChatMessage = ChatMessage(role: string, content: string)

  /** The role "model" becomes "assistant"; the content is the first part when there are
      parts, otherwise the content or nothing. */
  function ConvertMessage(m: GeminiMessage): (c: ChatMessage)
    requires m.parts.Some? ==> |m.parts.value| > 0
    ensures c.role != "model"
    ensures m.role != "model" ==> c.role == m.role
    ensures m.role == "model" ==> c.role == "assistant"
    ensures m.parts.Some? ==> c.content == m.parts.value[0]
    ensures m.parts.None? ==> c.content == m.content.GetOr("")
    ensures m.parts.None? && m.content.None? ==> c.content == ""
  {
    ChatMessage(if m.role == "model" then "assistant" else m.role,
                if m.parts.Some? then m.parts.value[0] else m.content.GetOr(""))
  }

  predicate PartsNonEmpty(messages: seq<GeminiMessage>) {
    forall i :: 0 <= i < |messages| ==> (messages[i].parts.Some? ==> |messages[i].parts.value| > 0)
  }

  /** The conversion loop of `generate_async`: one chat message per message, in order, none
      of them with the role "model". */
  method ConvertMessages(messages: seq<GeminiMessage>) returns (out: seq<ChatMessage>)
    requires PartsNonEmpty(messages)
    ensures |out| == |messages|
    ensures forall i :: 0 <= i < |messages| ==> out[i] == ConvertMessage(messages[i])
    ensures forall i :: 0 <= i < |out| ==> out[i].role != "model"
  {
    out := [];
    for i := 0 to |messages|
      invariant |out| == i
      invariant forall k :: 0 <= k < i ==> out[k] == ConvertMessage(messages[k])
    {
      out := out + [ConvertMessage(messages[i])];
    }
  }

  // ---------------------------------------------------------------------
  // Generation with one retry

  /** What the completion endpoint does with a request: a reply whose content may be null,
      or an error with its text. */
  datatype Completion = Reply(content: Option<string>) | Raised(message: string)

  /** The endpoint, by the messages sent and whether `response_format` asked for JSON. */
  type Endpoint = (seq<ChatMessage>, bool) -> Completion

  /** What a generate call gives back: the response text, or the error it lets through. */
  datatype Generated = Text(text: string) | Error(message: string)

  /** The requests a call sends: the first one, and one retry without JSON mode when JSON mode
      was on and the error refused it. */
  function Attempts(messages: seq<ChatMessage>, jsonMode: bool, complete: Endpoint): (r: seq<(seq<ChatMessage>, bool)>)
    ensures 1 <= |r| <= 2 && r[0] == (messages, jsonMode)
    ensures |r| == 2 <==> jsonMode && complete(messages, true).Raised? && IsJsonModeUnsupported(complete(messages, true).message)
    ensures |r| == 2 ==> r[1] == (messages, false)
  {
    var first := complete(messages, jsonMode);
    if jsonMode && first.Raised? && IsJsonModeUnsupported(first.message) then [(messages, jsonMode), (messages, false)]
    else [(messages, jsonMode)]
  }

  function TextOf(c: Completion): Generated {
    match c
    case Reply(content) => Text(content.GetOr(""))
    case Raised(message) => Error(message)
  }

  /** The outcome: the text of the last request made, a null content read as empty text. */
  function GenerateOutcome(messages: seq<ChatMessage>, jsonMode: bool, complete: Endpoint): (g: Generated)
    ensures var last := Attempts(messages, jsonMode, complete)[|Attempts(messages, jsonMode, complete)| - 1];
            g == TextOf(complete(last.0, last.1))
    ensures !jsonMode ==> g == TextOf(complete(messages, false))
    ensures complete(messages, jsonMode) == Reply(None) ==> g == Text("")
    ensures complete(messages, jsonMode).Raised? && !(jsonMode && IsJsonModeUnsupported(complete(messages, jsonMode).message)) ==>
              g == Error(complete(messages, jsonMode).message)
    ensures g.Error? && g != TextOf(complete(messages, jsonMode)) ==> jsonMode
  {
    var first := complete(messages, jsonMode);
    if jsonMode && first.Raised? && IsJsonModeUnsupported(first.message) then TextOf(complete(messages, false))
    else TextOf(first)
  }

  /** An OpenRouter client with its fixed settings and the requests it has sent. */
  class OpenRouterClient {
    const modelName: string
    const temperature: real
    const maxTokens: int
    const jsonMode: bool
    var requests: seq<(seq<ChatMessage>, bool)>

    constructor (modelName: string, temperature: real, maxTokens: int, mimeType: Option<string>)
      ensures this.modelName == modelName && this.temperature == temperature && this.maxTokens == maxTokens
      ensures jsonMode <==> mimeType == Some(JsonMimeType)
      ensures requests == []
    {
      this.modelName := modelName;
      this.temperature := temperature;
      this.maxTokens := maxTokens;
      this.jsonMode := mimeType == Some(JsonMimeType);
      this.requests := [];
    }

    /** Sends the messages, retrying once without JSON mode when the endpoint refused it. */
    method Send(messages: seq<ChatMessage>, complete: Endpoint) returns (g: Generated)
      modifies this
      ensures requests == old(requests) + Attempts(messages, jsonMode, complete)
      ensures g == GenerateOutcome(messages, jsonMode, complete)
    {
      requests := requests + [(messages, jsonMode)];
      var response := complete(messages, jsonMode);
      if response.Raised? {
        if jsonMode && IsJsonModeUnsupported(response.message) {
          requests := requests + [(messages, false)];
          response := complete(messages, false);
        }
      }
      g := TextOf(response);
    }

    /** `generate`: the prompt as one user message. */
    method Generate(prompt: string, complete: Endpoint) returns (g: Generated)
      modifies this
      ensures requests == old(requests) + Attempts([ChatMessage("user", prompt)], jsonMode, complete)
      ensures g == GenerateOutcome([ChatMessage("user", prompt)], jsonMode, complete)
    {
      g := Send([ChatMessage("user", prompt)], complete);
    }

    /** `generate_async`: the converted messages. */
    method GenerateAsync(messages: seq<GeminiMessage>, complete: Endpoint) returns (g: Generated)
      requires PartsNonEmpty(messages)
      modifies this
      ensures exists converted :: |converted| == |messages| &&
                (forall i :: 0 <= i < |messages| ==> converted[i] == ConvertMessage(messages[i])) &&
                requests == old(requests) + Attempts(converted, jsonMode, complete) &&
                g == GenerateOutcome(converted, jsonMode, complete)
    {
      var converted := ConvertMessages(messages);
      g := Send(converted, complete);
    }
  }

  // ---------------------------------------------------------------------
  // The client cache

  const JsonMimeType: string := "application/json"

  /** The settings the factory reads. */
  datatype Settings = Settings(
    llmProvider: string,
    llmModel: string,
    llmTemperature: real,
    googleApiKey: string,
    openrouterApiKey: string)

  /** `(provider, model, mime type, temperature, max tokens)` */
  datatype CacheKey = CacheKey(provider: string, model: string, mimeType: Option<string>, temperature: real, maxTokens: int)

  /** A client, by the configuration it was built with. */
  datatype LlmClient =
    | GeminiClient(model: string, temperature: real, maxTokens: int, responseMimeType: Option<string>)
    | OpenRouter(model: string, temperature: real, maxTokens: int, jsonMode: bool)

  datatype ConfigError = MissingApiKey(variable: string) | UnsupportedProvider(provider: string)

  function KeyOf(settings: Settings, mimeType: Option<string>, temperature: Option<real>, maxTokens: int): (k: CacheKey)
    ensures k.temperature == temperature.GetOr(settings.llmTemperature)
    ensures k.provider == settings.llmProvider && k.model == settings.llmModel
  {
    CacheKey(settings.llmProvider, settings.llmModel, mimeType, temperature.GetOr(settings.llmTemperature), maxTokens)
  }

  predicate IsGoogle(provider: string) {
    Lower(provider) == "google" || Lower(provider) == "gemini"
  }

  predicate IsOpenRouter(provider: string) {
    Lower(provider) == "openrouter"
  }

  /** The client a key determines, for a provider named in any case. */
  function ClientFor(key: CacheKey): (c: Option<LlmClient>)
    ensures c.Some? <==> IsGoogle(key.provider) || IsOpenRouter(key.provider)
    ensures c.Some? ==> (c.value.GeminiClient? <==> IsGoogle(key.provider))
    ensures c.Some? ==> (c.value.OpenRouter? <==> !IsGoogle(key.provider) && IsOpenRouter(key.provider))
    ensures c.Some? ==> c.value.model == key.model && c.value.temperature == key.temperature &&
                        c.value.maxTokens == key.maxTokens
    ensures c.Some? && c.value.OpenRouter? ==> (c.value.jsonMode <==> key.mimeType == Some(JsonMimeType))
  {
    if IsGoogle(key.provider) then
      Some(GeminiClient(key.model, key.temperature, key.maxTokens, if Given(key.mimeType) then key.mimeType else None))
    else if IsOpenRouter(key.provider) then
      Some(OpenRouter(key.model, key.temperature, key.maxTokens, key.mimeType == Some(JsonMimeType)))
    else None
  }

  /** Dispatch looks at the provider name case-insensitively. */
  lemma ProviderCaseInsensitive(key: CacheKey)
    ensures ClientFor(key.(provider := Lower(key.provider))) == ClientFor(key)
  {
    LowerIdempotent(key.provider);
  }

  /** Building a client: an unknown provider is an error, and so is a known one whose API key
      is empty. */
  function NewClient(settings: Settings, key: CacheKey): (r: Result<LlmClient, ConfigError>)
    ensures r.Success? ==> ClientFor(key) == Some(r.value)
    ensures ClientFor(key).None? ==> r == Failure(UnsupportedProvider(key.provider))
    ensures IsGoogle(key.provider) ==> (r.Success? <==> settings.googleApiKey != "")
    ensures IsOpenRouter(key.provider) && !IsGoogle(key.provider) ==> (r.Success? <==> settings.openrouterApiKey != "")
  {
    match ClientFor(key)
    case None => Failure(UnsupportedProvider(key.provider))
    case Some(c) =>
      if c.GeminiClient? then
        (if settings.googleApiKey == "" then Failure(MissingApiKey("GOOGLE_API_KEY")) else Success(c))
      else
        (if settings.openrouterApiKey == "" then Failure(MissingApiKey("OPENROUTER_API_KEY")) else Success(c))
  }

  /** The module-level client cache. */
  class ClientCache {
    var cache: map<CacheKey, LlmClient>

    /** Every cached client is the one its key determines. */
    predicate Valid()
      reads this
    {
      forall k :: k in cache ==> ClientFor(k) == Some(cache[k])
    }

    constructor ()
      ensures cache == map[] && Valid()
    {
      cache := map[];
    }

    /** `get_llm_model`: a cached key returns its client unchanged; otherwise the client is
        built and cached, and a failure leaves the cache as it was. */
    method GetLlmModel(settings: Settings, mimeType: Option<string>, temperature: Option<real>, maxTokens: int)
      returns (r: Result<LlmClient, ConfigError>)
      requires Valid()
      modifies this
      ensures Valid()
      ensures var key := KeyOf(settings, mimeType, temperature, maxTokens);
              r.Success? ==> ClientFor(key) == Some(r.value) && key in cache && cache[key] == r.value
      ensures var key := KeyOf(settings, mimeType, temperature, maxTokens);
              key in old(cache) ==> r == Success(old(cache)[key]) && cache == old(cache)
      ensures var key := KeyOf(settings, mimeType, temperature, maxTokens);
              key !in old(cache) ==>
                r == NewClient(settings, key) &&
                cache == (if r.Success? then old(cache)[key := r.value] else old(cache))
    {
      var key := KeyOf(settings, mimeType, temperature, maxTokens);
      if key !in cache {
        var built := NewClient(settings, key);
        if built.Failure? {
          return built;
        }
        cache := cache[key := built.value];
      }
      r := Success(cache[key]);
    }
  }
}
