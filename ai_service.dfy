/** backend/app/services/ai_service.py: routing a conversation to OpenAI or
    xAI, the generation parameters chosen from the two mode flags, the API key
    checks and the text of every error the service raises. The network is a
    parameter: what each provider answers to the request it is sent. */
module AiService {
  import opened Text
  import opened Wrappers

  const OpenAIKeyPlaceholder := "your_openai_api_key_here"
  const XaiKeyPlaceholder := "your_xai_api_key_here"

  /** The two settings the service reads (both default to None). */
  datatype Settings = Settings(openaiApiKey: Option<string>, xaiApiKey: Option<string>)

  /** A key is usable when it is set, non-empty and not the placeholder. */
  predicate KeyConfigured(key: Option<string>, placeholder: string)
  {
    key.Some? && key.value != "" && key.value != placeholder
  }

  /** The service object; `__init__` decides once whether an OpenAI client
      exists. */
  datatype AIService = AIService(hasOpenAIClient: bool)

  /** `AIService()`. */
  function NewAIService(settings: Settings): (svc: AIService)
  {
    AIService(KeyConfigured(settings.openaiApiKey, OpenAIKeyPlaceholder))
  }

  /** One `{"role": ..., "content": ...}` entry of the conversation. */
  datatype Turn = Turn(role: string, content: string)

  /** What is sent to either provider. The temperature is in tenths. */
  datatype Request = Request(model: string, messages: seq<Turn>, maxTokens: nat, temperatureTenths: nat)

  /** `max_tokens` and `temperature` (in tenths) for the two mode flags. */
  datatype Generation = Generation(maxTokens: nat, temperatureTenths: nat)

  function GenerationFor(thinkingMode: bool, deepResearchMode: bool): Generation
  {
    Generation(if deepResearchMode then 2000 else 1000, if thinkingMode then 3 else 7)
  }

  /** Deep research alone decides the token budget and doubles it; thinking
      mode alone decides the temperature and lowers it from 0.7 to 0.3. */
  lemma ModesSelectParameters(t1: bool, t2: bool, r1: bool, r2: bool)
    ensures GenerationFor(t1, r1).maxTokens == GenerationFor(t2, r1).maxTokens
    ensures GenerationFor(t1, r1).temperatureTenths == GenerationFor(t1, r2).temperatureTenths
    ensures GenerationFor(t1, true).maxTokens == 2 * GenerationFor(t1, false).maxTokens == 2000
    ensures GenerationFor(true, r1).temperatureTenths == 3 && GenerationFor(false, r1).temperatureTenths == 7
  {
  }

  /** The request both providers are sent: `data` for xAI, the arguments of
      `chat.completions.create` for OpenAI. The model is never inspected (both
      branches on "grok-4-0709" leave the payload alone). */
  function RequestFor(model: string, messages: seq<Turn>, thinkingMode: bool, deepResearchMode: bool): (q: Request)
    ensures q.model == model && q.messages == messages
    ensures Generation(q.maxTokens, q.temperatureTenths) == GenerationFor(thinkingMode, deepResearchMode)
  {
    var g := GenerationFor(thinkingMode, deepResearchMode);
    Request(model, messages, g.maxTokens, g.temperatureTenths)
  }

  /** Changing the model changes nothing in the payload but the model field. */
  lemma PayloadIndependentOfModel(m1: string, m2: string, messages: seq<Turn>, t: bool, r: bool)
    ensures RequestFor(m1, messages, t, r).(model := m2) == RequestFor(m2, messages, t, r)
  {
  }

  // ---------------------------------------------------------------------------
  // The providers' answers

  /** How the OpenAI SDK call ends. */
  datatype OpenAIReply =
    | Completion(content: string)
    | AuthenticationError
    | RateLimitError
    | ApiError(message: string)
    | OtherError(message: string)

  /** How the xAI HTTP exchange ends: a response with its status, its text and
      the content read from its JSON (or the error reading it), or a transport
      failure. */
  datatype XaiReply =
    | Response(status: int, text: string, body: Result<string, string>)
    | RequestFailed(message: string)

  /** The network: each provider's answer to a request. */
  datatype Network = Network(openai: Request -> OpenAIReply, xai: Request -> XaiReply)

  /** The phrases the chat endpoint looks for in an error's text. */
  const KeyNotConfigured := "API key not configured"
  const XaiApiError := "xAI API error"
  const OpenAIApiError := "OpenAI API error"

  const OpenAINotConfigured := "OpenAI " + KeyNotConfigured + " or invalid"
  const OpenAIAuthFailed := "OpenAI API authentication failed. Please check your API key."
  const OpenAIRateLimited := "OpenAI API rate limit exceeded. Please try again later."
  const XaiNotConfigured := "xAI " + KeyNotConfigured + " or invalid"
  const XaiAuthFailed := "xAI API authentication failed. Please check your API key."
  const XaiRateLimited := "xAI API rate limit exceeded. Please try again later."

  /** The text of the exception raised for an HTTP error status from xAI. */
  function XaiStatusError(status: int, text: string): string
  {
    if status == 401 then XaiAuthFailed
    else if status == 429 then XaiRateLimited
    else XaiApiError + (" (HTTP " + IntToString(status) + "): " + text)
  }

  /** 401 and 429 have their own messages; every other status is reported as
      an xAI API error carrying the status. */
  lemma XaiStatusMessages(status: int, text: string)
    ensures status == 401 ==> XaiStatusError(status, text) == XaiAuthFailed
    ensures status == 429 ==> XaiStatusError(status, text) == XaiRateLimited
    ensures status != 401 && status != 429 ==>
      XaiStatusError(status, text) == XaiApiError + (" (HTTP " + IntToString(status) + "): " + text) &&
      Contains(XaiStatusError(status, text), XaiApiError)
  {
    if status != 401 && status != 429 {
      ContainsPrefix(XaiApiError, " (HTTP " + IntToString(status) + "): " + text);
    }
  }

  /** `chat_with_openai`: the result text or the text of the exception. */
  function ChatWithOpenAI(svc: AIService, messages: seq<Turn>, model: string,
                          thinkingMode: bool, deepResearchMode: bool, net: Network): (r: Result<string, string>)
    ensures !svc.hasOpenAIClient ==> r == Err(OpenAINotConfigured)
  {
    if !svc.hasOpenAIClient then Err(OpenAINotConfigured)
    else
      match net.openai(RequestFor(model, messages, thinkingMode, deepResearchMode))
      case Completion(content) => Ok(content)
      case AuthenticationError => Err(OpenAIAuthFailed)
      case RateLimitError => Err(OpenAIRateLimited)
      case ApiError(m) => Err(OpenAIApiError + (": " + m))
      case OtherError(m) => Err(OpenAIApiError + (": " + m))
  }

  /** `chat_with_xai`. `raise_for_status` rejects every status outside 2xx. */
  function ChatWithXai(settings: Settings, messages: seq<Turn>, model: string,
                       thinkingMode: bool, deepResearchMode: bool, net: Network): (r: Result<string, string>)
    ensures !KeyConfigured(settings.xaiApiKey, XaiKeyPlaceholder) ==> r == Err(XaiNotConfigured)
  {
    if !KeyConfigured(settings.xaiApiKey, XaiKeyPlaceholder) then Err(XaiNotConfigured)
    else
      match net.xai(RequestFor(model, messages, thinkingMode, deepResearchMode))
      case RequestFailed(m) => Err("xAI API request failed: " + m)
      case Response(status, text, body) =>
        if !(200 <= status < 300) then Err(XaiStatusError(status, text))
        else match body
          case Ok(content) => Ok(content)
          case Err(m) => Err(XaiApiError + (": " + m))
  }

  /** The providers `chat` accepts, after lower-casing. */
  datatype Provider = OpenAI | Xai

  /** The routing test of `chat`: `provider.lower()` against the two names. */
  function Route(provider: string): (p: Option<Provider>)
    ensures p == Some(OpenAI) <==> Lower(provider) == "openai"
    ensures p == Some(Xai) <==> Lower(provider) == "xai"
  {
    var name := Lower(provider);
    if name == "openai" then Some(OpenAI)
    else if name == "xai" then Some(Xai)
    else None
  }

  /** `chat`: route on the provider, or fail with "Unsupported provider". */
  function Chat(svc: AIService, settings: Settings, messages: seq<Turn>, provider: string, model: string,
                thinkingMode: bool, deepResearchMode: bool, net: Network): (r: Result<string, string>)
  {
    match Route(provider)
    case Some(OpenAI) => ChatWithOpenAI(svc, messages, model, thinkingMode, deepResearchMode, net)
    case Some(Xai) => ChatWithXai(settings, messages, model, thinkingMode, deepResearchMode, net)
    case None => Err("Unsupported provider: " + provider)
  }

  /** Routing ignores letter case: two spellings of a provider name that
      differ only in case are answered the same way, and a name that is
      neither provider is refused whatever the network would have said. */
  lemma ChatRoutingIgnoresCase(svc: AIService, settings: Settings, messages: seq<Turn>,
                               p1: string, p2: string, model: string, t: bool, r: bool, net: Network)
    requires EqualIgnoringCase(p1, p2)
    ensures Route(p1) != None ==> Chat(svc, settings, messages, p1, model, t, r, net) == Chat(svc, settings, messages, p2, model, t, r, net)
    ensures Route(p1) == None ==> Chat(svc, settings, messages, p1, model, t, r, net) == Err("Unsupported provider: " + p1)
  {
  }

  /** A missing or placeholder key fails before any request: the answer is the
      same "not configured" error for every network. */
  lemma MissingKeyFailsBeforeRequest(settings: Settings, messages: seq<Turn>, provider: string, model: string,
                                     t: bool, r: bool, n1: Network, n2: Network)
    requires Route(provider).Some?
    requires Route(provider) == Some(OpenAI) ==> !KeyConfigured(settings.openaiApiKey, OpenAIKeyPlaceholder)
    requires Route(provider) == Some(Xai) ==> !KeyConfigured(settings.xaiApiKey, XaiKeyPlaceholder)
    ensures var svc := NewAIService(settings);
      Chat(svc, settings, messages, provider, model, t, r, n1) == Chat(svc, settings, messages, provider, model, t, r, n2)
      && Chat(svc, settings, messages, provider, model, t, r, n1).Err?
      && Contains(Chat(svc, settings, messages, provider, model, t, r, n1).error, KeyNotConfigured)
  {
    ContainsSelf(KeyNotConfigured);
    ContainsGrows("OpenAI ", KeyNotConfigured, " or invalid", KeyNotConfigured);
    ContainsGrows("xAI ", KeyNotConfigured, " or invalid", KeyNotConfigured);
  }

  /** Every failure of an OpenAI API call other than authentication and rate
      limiting is reported with the "OpenAI API error" prefix. */
  lemma OpenAIErrorsCarryPrefix(svc: AIService, messages: seq<Turn>, model: string, t: bool, r: bool, net: Network)
    requires svc.hasOpenAIClient
    requires net.openai(RequestFor(model, messages, t, r)).ApiError? || net.openai(RequestFor(model, messages, t, r)).OtherError?
    ensures ChatWithOpenAI(svc, messages, model, t, r, net).Err?
    ensures Contains(ChatWithOpenAI(svc, messages, model, t, r, net).error, OpenAIApiError)
  {
    var m := net.openai(RequestFor(model, messages, t, r)).message;
    ContainsPrefix(OpenAIApiError, ": " + m);
  }
}
