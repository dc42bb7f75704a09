/** frontend/src/components/ChatWindow.js: the message form. It keeps the
    typed text, the chosen provider and model and the two mode switches, and
    builds the request `handleSubmit` hands to the application. */
module ChatWindow {
  import opened Wrappers
  import opened Text
  import opened Schemas
  import App

  const ThinkingPrefix := "[THINKING MODE] Please think through this step by step: "
  const ResearchPrefix :=
    "[DEEP RESEARCH MODE] Please provide a comprehensive, well-researched response with detailed analysis: "
  const BothPrefix :=
    "[THINKING + DEEP RESEARCH MODE] Please think through this step by step and provide a comprehensive, "
    + "well-researched response with detailed analysis: "

  /** The text put in front of the typed message for each setting of the two
      switches. */
  function ModePrefix(thinking: bool, research: bool): string
  {
    match (thinking, research)
    case (false, false) => ""
    case (true, false) => ThinkingPrefix
    case (false, true) => ResearchPrefix
    case (true, true) => BothPrefix
  }

  /** Each setting of the switches has its own prefix, so the content sent
      tells which modes were on. */
  lemma ModePrefixesDiffer(t1: bool, r1: bool, t2: bool, r2: bool)
    requires ModePrefix(t1, r1) == ModePrefix(t2, r2)
    ensures t1 == t2 && r1 == r2
  {
    assert |ThinkingPrefix| < |ResearchPrefix| < |BothPrefix|;
  }

  /** The `enhancedContent` steps of `handleSubmit`: each switch that is on
      overwrites the content built so far. */
  method BuildContent(inputMessage: string, thinkingMode: bool, deepResearchMode: bool) returns (content: string)
    ensures content == ModePrefix(thinkingMode, deepResearchMode) + inputMessage
    ensures !thinkingMode && !deepResearchMode ==> content == inputMessage
    ensures |content| >= |inputMessage| && content[|content| - |inputMessage|..] == inputMessage
  {
    content := inputMessage;
    if thinkingMode {
      content := ThinkingPrefix + inputMessage;
    }
    if deepResearchMode {
      content := ResearchPrefix + inputMessage;
    }
    if thinkingMode && deepResearchMode {
      content := BothPrefix + inputMessage;
    }
    assert "" + inputMessage == inputMessage;
  }

  /** `messageData`: the content with its prefix, and the choices as they
      are. */
  function MessageData(inputMessage: string, provider: string, model: string,
                       thinkingMode: bool, deepResearchMode: bool): SendMessageRequest
  {
    SendMessageRequest(ModePrefix(thinkingMode, deepResearchMode) + inputMessage, provider, model,
                       thinkingMode, deepResearchMode)
  }

  /** The request carries the typed text untrimmed after its prefix, and the
      provider, model and switches unchanged. */
  lemma MessageDataForwards(inputMessage: string, provider: string, model: string, t: bool, r: bool)
    ensures var d := MessageData(inputMessage, provider, model, t, r);
      && d.provider == provider && d.model == model && d.thinkingMode == t && d.deepResearchMode == r
      && |d.content| >= |inputMessage| && d.content[|d.content| - |inputMessage|..] == inputMessage
      && (!t && !r ==> d.content == inputMessage)
  {
  }

  datatype ModelChoice = ModelChoice(value: string, title: string)

  /** `getModelOptions`. */
  function ModelOptions(provider: string): seq<ModelChoice>
  {
    if provider == "openai" then
      [ModelChoice("gpt-3.5-turbo", "GPT-3.5 Turbo"), ModelChoice("gpt-4", "GPT-4"),
       ModelChoice("gpt-4-turbo", "GPT-4 Turbo")]
    else if provider == "xai" then
      [ModelChoice("grok-3", "Grok-3 (Recommended)"), ModelChoice("grok-3-mini", "Grok-3 Mini (Fast)"),
       ModelChoice("grok-4-0709", "Grok-4 (Experimental)")]
    else []
  }

  /** Three models for each known provider, none for any other name (the
      comparison is exact, case included). */
  lemma ModelOptionsByProvider(provider: string)
    ensures provider == "openai" || provider == "xai" ==> |ModelOptions(provider)| == 3
    ensures provider != "openai" && provider != "xai" ==> ModelOptions(provider) == []
    ensures provider == "openai" ==> ModelOptions(provider)[0].value == "gpt-3.5-turbo"
    ensures provider == "xai" ==> ModelOptions(provider)[0].value == "grok-3"
  {
  }

  /** `getModelOptions(p)[0]?.value || ''`. */
  function FirstModel(provider: string): string
  {
    var options := ModelOptions(provider);
    if options == [] then "" else options[0].value
  }

  /** The model chosen on a provider change is one the new provider offers,
      or '' when it offers none. */
  lemma FirstModelIsOffered(provider: string)
    ensures FirstModel(provider) == "" <==> ModelOptions(provider) == []
    ensures ModelOptions(provider) != [] ==>
      exists k :: 0 <= k < |ModelOptions(provider)| && ModelOptions(provider)[k].value == FirstModel(provider)
  {
    if ModelOptions(provider) != [] {
      assert ModelOptions(provider)[0].value == FirstModel(provider);
    }
  }

  /** `x || default` for a string: the empty string is falsy. */
  function OrDefault(s: string, fallback: string): string
  {
    if s == "" then fallback else s
  }

  /** The state of the form. */
  class ChatWindow {
    var inputMessage: string
    var selectedProvider: string
    var selectedModel: string
    var thinkingMode: bool
    var deepResearchMode: bool

    constructor ()
      ensures inputMessage == "" && selectedProvider == "openai" && selectedModel == "gpt-3.5-turbo"
      ensures !thinkingMode && !deepResearchMode
    {
      inputMessage, selectedProvider, selectedModel := "", "openai", "gpt-3.5-turbo";
      thinkingMode, deepResearchMode := false, false;
    }

    /** The effect on a change of `currentChat`: a chat sets the provider and
        model from its own, falling back to openai and gpt-3.5-turbo. */
    method OnCurrentChatChanged(currentChat: Option<App.ChatView>)
      modifies this
      ensures currentChat.Some? ==>
        selectedProvider == OrDefault(currentChat.value.modelProvider, "openai")
        && selectedModel == OrDefault(currentChat.value.modelName, "gpt-3.5-turbo")
      ensures currentChat.None? ==>
        selectedProvider == old(selectedProvider) && selectedModel == old(selectedModel)
      ensures inputMessage == old(inputMessage)
      ensures thinkingMode == old(thinkingMode) && deepResearchMode == old(deepResearchMode)
    {
      if currentChat.Some? {
        selectedProvider := OrDefault(currentChat.value.modelProvider, "openai");
        selectedModel := OrDefault(currentChat.value.modelName, "gpt-3.5-turbo");
      }
    }

    /** The provider selector: the model moves to the new provider's first
        one. */
    method OnProviderChange(provider: string)
      modifies this
      ensures selectedProvider == provider && selectedModel == FirstModel(provider)
      ensures inputMessage == old(inputMessage)
      ensures thinkingMode == old(thinkingMode) && deepResearchMode == old(deepResearchMode)
    {
      selectedProvider := provider;
      var options := ModelOptions(provider);
      selectedModel := if options == [] then "" else options[0].value;
    }

    method OnModelChange(model: string)
      modifies this`selectedModel
      ensures selectedModel == model
    {
      selectedModel := model;
    }

    /** The text box; like the switches it is disabled while loading. */
    method OnInputChange(text: string, isLoading: bool)
      modifies this`inputMessage
      ensures inputMessage == (if isLoading then old(inputMessage) else text)
    {
      if !isLoading {
        inputMessage := text;
      }
    }

    /** The two switches; their buttons are disabled while loading. */
    method ToggleThinking(isLoading: bool)
      modifies this`thinkingMode
      ensures thinkingMode == (if isLoading then old(thinkingMode) else !old(thinkingMode))
    {
      if !isLoading {
        thinkingMode := !thinkingMode;
      }
    }

    method ToggleDeepResearch(isLoading: bool)
      modifies this`deepResearchMode
      ensures deepResearchMode == (if isLoading then old(deepResearchMode) else !old(deepResearchMode))
    {
      if !isLoading {
        deepResearchMode := !deepResearchMode;
      }
    }

    /** `handleSubmit`: nothing happens while loading or when the text is only
        whitespace; otherwise the request is built from the form, handed to
        the application (`sent`), and the text and both switches are reset. */
    method HandleSubmit(isLoading: bool) returns (sent: Option<SendMessageRequest>)
      modifies this`inputMessage, this`thinkingMode, this`deepResearchMode
      ensures sent.None? <==> isLoading || forall i :: 0 <= i < |old(inputMessage)| ==> IsJsWhitespace(old(inputMessage)[i])
      ensures sent.None? ==>
        inputMessage == old(inputMessage) && thinkingMode == old(thinkingMode)
        && deepResearchMode == old(deepResearchMode)
      ensures sent.Some? ==>
        sent.value == MessageData(old(inputMessage), old(selectedProvider), old(selectedModel),
                                  old(thinkingMode), old(deepResearchMode))
        && inputMessage == "" && !thinkingMode && !deepResearchMode
    {
      TrimEmptyIff(inputMessage);
      var blank := Trim(inputMessage) == "";
      if blank || isLoading {
        return None;
      }
      var content := BuildContent(inputMessage, thinkingMode, deepResearchMode);
      sent := Some(SendMessageRequest(content, selectedProvider, selectedModel, thinkingMode, deepResearchMode));
      ResetForm();
    }

    /** After a send: the text is cleared and both switches are off. */
    method ResetForm()
      modifies this`inputMessage, this`thinkingMode, this`deepResearchMode
      ensures inputMessage == "" && !thinkingMode && !deepResearchMode
    {
      inputMessage := "";
      thinkingMode := false;
      deepResearchMode := false;
    }
  }
}
