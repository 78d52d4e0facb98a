/**
 * Format detection (Coze-shaped or DeepSeek-shaped payloads) and the conversion of a
 * Coze-shaped payload into a DeepSeek chat request.
 */
module Formatters {
  import opened Wrappers
  import opened Js
  import opened Host

  // ---------------------------------------------------------------------------
  // Detection
  // ---------------------------------------------------------------------------

  /** The value `isCozeFormat(payload)` returns: `payload && (bot_id || user_id || additional_messages)`. */
  function CozeFormatValue(payload: Value): Value {
    And(payload, Or(Or(Get(payload, "bot_id"), Get(payload, "user_id")), Get(payload, "additional_messages")))
  }

  /** `isCozeFormat(payload)` used as a condition. */
  predicate IsCozeFormat(payload: Value) {
    Truthy(CozeFormatValue(payload))
  }

  /** The value `isDeepSeekFormat(payload)` returns: `payload && payload.model && Array.isArray(payload.messages)`. */
  function DeepSeekFormatValue(payload: Value): Value {
    And(And(payload, Get(payload, "model")), Bool(IsArray(Get(payload, "messages"))))
  }

  /** `isDeepSeekFormat(payload)` used as a condition. */
  predicate IsDeepSeekFormat(payload: Value) {
    Truthy(DeepSeekFormatValue(payload))
  }

  /** A property of an object that is present and truthy. */
  predicate HasTruthy(payload: Value, key: string) {
    payload.Obj? && key in payload.fields && Truthy(payload.fields[key])
  }

  /** A payload is Coze-shaped exactly when it is an object with a truthy `bot_id`, `user_id` or `additional_messages`. */
  lemma CozeFormatIff(payload: Value)
    ensures IsCozeFormat(payload) <==>
              HasTruthy(payload, "bot_id") || HasTruthy(payload, "user_id") || HasTruthy(payload, "additional_messages")
  {
  }

  /** A payload is DeepSeek-shaped exactly when it is an object with a truthy `model` and an array `messages`. */
  lemma DeepSeekFormatIff(payload: Value)
    ensures IsDeepSeekFormat(payload) <==>
              HasTruthy(payload, "model") && "messages" in payload.fields && payload.fields["messages"].Arr?
  {
  }

  // ---------------------------------------------------------------------------
  // The DeepSeek chat request
  // ---------------------------------------------------------------------------

  /** A chat message object `{role, content}`. */
  function Message(role: string, content: Value): Value {
    Obj(map["role" := Str(role), "content" := content])
  }

  /** The body sent to DeepSeek; a field holding `undefined` is left out when it is serialised. */
  datatype ChatRequest = ChatRequest(model: Value, messages: Value, stream: Value, temperature: Value, maxTokens: Value)
  {
    function ToValue(): Value {
      Obj(map["model" := model, "messages" := messages, "stream" := stream,
              "temperature" := temperature, "max_tokens" := maxTokens])
    }
  }

  const DefaultModel: string := "deepseek-chat"
  const DefaultStage: string := "Opening"
  const ContextLabel: string := "[Context] "
  const CozeTemperature: real := 0.7
  const CozeMaxTokens: real := 500.0

  /** `custom_variables?.stage || 'Opening'`. */
  function Stage(payload: Value): Value {
    Or(Get(Get(payload, "custom_variables"), "stage"), Str(DefaultStage))
  }

  /** `custom_variables?.context || ''`. */
  function Context(payload: Value): Value {
    Or(Get(Get(payload, "custom_variables"), "context"), Str(""))
  }

  /**
   * The conversation text: the `content` of the first additional message, or `''` when
   * the list is absent or empty or that content is falsy. Reading `content` of a first
   * element that is null throws.
   */
  function ConversationText(payload: Value, rt: Runtime): Result<Value, Error> {
    match ReadProperty(payload, "additional_messages")
    case Failure(e) => Failure(e)
    case Success(messages) =>
      if Truthy(messages) && HasElements(messages, rt) then
        match ReadProperty(FirstElement(messages), "content")
        case Failure(e) => Failure(e)
        case Success(content) => Success(Or(content, Str("")))
      else Success(Str(""))
  }

  /** The `[Context] ` message, present when the context is non-empty. */
  function ContextMessages(context: Value, rt: Runtime): seq<Value> {
    if Truthy(context) && HasElements(context, rt) then [Message("user", Str(ContextLabel + TextOf(context, rt)))]
    else []
  }

  /** `convertCozeToDeepSeek(payload)`. */
  function ConvertCozeToDeepSeek(payload: Value, rt: Runtime): Result<ChatRequest, Error> {
    match ConversationText(payload, rt)
    case Failure(e) => Failure(e)
    case Success(text) =>
      var stage := Stage(payload);
      var context := Context(payload);
      var messages := [Message("system", Str(rt.systemPrompt(stage)))] + ContextMessages(context, rt)
                      + [Message("user", text)];
      Success(ChatRequest(Str(DefaultModel), Arr(messages), Or(Get(payload, "stream"), Bool(false)),
                          Num(CozeTemperature), Num(CozeMaxTokens)))
  }

  // ---------------------------------------------------------------------------
  // Properties of the conversion
  // ---------------------------------------------------------------------------

  /** The conversion throws only on a null or undefined payload or first additional message. */
  lemma ConvertFailsIff(payload: Value, rt: Runtime)
    ensures ConvertCozeToDeepSeek(payload, rt).Failure? <==>
              payload == Null || payload == Undefined
              || (var m := Get(payload, "additional_messages");
                  Truthy(m) && HasElements(m, rt) && (FirstElement(m) == Null || FirstElement(m) == Undefined))
    ensures ConvertCozeToDeepSeek(payload, rt).Failure? ==> ConvertCozeToDeepSeek(payload, rt).error.name == "TypeError"
  {
  }

  /**
   * The text of the last message: the first additional message's `content` when truthy,
   * else `''` (a first message that is a string, a number or an array has no `content`).
   */
  lemma ConversationTextIs(payload: Value, rt: Runtime)
    requires payload.Obj?
    requires var m := Get(payload, "additional_messages");
             !(Truthy(m) && HasElements(m, rt)) || (FirstElement(m) != Null && FirstElement(m) != Undefined)
    ensures var m := Get(payload, "additional_messages");
            ConversationText(payload, rt) ==
              if Truthy(m) && HasElements(m, rt) && Truthy(Get(FirstElement(m), "content"))
              then Success(Get(FirstElement(m), "content"))
              else Success(Str(""))
  {
  }

  /**
   * A message list that is an object with a `length` the host reads as positive is
   * indexed like an array: its `"0"` entry is the first message, and without one the
   * read of `content` throws.
   */
  lemma ArrayLikeMessageList(payload: Value, rt: Runtime, list: map<string, Value>)
    requires payload.Obj? && Get(payload, "additional_messages") == Obj(list)
    requires "length" in list && list["length"].Str? && rt.positive(list["length"].s)
    ensures "0" in list && list["0"] != Null && list["0"] != Undefined ==>
              ConversationText(payload, rt) == Success(Or(Get(list["0"], "content"), Str("")))
    ensures "0" !in list ==>
              ConvertCozeToDeepSeek(payload, rt).Failure? && ConvertCozeToDeepSeek(payload, rt).error.name == "TypeError"
  {
    var m := Obj(list);
    assert Truthy(m) && HasElements(m, rt);
    assert FirstElement(m) == Get(m, "0");
  }

  /** An absent or empty message list gives an empty conversation text. */
  lemma EmptyListEmptyText(payload: Value, rt: Runtime)
    requires payload.Obj?
    requires "additional_messages" !in payload.fields || payload.fields["additional_messages"] == Arr([])
    ensures ConversationText(payload, rt) == Success(Str(""))
  {
  }

  /**
   * The shape of every converted request: the system prompt first, built from the stage
   * alone; the conversation text last; the `[Context] ` message between them exactly
   * when the context is non-empty; three messages with a context, two without.
   */
  lemma ConvertShape(payload: Value, rt: Runtime)
    requires ConvertCozeToDeepSeek(payload, rt).Success?
    ensures var r := ConvertCozeToDeepSeek(payload, rt).value;
            var context := Context(payload);
            && r.messages.Arr?
            && |r.messages.items| == (if Truthy(context) && HasElements(context, rt) then 3 else 2)
            && r.messages.items[0] == Message("system", Str(rt.systemPrompt(Stage(payload))))
            && r.messages.items[|r.messages.items| - 1] == Message("user", ConversationText(payload, rt).value)
            && (|r.messages.items| == 3 ==>
                  r.messages.items[1] == Message("user", Str(ContextLabel + TextOf(context, rt))))
  {
  }

  /** A string context makes the middle message `'[Context] ' + context` exactly when it is not empty. */
  lemma StringContextMessage(payload: Value, rt: Runtime, context: string)
    requires ConvertCozeToDeepSeek(payload, rt).Success?
    requires Context(payload) == Str(context)
    ensures var items := ConvertCozeToDeepSeek(payload, rt).value.messages.items;
            (|items| == 3 <==> context != "")
            && (context != "" ==> items[1] == Message("user", Str(ContextLabel + context)))
  {
  }

  /** The remaining fields are constants, except `stream`, which is the payload's `stream || false`. */
  lemma ConvertConstants(payload: Value, rt: Runtime)
    requires ConvertCozeToDeepSeek(payload, rt).Success?
    ensures var r := ConvertCozeToDeepSeek(payload, rt).value;
            && r.model == Str("deepseek-chat")
            && r.temperature == Num(0.7)
            && r.maxTokens == Num(500.0)
            && (Truthy(Get(payload, "stream")) ==> r.stream == Get(payload, "stream"))
            && (!Truthy(Get(payload, "stream")) ==> r.stream == Bool(false))
  {
  }

  /** A missing or falsy stage becomes "Opening", a missing or falsy context the empty string. */
  lemma StageAndContextDefaults(payload: Value)
    ensures !Truthy(Get(Get(payload, "custom_variables"), "stage")) ==> Stage(payload) == Str("Opening")
    ensures Truthy(Get(Get(payload, "custom_variables"), "stage")) ==> Stage(payload) == Get(Get(payload, "custom_variables"), "stage")
    ensures !Truthy(Get(Get(payload, "custom_variables"), "context")) ==> Context(payload) == Str("")
    ensures !Truthy(Get(payload, "custom_variables")) ==> Stage(payload) == Str("Opening") && Context(payload) == Str("")
  {
  }

  /** The system prompt depends on the stage and on nothing else of the payload. */
  lemma PromptDependsOnlyOnStage(p1: Value, p2: Value, rt: Runtime)
    requires ConvertCozeToDeepSeek(p1, rt).Success? && ConvertCozeToDeepSeek(p2, rt).Success?
    requires Stage(p1) == Stage(p2)
    ensures ConvertCozeToDeepSeek(p1, rt).value.messages.items[0] == ConvertCozeToDeepSeek(p2, rt).value.messages.items[0]
  {
  }

  /** Nothing but the conversation text, the stage, the context and the stream flag reaches the request. */
  lemma ConvertReadsOnly(p1: Value, p2: Value, rt: Runtime)
    requires ConversationText(p1, rt) == ConversationText(p2, rt)
    requires Stage(p1) == Stage(p2) && Context(p1) == Context(p2)
    requires Get(p1, "stream") == Get(p2, "stream")
    ensures ConvertCozeToDeepSeek(p1, rt) == ConvertCozeToDeepSeek(p2, rt)
  {
  }
}
