/**
 * The request builder: it may append the JSON system instruction to the
 * caller's message array, in place, and then builds the headers and the body
 * of the POST to the model endpoint.
 */
module ChatService {
  import opened ChatTypes

  /** The system instruction appended when a JSON answer is asked for. */
  const JsonInstruction: string := "Ты — строгий JSON-ассистент. На любой запрос пользователя ты отвечаешь ТОЛЬКО валидным JSON. Никаких пояснений, комментариев, markdown, ```json или дополнительного текста. Только чистый JSON. Формат ответа: {\"response\": \"строка с ответом на вопрос пользователя\",\"type\": \"text\", // или \"error\", \"clarification\" и т.д., если нужно\" timestamp\": \"ISO 8601 строка\" } Убедись, что JSON валиден и может быть распарсен без ошибок."

  /** The model name the body always carries. */
  const BodyModel: string := "DeepSeek V3.2-Exp"

  const BearerPrefix: string := "Bearer "
  const JsonContentType: string := "application/json"

  /** A message array owned by the caller; `push` grows it in place. */
  class MessageArray {
    var elems: seq<Message>

    constructor (elems: seq<Message>)
      ensures this.elems == elems
    {
      this.elems := elems;
    }

    method Push(m: Message)
      modifies this
      ensures elems == old(elems) + [m]
    {
      elems := elems + [m];
    }
  }

  datatype Headers = Headers(authorization: string, contentType: string)

  /** The JSON body; `messages` is the caller's array object itself, not a copy. */
  datatype RequestBody = RequestBody(model: string, messages: MessageArray)

  /** The POST the builder hands to the HTTP client. */
  datatype Post = Post(url: string, body: RequestBody, headers: Headers)

  /** The headers sent with every request. */
  function BearerHeaders(apiKey: string): (h: Headers)
    ensures h.contentType == JsonContentType
    ensures |h.authorization| == |BearerPrefix| + |apiKey|
    ensures h.authorization[..|BearerPrefix|] == BearerPrefix
    ensures h.authorization[|BearerPrefix|..] == apiKey
  {
    Headers(BearerPrefix + apiKey, JsonContentType)
  }

  /** Reads the key back out of an `Authorization` header value. */
  function BearerKey(authorization: string): (k: Option<string>)
    ensures k.Some? <==> |BearerPrefix| <= |authorization| && authorization[..|BearerPrefix|] == BearerPrefix
  {
    if |BearerPrefix| <= |authorization| && authorization[..|BearerPrefix|] == BearerPrefix
    then Some(authorization[|BearerPrefix|..])
    else None
  }

  /** The header carries exactly the stored key: reading it back gives the key. */
  lemma BearerRoundTrip(apiKey: string)
    ensures BearerKey(BearerHeaders(apiKey).authorization) == Some(apiKey)
  {
    var h := BearerHeaders(apiKey);
    assert h.authorization[|BearerPrefix|..] == apiKey;
  }

  /** Different keys give different headers. */
  lemma BearerHeadersInjective(k1: string, k2: string)
    requires BearerHeaders(k1) == BearerHeaders(k2)
    ensures k1 == k2
  {
    BearerRoundTrip(k1);
    BearerRoundTrip(k2);
  }

  class ChatService {
    /** The environment's `apiUrl` and `apiKey`, fixed at construction. */
    const apiUrl: string
    const apiKey: string

    constructor (apiUrl: string, apiKey: string)
      ensures this.apiUrl == apiUrl && this.apiKey == apiKey
    {
      this.apiUrl := apiUrl;
      this.apiKey := apiKey;
    }

    /**
     * Builds the POST for `messages`. With `jsonAnswer` the caller's array
     * gains the JSON instruction at its end; otherwise it is left as it was.
     * Either way the old contents stay a prefix, and the body refers to the
     * caller's array object.
     */
    method SendMessage(messages: MessageArray, jsonAnswer: bool := false) returns (post: Post)
      modifies messages
      ensures old(messages.elems) <= messages.elems
      ensures !jsonAnswer ==> messages.elems == old(messages.elems)
      ensures jsonAnswer ==> messages.elems == old(messages.elems) + [Fresh(System, JsonInstruction)]
      ensures post.body.messages == messages && post.body.model == BodyModel
      ensures post.headers == BearerHeaders(apiKey)
      ensures post.url == apiUrl
    {
      var headers := BearerHeaders(apiKey);
      if jsonAnswer {
        messages.Push(Message(System, JsonInstruction, None, None));
      }
      var body := RequestBody(BodyModel, messages);
      post := Post(apiUrl, body, headers);
    }
  }
}
