/**
 * What travels to and from the conversation endpoint: the request payload,
 * the request URL, and the streamed response, whose transport is left
 * abstract (the server's behaviour is a parameter of the client).
 */
module Wire {
  import opened Wrappers

  /** One entry of the payload's `messages` list. */
  datatype Message = Message(role: string, content: string)

  /** The JSON body posted to the endpoint; `apiKey` is `None` for the
      default `api_key=None`, which is sent as JSON null. */
  datatype Payload = Payload(
    model: string,
    webSearch: bool,
    provider: string,
    messages: seq<Message>,
    autoContinue: bool,
    apiKey: Option<string>)

  /** The payload `enter_prompt` builds: the prompt becomes the only message,
      with role "user"; every other argument is passed through unchecked. */
  function BuildPayload(
    prompt: string, model: string, webSearch: bool, provider: string,
    autoContinue: bool, apiKey: Option<string>): (p: Payload)
    ensures |p.messages| == 1 && p.messages[0].role == "user" && p.messages[0].content == prompt
    ensures p.model == model && p.webSearch == webSearch && p.provider == provider
    ensures p.autoContinue == autoContinue && p.apiKey == apiKey
  {
    Payload(model, webSearch, provider, [Message("user", prompt)], autoContinue, apiKey)
  }

  /** The prompt of a payload that carries exactly one user message. */
  function PromptOf(p: Payload): Option<string>
  {
    if |p.messages| == 1 && p.messages[0].role == "user" then Some(p.messages[0].content) else None
  }

  /** The prompt can be read back from the payload built for it, and two
      calls build the same payload only when their arguments agree. */
  lemma PayloadKeepsArguments(
    prompt: string, model: string, webSearch: bool, provider: string,
    autoContinue: bool, apiKey: Option<string>,
    prompt': string, model': string, webSearch': bool, provider': string,
    autoContinue': bool, apiKey': Option<string>)
    ensures PromptOf(BuildPayload(prompt, model, webSearch, provider, autoContinue, apiKey)) == Some(prompt)
    ensures BuildPayload(prompt, model, webSearch, provider, autoContinue, apiKey)
         == BuildPayload(prompt', model', webSearch', provider', autoContinue', apiKey')
        <==> prompt == prompt' && model == model' && webSearch == webSearch' && provider == provider'
             && autoContinue == autoContinue' && apiKey == apiKey'
  {
    var p := BuildPayload(prompt, model, webSearch, provider, autoContinue, apiKey);
    var p' := BuildPayload(prompt', model', webSearch', provider', autoContinue', apiKey');
    if p == p' {
      assert p.messages[0] == p'.messages[0];
    }
  }

  /** The base URL a client uses unless one is injected. */
  const DefaultBaseUrl: string := "http://127.0.0.1:8080"

  /** The path both clients append to the base URL. */
  const ConversationPath: string := "/backend-api/v2/conversation"

  /** `f"{self.base_url}/backend-api/v2/conversation"`: plain concatenation,
      with no normalisation of a trailing slash on the base URL. */
  function ConversationUrl(baseUrl: string): string
  {
    baseUrl + ConversationPath
  }

  /** The base URL a request URL was built from, if it ends in the path. */
  function BaseUrlOf(url: string): Option<string>
  {
    if |ConversationPath| <= |url| && url[|url| - |ConversationPath|..] == ConversationPath
    then Some(url[..|url| - |ConversationPath|])
    else None
  }

  /** The URL is the base URL followed by the path: the base can be read back
      from it, so distinct bases give distinct URLs. */
  lemma UrlKeepsBase(baseUrl: string, baseUrl': string)
    ensures BaseUrlOf(ConversationUrl(baseUrl)) == Some(baseUrl)
    ensures ConversationUrl(baseUrl) == ConversationUrl(baseUrl') <==> baseUrl == baseUrl'
  {
    var url := ConversationUrl(baseUrl);
    assert url[|url| - |ConversationPath|..] == ConversationPath;
    assert url[..|url| - |ConversationPath|] == baseUrl;
    if url == ConversationUrl(baseUrl') {
      assert baseUrl' == ConversationUrl(baseUrl')[..|url| - |ConversationPath|];
    }
  }

  /** One POST the client issued. */
  datatype Request = Request(url: string, body: Payload)

  /** What the server streams back for a request: the lines of the body
      (already decoded from UTF-8), and whether closing the response will
      raise (`StreamConsumedError` or another `RequestException`). */
  datatype Reply = Reply(lines: seq<string>, closeRaises: bool)

  /** A streamed HTTP response. */
  class Response {
    const lines: seq<string>
    const closeRaises: bool
    var closeCalls: nat

    constructor (lines: seq<string>, closeRaises: bool)
      ensures this.lines == lines && this.closeRaises == closeRaises && closeCalls == 0
    {
      this.lines := lines;
      this.closeRaises := closeRaises;
      closeCalls := 0;
    }

    /** `response.close()`: releases the connection; `raised` reports
        whether the transport raised while doing so. */
    method Close() returns (raised: bool)
      modifies this
      ensures closeCalls == old(closeCalls) + 1
      ensures raised == closeRaises
    {
      closeCalls := closeCalls + 1;
      raised := closeRaises;
    }
  }

  /** `ConversationAPIClient`: posts payloads to `baseUrl` and records each
      request; the network and the server are the function `server`. */
  class ConversationAPIClient {
    const baseUrl: string
    const server: Payload -> Reply
    var sent: seq<Request>

    /** `base_url` defaults to the local address `DefaultBaseUrl`. */
    constructor (server: Payload -> Reply, baseUrl: string := DefaultBaseUrl)
      ensures this.baseUrl == baseUrl && this.server == server && sent == []
    {
      this.baseUrl := baseUrl;
      this.server := server;
      sent := [];
    }

    /** `send_request`: one streaming POST of `data` to the conversation URL. */
    method SendRequest(data: Payload) returns (response: Response)
      modifies this
      ensures sent == old(sent) + [Request(ConversationUrl(baseUrl), data)]
      ensures fresh(response) && response.closeCalls == 0
      ensures response.lines == server(data).lines && response.closeRaises == server(data).closeRaises
    {
      sent := sent + [Request(ConversationUrl(baseUrl), data)];
      var reply := server(data);
      response := new Response(reply.lines, reply.closeRaises);
    }
  }
}
