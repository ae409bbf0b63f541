/** The local-model client: base-URL normalisation, the chat request it builds and how the
    reply is read. The HTTP exchange itself is a parameter. */
module Ollama {
  import opened Wrappers
  import opened JsText

  const DefaultBaseUrl := "http://127.0.0.1:11434"
  const DefaultModel := "llama3.1:8b"

  /** `s.replace(/\/+$/, '')`. */
  function StripTrailingSlashes(s: string): (r: string)
    ensures |r| <= |s| && r == s[..|r|]
    ensures forall k :: |r| <= k < |s| ==> s[k] == '/'
    ensures r == [] || r[|r| - 1] != '/'
  {
    if s != [] && s[|s| - 1] == '/' then StripTrailingSlashes(s[..|s| - 1]) else s
  }

  /** Stripping is idempotent. */
  lemma StripIdempotent(s: string)
    ensures StripTrailingSlashes(StripTrailingSlashes(s)) == StripTrailingSlashes(s)
  {
  }

  /** Only the trailing run of slashes goes: the result is the longest prefix not ending in
      `/`, so appending any slashes to it and stripping again gives it back. */
  lemma {:induction false} StripOnlyTrailing(r: string, n: nat)
    requires r == [] || r[|r| - 1] != '/'
    ensures StripTrailingSlashes(r + seq(n, _ => '/')) == r
    decreases n
  {
    var s := r + seq(n, _ => '/');
    if n > 0 {
      assert s[..|s| - 1] == r + seq(n - 1, _ => '/');
      StripOnlyTrailing(r, n - 1);
    } else {
      assert s == r;
    }
  }

  /** One element of `messages`; `images` is absent unless set. */
  datatype Message = Message(role: string, content: string, images: Option<seq<string>>)

  /** The POST request `chat` sends. */
  datatype ChatRequest = ChatRequest(url: string, model: string, stream: bool, temperature: real, messages: seq<Message>)

  /** What the host's `fetch` answered: `ok`, `status`, the body as text for a failure, and
      `data.message.content` when the body parsed and had one. */
  datatype Response = Response(ok: bool, status: nat, text: string, content: Option<string>)

  class OllamaService {
    var baseUrl: string
    var model: string

    /** Default parameters apply to `undefined` arguments only. */
    constructor (baseUrl: Option<string>, model: Option<string>)
      ensures this.baseUrl == StripTrailingSlashes(baseUrl.GetOr(DefaultBaseUrl))
      ensures this.model == model.GetOr(DefaultModel)
    {
      this.baseUrl := StripTrailingSlashes(baseUrl.GetOr(DefaultBaseUrl));
      this.model := model.GetOr(DefaultModel);
    }

    /** `chat`: builds the request, then reads the given response. */
    method Chat(prompt: Option<string>, systemPrompt: Option<string>, imageBase64: Option<string>, response: Response)
      returns (request: ChatRequest, result: Result<string, string>)
      ensures request.url == baseUrl + "/api/chat" && request.model == model
      ensures !request.stream && request.temperature == 0.3
      ensures |request.messages| == (if Truthy(systemPrompt) then 2 else 1)
      ensures request.messages[0].role == "system" <==> Truthy(systemPrompt)
      ensures Truthy(systemPrompt) ==> request.messages[0] == Message("system", systemPrompt.value, None)
      ensures var last := request.messages[|request.messages| - 1];
        && last.role == "user" && last.content == OrElse(prompt, "")
        && last.images == (if Truthy(imageBase64) then Some([imageBase64.value]) else None)
      ensures response.ok ==> result == Ok(OrElse(response.content, ""))
      ensures !response.ok ==>
        result == Err("Ollama request failed (" + NatToString(response.status) + "): " + response.text)
    {
      var messages: seq<Message> := [];
      if Truthy(systemPrompt) {
        messages := messages + [Message("system", systemPrompt.value, None)];
      }
      var userMessage := Message("user", OrElse(prompt, ""), None);
      if Truthy(imageBase64) {
        userMessage := userMessage.(images := Some([imageBase64.value]));
      }
      messages := messages + [userMessage];
      request := ChatRequest(baseUrl + "/api/chat", model, false, 0.3, messages);
      if !response.ok {
        result := Err("Ollama request failed (" + NatToString(response.status) + "): " + response.text);
        return;
      }
      result := Ok(OrElse(response.content, ""));
    }
  }
}
