/**
 * The API client: the endpoint paths it holds, the last error it records, and how each
 * request method turns the transport's answer into a result and a new error state.
 *
 * The transport is not modelled: each method receives the response the server gave
 * (status code, the status code's name as the runtime prints it, and the body text)
 * and returns, besides its result, the request it put on the wire.
 */
module Client {
  import opened Wrappers
  import opened Text
  import opened Models
  import opened StreamDecoder

  const DefaultBaseAddress: string := "https://api.deepseek.com"
  const DefaultChatEndpoint: string := "/chat/completions"
  const DefaultCompletionEndpoint: string := "/completions"
  const UserBalanceEndpoint: string := "/user/balance"
  const ModelsEndpoint: string := "/models"
  const BetaPrefix: string := "/beta"
  const EmptyResponse: string := "empty response"

  datatype HttpResponse = HttpResponse(status: int, statusName: string, body: string)

  /** The serialised request body: the fields the client sets or passes through. */
  datatype RequestBody =
    | ChatBody(messages: seq<Message>, model: string, stream: bool)
    | CompletionBody(prompt: string, model: string, stream: bool)

  datatype HttpRequest = Get(path: string) | Post(path: string, body: RequestBody)

  /** The outcome of a non-streaming call: `null`, a record, or a deserialisation exception. */
  datatype Reply<T> = NoResult | Result(value: T) | DecodeFault

  /** A call's outcome together with the client's error message afterwards. */
  datatype Settled<T> = Settled(reply: Reply<T>, errorMsg: Option<string>)

  /** A stream's items together with the client's error message afterwards. */
  datatype StreamSettled = StreamSettled(output: StreamOutput, errorMsg: Option<string>)

  predicate IsSuccessStatusCode(status: int)
  {
    200 <= status <= 299
  }

  /** The text recorded for a failed status: the status name followed by the raw body. */
  function FailureText(response: HttpResponse): string
  {
    response.statusName + response.body
  }

  function Deserialized<T>(p: Parsed<T>): (r: Reply<T>)
    ensures r.Result? <==> p.Value?
    ensures r.Result? ==> r.value == p.value
    ensures r.DecodeFault? <==> p.Malformed?
  {
    match p
    case Value(v) => Result(v)
    case JsonNull => NoResult
    case Malformed => DecodeFault
  }

  /**
   * The error discipline of the non-streaming calls. `checksEmpty` says whether the call
   * treats a white-space body as an error (all but the model listing do). `prior` is the
   * error message before the call.
   */
  function Settle<T>(response: HttpResponse, decode: string -> Parsed<T>, checksEmpty: bool, prior: Option<string>): (s: Settled<T>)
    ensures !IsSuccessStatusCode(response.status) ==>
      s.reply == NoResult && s.errorMsg == Some(response.statusName + response.body)
    ensures IsSuccessStatusCode(response.status) && checksEmpty && IsNullOrWhiteSpace(response.body) ==>
      s.reply == NoResult && s.errorMsg == Some(EmptyResponse)
    ensures s.reply.Result? ==>
      IsSuccessStatusCode(response.status) && decode(response.body) == Value(s.reply.value)
      && s.errorMsg == prior
    ensures s.errorMsg != prior ==> s.reply == NoResult
    ensures IsSuccessStatusCode(response.status) && !(checksEmpty && IsNullOrWhiteSpace(response.body)) ==>
      s.errorMsg == prior && s.reply == Deserialized(decode(response.body))
  {
    if !IsSuccessStatusCode(response.status) then Settled(NoResult, Some(FailureText(response)))
    else if checksEmpty && IsNullOrWhiteSpace(response.body) then Settled(NoResult, Some(EmptyResponse))
    else Settled(Deserialized(decode(response.body)), prior)
  }

  /**
   * The error discipline of the streaming calls: a failed status yields no items and
   * records the failure; otherwise the lines are decoded until cancellation and the
   * error message is left as it was.
   */
  function SettleStream(response: HttpResponse, lines: seq<string>, decode: string -> Parsed<ChatResponse>,
                        cancel: Option<nat>, prior: Option<string>): (s: StreamSettled)
    ensures !IsSuccessStatusCode(response.status) ==>
      s.output == NothingRead && s.errorMsg == Some(response.statusName + response.body)
    ensures IsSuccessStatusCode(response.status) ==> s.errorMsg == prior
    ensures s.errorMsg != prior ==> s.output.items == []
    ensures s.output.items <= Decoded(lines, decode).items
    ensures IsSuccessStatusCode(response.status) ==>
      s.output == Decoded(lines[..LinesRead(|lines|, cancel)], decode)
    ensures cancel.None? && IsSuccessStatusCode(response.status) ==> s.output == Decoded(lines, decode)
  {
    if IsSuccessStatusCode(response.status) then
      CancelledRunIsPrefix(lines, decode, cancel);
      assert lines[..|lines|] == lines;
      StreamSettled(Decoded(lines[..LinesRead(|lines|, cancel)], decode), prior)
    else
      StreamSettled(NothingRead, Some(FailureText(response)))
  }

  /** The path of the legacy completion endpoint: `/beta` is put in front of the configured
      path exactly when the transport's base address is the default one. */
  function CompletionPath(baseAddress: Option<string>, endpoint: string): (path: string)
    ensures path == BetaPrefix + endpoint <==> baseAddress == Some(DefaultBaseAddress)
    ensures baseAddress != Some(DefaultBaseAddress) ==> path == endpoint
    ensures |endpoint| <= |path| && path[|path| - |endpoint|..] == endpoint
  {
    if baseAddress == Some(DefaultBaseAddress) then BetaPrefix + endpoint else endpoint
  }

  class DeepSeekClient {
    /** The base address of the underlying HTTP transport, as originally written, if any. */
    const httpBaseAddress: Option<string>
    var chatEndpoint: string
    var completionEndpoint: string
    /** The message of the last failed call; `None` until a call fails. */
    var errorMsg: Option<string>

    /** For dependency injection: the transport comes configured, base address included. */
    constructor (httpBaseAddress: Option<string>)
      ensures this.httpBaseAddress == httpBaseAddress
      ensures chatEndpoint == DefaultChatEndpoint && completionEndpoint == DefaultCompletionEndpoint
      ensures errorMsg == None
    {
      this.httpBaseAddress := httpBaseAddress;
      chatEndpoint := DefaultChatEndpoint;
      completionEndpoint := DefaultCompletionEndpoint;
      errorMsg := None;
    }

    /** With a given transport and key: a transport without base address gets the default one. */
    constructor WithTransport(httpBaseAddress: Option<string>)
      ensures this.httpBaseAddress == if httpBaseAddress.None? then Some(DefaultBaseAddress) else httpBaseAddress
      ensures chatEndpoint == DefaultChatEndpoint && completionEndpoint == DefaultCompletionEndpoint
      ensures errorMsg == None
    {
      this.httpBaseAddress := if httpBaseAddress.None? then Some(DefaultBaseAddress) else httpBaseAddress;
      chatEndpoint := DefaultChatEndpoint;
      completionEndpoint := DefaultCompletionEndpoint;
      errorMsg := None;
    }

    /** With a key only: a fresh transport pointed at the default base address. */
    constructor WithApiKey()
      ensures httpBaseAddress == Some(DefaultBaseAddress)
      ensures chatEndpoint == DefaultChatEndpoint && completionEndpoint == DefaultCompletionEndpoint
      ensures errorMsg == None
    {
      httpBaseAddress := Some(DefaultBaseAddress);
      chatEndpoint := DefaultChatEndpoint;
      completionEndpoint := DefaultCompletionEndpoint;
      errorMsg := None;
    }

    method SetChatEndpoint(endpoint: string)
      modifies this
      ensures chatEndpoint == endpoint
      ensures completionEndpoint == old(completionEndpoint) && errorMsg == old(errorMsg)
    {
      chatEndpoint := endpoint;
    }

    method SetCompletionEndpoint(endpoint: string)
      modifies this
      ensures completionEndpoint == endpoint
      ensures chatEndpoint == old(chatEndpoint) && errorMsg == old(errorMsg)
    {
      completionEndpoint := endpoint;
    }

    /** Reads the body after a failed status and records it; the call then returns null. */
    method RecordFailure(response: HttpResponse)
      modifies this
      ensures errorMsg == Some(response.statusName + response.body)
      ensures chatEndpoint == old(chatEndpoint) && completionEndpoint == old(completionEndpoint)
    {
      errorMsg := Some(FailureText(response));
    }

    /** Lists the models. An empty body is not checked for here: it goes to the decoder. */
    method ListModelsAsync<M>(response: HttpResponse, decode: string -> Parsed<M>)
      returns (reply: Reply<M>, sent: HttpRequest)
      modifies this
      ensures sent == Get(ModelsEndpoint)
      ensures Settled(reply, errorMsg) == Settle(response, decode, false, old(errorMsg))
      ensures chatEndpoint == old(chatEndpoint) && completionEndpoint == old(completionEndpoint)
    {
      sent := Get(ModelsEndpoint);
      if !IsSuccessStatusCode(response.status) {
        RecordFailure(response);
        return NoResult, sent;
      }
      reply := Deserialized(decode(response.body));
    }

    method ChatAsync(request: ChatRequest, response: HttpResponse, decode: string -> Parsed<ChatResponse>)
      returns (reply: Reply<ChatResponse>, sent: HttpRequest)
      modifies this, request
      ensures !request.stream
      ensures request.messages == old(request.messages) && request.model == old(request.model)
      ensures sent == Post(chatEndpoint, ChatBody(request.messages, request.model, false))
      ensures Settled(reply, errorMsg) == Settle(response, decode, true, old(errorMsg))
      ensures chatEndpoint == old(chatEndpoint) && completionEndpoint == old(completionEndpoint)
    {
      request.stream := false;
      sent := Post(chatEndpoint, ChatBody(request.messages, request.model, request.stream));
      if !IsSuccessStatusCode(response.status) {
        RecordFailure(response);
        return NoResult, sent;
      }
      if IsNullOrWhiteSpace(response.body) {
        errorMsg := Some(EmptyResponse);
        return NoResult, sent;
      }
      reply := Deserialized(decode(response.body));
    }

    /** Streams a chat; `lines` is the body as the line reader yields it. */
    method ChatStreamAsync(request: ChatRequest, response: HttpResponse, lines: seq<string>,
                           decode: string -> Parsed<ChatResponse>, cancel: Option<nat>)
      returns (out: StreamOutput, sent: HttpRequest)
      modifies this, request
      ensures request.stream
      ensures request.messages == old(request.messages) && request.model == old(request.model)
      ensures sent == Post(chatEndpoint, ChatBody(request.messages, request.model, true))
      ensures StreamSettled(out, errorMsg) == SettleStream(response, lines, decode, cancel, old(errorMsg))
      ensures chatEndpoint == old(chatEndpoint) && completionEndpoint == old(completionEndpoint)
    {
      request.stream := true;
      sent := Post(chatEndpoint, ChatBody(request.messages, request.model, request.stream));
      if IsSuccessStatusCode(response.status) {
        out := ReadEvents(lines, decode, cancel);
      } else {
        RecordFailure(response);
        out := NothingRead;
      }
    }

    method CompletionsAsync(request: CompletionRequest, response: HttpResponse, decode: string -> Parsed<ChatResponse>)
      returns (reply: Reply<ChatResponse>, sent: HttpRequest)
      modifies this, request
      ensures !request.stream
      ensures request.prompt == old(request.prompt) && request.model == old(request.model)
      ensures sent == Post(CompletionPath(httpBaseAddress, completionEndpoint),
                           CompletionBody(request.prompt, request.model, false))
      ensures Settled(reply, errorMsg) == Settle(response, decode, true, old(errorMsg))
      ensures chatEndpoint == old(chatEndpoint) && completionEndpoint == old(completionEndpoint)
    {
      request.stream := false;
      var endpoint := completionEndpoint;
      if httpBaseAddress == Some(DefaultBaseAddress) {
        endpoint := BetaPrefix + completionEndpoint;
      }
      sent := Post(endpoint, CompletionBody(request.prompt, request.model, request.stream));
      if !IsSuccessStatusCode(response.status) {
        RecordFailure(response);
        return NoResult, sent;
      }
      if IsNullOrWhiteSpace(response.body) {
        errorMsg := Some(EmptyResponse);
        return NoResult, sent;
      }
      reply := Deserialized(decode(response.body));
    }

    /** Streams a completion; each chunk is decoded as a chat response, as for the chat stream. */
    method CompletionsStreamAsync(request: CompletionRequest, response: HttpResponse, lines: seq<string>,
                                  decode: string -> Parsed<ChatResponse>, cancel: Option<nat>)
      returns (out: StreamOutput, sent: HttpRequest)
      modifies this, request
      ensures request.stream
      ensures request.prompt == old(request.prompt) && request.model == old(request.model)
      ensures sent == Post(CompletionPath(httpBaseAddress, completionEndpoint),
                           CompletionBody(request.prompt, request.model, true))
      ensures StreamSettled(out, errorMsg) == SettleStream(response, lines, decode, cancel, old(errorMsg))
      ensures chatEndpoint == old(chatEndpoint) && completionEndpoint == old(completionEndpoint)
    {
      request.stream := true;
      var endpoint := completionEndpoint;
      if httpBaseAddress == Some(DefaultBaseAddress) {
        endpoint := BetaPrefix + completionEndpoint;
      }
      sent := Post(endpoint, CompletionBody(request.prompt, request.model, request.stream));
      if IsSuccessStatusCode(response.status) {
        out := ReadEvents(lines, decode, cancel);
      } else {
        RecordFailure(response);
        out := NothingRead;
      }
    }

    method GetUserBalanceAsync<U>(response: HttpResponse, decode: string -> Parsed<U>)
      returns (reply: Reply<U>, sent: HttpRequest)
      modifies this
      ensures sent == Get(UserBalanceEndpoint)
      ensures Settled(reply, errorMsg) == Settle(response, decode, true, old(errorMsg))
      ensures chatEndpoint == old(chatEndpoint) && completionEndpoint == old(completionEndpoint)
    {
      sent := Get(UserBalanceEndpoint);
      if !IsSuccessStatusCode(response.status) {
        RecordFailure(response);
        return NoResult, sent;
      }
      if IsNullOrWhiteSpace(response.body) {
        errorMsg := Some(EmptyResponse);
        return NoResult, sent;
      }
      reply := Deserialized(decode(response.body));
    }
  }

  /** Cancellation seen after the first line of a successful stream hands over exactly that
      line's choice, whatever follows, and records no error. */
  lemma CancelAfterFirstChunk(response: HttpResponse, p1: string, rest: seq<string>, c1: Choice,
                              decode: string -> Parsed<ChatResponse>, prior: Option<string>)
    requires IsSuccessStatusCode(response.status)
    requires IsChunk(p1) && decode(p1) == Value(ChatResponse([c1]))
    ensures SettleStream(response, [DataPrefix + p1] + rest, decode, Some(1), prior)
      == StreamSettled(StreamOutput([c1], false), prior)
  {
    var l1 := DataPrefix + p1;
    PrefixOfConcat(DataPrefix, p1);
    assert ([l1] + rest)[..1] == [l1];
    assert [l1][..0] == [];
    calc {
      Decoded([l1], decode);
      Advance(Run(NothingRead, [], decode), Step(l1, decode));
      Advance(NothingRead, Emit(c1));
    }
  }
}
