/**
 * The chat package: a client for the chat completions endpoint, its request and
 * response records, and the constructors of multi-modal message content.
 */
module Chat {
  import opened Wrappers
  import Base64
  import DataUrl
  import Openai

  const DefaultModel := "gpt-3.5-turbo"
  const DefaultCreateCompletionsEndpoint := "https://api.openai.com/v1/chat/completions"

  const ErrStreaming := "use StreamingClient instead"
  const ErrImageMediaType := "mime_type must be image/*"

  /** The values of `Content.Type`. */
  const TypeText := "text"
  const TypeImageURL := "image_url"
  /** Every image media type starts with this. */
  const ImagePrefix := "image/"

  // ---------------------------------------------------------------- records

  datatype Message = Message(role: string, content: string, name: string)

  datatype ImageURL = ImageURL(url: string, detail: string)

  /** One part of a multi-modal message; `kind` is the JSON `type` tag. */
  datatype Content = Content(kind: string, text: string, imageURL: ImageURL)

  datatype MMMessage = MMMessage(role: string, content: seq<Content>)

  datatype Choice = Choice(message: Option<Message>, index: int, logProbs: int, finishReason: string)

  datatype CompletionResponse = CompletionResponse(id: string, object: string, createdAt: int, choices: seq<Choice>)

  /** The value of `CreateCompletionParams` the session serialises. */
  datatype CompletionRequest = CompletionRequest(
    model: string, messages: seq<Message>, stop: seq<string>, stream: bool,
    functionCall: string, n: int, maxTokens: int, user: string)

  /** The value of `CreateMMCompletionParams` the session serialises. */
  datatype MMCompletionRequest = MMCompletionRequest(
    model: string, messages: seq<MMMessage>, stop: seq<string>, stream: bool,
    n: int, maxTokens: int, user: string)

  /** The request bodies this client hands to its session. */
  datatype Body = Completion(request: CompletionRequest) | MMCompletion(mmRequest: MMCompletionRequest)

  /** The zero `Content`, returned beside an error. */
  const EmptyContent := Content("", "", ImageURL("", ""))

  // ---------------------------------------------------------------- content

  /**
   * What a well-formed `Content` means: the tag selects which of the other fields
   * carries the part, and the fields of the other kind are empty.
   */
  datatype Part = TextPart(text: string) | ImagePart(url: string, detail: string)

  function ContentOf(p: Part): (c: Content)
  {
    match p
    case TextPart(t) => Content(TypeText, t, ImageURL("", ""))
    case ImagePart(u, d) => Content(TypeImageURL, "", ImageURL(u, d))
  }

  /** The part a `Content` carries, or `None` when its tag and fields do not agree. */
  function PartOf(c: Content): (r: Option<Part>)
  {
    if c.kind == TypeText && c.imageURL == ImageURL("", "") then Some(TextPart(c.text))
    else if c.kind == TypeImageURL && c.text == "" then Some(ImagePart(c.imageURL.url, c.imageURL.detail))
    else None
  }

  /** `PartOf` and `ContentOf` are inverse: a content is well-formed exactly when it is the image of a part. */
  lemma PartOfIffContentOf(c: Content, p: Part)
    ensures PartOf(c) == Some(p) <==> c == ContentOf(p)
  {
  }

  /** `NewContentFromText`. */
  function NewContentFromText(text: string): (c: Content)
    ensures c.kind == TypeText && c.text == text && c.imageURL == ImageURL("", "")
    ensures PartOf(c) == Some(TextPart(text))
  {
    Content(TypeText, text, ImageURL("", ""))
  }

  /** `NewContentFromImageURL`: an image part with no detail level. */
  function NewContentFromImageURL(url: string): (c: Content)
    ensures c.kind == TypeImageURL && c.text == "" && c.imageURL == ImageURL(url, "")
    ensures PartOf(c) == Some(ImagePart(url, ""))
  {
    Content(TypeImageURL, "", ImageURL(url, ""))
  }

  /**
   * `NewContentFromImage`: an image part whose URL is a `data:` URL carrying `d` in
   * standard base64. The media type must start with `image/`.
   */
  method NewContentFromImage(mimeType: string, d: seq<Base64.byte>) returns (c: Content, err: Error)
    ensures err.Err? <==> !(ImagePrefix <= mimeType)
    ensures err.Err? ==> err.message == ErrImageMediaType && c == EmptyContent && PartOf(c) == None
    ensures err.Nil? ==> c.kind == TypeImageURL && c.text == "" && c.imageURL.detail == ""
    ensures err.Nil? ==> PartOf(c) == Some(ImagePart(c.imageURL.url, ""))
    ensures err.Nil? ==> c.imageURL.url == DataUrl.Build(mimeType, Base64.Encode(d))
    ensures err.Nil? ==> DataUrl.Parse(c.imageURL.url) == Some((mimeType, d))
  {
    if !(ImagePrefix <= mimeType) {
      return EmptyContent, Err(ErrImageMediaType);
    }
    var dst := new char[Base64.EncodedLen(|d|)];
    Base64.EncodeInto(dst, d);

    var imageUrl := "data:";
    imageUrl := imageUrl + mimeType;
    imageUrl := imageUrl + ";base64,";
    imageUrl := imageUrl + dst[..];
    assert imageUrl == DataUrl.Build(mimeType, Base64.Encode(d));

    c := Content(TypeImageURL, "", ImageURL(imageUrl, ""));
    err := Nil;
    DataUrl.ParseBuild(mimeType, d);
  }

  // ---------------------------------------------------------------- parameters

  /** `CreateCompletionParams`, passed by pointer; the client fills in its model. */
  class CompletionParams {
    var model: string
    var messages: seq<Message>
    var stop: seq<string>
    var stream: bool
    var functionCall: string
    var n: int
    var maxTokens: int
    var user: string

    constructor (model: string, messages: seq<Message>, stream: bool)
      ensures this.model == model && this.messages == messages && this.stream == stream
      ensures stop == [] && functionCall == "" && n == 0 && maxTokens == 0 && user == ""
    {
      this.model, this.messages, this.stream := model, messages, stream;
      stop, functionCall, n, maxTokens, user := [], "", 0, 0, "";
    }

    function Request(): CompletionRequest
      reads this
    {
      CompletionRequest(model, messages, stop, stream, functionCall, n, maxTokens, user)
    }
  }

  /** `CreateMMCompletionParams`, passed by pointer; the client fills in its model. */
  class MMCompletionParams {
    var model: string
    var messages: seq<MMMessage>
    var stop: seq<string>
    var stream: bool
    var n: int
    var maxTokens: int
    var user: string

    constructor (model: string, messages: seq<MMMessage>, stream: bool)
      ensures this.model == model && this.messages == messages && this.stream == stream
      ensures stop == [] && n == 0 && maxTokens == 0 && user == ""
    {
      this.model, this.messages, this.stream := model, messages, stream;
      stop, n, maxTokens, user := [], 0, 0, "";
    }

    function Request(): MMCompletionRequest
      reads this
    {
      MMCompletionRequest(model, messages, stop, stream, n, maxTokens, user)
    }
  }

  // ---------------------------------------------------------------- client

  /**
   * The outcome of one request on the session: the error it reports, and the decoded
   * response exactly when there is none.
   */
  predicate Answered(call: Openai.Call<Body, CompletionResponse>, endpoint: string, body: Body,
                     resp: Option<CompletionResponse>, err: Error)
  {
    call.RequestCall? && call.endpoint == endpoint && call.body == body && call.err == err
    && resp == (if err.Nil? then Some(call.reply) else None)
  }

  class Client {
    const session: Openai.Session<Body, CompletionResponse>
    const model: string
    /** `CreateCompletionEndpoint`: callers may override it before use. */
    var createCompletionEndpoint: string

    /** The client always has a model to fall back on. */
    ghost predicate Valid()
      reads this
    {
      model != ""
    }

    /** `NewClient`: an empty model selects the default one. */
    constructor (session: Openai.Session<Body, CompletionResponse>, model: string)
      ensures this.session == session
      ensures this.model == (if model == "" then DefaultModel else model)
      ensures createCompletionEndpoint == DefaultCreateCompletionsEndpoint
      ensures Valid()
    {
      this.session := session;
      this.model := if model == "" then DefaultModel else model;
      createCompletionEndpoint := DefaultCreateCompletionsEndpoint;
    }

    /**
     * `CreateCompletion`: fills in the client's model when the caller gave none (even
     * when it then refuses), refuses streaming requests, and otherwise makes exactly
     * one request with the caller's parameters.
     */
    method CreateCompletion(p: CompletionParams) returns (resp: Option<CompletionResponse>, err: Error)
      modifies p`model, session
      ensures p.model == (if old(p.model) == "" then model else old(p.model))
      ensures Valid() ==> p.model != ""
      ensures p.stream ==> err == Err(ErrStreaming) && resp == None && session.log == old(session.log)
      ensures !p.stream ==>
        |session.log| == |old(session.log)| + 1 && session.log[..|old(session.log)|] == old(session.log)
        && Answered(session.log[|old(session.log)|], createCompletionEndpoint, Completion(p.Request()), resp, err)
    {
      if p.model == "" {
        p.model := model;
      }
      if p.stream {
        return None, Err(ErrStreaming);
      }
      var r;
      r, err := session.MakeRequest(createCompletionEndpoint, Completion(p.Request()));
      if err.Err? {
        return None, err;
      }
      return Some(r), Nil;
    }

    /** `CreateMMCompletion`: the multi-modal form of `CreateCompletion`, on the same endpoint. */
    method CreateMMCompletion(p: MMCompletionParams) returns (resp: Option<CompletionResponse>, err: Error)
      modifies p`model, session
      ensures p.model == (if old(p.model) == "" then model else old(p.model))
      ensures Valid() ==> p.model != ""
      ensures p.stream ==> err == Err(ErrStreaming) && resp == None && session.log == old(session.log)
      ensures !p.stream ==>
        |session.log| == |old(session.log)| + 1 && session.log[..|old(session.log)|] == old(session.log)
        && Answered(session.log[|old(session.log)|], createCompletionEndpoint, MMCompletion(p.Request()), resp, err)
    {
      if p.model == "" {
        p.model := model;
      }
      if p.stream {
        return None, Err(ErrStreaming);
      }
      var r;
      r, err := session.MakeRequest(createCompletionEndpoint, MMCompletion(p.Request()));
      if err.Err? {
        return None, err;
      }
      return Some(r), Nil;
    }
  }
}
