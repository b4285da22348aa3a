/**
  The request handler as a function from its inputs to the response it sends.
  The configured API key is a parameter, and the text-generation service is a
  function from the outbound request to its reply. The result records the
  outbound request when, and only when, the service is called.
 */
module Handler {

  import opened Optional
  import opened JsValues
  import opened Prompt
  import opened Upstream

  /** `req.body`: missing, `null`, or a parsed object with its own properties. */
  datatype RequestBody = BodyUndefined | BodyNull | BodyObject(props: map<string, JsValue>)

  /** `req.method` (the HTTP verb, compared case-sensitively) and `req.body`. */
  datatype Request = Request(verb: string, body: RequestBody)

  /** A value of the JSON response object. */
  datatype JsonField = JStr(s: string) | JBool(b: bool)

  /** The response body: nothing (`res.end()`) or a JSON object (`res.json(...)`). */
  datatype ResponseBody = NoBody | Json(fields: map<string, JsonField>)

  datatype Response = Response(status: int, body: ResponseBody)

  /** The request sent to the text-generation service. */
  datatype Outbound = Outbound(apiKey: string, prompt: string)

  /** The response, and the outbound request if the service was called. */
  datatype Handled = Handled(response: Response, outbound: Option<Outbound>)

  /** The four fields the handler destructures from the body. */
  datatype Fields = Fields(topic: JsValue, content: JsValue, result: JsValue, tone: JsValue)

  const MethodNotAllowed: string := "Method not allowed"
  const ContentRequired: string := "Content is required"
  const KeyNotConfigured: string := "Gemini API key not configured"
  const FailedToGenerate: string := "Failed to generate post"
  const InvalidFromAI: string := "Invalid response from AI"
  const InternalServerError: string := "Internal server error"

  /** A property read on a parsed object: `undefined` when it has no such property. */
  function Prop(props: map<string, JsValue>, key: string): JsValue {
    if key in props then props[key] else Undefined
  }

  /** `const { topic, content, result, tone } = req.body`, which throws on undefined or null. */
  function Destructure(body: RequestBody): Result<Fields, string> {
    match body
    case BodyUndefined => Failure("Cannot destructure property 'topic' of 'req.body' as it is undefined.")
    case BodyNull => Failure("Cannot destructure property 'topic' of 'req.body' as it is null.")
    case BodyObject(p) => Success(Fields(Prop(p, "topic"), Prop(p, "content"), Prop(p, "result"), Prop(p, "tone")))
  }

  /** `!GEMINI_API_KEY` is false: the key is set and is not the empty string. */
  predicate KeyConfigured(key: Option<string>) {
    Truthy(if key.Some? then Str(key.value) else Undefined)
  }

  function ErrorBody(message: string): ResponseBody {
    Json(map["error" := JStr(message)])
  }

  /** The catch block's response: a generic error plus the exception's message. */
  function InternalError(details: string): Response {
    Response(500, Json(map["error" := JStr(InternalServerError), "details" := JStr(details)]))
  }

  /**
    `{ post: generatedPost, success: true }` as serialised: a `post` that is
    undefined is dropped from the JSON text.
   */
  function PostBody(text: Option<string>): ResponseBody {
    match text
    case Some(t) => Json(map["post" := JStr(t), "success" := JBool(true)])
    case None => Json(map["success" := JBool(true)])
  }

  /** The response for a judged reply of the service. */
  function Respond(v: Verdict): (r: Response)
    ensures r.status == 200 <==> v.Generated?
    ensures r.status != 200 ==> r.status == 500
    ensures r.body.Json?
    ensures "post" in r.body.fields <==> v.Generated? && v.text.Some?
    ensures "post" in r.body.fields ==> r.body.fields["post"] == JStr(v.text.value)
    ensures "success" in r.body.fields <==> v.Generated?
    ensures "error" in r.body.fields <==> !v.Generated?
    ensures v == UpstreamFailure ==> r.body.fields == map["error" := JStr(FailedToGenerate)]
    ensures v == InvalidResponse ==> r.body.fields == map["error" := JStr(InvalidFromAI)]
    ensures v.Thrown? ==>
      r.body.fields == map["error" := JStr(InternalServerError), "details" := JStr(v.message)]
    ensures v.Generated? ==>
      && r.body.fields["success"] == JBool(true)
      && r.body.fields.Keys <= {"post", "success"}
  {
    match v
    case UpstreamFailure => Response(500, ErrorBody(FailedToGenerate))
    case InvalidResponse => Response(500, ErrorBody(InvalidFromAI))
    case Thrown(m) => InternalError(m)
    case Generated(t) => Response(200, PostBody(t))
  }

  /** A POST whose body can be destructured. */
  predicate Posted(req: Request) {
    req.verb == "POST" && req.body.BodyObject?
  }

  /** The four destructured fields of a posted request all convert to strings. */
  predicate FieldsConvertible(req: Request)
    requires req.body.BodyObject?
  {
    AllConvertible(Field(req, "topic"), Field(req, "content"), Field(req, "result"), Field(req, "tone"))
  }

  /** The value of a body property of a posted request. */
  function Field(req: Request, name: string): JsValue
    requires req.body.BodyObject?
  {
    Prop(req.body.props, name)
  }

  /** handler(req, res) with GEMINI_API_KEY = key and the service answering `upstream`. */
  function Handle(req: Request, key: Option<string>, upstream: Outbound -> Reply): (h: Handled)
    // Method dispatch comes first and never calls the service.
    ensures req.verb == "OPTIONS" ==> h == Handled(Response(200, NoBody), None)
    ensures req.verb != "OPTIONS" && req.verb != "POST" ==>
      h == Handled(Response(405, ErrorBody(MethodNotAllowed)), None)
    // A body that cannot be destructured ends in the catch block.
    ensures req.verb == "POST" && !req.body.BodyObject? ==>
      h.outbound.None? && h.response.status == 500 && h.response.body.Json?
      && "error" in h.response.body.fields && "details" in h.response.body.fields
      && h.response.body.fields["error"] == JStr(InternalServerError)
    // The content check comes before the key check.
    ensures Posted(req) && !Truthy(Field(req, "content")) ==>
      h == Handled(Response(400, ErrorBody(ContentRequired)), None)
    ensures Posted(req) && Truthy(Field(req, "content")) && !KeyConfigured(key) ==>
      h == Handled(Response(500, ErrorBody(KeyNotConfigured)), None)
    // A field whose string conversion throws ends in the catch block, before the call.
    ensures Posted(req) && Truthy(Field(req, "content")) && KeyConfigured(key) && !FieldsConvertible(req) ==>
      h == Handled(InternalError(CannotConvert), None)
    // The service is called exactly when every check passes, with the key and the prompt.
    ensures h.outbound.Some? <==>
      Posted(req) && Truthy(Field(req, "content")) && KeyConfigured(key) && FieldsConvertible(req)
    ensures h.outbound.Some? ==>
      && h.outbound.value.apiKey == key.value
      && Success(h.outbound.value.prompt)
         == CreateLinkedInPrompt(Field(req, "topic"), Field(req, "content"), Field(req, "result"), Field(req, "tone"))
      && h.response == Respond(Assess(upstream(h.outbound.value)))
    ensures h.response.status in {200, 400, 405, 500}
    // A post is only ever the first candidate's first text, whole.
    ensures h.response.body.Json? && "post" in h.response.body.fields ==>
      && h.response.status == 200
      && h.outbound.Some?
      && var reply := upstream(h.outbound.value);
      && reply.Ok? && HasFirstPart(reply.data)
      && FirstPart(reply.data).text.Some?
      && h.response.body.fields["post"] == JStr(FirstPart(reply.data).text.value)
  {
    if req.verb == "OPTIONS" then
      Handled(Response(200, NoBody), None)
    else if req.verb != "POST" then
      Handled(Response(405, ErrorBody(MethodNotAllowed)), None)
    else
      match Destructure(req.body)
      case Failure(message) => Handled(InternalError(message), None)
      case Success(f) =>
        if !Truthy(f.content) then
          Handled(Response(400, ErrorBody(ContentRequired)), None)
        else if !KeyConfigured(key) then
          Handled(Response(500, ErrorBody(KeyNotConfigured)), None)
        else
          match CreateLinkedInPrompt(f.topic, f.content, f.result, f.tone)
          case Failure(message) => Handled(InternalError(message), None)
          case Success(prompt) =>
            var out := Outbound(key.value, prompt);
            Handled(Respond(Assess(upstream(out))), Some(out))
  }

  /** When the handler exits before the call, the service's behaviour cannot matter. */
  lemma EarlyExitIgnoresUpstream(req: Request, key: Option<string>, u1: Outbound -> Reply, u2: Outbound -> Reply)
    requires Handle(req, key, u1).outbound.None?
    ensures Handle(req, key, u1) == Handle(req, key, u2)
  {
  }

  /** Properties of the body other than topic, content, result and tone are never read. */
  lemma OnlyFourFieldsRead(verb: string, p1: map<string, JsValue>, p2: map<string, JsValue>,
                           key: Option<string>, upstream: Outbound -> Reply)
    requires forall k :: k in {"topic", "content", "result", "tone"} ==> Prop(p1, k) == Prop(p2, k)
    ensures Handle(Request(verb, BodyObject(p1)), key, upstream) == Handle(Request(verb, BodyObject(p2)), key, upstream)
  {
  }

  /** A reply whose only candidate carries the text `x`. */
  function SingleCandidate(x: string): Reply {
    Ok(Payload(Some([Candidate(Some(CandidateContent(Some([Part(Some(x))]))))])))
  }

  /**
    A valid request answered with a single candidate whose text is `x` gets
    status 200 and exactly `{ post: x, success: true }`.
   */
  lemma SingleCandidateSucceeds(req: Request, key: Option<string>, x: string)
    requires Posted(req) && Truthy(Field(req, "content")) && KeyConfigured(key) && FieldsConvertible(req)
    ensures Handle(req, key, (o: Outbound) => SingleCandidate(x)).response
         == Response(200, Json(map["post" := JStr(x), "success" := JBool(true)]))
  {
  }

  /**
    A first part without `text` is not caught by the shape check: the handler
    answers 200 with `{ success: true }` and no post at all.
   */
  lemma TextlessPartAnswersWithoutPost(req: Request, key: Option<string>)
    requires Posted(req) && Truthy(Field(req, "content")) && KeyConfigured(key) && FieldsConvertible(req)
    ensures var reply := Ok(Payload(Some([Candidate(Some(CandidateContent(Some([Part(None)]))))])));
      Handle(req, key, (o: Outbound) => reply).response == Response(200, Json(map["success" := JBool(true)]))
  {
  }

  /** The prompt sent to the service carries each request field at its place in the post wording. */
  lemma PromptCarriesFields(req: Request, key: Option<string>, upstream: Outbound -> Reply)
    requires Handle(req, key, upstream).outbound.Some?
    ensures PromptFilling(Field(req, "topic"), Field(req, "content"), Field(req, "result"), Field(req, "tone")).Success?
    ensures var prompt := Handle(req, key, upstream).outbound.value.prompt;
      var f := PromptFilling(Field(req, "topic"), Field(req, "content"), Field(req, "result"), Field(req, "tone")).value;
      && OccursAt(prompt, f.topic, TopicAt(PostWording))
      && OccursAt(prompt, f.story, StoryAt(PostWording, f))
      && OccursAt(prompt, f.result, ResultAt(PostWording, f))
      && OccursAt(prompt, f.tone, ToneAt(PostWording, f))
  {
    BuildPromptSlots(PostWording, Field(req, "topic"), Field(req, "content"), Field(req, "result"), Field(req, "tone"));
  }
}
