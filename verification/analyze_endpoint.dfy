/** The server route `handler` (api/analyze.ts). The request body is what
    `req.json()` produced (or the message it rejected with); the model call
    and `JSON.parse` of its answer are the same oracle as the client's. */
module AnalyzeEndpoint {
  import opened Wrappers
  import opened Types
  import opened PromptBuilder
  import AdForm
  import GeminiService

  /** The endpoint's template literal: body lines indented by six spaces,
      closing line by four. */
  const ServerTemplate: Template := MakeTemplate("      ", "    ", PromptWording)

  const MethodNotAllowed := "Method not allowed"
  const MissingFields := "Missing required fields"
  const FailedToAnalyze := "Failed to analyze ad"

  /** The message of the `ReferenceError` thrown by evaluating `TYPE.STRING`. */
  const TypeNotDefined := "TYPE is not defined"

  /** The parsed JSON body: each field absent or a string; `videoData`
      absent (or null) or an object. */
  datatype RequestBody = RequestBody(
    platform: Option<string>,
    targetAudience: Option<string>,
    objective: Option<string>,
    adCopy: Option<string>,
    performanceData: Option<string>,
    videoData: Option<VideoData>)

  /** The method, and what reading the body as JSON gives. */
  datatype HttpRequest = HttpRequest(httpMethod: string, body: Result<RequestBody, string>)

  datatype ResponseBody = ErrorBody(error: string, details: Option<string>) | ResultBody(result: DiagnosticResult)

  datatype Response = Response(status: int, body: ResponseBody)

  /** The response, whether the body was read, and the model calls made. */
  datatype HandlerRun = HandlerRun(response: Response, bodyRead: bool, calls: seq<seq<Part>>)

  /** JavaScript truthiness of an optional string. */
  predicate Truthy(field: Option<string>) {
    field.Some? && field.value != ""
  }

  /** The guard at the top of the `try`: the four text fields are truthy. */
  predicate HasRequiredFields(b: RequestBody) {
    Truthy(b.platform) && Truthy(b.targetAudience) && Truthy(b.objective) && Truthy(b.adCopy)
  }

  /** A body that passed the guard, read as a submission. */
  function AsInput(b: RequestBody): (input: AdInput)
    requires HasRequiredFields(b)
    ensures input.platform != "" && input.targetAudience != "" && input.objective != "" && input.adCopy != ""
  {
    AdInput(b.platform.value, b.targetAudience.value, b.objective.value, b.adCopy.value,
            b.performanceData, b.videoData)
  }

  /** The route for template `t`, given the exception, if any, thrown while
      the request configuration for `generateContent` is evaluated, before
      the call. */
  function HandleWith(t: Template, req: HttpRequest, configError: Option<string>, reply: GeminiService.ModelReply): (r: HandlerRun)
    ensures r.response.status in {200, 400, 405, 500}
    ensures r.response.status == 405 <==> req.httpMethod != "POST"
    ensures r.response.status == 405 ==> r.response.body == ErrorBody(MethodNotAllowed, None) && !r.bodyRead
    ensures r.bodyRead <==> req.httpMethod == "POST"
    ensures r.response.status == 400 <==> req.httpMethod == "POST" && req.body.Success? && !HasRequiredFields(req.body.value)
    ensures r.response.status == 400 ==> r.response.body == ErrorBody(MissingFields, None)
    ensures req.httpMethod == "POST" && req.body.Failure? ==>
              r.response == Response(500, ErrorBody(FailedToAnalyze, Some(req.body.error)))
    ensures r.calls != [] <==>
              req.httpMethod == "POST" && req.body.Success? && HasRequiredFields(req.body.value) && configError.None?
    ensures r.calls != [] ==> r.calls == [BuildParts(t, AsInput(req.body.value))]
    ensures r.response.status == 200 <==> r.calls != [] && reply.Replied? && reply.parsed.Success?
    ensures r.response.status == 200 ==> r.response.body == ResultBody(reply.parsed.value)
  {
    if req.httpMethod != "POST" then
      HandlerRun(Response(405, ErrorBody(MethodNotAllowed, None)), false, [])
    else
      match req.body
      case Failure(msg) => HandlerRun(Response(500, ErrorBody(FailedToAnalyze, Some(msg))), true, [])
      case Success(b) =>
        if !HasRequiredFields(b) then
          HandlerRun(Response(400, ErrorBody(MissingFields, None)), true, [])
        else if configError.Some? then
          HandlerRun(Response(500, ErrorBody(FailedToAnalyze, configError)), true, [])
        else
          var calls := [BuildParts(t, AsInput(b))];
          match reply
          case Threw(msg) => HandlerRun(Response(500, ErrorBody(FailedToAnalyze, Some(msg))), true, calls)
          case Replied(Failure(msg)) => HandlerRun(Response(500, ErrorBody(FailedToAnalyze, Some(msg))), true, calls)
          case Replied(Success(result)) => HandlerRun(Response(200, ResultBody(result)), true, calls)
  }

  /** The route as written: the response schema refers to `TYPE.STRING`, an
      undefined name, so building the call's configuration always throws. */
  function HandleAsWritten(t: Template, req: HttpRequest, reply: GeminiService.ModelReply): (r: HandlerRun)
    ensures r.calls == []
    ensures r.response.status != 200
    ensures req.httpMethod == "POST" && req.body.Success? && HasRequiredFields(req.body.value) ==>
              r.response == Response(500, ErrorBody(FailedToAnalyze, Some(TypeNotDefined)))
  {
    HandleWith(t, req, Some(TypeNotDefined), reply)
  }

  /** The route as evidently intended: the configuration builds and the
      model is called once for every well-formed POST. */
  function Handle(t: Template, req: HttpRequest, reply: GeminiService.ModelReply): (r: HandlerRun)
    ensures |r.calls| <= 1
    ensures var accepted := req.httpMethod == "POST" && req.body.Success? && HasRequiredFields(req.body.value);
      && (accepted ==> r.calls == [BuildParts(t, AsInput(req.body.value))])
      && (accepted && reply.Threw? ==>
            r.response == Response(500, ErrorBody(FailedToAnalyze, Some(reply.message))))
      && (accepted && reply.Replied? && reply.parsed.Failure? ==>
            r.response == Response(500, ErrorBody(FailedToAnalyze, Some(reply.parsed.error))))
      && (accepted && reply.Replied? && reply.parsed.Success? ==>
            r.response == Response(200, ResultBody(reply.parsed.value)))
  {
    HandleWith(t, req, None, reply)
  }

  /** `handler` as deployed: `HandleAsWritten` on the route's template. */
  function HandlerAsWritten(req: HttpRequest, reply: GeminiService.ModelReply): (r: HandlerRun)
    ensures r.calls == [] && r.response.status != 200
    ensures r.response.status == 405 <==> req.httpMethod != "POST"
    ensures r.response.status == 400 <==> req.httpMethod == "POST" && req.body.Success? && !HasRequiredFields(req.body.value)
    ensures req.httpMethod == "POST" && req.body.Success? && HasRequiredFields(req.body.value) ==>
              r.response == Response(500, ErrorBody(FailedToAnalyze, Some(TypeNotDefined)))
  {
    HandleAsWritten(ServerTemplate, req, reply)
  }

  /** `handler` with the schema typo corrected: `Handle` on the route's
      template. */
  function Handler(req: HttpRequest, reply: GeminiService.ModelReply): (r: HandlerRun)
    ensures r.response.status == 405 <==> req.httpMethod != "POST"
    ensures r.response.status == 400 <==> req.httpMethod == "POST" && req.body.Success? && !HasRequiredFields(req.body.value)
    ensures var accepted := req.httpMethod == "POST" && req.body.Success? && HasRequiredFields(req.body.value);
      && (r.calls != [] <==> accepted)
      && (accepted ==> r.calls == [BuildParts(ServerTemplate, AsInput(req.body.value))])
      && (r.response.status == 200 <==> accepted && reply.Replied? && reply.parsed.Success?)
      && (r.response.status == 200 ==> r.response.body == ResultBody(reply.parsed.value))
  {
    Handle(ServerTemplate, req, reply)
  }

  /** A well-formed request with a good model answer: the route as written
      answers 500 without calling the model; the intended route answers 200
      with the answer. */
  lemma SchemaTypoRejectsValidRequest(t: Template, result: DiagnosticResult)
    ensures var req := HttpRequest("POST", Success(RequestBody(Some("TikTok"), Some("Gen Z"), Some("Awareness"),
                                                               Some("Buy now!!! Limited time!!!"), None, None)));
      var reply := GeminiService.Replied(Success(result));
      && HandleAsWritten(t, req, reply).response == Response(500, ErrorBody(FailedToAnalyze, Some(TypeNotDefined)))
      && HandleAsWritten(t, req, reply).calls == []
      && Handle(t, req, reply).response == Response(200, ResultBody(result))
      && |Handle(t, req, reply).calls| == 1
  {
  }

  /** The route's request mirrors the client's for the same submission: the
      same values in the same order, the same video part, and the same
      outcome for the same model answer; only the indentation of the fixed
      text differs. */
  lemma EndpointMirrorsClient(server: Template, client: Template, b: RequestBody, reply: GeminiService.ModelReply)
    requires HasRequiredFields(b)
    ensures var input := AsInput(b);
      var run := Handle(server, HttpRequest("POST", Success(b)), reply);
      var run' := GeminiService.Analyze(client, input, reply);
      && |run.calls| == 1 && |run'.calls| == 1
      && |run.calls[0]| == |run'.calls[0]|
      && VideoOfParts(run.calls[0]) == b.videoData && VideoOfParts(run'.calls[0]) == b.videoData
      && (forall k :: 0 <= k < 6 ==>
            && OccursAt(run.calls[0][0].text, Slots(input)[k], PromptOffset(server, input, k))
            && OccursAt(run'.calls[0][0].text, Slots(input)[k], PromptOffset(client, input, k)))
      && (run.response.status == 200 <==> run'.outcome.Success?)
      && (run.response.status == 200 ==> run.response.body.result == run'.outcome.value)
  {
    var input := AsInput(b);
    SlotsInOrder(Glue(server), Slots(input));
    SlotsInOrder(Glue(client), Slots(input));
    PartsCarryVideo(server, input);
    PartsCarryVideo(client, input);
  }

  /** The JSON body a submission serialises to: every field present. */
  function BodyOf(input: AdInput): (b: RequestBody)
    ensures b.videoData == input.videoData && b.adCopy == Some(input.adCopy)
  {
    RequestBody(Some(input.platform), Some(input.targetAudience), Some(input.objective),
                Some(input.adCopy), input.performanceData, input.videoData)
  }

  /** The route is stricter than the form: of the submissions the form lets
      through (audience and objective are `required` inputs and the platform
      comes from the select), the route accepts exactly those with some copy.
      A video with an empty copy passes the form and gets a 400. */
  lemma EndpointStricterThanForm(t: Template, form: AdInput, reply: GeminiService.ModelReply)
    requires AdForm.SubmitForm(form, false).Submitted? && form.platform != ""
    ensures HasRequiredFields(BodyOf(form)) <==> form.adCopy != ""
    ensures form.adCopy == "" ==>
              && form.videoData.Some?
              && Handle(t, HttpRequest("POST", Success(BodyOf(form))), reply).response
                   == Response(400, ErrorBody(MissingFields, None))
  {
  }
}
