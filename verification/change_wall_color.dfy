/** The `change-wall-color` edge function as a decision function: from the request, the configured
    API key and the image service's reply to the response it sends and the prompt it sends upstream.
    The reply is an input value; fetching it, reading the environment and logging are not modelled. */
module ChangeWallColor {
  import opened Wrappers
  import Seqs
  import Strings

  /** JavaScript truthiness of an optional string: present and non-empty. */
  predicate Truthy(s: Option<string>) {
    s.Some? && s.value != ""
  }

  /** The fields read from the JSON body; an absent field is `None`. */
  datatype RequestFields = RequestFields(
    imageBase64: Option<string>,
    targetColor: Option<string>,
    colorName: Option<string>,
    surfaceTargets: Option<seq<string>>)

  /** The request body: either JSON with the fields above, or something `req.json()` rejects. */
  datatype RequestBody = Unreadable(reason: string) | Body(fields: RequestFields)

  datatype Request = Request(httpMethod: string, body: RequestBody)

  /** The reply's `content`: absent (or null), a string, or some other JSON value. Another value
      makes the logging call `content?.substring(0, 200)` throw, with the runtime's message `reason`. */
  datatype Content = Absent | Text(text: string) | NotText(reason: string)

  /** What the service's JSON reply carries at `choices[0].message`: the first image URL and the text. */
  datatype AiMessage = AiMessage(imageUrl: Option<string>, content: Content)

  /** The content as an optional string, for the `content || …` fall-backs. */
  function ContentText(c: Content): (r: Option<string>)
    ensures r.Some? <==> c.Text?
    ensures c.Text? ==> r.value == c.text
  {
    if c.Text? then Some(c.text) else None
  }

  datatype ReplyBody = UnreadableReply(reason: string) | Message(message: AiMessage)

  /** The service's answer: a failed fetch, or a reply with a status, its text and its JSON. */
  datatype Upstream = FetchFailed(reason: string) | Reply(status: int, text: string, body: ReplyBody)

  datatype Payload =
    | Failure(error: string, details: Option<string>)
    | Success(imageUrl: string, message: string)

  /** The response: the CORS pre-flight answer (headers only), or a JSON payload with a status. */
  datatype Response = Preflight | Json(status: int, payload: Payload)

  /** The response together with the prompt sent to the service, `None` when no call was made. */
  datatype Outcome = Outcome(response: Response, prompt: Option<string>)

  const MissingInput := "Image and target color are required"
  const MissingKey := "LOVABLE_API_KEY is not configured"
  const RateLimited := "Rate limit exceeded. Please try again in a moment."
  const OutOfCredits := "Usage limit reached. Please add credits to continue."
  const NoImage := "The AI did not generate an image. Please try again with a clearer photo of a wall."
  const DefaultMessage := "Wall color changed successfully"
  const Surfaces: seq<string> := ["walls", "floor", "ceiling"]
  const AlwaysKept: seq<string> := ["furniture", "decorations", "fixtures"]

  /** `surfaceTargets = ['walls']`: the default applies only when the field is absent. */
  function TargetsOrDefault(targets: Option<seq<string>>): (r: seq<string>)
    ensures targets.None? ==> r == ["walls"]
    ensures targets.Some? ==> r == targets.value
  {
    targets.GetOr(["walls"])
  }

  /** `surfaces.join(' and ')`. */
  function SurfaceList(surfaces: seq<string>): string {
    Strings.Join(surfaces, " and ")
  }

  /** `keepList`: each of walls, floor, ceiling that is not targeted, in that order, then always
      furniture, decorations and fixtures. */
  function KeepList(surfaces: seq<string>): (r: seq<string>)
    ensures |r| >= 3 && r[|r| - 3..] == AlwaysKept
    ensures forall i :: 0 <= i < 3 ==> (Surfaces[i] in r <==> Surfaces[i] !in surfaces)
  {
    var walls := if "walls" !in surfaces then ["walls"] else [];
    var floor := if "floor" !in surfaces then ["floor"] else [];
    var ceiling := if "ceiling" !in surfaces then ["ceiling"] else [];
    var r := walls + floor + ceiling + AlwaysKept;
    assert r[|r| - 3..] == AlwaysKept;
    SurfaceNamesDiffer();
    r
  }

  /** The three surface names differ from each other and from the entries always kept. */
  lemma SurfaceNamesDiffer()
    ensures forall i :: 0 <= i < 3 ==> Surfaces[i] !in AlwaysKept
    ensures Surfaces[0] != Surfaces[1] && Surfaces[0] != Surfaces[2] && Surfaces[1] != Surfaces[2]
  {
    assert |Surfaces[0]| == 5 && |Surfaces[1]| == 5 && |Surfaces[2]| == 7;
    assert |AlwaysKept[0]| == 9 && |AlwaysKept[1]| == 11 && |AlwaysKept[2]| == 8;
    assert Surfaces[0][0] != Surfaces[1][0];
  }

  /** Before the three fixed entries, the keep list is the surface options filtered down to the
      untargeted ones, in option order. */
  lemma KeepListOrder(surfaces: seq<string>)
    ensures var r := KeepList(surfaces);
      r[..|r| - 3] == Seqs.Filter(Surfaces, (x: string) => x !in surfaces)
  {
    var p := (x: string) => x !in surfaces;
    assert Surfaces[1..] == ["floor", "ceiling"];
    assert Surfaces[1..][1..] == ["ceiling"];
    assert Surfaces[1..][1..][1..] == [];
    var r := KeepList(surfaces);
    assert r[..|r| - 3]
        == (if "walls" !in surfaces then ["walls"] else [])
           + (if "floor" !in surfaces then ["floor"] else [])
           + (if "ceiling" !in surfaces then ["ceiling"] else []);
  }

  /** `colorName || targetColor`. */
  function ShownColor(colorName: Option<string>, targetColor: string): (r: string)
    ensures Truthy(colorName) ==> r == colorName.value
    ensures !Truthy(colorName) ==> r == targetColor
  {
    if Truthy(colorName) then colorName.value else targetColor
  }

  /** The opening of the prompt, up to the colour it names. */
  function PromptHead(surfaces: seq<string>, colorName: Option<string>, targetColor: string): string {
    "Edit this image: Change ONLY the " + SurfaceList(surfaces) + " color to " + ShownColor(colorName, targetColor)
  }

  /** The instruction sent with the image. */
  function Prompt(surfaces: seq<string>, colorName: Option<string>, targetColor: string): string {
    PromptHead(surfaces, colorName, targetColor)
    + (" (hex: " + targetColor + "). Keep " + Strings.Join(KeepList(surfaces), ", ")
       + " exactly the same. Only repaint the " + SurfaceList(surfaces)
       + ". Make the result look natural and realistic.")
  }

  /** A JSON error response. */
  function Error(status: int, message: string): Response {
    Json(status, Failure(message, None))
  }

  /** The reply of a non-OK service status: 429 and 402 are passed on, everything else is 500. */
  function ServiceError(status: int, text: string): (r: Response)
    ensures r.Json? && r.payload.Failure?
    ensures status == 429 ==> r.status == 429
    ensures status == 402 ==> r.status == 402
    ensures status != 429 && status != 402 ==> r.status == 500
  {
    if status == 429 then Error(429, RateLimited)
    else if status == 402 then Error(402, OutOfCredits)
    else Error(500, "Failed to process image: " + text)
  }

  /** An OK reply: a content that is not text throws while being logged and is answered 500 by the
      `catch`; otherwise success carrying the edited image's URL, or 500 when there is none. */
  function ImageResult(message: AiMessage): (r: Response)
    ensures message.content.NotText? ==> r == Error(500, message.content.reason)
    ensures !message.content.NotText? && Truthy(message.imageUrl) ==>
      r.Json? && r.status == 200 && r.payload.Success? && r.payload.imageUrl == message.imageUrl.value
    ensures !message.content.NotText? && Truthy(message.imageUrl) && Truthy(ContentText(message.content)) ==>
      r.payload.message == message.content.text
    ensures !Truthy(message.imageUrl) ==> r.Json? && r.status == 500 && r.payload.Failure?
  {
    var text := ContentText(message.content);
    if message.content.NotText? then Error(500, message.content.reason)
    else if !Truthy(message.imageUrl) then
      Json(500, Failure(NoImage, Some(if Truthy(text) then text.value else "No response content")))
    else
      Json(200, Success(message.imageUrl.value, if Truthy(text) then text.value else DefaultMessage))
  }

  /** `response.ok`. */
  predicate IsOk(status: int) {
    200 <= status <= 299
  }

  /** The request handler of lines 9-130, with exceptions mapped to 500 as its `catch` does. */
  function Handle(req: Request, apiKey: Option<string>, upstream: Upstream): (o: Outcome)
    ensures req.httpMethod == "OPTIONS" ==> o == Outcome(Preflight, None)
    ensures o.response.Json? ==> o.response.status in {200, 400, 402, 429, 500}
    ensures o.response.Json? && o.response.payload.Success? ==> o.response.status == 200 && o.prompt.Some?
  {
    if req.httpMethod == "OPTIONS" then Outcome(Preflight, None)
    else match req.body
      case Unreadable(reason) => Outcome(Error(500, reason), None)
      case Body(f) =>
        if !Truthy(f.imageBase64) || !Truthy(f.targetColor) then Outcome(Error(400, MissingInput), None)
        else if !Truthy(apiKey) then Outcome(Error(500, MissingKey), None)
        else
          var prompt := Prompt(TargetsOrDefault(f.surfaceTargets), f.colorName, f.targetColor.value);
          var response := match upstream
            case FetchFailed(reason) => Error(500, reason)
            case Reply(status, text, body) =>
              if !IsOk(status) then ServiceError(status, text)
              else match body
                case UnreadableReply(reason) => Error(500, reason)
                case Message(message) => ImageResult(message);
          Outcome(response, Some(prompt))
  }

  // ---- Properties of the handler ----

  /** A request without an image or a target colour is answered 400, before the key is looked up
      or the service is called: the answer does not depend on either. */
  lemma MissingInputIs400(req: Request, apiKey: Option<string>, upstream: Upstream, otherKey: Option<string>, otherReply: Upstream)
    requires req.httpMethod != "OPTIONS" && req.body.Body?
    requires !Truthy(req.body.fields.imageBase64) || !Truthy(req.body.fields.targetColor)
    ensures Handle(req, apiKey, upstream) == Outcome(Error(400, MissingInput), None)
    ensures Handle(req, apiKey, upstream) == Handle(req, otherKey, otherReply)
  {
  }

  /** A complete request reaches the service with the prompt built from its own fields. */
  lemma CompleteRequestSendsPrompt(req: Request, apiKey: Option<string>, upstream: Upstream)
    requires req.httpMethod != "OPTIONS" && req.body.Body?
    requires Truthy(req.body.fields.imageBase64) && Truthy(req.body.fields.targetColor) && Truthy(apiKey)
    ensures var f := req.body.fields;
      Handle(req, apiKey, upstream).prompt
        == Some(Prompt(TargetsOrDefault(f.surfaceTargets), f.colorName, f.targetColor.value))
  {
  }

  /** A non-OK reply maps 429 to 429, 402 to 402 and every other status to 500. */
  lemma StatusMapping(req: Request, apiKey: Option<string>, status: int, text: string, body: ReplyBody)
    requires req.httpMethod != "OPTIONS" && req.body.Body?
    requires Truthy(req.body.fields.imageBase64) && Truthy(req.body.fields.targetColor) && Truthy(apiKey)
    requires !IsOk(status)
    ensures var r := Handle(req, apiKey, Reply(status, text, body)).response;
      && r.Json? && r.payload.Failure?
      && r.status == (if status == 429 then 429 else if status == 402 then 402 else 500)
  {
  }

  /** An OK reply with text or no content succeeds with its image URL exactly when it has one, and
      is 500 otherwise; a content that is not text is 500 whether or not there is an image. */
  lemma OkReplyResult(req: Request, apiKey: Option<string>, status: int, text: string, message: AiMessage)
    requires req.httpMethod != "OPTIONS" && req.body.Body?
    requires Truthy(req.body.fields.imageBase64) && Truthy(req.body.fields.targetColor) && Truthy(apiKey)
    requires IsOk(status)
    ensures var r := Handle(req, apiKey, Reply(status, text, Message(message))).response;
      && (Truthy(message.imageUrl) && !message.content.NotText? <==> r.Json? && r.payload.Success?)
      && (Truthy(message.imageUrl) && !message.content.NotText? ==>
            r.status == 200 && r.payload.imageUrl == message.imageUrl.value)
      && (!Truthy(message.imageUrl) || message.content.NotText? ==> r.Json? && r.status == 500)
  {
  }

  /** Without targets the prompt is about the walls and keeps floor and ceiling. */
  lemma DefaultTargets()
    ensures SurfaceList(TargetsOrDefault(None)) == "walls"
    ensures KeepList(TargetsOrDefault(None)) == ["floor", "ceiling", "furniture", "decorations", "fixtures"]
  {
  }

  /** The prompt names the colour name when there is one and the target colour otherwise. */
  lemma PromptNamesColour(surfaces: seq<string>, colorName: Option<string>, targetColor: string)
    ensures var head := "Edit this image: Change ONLY the " + SurfaceList(surfaces) + " color to ";
      var p := Prompt(surfaces, colorName, targetColor);
      && (Truthy(colorName) ==> Strings.StartsWith(p, head + colorName.value))
      && (!Truthy(colorName) ==> Strings.StartsWith(p, head + targetColor))
  {
    var h := PromptHead(surfaces, colorName, targetColor);
    var p := Prompt(surfaces, colorName, targetColor);
    assert p[..|h|] == h;
  }
}
