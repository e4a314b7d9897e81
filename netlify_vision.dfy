/**
 * netlify/functions/cloudflare.ts: a worker-style handler that takes a
 * chat request, describes an attached photo with a vision model (or takes
 * the text of the last message), asks a text model for a calorie estimate,
 * falls back to a low-confidence zero estimate when the answer is not
 * usable, and asks for an Arabic name. Everything after the method check
 * runs inside one try, so every exception answers 500.
 *
 * The three `env.AI.run` calls are oracles: `vision` from the attached
 * `image_base64` (the base64 decoding is part of it), `estimate` from the
 * food description, `translate` from the food name.
 */
module NetlifyVision {
  import opened JsValues
  import opened JsStrings
  import opened Http
  import opened Braces

  /** The message of a TypeError raised by the engine; its wording is not modelled. */
  const TYPE_ERROR := "TypeError"

  function Cors(): Headers {
    map[
      "Access-Control-Allow-Origin" := "*",
      "Access-Control-Allow-Headers" := "Content-Type, Authorization",
      "Access-Control-Allow-Methods" := "POST, OPTIONS"
    ]
  }

  /** `jsonResponse(data, status)` */
  function JsonResponse(data: Json, status: int): Response {
    Response(status, Cors()["Content-Type" := "application/json"], JsonBody(data))
  }

  function ErrorResponse(message: string, status: int): Response {
    JsonResponse(JObj(map["error" := JStr(message)]), status)
  }

  /** The catch of lines 118-121: 500 with the message, or "Server error" when it is empty. */
  function ServerError(message: string): Response {
    ErrorResponse(if message != "" then message else "Server error", 500)
  }

  /** The catch answers 500 with JSON and CORS headers; an empty message becomes "Server error". */
  lemma ServerErrorAnswers(message: string)
    ensures ServerError(message).status == 500
    ensures ServerError(message).headers == Cors()["Content-Type" := "application/json"]
    ensures message != "" ==> ServerError(message) == ErrorResponse(message, 500)
    ensures message == "" ==> ServerError(message) == ErrorResponse("Server error", 500)
  {
  }

  datatype Request = Request(httpMethod: string, body: string)

  /** One `env.AI.run` call: the value it resolves with, or the message it rejects with. */
  type Model = Value -> Result<Value, string>

  datatype Models = Models(vision: Model, estimate: Model, translate: Model)

  /** How `content.find((c) => c.image_base64)` ends. */
  datatype Search = Found(part: Json) | Missing | Threw

  /** `content.find((c) => c.image_base64)`: reading the property of a `null` element throws. */
  function FindImagePart(items: seq<Json>): (r: Search)
    ensures r.Found? ==> r.part in items && Truthy(Field(Defined(r.part), "image_base64"))
    ensures r.Missing? ==> forall k :: 0 <= k < |items| ==> items[k] != JNull
    ensures r.Missing? ==> forall k :: 0 <= k < |items| ==> !Truthy(Field(Defined(items[k]), "image_base64"))
    ensures r.Threw? ==> JNull in items
  {
    if items == [] then Missing
    else if items[0] == JNull then Threw
    else if Truthy(Field(Defined(items[0]), "image_base64")) then Found(items[0])
    else
      var rest := FindImagePart(items[1..]);
      assert forall k :: 1 <= k < |items| ==> items[k] == items[1..][k - 1];
      rest
  }

  /**
   * Lines 42-64: the food description from the last message's content, or
   * the response that ends the request.
   */
  function Describe(messages: seq<Json>, vision: Model): Result<Json, Response> {
    var content := if messages == [] then Undefined else OptGet(Defined(messages[|messages| - 1]), "content");
    match content
    case Defined(JArr(items)) =>
      (match FindImagePart(items)
       case Threw => Err(ServerError(TYPE_ERROR))
       case Missing => Err(ErrorResponse("No image provided", 400))
       case Found(part) =>
         match vision(Field(Defined(part), "image_base64"))
         case Err(message) => Err(ServerError(message))
         case Ok(result) =>
           Ok(Or(Or(OptGet(result, "description"), OptGet(result, "response")), Str("unknown food")).json)
      )
    case Defined(JStr(text)) => Ok(JStr(text))
    case _ => Err(ErrorResponse("Unsupported content type", 400))
  }

  /**
   * Lines 83-90: the first-`{`-to-last-`}` span of the model's text parsed,
   * or `null` when there is no span, the parse fails, or the text is not a
   * string (its `match` throws and the inner catch swallows it).
   */
  function ParsedEstimate(result: Value, parse: JsonParser): Json {
    match Or(OptGet(result, "response"), Str(""))
    case Defined(JStr(raw)) =>
      (match GreedyObject(raw)
       case None => JNull
       case Some(text) =>
         match parse(text)
         case Ok(parsed) => parsed
         case Err(_) => JNull)
    case _ => JNull
  }

  /** Lines 92-94: the parsed estimate if it names a food, else the fallback built from the description. */
  function Chosen(parsed: Json, description: Json): (r: Json)
    ensures r.JObj? && "foodName" in r.fields
  {
    if Truthy(Defined(parsed)) && Truthy(Field(Defined(parsed), "foodName")) then parsed
    else Fallback(description)
  }

  function Fallback(description: Json): Json {
    JObj(map[
      "foodName" := description,
      "calories" := JNum(0.0),
      "confidence" := JStr("low"),
      "breakdown" := JNull
    ])
  }

  /** Line 108: `translateResult?.response?.trim() || parsed.foodName`; a non-string response throws. */
  function ArabicName(result: Value, foodName: Json): Result<Json, Response> {
    var text := OptGet(result, "response");
    if IsNullish(text) then Ok(foodName)
    else match text
      case Defined(JStr(s)) => Ok(if Trim(s) != "" then JStr(Trim(s)) else foodName)
      case _ => Err(ServerError(TYPE_ERROR))
  }

  /** Lines 110-116: each field defaulted when falsy. */
  function EstimateBody(chosen: Json, foodNameAr: Json): Json
    requires chosen.JObj? && "foodName" in chosen.fields
  {
    var v := Defined(chosen);
    JObj(map[
      "foodName" := chosen.fields["foodName"],
      "foodNameAr" := foodNameAr,
      "calories" := Or(Field(v, "calories"), Defined(JNum(0.0))).json,
      "confidence" := Or(Field(v, "confidence"), Str("medium")).json,
      "breakdown" := Or(Field(v, "breakdown"), Defined(JNull)).json
    ])
  }

  /** Lines 66-116, once the description is known. */
  function EstimateFor(description: Json, parse: JsonParser, models: Models): Response {
    match models.estimate(Defined(description))
    case Err(message) => ServerError(message)
    case Ok(result) =>
      var chosen := Chosen(ParsedEstimate(result, parse), description);
      var foodName := chosen.fields["foodName"];
      match models.translate(Defined(foodName))
      case Err(message) => ServerError(message)
      case Ok(translated) =>
        match ArabicName(translated, foodName)
        case Err(thrown) => thrown
        case Ok(foodNameAr) => JsonResponse(EstimateBody(chosen, foodNameAr), 200)
  }

  /** The handler's `fetch` */
  function Fetch(request: Request, parse: JsonParser, models: Models): Response {
    if request.httpMethod == "OPTIONS" then Response(200, Cors(), NoBody)
    else if request.httpMethod != "POST" then ErrorResponse("Method not allowed", 405)
    else
      match parse(request.body)
      case Err(message) => ServerError(message)
      case Ok(body) =>
        match Get(Defined(body), "messages")
        case None => ServerError(TYPE_ERROR)
        case Some(messages) =>
          match messages
          case Defined(JArr(items)) =>
            (match Describe(items, models.vision)
             case Err(answer) => answer
             case Ok(description) => EstimateFor(description, parse, models))
          case _ => ErrorResponse("Invalid request format", 400)
  }

  /**
   * Preflight answers with the CORS headers and no body, another method
   * than POST is 405, and a body that is not JSON is 500 (its parse error
   * is thrown inside the try), not 400; a missing or non-array `messages`
   * is 400.
   */
  lemma FetchDispatch(request: Request, parse: JsonParser, models: Models)
    ensures var r := Fetch(request, parse, models);
            && (request.httpMethod == "OPTIONS" ==> r == Response(200, Cors(), NoBody))
            && (request.httpMethod != "OPTIONS" && request.httpMethod != "POST" ==> r.status == 405)
            && (request.httpMethod == "POST" && parse(request.body).Err? ==> r.status == 500)
            && (request.httpMethod == "POST" && parse(request.body).Ok? && parse(request.body).value != JNull
                && !Field(Defined(parse(request.body).value), "messages").Defined? ==>
                  r == ErrorResponse("Invalid request format", 400))
            && (request.httpMethod == "POST" && parse(request.body).Ok? && parse(request.body).value != JNull
                && Field(Defined(parse(request.body).value), "messages").Defined?
                && !Field(Defined(parse(request.body).value), "messages").json.JArr? ==>
                  r == ErrorResponse("Invalid request format", 400))
  {
    if request.httpMethod == "POST" && parse(request.body).Ok? && parse(request.body).value != JNull {
      var body := parse(request.body).value;
      assert Get(Defined(body), "messages") == Some(Field(Defined(body), "messages"));
    }
  }

  /** Every answer but preflight is JSON with the CORS headers, and its status is 200, 400, 405 or 500. */
  lemma FetchStatuses(request: Request, parse: JsonParser, models: Models)
    ensures var r := Fetch(request, parse, models);
            && (request.httpMethod != "OPTIONS" ==> r.headers == Cors()["Content-Type" := "application/json"])
            && (r.status == 200 || r.status == 400 || r.status == 405 || r.status == 500)
  {
    if request.httpMethod == "POST" && parse(request.body).Ok? {
      var body := parse(request.body).value;
      if Get(Defined(body), "messages").Some? && Get(Defined(body), "messages").value.Defined? {
        var messages := Get(Defined(body), "messages").value.json;
        if messages.JArr? {
          DescribeFailures(messages.items, models.vision);
          if Describe(messages.items, models.vision).Ok? {
            EstimateForAnswers(Describe(messages.items, models.vision).value, parse, models);
          }
        }
      }
    }
  }

  /**
   * The last message decides the description: a string is used verbatim;
   * an array without a truthy `image_base64` element is 400; anything else,
   * an empty `messages` among them, is 400. The answers that end the
   * request here are 400 or 500.
   */
  lemma DescribeAnswers(messages: seq<Json>, vision: Model)
    ensures var content := if messages == [] then Undefined else OptGet(Defined(messages[|messages| - 1]), "content");
            var d := Describe(messages, vision);
            && (messages == [] ==> d == Err(ErrorResponse("Unsupported content type", 400)))
            && (content.Defined? && content.json.JStr? ==> d == Ok(content.json))
            && (content.Defined? && content.json.JArr? && FindImagePart(content.json.items).Missing? ==>
                  d == Err(ErrorResponse("No image provided", 400)))
            && (!content.Defined? || !(content.json.JStr? || content.json.JArr?) ==>
                  d == Err(ErrorResponse("Unsupported content type", 400)))
  {
  }

  /** A refused description is a JSON answer with the CORS headers and status 400 or 500. */
  lemma DescribeFailures(messages: seq<Json>, vision: Model)
    ensures var d := Describe(messages, vision);
            && (d.Err? ==> d.error.status == 400 || d.error.status == 500)
            && (d.Err? ==> d.error.headers == Cors()["Content-Type" := "application/json"])
  {
  }

  /**
   * A photo's description falls back to "unknown food" when the vision
   * model gives neither a truthy `description` nor a truthy `response`.
   */
  lemma UnknownFood(messages: seq<Json>, vision: Model, part: Json)
    requires messages != []
    requires var content := OptGet(Defined(messages[|messages| - 1]), "content");
             content.Defined? && content.json.JArr? && FindImagePart(content.json.items) == Found(part)
    requires var v := vision(Field(Defined(part), "image_base64"));
             v.Ok? && !Truthy(OptGet(v.value, "description")) && !Truthy(OptGet(v.value, "response"))
    ensures Describe(messages, vision) == Ok(JStr("unknown food"))
  {
  }

  /**
   * Once the description is known the answer is 200 unless a model call
   * rejects or the translation is not a string, which are 500.
   */
  lemma EstimateForAnswers(description: Json, parse: JsonParser, models: Models)
    ensures var r := EstimateFor(description, parse, models);
            && (r.status == 200 || r.status == 500)
            && r.headers == Cors()["Content-Type" := "application/json"]
            && (models.estimate(Defined(description)).Err? ==> r.status == 500)
  {
  }

  /**
   * No greedy span, a span that does not parse, or an estimate without a
   * truthy `foodName` all give the fallback: the description as the name,
   * zero calories, "low" confidence and a null breakdown.
   */
  lemma FallbackEstimate(result: Value, parse: JsonParser, description: Json)
    ensures var raw := Or(OptGet(result, "response"), Str(""));
            var parsed := ParsedEstimate(result, parse);
            && ((raw.Defined? && raw.json.JStr? && GreedyObject(raw.json.s).None?) ==> parsed == JNull)
            && ((raw.Defined? && raw.json.JStr? && GreedyObject(raw.json.s).Some?
                 && parse(GreedyObject(raw.json.s).value).Err?) ==> parsed == JNull)
            && (!Truthy(Field(Defined(parsed), "foodName")) ==> Chosen(parsed, description) == Fallback(description))
            && (parsed == JNull ==> Chosen(parsed, description) == Fallback(description))
  {
  }

  /**
   * The Arabic name: the translation trimmed, or the English name when the
   * translation is missing or trims to nothing.
   */
  lemma ArabicNameCases(result: Value, foodName: Json)
    ensures var text := OptGet(result, "response");
            && (IsNullish(text) ==> ArabicName(result, foodName) == Ok(foodName))
            && (text.Defined? && text.json.JStr? && Trim(text.json.s) != "" ==>
                  ArabicName(result, foodName) == Ok(JStr(Trim(text.json.s))))
            && (text.Defined? && text.json.JStr? && Trim(text.json.s) == "" ==>
                  ArabicName(result, foodName) == Ok(foodName))
  {
    var text := OptGet(result, "response");
    if text.Defined? && text.json.JStr? {
      var t := Trim(text.json.s);
      assert ArabicName(result, foodName) == Ok(if t != "" then JStr(t) else foodName);
    }
  }

  /** A translation that is neither nullish nor a string throws on `trim`. */
  lemma ArabicNameThrows(result: Value, foodName: Json)
    ensures var text := OptGet(result, "response");
            !IsNullish(text) && !text.json.JStr? ==> ArabicName(result, foodName) == Err(ServerError(TYPE_ERROR))
  {
  }

  /**
   * The 200 body: the chosen name and the Arabic name as given; calories,
   * confidence and breakdown kept when truthy and replaced by 0, "medium"
   * and null when falsy.
   */
  lemma ResponseDefaults(chosen: Json, foodNameAr: Json)
    requires chosen.JObj? && "foodName" in chosen.fields
    ensures var b := EstimateBody(chosen, foodNameAr).fields;
            var v := Defined(chosen);
            && b["foodName"] == chosen.fields["foodName"] && b["foodNameAr"] == foodNameAr
            && b["calories"] == (if Truthy(Field(v, "calories")) then Field(v, "calories").json else JNum(0.0))
            && b["confidence"] == (if Truthy(Field(v, "confidence")) then Field(v, "confidence").json else JStr("medium"))
            && b["breakdown"] == (if Truthy(Field(v, "breakdown")) then Field(v, "breakdown").json else JNull)
  {
  }

  /** The fallback answers zero calories, "low" confidence and a null breakdown. */
  lemma FallbackBody(description: Json, foodNameAr: Json)
    ensures var b := EstimateBody(Fallback(description), foodNameAr).fields;
            b["foodName"] == description && b["calories"] == JNum(0.0)
            && b["confidence"] == JStr("low") && b["breakdown"] == JNull
  {
  }
}
