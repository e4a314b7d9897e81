/**
 * cloudflare-ai/src/worker.ts: the Cloudflare worker that turns a food
 * description into a calorie estimate. It is a chain of early returns over
 * the request and over the model's text; it keeps no state.
 *
 * `request.json()` and `JSON.parse` are the parser oracle, `env.AI.run`
 * with the text model is the `ai` oracle (from the prompt to the value it
 * resolves with, or the message it rejects with), and JavaScript's string
 * to number conversion is `textToNumber`.
 */
module Worker {
  import opened JsValues
  import opened JsStrings
  import opened Http
  import opened Braces

  const MAX_FOOD_LENGTH: nat := 500

  /** `corsHeaders` */
  function CorsHeaders(): Headers {
    map[
      "Access-Control-Allow-Origin" := "*",
      "Access-Control-Allow-Methods" := "POST, OPTIONS",
      "Access-Control-Allow-Headers" := "Content-Type"
    ]
  }

  /** `jsonResponse(body, status)`: the CORS headers and a JSON content type. */
  function JsonResponse(body: Json, status: int): Response {
    Response(status, CorsHeaders()["Content-Type" := "application/json"], JsonBody(body))
  }

  function ErrorResponse(message: string, status: int): Response {
    JsonResponse(JObj(map["error" := JStr(message)]), status)
  }

  datatype Request = Request(httpMethod: string, body: string)

  /**
   * How the worker's `fetch` settles: with a response, or rejected by a
   * TypeError raised outside any try (the runtime then answers on its own).
   */
  datatype Reply = Replied(response: Response) | Crashed

  /** `env.AI.run(MODEL, {messages: [{role: "user", content: prompt}], ...})` */
  type TextModel = string -> Result<Value, string>

  const PROMPT_HEAD := "Estimate the TOTAL calories for the food described below.\n\n"
    + "Respond ONLY with JSON:\n"
    + "{\"calories\": <int>, \"confidence\": \"low\" | \"medium\" | \"high\", \"breakdown\": \"<short sentence>\"}\n\n"
    + "Food:\n\""

  /** The prompt of lines 80-86: fixed instructions, then the trimmed food in quotes. */
  function Prompt(food: string): string {
    PROMPT_HEAD + Trim(food) + "\""
  }

  /** The prompt ends with the trimmed food in quotes, so two foods that trim alike ask alike. */
  lemma PromptCarriesFood(food: string)
    ensures var p := Prompt(food);
            |p| == |PROMPT_HEAD| + |Trim(food)| + 1 && p[|PROMPT_HEAD|..|p| - 1] == Trim(food)
  {
    Suffix(PROMPT_HEAD, Trim(food));
  }

  lemma Suffix(head: string, text: string)
    ensures var p := head + text + "\""; p[|head|..|p| - 1] == text
  {
    var p := head + text + "\"";
    assert p[|head|..|p| - 1] == text;
  }

  /**
   * Lines 98-116, inside the try: every exception there (a rejected model
   * call, a property read on null, `match` on a non-string, a failed parse)
   * answers 503.
   */
  function Estimate(answer: Result<Value, string>, parse: JsonParser, textToNumber: string -> Num): Response {
    match answer
    case Err(_) => ErrorResponse("AI service unavailable", 503)
    case Ok(result) =>
      match Get(result, "response")
      case None => ErrorResponse("AI service unavailable", 503)
      case Some(field) =>
        match Coalesce(field, Str(""))
        case Defined(JStr(raw)) =>
          (match LazyObject(raw)
           case None => ErrorResponse("AI returned invalid JSON", 502)
           case Some(text) =>
             match parse(text)
             case Err(_) => ErrorResponse("AI service unavailable", 503)
             case Ok(parsed) =>
               match Get(Defined(parsed), "calories")
               case None => ErrorResponse("AI service unavailable", 503)
               case Some(calories) =>
                 match ToNumber(calories, textToNumber)
                 case NotFinite => ErrorResponse("Invalid calorie value", 502)
                 case Finite(x) =>
                   if x <= 0.0 then ErrorResponse("Invalid calorie value", 502)
                   else JsonResponse(EstimateBody(Defined(parsed), x), 200))
        case _ => ErrorResponse("AI service unavailable", 503)
  }

  /** The 200 body: the rounded calories; `confidence` and `breakdown` defaulted only when nullish. */
  function EstimateBody(parsed: Value, calories: real): Json {
    JObj(map[
      "calories" := JNum(Round(calories) as real),
      "confidence" := Coalesce(Field(parsed, "confidence"), Str("medium")).json,
      "breakdown" := Coalesce(Field(parsed, "breakdown"), Defined(JNull)).json
    ])
  }

  /** `handleTextEstimation(food, env)` */
  function HandleTextEstimation(food: Value, ai: TextModel, parse: JsonParser, textToNumber: string -> Num): Reply {
    if !Truthy(food) then Replied(ErrorResponse("Missing 'food' field", 400))
    else
      match food
      case Defined(JStr(text)) =>
        if |Trim(text)| == 0 then Replied(ErrorResponse("Missing 'food' field", 400))
        else if |text| > MAX_FOOD_LENGTH then Replied(ErrorResponse("Food description too long (max 500 chars)", 400))
        else Replied(Estimate(ai(Prompt(text)), parse, textToNumber))
      case _ => Crashed
  }

  /** The worker's `fetch` */
  function Fetch(request: Request, ai: TextModel, parse: JsonParser, textToNumber: string -> Num): Reply {
    if request.httpMethod == "OPTIONS" then Replied(Response(200, CorsHeaders(), NoBody))
    else if request.httpMethod != "POST" then Replied(ErrorResponse("Method not allowed", 405))
    else
      match parse(request.body)
      case Err(_) => Replied(ErrorResponse("Invalid JSON body", 400))
      case Ok(body) =>
        match Get(Defined(body), "type")
        case None => Crashed
        case Some(kind) =>
          if kind == Str("text") then HandleTextEstimation(Field(Defined(body), "food"), ai, parse, textToNumber)
          else if kind == Str("image") then Replied(ErrorResponse("Image estimation is not yet supported", 501))
          else Replied(ErrorResponse("Invalid request type. Use 'text' or 'image'.", 400))
  }

  /**
   * Preflight answers with the CORS headers and no body; every other method
   * but POST is 405; a body that is not JSON is 400 before any dispatch.
   */
  lemma FetchRejects(request: Request, ai: TextModel, parse: JsonParser, textToNumber: string -> Num)
    ensures var r := Fetch(request, ai, parse, textToNumber);
            && (request.httpMethod == "OPTIONS" ==> r == Replied(Response(200, CorsHeaders(), NoBody)))
            && (request.httpMethod != "OPTIONS" && request.httpMethod != "POST" ==> r.Replied? && r.response.status == 405)
            && (request.httpMethod == "POST" && parse(request.body).Err? ==>
                  r == Replied(ErrorResponse("Invalid JSON body", 400)))
  {
  }

  /**
   * A parsed POST body is dispatched on its `type`: `"text"` goes to the
   * estimation, `"image"` is 501 and any other `type` is 400. Only a `null`
   * body crashes, on reading `type`.
   */
  lemma FetchDispatch(request: Request, ai: TextModel, parse: JsonParser, textToNumber: string -> Num)
    requires request.httpMethod == "POST" && parse(request.body).Ok?
    ensures var r := Fetch(request, ai, parse, textToNumber);
            var body := Defined(parse(request.body).value);
            var kind := Field(body, "type");
            && (body == Defined(JNull) ==> r == Crashed)
            && (body != Defined(JNull) && kind == Str("text") ==>
                  r == HandleTextEstimation(Field(body, "food"), ai, parse, textToNumber))
            && (body != Defined(JNull) && kind == Str("image") ==> r.Replied? && r.response.status == 501)
            && (body != Defined(JNull) && kind != Str("text") && kind != Str("image") ==>
                  r.Replied? && r.response.status == 400)
  {
    var body := Defined(parse(request.body).value);
    if body != Defined(JNull) {
      assert Get(body, "type") == Some(Field(body, "type"));
    }
  }

  /**
   * The food check: a falsy, blank or whitespace-only `food` is 400, a
   * non-string crashes on `trim`, and more than 500 characters is 400
   * (exactly 500 passes).
   */
  lemma FoodValidation(food: Value, ai: TextModel, parse: JsonParser, textToNumber: string -> Num)
    ensures var r := HandleTextEstimation(food, ai, parse, textToNumber);
            && (!Truthy(food) ==> r == Replied(ErrorResponse("Missing 'food' field", 400)))
            && (Truthy(food) && !food.json.JStr? ==> r == Crashed)
            && (food.Defined? && food.json.JStr? && AllWhitespace(food.json.s) ==>
                  r == Replied(ErrorResponse("Missing 'food' field", 400)))
            && (food.Defined? && food.json.JStr? && !AllWhitespace(food.json.s) && |food.json.s| > MAX_FOOD_LENGTH ==>
                  r == Replied(ErrorResponse("Food description too long (max 500 chars)", 400)))
  {
    if food.Defined? && food.json.JStr? && food.json.s != "" {
      var text := food.json.s;
      TrimEmptyIffBlank(text);
      assert Truthy(food);
      assert AllWhitespace(text) <==> |Trim(text)| == 0;
    }
  }

  /** A description with some non-blank text within the length limit reaches the model, prompted with that text. */
  lemma FoodForwarded(food: Value, ai: TextModel, parse: JsonParser, textToNumber: string -> Num)
    ensures food.Defined? && food.json.JStr? && !AllWhitespace(food.json.s) && |food.json.s| <= MAX_FOOD_LENGTH ==>
              HandleTextEstimation(food, ai, parse, textToNumber)
              == Replied(Estimate(ai(Prompt(food.json.s)), parse, textToNumber))
  {
    if food.Defined? && food.json.JStr? && !AllWhitespace(food.json.s) && |food.json.s| <= MAX_FOOD_LENGTH {
      var text := food.json.s;
      TrimEmptyIffBlank(text);
      assert Truthy(food) && |Trim(text)| != 0;
    }
  }

  /** Every estimate answer is JSON with the CORS headers, and its status is 200, 502 or 503. */
  lemma EstimateStatuses(answer: Result<Value, string>, parse: JsonParser, textToNumber: string -> Num)
    ensures var r := Estimate(answer, parse, textToNumber);
            && r.headers == CorsHeaders()["Content-Type" := "application/json"]
            && (r.status == 200 || r.status == 502 || r.status == 503)
  {
  }

  /**
   * The estimate is 200 only when the model answered with a text whose
   * first `{...}` parses to an object with a positive `calories`; the body
   * is then built from that object.
   */
  lemma EstimateOutcome(answer: Result<Value, string>, parse: JsonParser, textToNumber: string -> Num)
    ensures var r := Estimate(answer, parse, textToNumber);
            r.status == 200 ==>
              exists raw: string, text: string, parsed: Json, x: real ::
                && answer.Ok? && Get(answer.value, "response") == Some(Defined(JStr(raw)))
                && LazyObject(raw) == Some(text) && parse(text) == Ok(parsed) && parsed != JNull
                && ToNumber(Field(Defined(parsed), "calories"), textToNumber) == Finite(x) && x > 0.0
                && r.body == JsonBody(EstimateBody(Defined(parsed), x))
  {
    if answer.Ok? && Get(answer.value, "response").Some? {
      var field := Get(answer.value, "response").value;
      if Coalesce(field, Str("")) == Str("") {
        assert LazyObject("") == None;
      } else if field.Defined? && field.json.JStr? {
        var raw := field.json.s;
        assert Coalesce(field, Str("")) == field;
        if LazyObject(raw).Some? && parse(LazyObject(raw).value).Ok? {
          var text := LazyObject(raw).value;
          var parsed := parse(text).value;
          var calories := ToNumber(Field(Defined(parsed), "calories"), textToNumber);
          if parsed != JNull && calories.Finite? && calories.x > 0.0 {
            assert Estimate(answer, parse, textToNumber) == JsonResponse(EstimateBody(Defined(parsed), calories.x), 200);
          }
        }
      }
    }
  }

  /**
   * Conversely, such an answer is 200 with the body built from the parsed
   * object and its calories.
   */
  lemma EstimateAccepts(answer: Result<Value, string>, parse: JsonParser, textToNumber: string -> Num,
                        raw: string, text: string, parsed: Json, x: real)
    requires answer.Ok? && Get(answer.value, "response") == Some(Defined(JStr(raw)))
    requires LazyObject(raw) == Some(text) && parse(text) == Ok(parsed) && parsed != JNull
    requires ToNumber(Field(Defined(parsed), "calories"), textToNumber) == Finite(x) && x > 0.0
    ensures Estimate(answer, parse, textToNumber) == JsonResponse(EstimateBody(Defined(parsed), x), 200)
  {
    assert Coalesce(Defined(JStr(raw)), Str("")) == Defined(JStr(raw));
  }

  /**
   * The 200 body: the calories are `Math.round` of the accepted number, so
   * never negative but zero for a number below one half; `confidence` and
   * `breakdown` pass through unless nullish, and then default to "medium"
   * and null.
   */
  lemma EstimateBodyFields(parsed: Json, x: real)
    requires parsed != JNull && x > 0.0
    ensures var b := EstimateBody(Defined(parsed), x).fields;
            && b["calories"] == JNum(Round(x) as real) && Round(x) >= 0
            && (Round(x) == 0 <==> x < 0.5)
            && (IsNullish(Field(Defined(parsed), "confidence")) ==> b["confidence"] == JStr("medium"))
            && (!IsNullish(Field(Defined(parsed), "confidence")) ==>
                  b["confidence"] == Field(Defined(parsed), "confidence").json)
            && (IsNullish(Field(Defined(parsed), "breakdown")) ==> b["breakdown"] == JNull)
            && (!IsNullish(Field(Defined(parsed), "breakdown")) ==>
                  b["breakdown"] == Field(Defined(parsed), "breakdown").json)
  {
    RoundPositive(x);
  }

  /** A model call that rejects answers 503. */
  lemma ModelRejected(message: string, parse: JsonParser, textToNumber: string -> Num)
    ensures Estimate(Err(message), parse, textToNumber) == ErrorResponse("AI service unavailable", 503)
  {
  }

  /** A text with no `{` followed by a `}` answers 502. */
  lemma NoObjectRejected(answer: Result<Value, string>, parse: JsonParser, textToNumber: string -> Num, raw: string)
    requires answer.Ok? && Get(answer.value, "response") == Some(Str(raw))
    requires LazyObject(raw).None?
    ensures Estimate(answer, parse, textToNumber) == ErrorResponse("AI returned invalid JSON", 502)
  {
    assert Coalesce(Str(raw), Str("")) == Str(raw);
  }

  /** Calories that are not a finite positive number answer 502. */
  lemma BadCaloriesRejected(answer: Result<Value, string>, parse: JsonParser, textToNumber: string -> Num,
                            raw: string, text: string, parsed: Json)
    requires answer.Ok? && Get(answer.value, "response") == Some(Str(raw))
    requires LazyObject(raw) == Some(text) && parse(text) == Ok(parsed) && parsed != JNull
    requires var c := ToNumber(Field(Defined(parsed), "calories"), textToNumber); c.NotFinite? || c.x <= 0.0
    ensures Estimate(answer, parse, textToNumber) == ErrorResponse("Invalid calorie value", 502)
  {
    assert Coalesce(Str(raw), Str("")) == Str(raw);
    assert Get(Defined(parsed), "calories") == Some(Field(Defined(parsed), "calories"));
  }

  /** A text whose first `{...}` the parser rejects answers 503. */
  lemma CutRejected(answer: Result<Value, string>, parse: JsonParser, textToNumber: string -> Num,
                    raw: string, text: string)
    requires answer.Ok? && Get(answer.value, "response") == Some(Str(raw))
    requires LazyObject(raw) == Some(text) && parse(text).Err?
    ensures Estimate(answer, parse, textToNumber).status == 503
  {
    assert Coalesce(Str(raw), Str("")) == Str(raw);
  }

  /**
   * A nested object in the model's text is cut at its inner `}`; when the
   * parser rejects the cut text, the answer is 503.
   */
  lemma NestedObjectUnavailable(parse: JsonParser, textToNumber: string -> Num)
    requires parse("{\"a\":{\"b\":1}").Err?
    ensures Estimate(Ok(Defined(JObj(map["response" := JStr("x {\"a\":{\"b\":1}} y")]))), parse, textToNumber).status
            == 503
  {
    var raw := "x {\"a\":{\"b\":1}} y";
    var result := Defined(JObj(map["response" := JStr(raw)]));
    assert Get(result, "response") == Some(Str(raw));
    NestedObjectLazy();
    CutRejected(Ok(result), parse, textToNumber, raw, "{\"a\":{\"b\":1}");
  }
}
