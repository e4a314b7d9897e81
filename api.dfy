/**
 * src/utils/api.js: the prompts the client sends to the AI endpoint and the
 * way it reads the endpoint's reply.
 */
module Api {
  import opened JsValues
  import opened JsStrings
  import NetlifyVision
  import Worker

  /** The instruction both prompts share: the JSON shape the model must answer with. */
  const JSON_INSTRUCTION := "Return ONLY valid JSON:\n{\"foodName\":\"English name\",\"foodNameAr\":\"اسم الطعام بالعربي\",\"calories\":number}"

  /** The one message element that carries the photo. */
  function ImagePart(base64: string): Json {
    JObj(map["type" := JStr("input_image"), "image_base64" := JStr(base64)])
  }

  /** `buildScanPrompt(base64, mimeType)`: `mimeType` is accepted and never used. */
  function BuildScanPrompt(base64: string, mimeType: string): (messages: seq<Json>)
    ensures |messages| == 1 && messages[0].JObj?
    ensures messages[0].fields.Keys == {"role", "content"} && messages[0].fields["role"] == JStr("user")
    ensures messages[0].fields["content"].JArr? && |messages[0].fields["content"].items| == 2
    ensures messages[0].fields["content"].items[0] == ImagePart(base64)
    ensures messages[0].fields["content"].items[1]
              == JObj(map["type" := JStr("input_text"), "text" := JStr(JSON_INSTRUCTION)])
  {
    [JObj(map["role" := JStr("user"),
              "content" := JArr([ImagePart(base64),
                                 JObj(map["type" := JStr("input_text"), "text" := JStr(JSON_INSTRUCTION)])])])]
  }

  /** `buildEstimatePrompt(foodName)`: one user message whose text ends with the food's name. */
  function BuildEstimatePrompt(foodName: string): (messages: seq<Json>)
    ensures |messages| == 1 && messages[0].JObj?
    ensures messages[0].fields.Keys == {"role", "content"} && messages[0].fields["role"] == JStr("user")
    ensures messages[0].fields["content"] == JStr(EstimateText(foodName))
  {
    [JObj(map["role" := JStr("user"), "content" := JStr(EstimateText(foodName))])]
  }

  function EstimateText(foodName: string): string {
    JSON_INSTRUCTION + "\nFood: " + foodName
  }

  /** The estimate prompt starts with the JSON instruction and ends with `Food: <name>`. */
  lemma EstimateTextCarriesFood(foodName: string)
    ensures var t := EstimateText(foodName);
      StartsWith(t, JSON_INSTRUCTION) && |t| >= 6 + |foodName|
      && t[|t| - |foodName| - 6..] == "Food: " + foodName
  {
    Suffixes(JSON_INSTRUCTION + "\n", "Food: " + foodName);
  }

  lemma Suffixes(head: string, tail: string)
    ensures (head + tail)[|head|..] == tail && (head + tail)[..|head|] == head
  {
  }

  /** The photo is the same for every `mimeType`: the scan prompt does not depend on it. */
  lemma ScanPromptIgnoresMimeType(base64: string, mime1: string, mime2: string)
    ensures BuildScanPrompt(base64, mime1) == BuildScanPrompt(base64, mime2)
  {
  }

  /**
   * netlify/functions/cloudflare.ts finds the photo of a scan prompt and
   * hands its base64 text to the vision model.
   */
  lemma ScanPromptReachesVision(base64: string, mimeType: string)
    ensures var content := BuildScanPrompt(base64, mimeType)[0].fields["content"].items;
      base64 != "" ==> NetlifyVision.FindImagePart(content) == NetlifyVision.Found(ImagePart(base64))
  {
    assert Field(Defined(ImagePart(base64)), "image_base64") == Str(base64);
  }

  /** A scan prompt with an empty photo is refused with 400 "No image provided". */
  lemma EmptyScanRefused(mimeType: string, vision: NetlifyVision.Model)
    ensures NetlifyVision.Describe(BuildScanPrompt("", mimeType), vision)
              == Err(NetlifyVision.ErrorResponse("No image provided", 400))
  {
    var messages := BuildScanPrompt("", mimeType);
    var content := messages[0].fields["content"].items;
    assert OptGet(Defined(messages[|messages| - 1]), "content") == Defined(JArr(content));
    EmptyPhotoMissing(mimeType);
  }

  /** Neither part of a scan prompt with an empty photo holds an image. */
  lemma EmptyPhotoMissing(mimeType: string)
    ensures NetlifyVision.FindImagePart(BuildScanPrompt("", mimeType)[0].fields["content"].items)
              == NetlifyVision.Missing
  {
    var content := BuildScanPrompt("", mimeType)[0].fields["content"].items;
    var text := JObj(map["type" := JStr("input_text"), "text" := JStr(JSON_INSTRUCTION)]);
    assert content == [ImagePart(""), text];
    InstructionHasNoImage(text);
    assert Field(Defined(ImagePart("")), "image_base64") == Str("");
    assert content[1..] == [text];
  }

  lemma InstructionHasNoImage(text: Json)
    requires text == JObj(map["type" := JStr("input_text"), "text" := JStr(JSON_INSTRUCTION)])
    ensures NetlifyVision.FindImagePart([text]) == NetlifyVision.Missing
  {
    assert Field(Defined(text), "image_base64") == Undefined;
    assert [text][1..] == [];
  }

  /** The estimate prompt reaches the server's estimate as its own text, the food's name at its end. */
  lemma EstimatePromptIsText(foodName: string, vision: NetlifyVision.Model)
    ensures NetlifyVision.Describe(BuildEstimatePrompt(foodName), vision) == Ok(JStr(EstimateText(foodName)))
  {
    var messages := BuildEstimatePrompt(foodName);
    assert OptGet(Defined(messages[|messages| - 1]), "content") == Str(EstimateText(foodName));
  }

  /** No three backticks in a row. */
  predicate NoFence(s: string) {
    forall i :: 0 <= i < |s| - 2 ==> !(s[i] == '`' && s[i + 1] == '`' && s[i + 2] == '`')
  }

  /** `s` starts with "```". */
  predicate StartsFence(s: string) {
    |s| >= 3 && s[0] == '`' && s[1] == '`' && s[2] == '`'
  }

  /** `s` starts with "```json". */
  predicate StartsJsonFence(s: string) {
    StartsFence(s) && |s| >= 7 && s[3] == 'j' && s[4] == 's' && s[5] == 'o' && s[6] == 'n'
  }

  /**
   * `text.replace(/```json|```/g, "")`: scanning left to right, an
   * occurrence of "```json" is removed, else one of "```", else the
   * character is kept.
   */
  function StripFences(s: string): (r: string)
    ensures |r| <= |s|
    ensures s != "" && s[0] != '`' ==> r != "" && r[0] == s[0]
    ensures NoFence(r)
    decreases |s|
  {
    if StartsJsonFence(s) then StripFences(s[7..])
    else if StartsFence(s) then StripFences(s[3..])
    else if s == "" then ""
    else
      var rest := StripFences(s[1..]);
      assert s[0] == '`' && |rest| >= 2 && rest[0] == '`' ==> rest[1] != '`' by {
        if s[0] == '`' && |rest| >= 2 && rest[0] == '`' {
          assert s[1] == '`' && !StartsFence(s[1..]);
          assert s[1..][1..] == s[2..];
          assert rest == [s[1]] + StripFences(s[2..]);
        }
      }
      NoFenceCons(s[0], rest);
      [s[0]] + rest
  }

  /** A character put before a text without "```" makes none, unless it and the text's first two are backticks. */
  lemma NoFenceCons(c: char, rest: string)
    requires NoFence(rest)
    requires c == '`' && |rest| >= 2 ==> !(rest[0] == '`' && rest[1] == '`')
    ensures NoFence([c] + rest)
  {
    var r := [c] + rest;
    forall i | 0 < i < |r| - 2
      ensures !(r[i] == '`' && r[i + 1] == '`' && r[i + 2] == '`')
    {
      assert r[i] == rest[i - 1] && r[i + 1] == rest[i] && r[i + 2] == rest[i + 1];
    }
  }

  /** A text without any backtick passes through the fence removal unchanged. */
  lemma {:induction false} NoBackticksUnchanged(s: string)
    requires forall k :: 0 <= k < |s| ==> s[k] != '`'
    ensures StripFences(s) == s
    decreases |s|
  {
    if s != "" {
      NoBackticksUnchanged(s[1..]);
      assert s == [s[0]] + s[1..];
    }
  }

  /** A slice of a text without "```" has none either. */
  lemma {:induction false} NoFenceSlice(s: string, i: nat, j: nat)
    requires NoFence(s) && i <= j <= |s|
    ensures NoFence(s[i..j])
  {
    forall k | 0 <= k < j - i - 2
      ensures !(s[i..j][k] == '`' && s[i..j][k + 1] == '`' && s[i..j][k + 2] == '`')
    {
      assert s[i..j][k] == s[i + k] && s[i..j][k + 1] == s[i + k + 1] && s[i..j][k + 2] == s[i + k + 2];
    }
  }

  /** Dropping leading whitespace from a text without "```" leaves none. */
  lemma TrimStartKeepsNoFence(s: string)
    requires NoFence(s)
    ensures NoFence(TrimStart(s))
  {
    NoFenceSlice(s, |s| - |TrimStart(s)|, |s|);
    assert s[|s| - |TrimStart(s)|..|s|] == TrimStart(s);
  }

  /** Dropping trailing whitespace from a text without "```" leaves none. */
  lemma TrimEndKeepsNoFence(s: string)
    requires NoFence(s)
    ensures NoFence(TrimEnd(s))
  {
    NoFenceSlice(s, 0, |TrimEnd(s)|);
    assert s[0..|TrimEnd(s)|] == TrimEnd(s);
  }

  /** Trimming a text without "```" leaves none. */
  lemma TrimKeepsNoFence(s: string)
    requires NoFence(s)
    ensures NoFence(Trim(s))
  {
    TrimStartKeepsNoFence(s);
    TrimEndKeepsNoFence(TrimStart(s));
  }

  /** The text `callAI` returns: fences removed, then trimmed. */
  function CleanReply(text: string): (r: string)
    ensures NoFence(r)
    ensures r == "" || (!IsWhitespace(r[0]) && !IsWhitespace(r[|r| - 1]))
  {
    TrimKeepsNoFence(StripFences(text));
    TrimEnds(StripFences(text));
    Trim(StripFences(text))
  }

  /**
   * What `fetch` resolved to: `res.ok`, and what `res.json()` yields
   * (the body as JSON, or the message of the parse error).
   */
  datatype Reply = Reply(ok: bool, json: Result<Json, string>)

  /**
   * `callAI(messages)` once `fetch` has resolved: the cleaned text of the
   * reply, or the value the thrown `Error` is built from. `TYPE_ERROR`
   * stands for the TypeError of a property read on null or of `.replace`
   * on a non-string.
   */
  function CallAI(res: Reply): (r: Result<string, Value>) {
    if !res.ok then
      var err := if res.json.Ok? then Defined(res.json.value) else Defined(JObj(map[]));
      match Get(err, "error")
      case None => Err(Str(NetlifyVision.TYPE_ERROR))
      case Some(message) => Err(Or(message, Str("AI request failed")))
    else
      match res.json
      case Err(message) => Err(Str(message))
      case Ok(data) =>
        match Get(Defined(data), "text")
        case Some(Defined(JStr(text))) => Ok(CleanReply(text))
        case _ => Err(Str(NetlifyVision.TYPE_ERROR))
  }

  /**
   * A failed response always throws: with the server's `error` when its
   * body is JSON other than null and carries a truthy one, with "AI request
   * failed" when it carries none or is not JSON, and with a TypeError when
   * the body is `null` (reading `null.error`).
   */
  lemma CallAIFailure(res: Reply)
    ensures !res.ok ==> CallAI(res).Err?
    ensures !res.ok && res.json.Ok? && res.json.value != JNull ==>
      var err := Defined(res.json.value);
      CallAI(res) == Err(if Truthy(Field(err, "error")) then Field(err, "error") else Str("AI request failed"))
    ensures !res.ok && res.json.Err? ==> CallAI(res) == Err(Str("AI request failed"))
    ensures !res.ok && res.json == Ok(JNull) ==> CallAI(res) == Err(Str(NetlifyVision.TYPE_ERROR))
  {
  }

  /**
   * A successful response yields text exactly when its body is an object
   * whose `text` is a string, and that text comes back without fences and
   * without surrounding whitespace.
   */
  lemma CallAISuccess(res: Reply)
    requires res.ok
    ensures CallAI(res).Ok? <==>
      res.json.Ok? && res.json.value.JObj? && "text" in res.json.value.fields
      && res.json.value.fields["text"].JStr?
    ensures CallAI(res).Ok? ==> CallAI(res).value == CleanReply(res.json.value.fields["text"].s)
  {
    if res.json.Ok? && res.json.value != JNull {
      var data := Defined(res.json.value);
      assert Get(data, "text") == Some(Field(data, "text"));
    }
  }

  /**
   * The reply `callAI` expects, `{text}`, is the one cloudflare-ai/worker.js
   * sends. cloudflare-ai/src/worker.ts dispatches on `type`, which the
   * `{messages}` body `callAI` posts does not carry: it answers 400, and
   * `callAI` throws with that answer's message.
   */
  lemma PromptRefusedByWorker(messages: seq<Json>, text: string, ai: Worker.TextModel, parse: JsonParser,
                              textToNumber: string -> Num)
    requires parse(text) == Ok(JObj(map["messages" := JArr(messages)]))
    ensures Worker.Fetch(Worker.Request("POST", text), ai, parse, textToNumber)
              == Worker.Replied(Worker.ErrorResponse("Invalid request type. Use 'text' or 'image'.", 400))
    ensures CallAI(Reply(false, Ok(JObj(map["error" := JStr("Invalid request type. Use 'text' or 'image'.")]))))
              == Err(Str("Invalid request type. Use 'text' or 'image'."))
  {
    var body := Defined(JObj(map["messages" := JArr(messages)]));
    assert Get(body, "type") == Some(Undefined);
  }

  /**
   * netlify/functions/cloudflare.ts answers a successful estimate with
   * `{foodName, foodNameAr, calories, confidence, breakdown}`, which has no
   * `text`: `callAI` would throw the TypeError of `undefined.replace`.
   */
  lemma VisionEstimateHasNoText(chosen: Json, foodNameAr: Json)
    requires chosen.JObj? && "foodName" in chosen.fields
    ensures CallAI(Reply(true, Ok(NetlifyVision.EstimateBody(chosen, foodNameAr))))
              == Err(Str(NetlifyVision.TYPE_ERROR))
  {
    var body := NetlifyVision.EstimateBody(chosen, foodNameAr);
    assert "text" !in body.fields;
    assert Get(Defined(body), "text") == Some(Undefined);
  }
}
