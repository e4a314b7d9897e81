/**
 * Responses as the handlers build them: a status code, a header dictionary
 * and a body that is empty, `null` or serialised JSON.
 */
module Http {
  import opened JsValues

  type Headers = map<string, string>

  datatype Body =
    | NoBody          // `new Response(null, ...)`
    | EmptyText       // `body: ''`
    | JsonBody(json: Json)

  datatype Response = Response(status: int, headers: Headers, body: Body)

  /** `{ error: message }` */
  function ErrorBody(message: string): Body {
    JsonBody(JObj(map["error" := JStr(message)]))
  }

  /** `response.ok`: a status in the 200-299 range. */
  predicate IsOk(status: int) {
    200 <= status <= 299
  }

  /** The CORS headers that every answer of a Netlify function carries. */
  function NetlifyCors(allowMethods: string): Headers {
    map[
      "Access-Control-Allow-Origin" := "*",
      "Access-Control-Allow-Headers" := "Content-Type, Authorization",
      "Access-Control-Allow-Methods" := allowMethods
    ]
  }

  /**
   * A Netlify function event: `httpMethod`, `headers.authorization` and
   * the raw `body` text.
   */
  datatype Event = Event(httpMethod: string, authorization: Option<string>, body: string)

  /** What `fetch` followed by `response.json()` yields: status and parsed body. */
  datatype UpstreamReply = UpstreamReply(status: int, data: Json)

  /** A forwarding `fetch`: the reply, or the message of what it threw. */
  type Upstream = Json -> Result<UpstreamReply, string>
}

/** The credit bodies and headers that the proxies answer with. */
module CreditReplies {
  import opened JsValues
  import opened JsStrings
  import opened Http
  import opened Credits

  /** The 429 body: the limit, the count used and zero remaining (`resetTime` is not modelled). */
  function LimitReachedBody(used: nat): Body {
    JsonBody(JObj(map[
      "error" := JStr("Daily AI credit limit reached"),
      "limit" := JNum(DAILY_CREDIT_LIMIT as real),
      "used" := JNum(used as real),
      "remaining" := JNum(0.0),
      "message" := JStr("You've used all 1000 daily AI credits. Credits reset at midnight.")
    ]))
  }

  /** What one invocation of a proxy leaves behind: the ledger, the answer, and whether upstream was called. */
  datatype Outcome = Outcome(ledger: Ledger, response: Response, upstreamCalled: bool)

  /** The three credit headers, written as `String(n)` writes numbers. */
  function CreditHeaders(used: int, remaining: int): Headers {
    map[
      "X-Credits-Remaining" := IntToString(remaining),
      "X-Credits-Used" := IntToString(used),
      "X-Credits-Limit" := IntToString(DAILY_CREDIT_LIMIT)
    ]
  }

  /** A client that reads the credit headers back with `parseInt` gets the numbers sent. */
  lemma CreditHeadersReadBack(used: int, remaining: int)
    ensures ParseInt(CreditHeaders(used, remaining)["X-Credits-Used"]) == Some(used)
    ensures ParseInt(CreditHeaders(used, remaining)["X-Credits-Remaining"]) == Some(remaining)
    ensures ParseInt(CreditHeaders(used, remaining)["X-Credits-Limit"]) == Some(DAILY_CREDIT_LIMIT as int)
  {
    var h := CreditHeaders(used, remaining);
    assert h["X-Credits-Used"] == IntToString(used);
    assert h["X-Credits-Remaining"] == IntToString(remaining);
    assert h["X-Credits-Limit"] == IntToString(DAILY_CREDIT_LIMIT);
    ParseIntOfString(used);
    ParseIntOfString(remaining);
    ParseIntOfString(DAILY_CREDIT_LIMIT);
  }

  /** Merged over any other headers, the credit headers still read back as the numbers sent. */
  lemma MergedCreditHeadersReadBack(base: Headers, used: int, remaining: int)
    ensures var h := base + CreditHeaders(used, remaining);
            && "X-Credits-Used" in h && "X-Credits-Remaining" in h
            && ParseInt(h["X-Credits-Used"]) == Some(used)
            && ParseInt(h["X-Credits-Remaining"]) == Some(remaining)
  {
    var c := CreditHeaders(used, remaining);
    CreditHeadersReadBack(used, remaining);
    assert (base + c)["X-Credits-Used"] == c["X-Credits-Used"];
    assert (base + c)["X-Credits-Remaining"] == c["X-Credits-Remaining"];
  }

  /** `{remaining, used, limit}` (the `resetTime` clock value is not modelled). */
  function CreditStatusBody(remaining: int, used: nat): Body {
    JsonBody(JObj(map[
      "remaining" := JNum(remaining as real),
      "used" := JNum(used as real),
      "limit" := JNum(DAILY_CREDIT_LIMIT as real)
    ]))
  }
}
