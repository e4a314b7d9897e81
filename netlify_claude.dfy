/**
 * netlify/functions/clodudflare.js: the Netlify function that forwards a
 * request to the Cloudflare worker and charges one credit per successful
 * call. It keeps its own module-level ledger, separate from the ledgers of
 * server.js and credits.js.
 *
 * The clock reads before the upstream call (lines 105, 106, 110) are given
 * as `admitDay`, those after it (lines 153, 155, 160) as `chargeDay`.
 */
module NetlifyClaude {
  import opened JsValues
  import opened JsStrings
  import opened Http
  import opened Credits
  import opened Auth
  import opened CreditReplies

  const AUTHENTICATION := "authentication"
  /** "No authentication token provided" */
  const NO_TOKEN := "No " + AUTHENTICATION + " token provided"
  /** "Invalid authentication token" */
  const BAD_TOKEN := "Invalid " + AUTHENTICATION + " token"

  function Cors(): Headers {
    NetlifyCors("POST, OPTIONS")
  }

  /** The message that `verifyAuth` throws for a failed check. */
  function AuthMessage(failure: AuthFailure): string {
    match failure
    case NoToken => NO_TOKEN
    case Rejected(_) => BAD_TOKEN
  }

  /**
   * The catch block: 401 when the message mentions "authentication", 500
   * otherwise, with the message (or a default when it is empty) as the error.
   */
  function CatchResponse(message: string): (r: Response)
    ensures r.headers == Cors()
    ensures r.status == 401 <==> Contains(message, AUTHENTICATION)
    ensures r.status == 401 || r.status == 500
    ensures message != "" ==> r.body == ErrorBody(message)
    ensures message == "" ==> r.body == ErrorBody("Internal server error")
  {
    Response(if Contains(message, AUTHENTICATION) then 401 else 500, Cors(),
             ErrorBody(if message != "" then message else "Internal server error"))
  }

  /** A message built around the word "authentication" mentions it. */
  lemma MentionsAuthentication(before: string, after: string)
    ensures Contains(before + AUTHENTICATION + after, AUTHENTICATION)
  {
    var s := before + AUTHENTICATION + after;
    assert s[|before|..|before| + |AUTHENTICATION|] == AUTHENTICATION;
    ContainsAt(s, AUTHENTICATION, |before|);
  }

  /** Both messages of `verifyAuth` mention "authentication", so every failed check answers 401. */
  lemma AuthFailuresAreUnauthorized(failure: AuthFailure)
    ensures CatchResponse(AuthMessage(failure)).status == 401
  {
    MentionsAuthentication("No ", " token provided");
    MentionsAuthentication("Invalid ", " token");
  }

  /** The headers after lines 159-161 are the CORS headers and the three credit headers. */
  lemma CreditHeadersAdded(used: int, remaining: int)
    ensures Cors()["X-Credits-Remaining" := IntToString(remaining)]["X-Credits-Used" := IntToString(used)]
              ["X-Credits-Limit" := IntToString(DAILY_CREDIT_LIMIT)]
            == Cors() + CreditHeaders(used, remaining)
  {
  }

  /**
   * Lines 133-167 on a ledger where the call was admitted: forward the
   * parsed body; a thrown fetch goes to the catch, a non-ok answer is passed
   * through, an ok answer charges one credit and adds the credit headers.
   */
  function ForwardOutcome(m: Ledger, userId: string, requestBody: Json, upstream: Upstream, chargeDay: Day): Outcome {
    match upstream(requestBody)
    case Err(message) => Outcome(m, CatchResponse(message), true)
    case Ok(reply) =>
      if !IsOk(reply.status) then Outcome(m, Response(reply.status, Cors(), JsonBody(reply.data)), true)
      else
        var used := Used(m, userId, chargeDay) + 1;
        Outcome(Charged(m, userId, chargeDay),
                Response(200, Cors() + CreditHeaders(used, DAILY_CREDIT_LIMIT - used), JsonBody(reply.data)),
                true)
  }

  /**
   * Lines 105-167 for an authenticated user: 429 at the limit with the
   * ledger untouched; otherwise the user's record exists, a body that does
   * not parse goes to the catch, and a parsed body is forwarded.
   */
  function ServeOutcome(m: Ledger, userId: string, eventBody: string, parse: JsonParser, upstream: Upstream,
                        admitDay: Day, chargeDay: Day): Outcome
  {
    var used := Used(m, userId, admitDay);
    if used >= DAILY_CREDIT_LIMIT then Outcome(m, Response(429, Cors(), LimitReachedBody(used)), false)
    else
      var admitted := Touched(m, userId, admitDay);
      match parse(eventBody)
      case Err(message) => Outcome(admitted, CatchResponse(message), false)
      case Ok(requestBody) => ForwardOutcome(admitted, userId, requestBody, upstream, chargeDay)
  }

  /** `exports.handler`: preflight, method check, authentication, then the authenticated body. */
  function HandlerOutcome(m: Ledger, event: Event, verify: Verifier, parse: JsonParser, upstream: Upstream,
                          admitDay: Day, chargeDay: Day): Outcome
  {
    if event.httpMethod == "OPTIONS" then Outcome(m, Response(204, Cors(), EmptyText), false)
    else if event.httpMethod != "POST" then Outcome(m, Response(405, Cors(), ErrorBody("Method not allowed")), false)
    else
      match VerifyAuth(event.authorization, verify)
      case Err(failure) => Outcome(m, CatchResponse(AuthMessage(failure)), false)
      case Ok(id) => ServeOutcome(m, id.uid, event.body, parse, upstream, admitDay, chargeDay)
  }

  /** The worker answered with an ok status. */
  predicate UpstreamSucceeded(event: Event, parse: JsonParser, upstream: Upstream) {
    && parse(event.body).Ok?
    && upstream(parse(event.body).value).Ok?
    && IsOk(upstream(parse(event.body).value).value.status)
  }

  /**
   * Preflight and wrong methods are answered before authentication and
   * change nothing; a failed authentication answers 401 and changes nothing.
   */
  lemma HandlerRejections(m: Ledger, event: Event, verify: Verifier, parse: JsonParser, upstream: Upstream,
                          admitDay: Day, chargeDay: Day)
    ensures var o := HandlerOutcome(m, event, verify, parse, upstream, admitDay, chargeDay);
            && (event.httpMethod == "OPTIONS" ==> o.response.status == 204 && o.response.body == EmptyText)
            && (event.httpMethod != "OPTIONS" && event.httpMethod != "POST" ==> o.response.status == 405)
            && (event.httpMethod == "POST" && VerifyAuth(event.authorization, verify).Err? ==>
                  o.response.status == 401)
            && (event.httpMethod != "POST" || VerifyAuth(event.authorization, verify).Err? ==>
                  o.ledger == m && !o.upstreamCalled)
  {
    if event.httpMethod == "POST" && VerifyAuth(event.authorization, verify).Err? {
      AuthFailuresAreUnauthorized(VerifyAuth(event.authorization, verify).error);
    }
  }

  /**
   * An authenticated POST at the limit is 429 with the count used and zero
   * remaining, the ledger unchanged; below the limit a body that does not
   * parse goes to the catch with its parse error, before the worker is called.
   */
  lemma ServeRefusals(m: Ledger, userId: string, eventBody: string, parse: JsonParser, upstream: Upstream,
                      admitDay: Day, chargeDay: Day)
    ensures var o := ServeOutcome(m, userId, eventBody, parse, upstream, admitDay, chargeDay);
            && (Used(m, userId, admitDay) >= DAILY_CREDIT_LIMIT ==>
                  o == Outcome(m, Response(429, Cors(), LimitReachedBody(Used(m, userId, admitDay))), false))
            && (Used(m, userId, admitDay) < DAILY_CREDIT_LIMIT && parse(eventBody).Err? ==>
                  && o.response == CatchResponse(parse(eventBody).error) && !o.upstreamCalled
                  && o.ledger == Touched(m, userId, admitDay))
  {
  }

  /** The worker is called exactly for an authenticated POST below the limit whose body parses. */
  lemma HandlerAdmission(m: Ledger, event: Event, verify: Verifier, parse: JsonParser, upstream: Upstream,
                         admitDay: Day, chargeDay: Day)
    ensures var o := HandlerOutcome(m, event, verify, parse, upstream, admitDay, chargeDay);
            o.upstreamCalled <==>
              && event.httpMethod == "POST" && VerifyAuth(event.authorization, verify).Ok?
              && Used(m, VerifyAuth(event.authorization, verify).value.uid, admitDay) < DAILY_CREDIT_LIMIT
              && parse(event.body).Ok?
  {
    if event.httpMethod == "POST" && VerifyAuth(event.authorization, verify).Ok? {
      var uid := VerifyAuth(event.authorization, verify).value.uid;
      if Used(m, uid, admitDay) < DAILY_CREDIT_LIMIT && parse(event.body).Ok? {
        ForwardStatus(Touched(m, uid, admitDay), uid, parse(event.body).value, upstream, chargeDay);
      }
    }
  }

  /**
   * The answer is 200 exactly when the worker was called and answered ok;
   * every answer other than 200 carries just the CORS headers.
   */
  lemma HandlerSuccess(m: Ledger, event: Event, verify: Verifier, parse: JsonParser, upstream: Upstream,
                       admitDay: Day, chargeDay: Day)
    ensures var o := HandlerOutcome(m, event, verify, parse, upstream, admitDay, chargeDay);
            && (o.response.status == 200 <==> o.upstreamCalled && UpstreamSucceeded(event, parse, upstream))
            && (o.response.status != 200 ==> o.response.headers == Cors())
  {
    if event.httpMethod == "POST" && VerifyAuth(event.authorization, verify).Ok? {
      var uid := VerifyAuth(event.authorization, verify).value.uid;
      if Used(m, uid, admitDay) < DAILY_CREDIT_LIMIT && parse(event.body).Ok? {
        ForwardStatus(Touched(m, uid, admitDay), uid, parse(event.body).value, upstream, chargeDay);
      }
    } else if event.httpMethod == "POST" {
      AuthFailuresAreUnauthorized(VerifyAuth(event.authorization, verify).error);
    }
  }

  /**
   * Credits are charged after a successful call only: the caller's count for
   * the charge day rises by exactly one when the answer is 200, and every
   * other count of every user and day is left as it was.
   */
  lemma {:induction false} HandlerCharges(m: Ledger, event: Event, verify: Verifier, parse: JsonParser,
                                          upstream: Upstream, admitDay: Day, chargeDay: Day, u: string, d: Day)
    ensures var o := HandlerOutcome(m, event, verify, parse, upstream, admitDay, chargeDay);
            var charged := o.response.status == 200 && (u, d) == (VerifyAuth(event.authorization, verify).value.uid, chargeDay);
            Used(o.ledger, u, d) == Used(m, u, d) + (if charged then 1 else 0)
  {
    if event.httpMethod == "POST" && VerifyAuth(event.authorization, verify).Ok? {
      var uid := VerifyAuth(event.authorization, verify).value.uid;
      if Used(m, uid, admitDay) < DAILY_CREDIT_LIMIT {
        TouchedKeepsCounts(m, uid, admitDay, u, d);
        if parse(event.body).Ok? {
          ForwardCharges(Touched(m, uid, admitDay), uid, parse(event.body).value, upstream, chargeDay, u, d);
        }
      }
    } else if event.httpMethod == "POST" {
      AuthFailuresAreUnauthorized(VerifyAuth(event.authorization, verify).error);
    }
  }

  /** A forwarded call answers 200 exactly when the worker answered ok; otherwise with just the CORS headers. */
  lemma ForwardStatus(m: Ledger, userId: string, requestBody: Json, upstream: Upstream, chargeDay: Day)
    ensures var o := ForwardOutcome(m, userId, requestBody, upstream, chargeDay);
            && o.upstreamCalled
            && (o.response.status == 200 <==> upstream(requestBody).Ok? && IsOk(upstream(requestBody).value.status))
            && (o.response.status != 200 ==> o.response.headers == Cors())
  {
  }

  /** A forwarded call charges the caller's charge day once when it answers 200, and nothing else. */
  lemma ForwardCharges(m: Ledger, userId: string, requestBody: Json, upstream: Upstream, chargeDay: Day,
                       u: string, d: Day)
    ensures var o := ForwardOutcome(m, userId, requestBody, upstream, chargeDay);
            var charged := o.response.status == 200 && (u, d) == (userId, chargeDay);
            Used(o.ledger, u, d) == Used(m, u, d) + (if charged then 1 else 0)
  {
    ChargedCounts(m, userId, chargeDay, u, d);
  }

  /**
   * A forwarded call that fails changes no count: a thrown fetch or body
   * parse goes to the catch with its message, and a non-ok worker answer
   * is passed on with its own status and body.
   */
  lemma ForwardFailures(m: Ledger, userId: string, requestBody: Json, upstream: Upstream, chargeDay: Day)
    ensures var o := ForwardOutcome(m, userId, requestBody, upstream, chargeDay);
            && (upstream(requestBody).Err? ==>
                  o == Outcome(m, CatchResponse(upstream(requestBody).error), true))
            && (upstream(requestBody).Ok? && !IsOk(upstream(requestBody).value.status) ==>
                  var reply := upstream(requestBody).value;
                  o == Outcome(m, Response(reply.status, Cors(), JsonBody(reply.data)), true))
  {
  }

  /**
   * For an authenticated POST below the limit whose body parses, the
   * worker's failures reach the caller: a thrown fetch or body parse answers
   * through the catch, a non-ok answer keeps its status and body, and in
   * both cases the ledger holds only the record touched at admission.
   */
  lemma HandlerFailures(m: Ledger, event: Event, verify: Verifier, parse: JsonParser, upstream: Upstream,
                        admitDay: Day, chargeDay: Day)
    ensures var o := HandlerOutcome(m, event, verify, parse, upstream, admitDay, chargeDay);
            && event.httpMethod == "POST" && VerifyAuth(event.authorization, verify).Ok?
            && Used(m, VerifyAuth(event.authorization, verify).value.uid, admitDay) < DAILY_CREDIT_LIMIT
            && parse(event.body).Ok? ==>
              var admitted := Touched(m, VerifyAuth(event.authorization, verify).value.uid, admitDay);
              var reply := upstream(parse(event.body).value);
              && o.upstreamCalled
              && (reply.Err? ==> o.response == CatchResponse(reply.error) && o.ledger == admitted)
              && (reply.Ok? && !IsOk(reply.value.status) ==>
                    && o.response == Response(reply.value.status, Cors(), JsonBody(reply.value.data))
                    && o.ledger == admitted)
  {
    if event.httpMethod == "POST" && VerifyAuth(event.authorization, verify).Ok? {
      var uid := VerifyAuth(event.authorization, verify).value.uid;
      if Used(m, uid, admitDay) < DAILY_CREDIT_LIMIT && parse(event.body).Ok? {
        ForwardFailures(Touched(m, uid, admitDay), uid, parse(event.body).value, upstream, chargeDay);
      }
    }
  }

  /** Only a forwarded call can answer 200: the user was admitted and the body parsed. */
  lemma SuccessWasForwarded(m: Ledger, event: Event, verify: Verifier, parse: JsonParser, upstream: Upstream,
                            admitDay: Day, chargeDay: Day)
    ensures var o := HandlerOutcome(m, event, verify, parse, upstream, admitDay, chargeDay);
            o.response.status == 200 ==>
              && event.httpMethod == "POST" && VerifyAuth(event.authorization, verify).Ok?
              && var uid := VerifyAuth(event.authorization, verify).value.uid;
                 && Used(m, uid, admitDay) < DAILY_CREDIT_LIMIT && parse(event.body).Ok?
                 && o == ForwardOutcome(Touched(m, uid, admitDay), uid, parse(event.body).value, upstream, chargeDay)
  {
    if event.httpMethod == "POST" && VerifyAuth(event.authorization, verify).Err? {
      AuthFailuresAreUnauthorized(VerifyAuth(event.authorization, verify).error);
    }
  }

  /**
   * A forwarded call that answers 200 carries the CORS headers and the
   * credit headers of the caller's new count (which read back through
   * `parseInt`, by `CreditReplies.MergedCreditHeadersReadBack`).
   */
  lemma ForwardHeaders(m: Ledger, userId: string, requestBody: Json, upstream: Upstream, chargeDay: Day)
    ensures var o := ForwardOutcome(m, userId, requestBody, upstream, chargeDay);
            var used := Used(o.ledger, userId, chargeDay);
            o.response.status == 200 ==>
              && used == Used(m, userId, chargeDay) + 1
              && o.response.headers == Cors() + CreditHeaders(used, DAILY_CREDIT_LIMIT - used)
  {
    var reply := upstream(requestBody);
    if reply.Ok? && IsOk(reply.value.status) {
      ChargedCounts(m, userId, chargeDay, userId, chargeDay);
    }
  }

  /**
   * A call answered 200 was authenticated, and its headers are the CORS
   * headers and the credit headers of the caller's new count for the
   * charge day.
   */
  lemma SuccessHeaders(m: Ledger, event: Event, verify: Verifier, parse: JsonParser, upstream: Upstream,
                       admitDay: Day, chargeDay: Day)
    ensures var o := HandlerOutcome(m, event, verify, parse, upstream, admitDay, chargeDay);
            o.response.status == 200 ==>
              && VerifyAuth(event.authorization, verify).Ok?
              && var used := Used(o.ledger, VerifyAuth(event.authorization, verify).value.uid, chargeDay);
                 o.response.headers == Cors() + CreditHeaders(used, DAILY_CREDIT_LIMIT - used)
  {
    SuccessWasForwarded(m, event, verify, parse, upstream, admitDay, chargeDay);
    if event.httpMethod == "POST" && VerifyAuth(event.authorization, verify).Ok? && parse(event.body).Ok? {
      var uid := VerifyAuth(event.authorization, verify).value.uid;
      ForwardHeaders(Touched(m, uid, admitDay), uid, parse(event.body).value, upstream, chargeDay);
    }
  }

  /** When both groups of clock reads fall on one day, no count ever passes the limit. */
  lemma HandlerWithinLimit(m: Ledger, event: Event, verify: Verifier, parse: JsonParser, upstream: Upstream,
                           day: Day)
    requires WithinLimit(m)
    ensures WithinLimit(HandlerOutcome(m, event, verify, parse, upstream, day, day).ledger)
  {
    if event.httpMethod == "POST" && VerifyAuth(event.authorization, verify).Ok? {
      var uid := VerifyAuth(event.authorization, verify).value.uid;
      if Used(m, uid, day) < DAILY_CREDIT_LIMIT {
        TouchedWithinLimit(m, uid, day);
        ChargedWithinLimit(Touched(m, uid, day), uid, day);
      }
    }
  }

  class ClaudeFunction {
    /** `userCredits`, the module-level Map of clodudflare.js. */
    const ledger: CreditLedger

    ghost predicate Valid()
      reads this, ledger
    {
      ledger.Valid()
    }

    constructor ()
      ensures Valid() && fresh(ledger) && ledger.userCredits == map[]
    {
      ledger := new CreditLedger();
    }

    /** Lines 105-110: the count so far, and whether one more call is admitted. */
    method Admit(userId: string, admitDay: Day) returns (used: nat, has: bool)
      requires Valid()
      modifies ledger
      ensures Valid()
      ensures used == Used(old(ledger.userCredits), userId, admitDay)
      ensures has <==> used < DAILY_CREDIT_LIMIT
      ensures ledger.userCredits == if has then Touched(old(ledger.userCredits), userId, admitDay)
                                    else old(ledger.userCredits)
    {
      var currentCredits := ledger.GetUserCredits(userId, admitDay);
      var remaining := ledger.GetRemainingCredits(userId, admitDay);
      has := ledger.HasCreditsRemaining(userId, admitDay);
      used := currentCredits.count;
    }

    /** Lines 153-161: charge the call and add the credit headers to the CORS headers. */
    method Charge(userId: string, chargeDay: Day) returns (headers: Headers)
      requires Valid()
      modifies ledger
      ensures Valid()
      ensures ledger.userCredits == Charged(old(ledger.userCredits), userId, chargeDay)
      ensures var used := Used(old(ledger.userCredits), userId, chargeDay) + 1;
              headers == Cors() + CreditHeaders(used, DAILY_CREDIT_LIMIT - used)
    {
      ledger.IncrementCredits(userId, chargeDay);
      var newRemaining := ledger.GetRemainingCredits(userId, chargeDay);
      var credits := ledger.GetUserCredits(userId, chargeDay);
      ChargedCounts(old(ledger.userCredits), userId, chargeDay, userId, chargeDay);
      headers := Cors();
      headers := headers["X-Credits-Remaining" := IntToString(newRemaining)];
      headers := headers["X-Credits-Used" := IntToString(credits.count)];
      headers := headers["X-Credits-Limit" := IntToString(DAILY_CREDIT_LIMIT)];
      CreditHeadersAdded(credits.count, newRemaining);
    }

    /** Lines 133-167 after admission. */
    method Forward(userId: string, requestBody: Json, upstream: Upstream, chargeDay: Day)
      returns (response: Response)
      requires Valid()
      modifies ledger
      ensures Valid()
      ensures Outcome(ledger.userCredits, response, true)
              == ForwardOutcome(old(ledger.userCredits), userId, requestBody, upstream, chargeDay)
    {
      var reply := upstream(requestBody);
      if reply.Err? {
        response := CatchResponse(reply.error);
        return;
      }
      if !IsOk(reply.value.status) {
        response := Response(reply.value.status, Cors(), JsonBody(reply.value.data));
        return;
      }
      var headers := Charge(userId, chargeDay);
      response := Response(200, headers, JsonBody(reply.value.data));
    }

    /** Lines 105-167: the handler body for an authenticated user. */
    method Serve(userId: string, eventBody: string, parse: JsonParser, upstream: Upstream,
                 admitDay: Day, chargeDay: Day)
      returns (response: Response, upstreamCalled: bool)
      requires Valid()
      modifies ledger
      ensures Valid()
      ensures Outcome(ledger.userCredits, response, upstreamCalled)
              == ServeOutcome(old(ledger.userCredits), userId, eventBody, parse, upstream, admitDay, chargeDay)
    {
      upstreamCalled := false;
      var used, has := Admit(userId, admitDay);
      if !has {
        response := Response(429, Cors(), LimitReachedBody(used));
        return;
      }
      var requestBody := parse(eventBody);
      if requestBody.Err? {
        response := CatchResponse(requestBody.error);
        return;
      }
      upstreamCalled := true;
      response := Forward(userId, requestBody.value, upstream, chargeDay);
    }

    /** `exports.handler` */
    method Handle(event: Event, verify: Verifier, parse: JsonParser, upstream: Upstream,
                  admitDay: Day, chargeDay: Day)
      returns (response: Response, upstreamCalled: bool)
      requires Valid()
      modifies ledger
      ensures Valid()
      ensures Outcome(ledger.userCredits, response, upstreamCalled)
              == HandlerOutcome(old(ledger.userCredits), event, verify, parse, upstream, admitDay, chargeDay)
    {
      upstreamCalled := false;
      if event.httpMethod == "OPTIONS" {
        response := Response(204, Cors(), EmptyText);
        return;
      }
      if event.httpMethod != "POST" {
        response := Response(405, Cors(), ErrorBody("Method not allowed"));
        return;
      }
      var auth := VerifyAuth(event.authorization, verify);
      if auth.Err? {
        response := CatchResponse(AuthMessage(auth.error));
        return;
      }
      response, upstreamCalled := Serve(auth.value.uid, event.body, parse, upstream, admitDay, chargeDay);
    }
  }
}
