/**
 * server.js: the Express proxy in front of Anthropic's messages API. Every
 * route runs the `verifyAuth` middleware first; `/api/claude` then checks
 * the API key, admits the call against the ledger, forwards the body
 * upstream and charges one credit after an ok answer; `/api/credits`
 * reports the caller's count.
 *
 * The two clock-reading groups of `/api/claude` (lines 181-191 before the
 * upstream call, lines 226-229 after it) are given as `admitDay` and
 * `chargeDay`.
 */
module ExpressServer {
  import opened JsValues
  import opened JsStrings
  import opened Http
  import opened Credits
  import opened Auth
  import opened CreditReplies

  /** The message of the ReferenceError thrown at line 235. */
  const REFERENCE_ERROR := "remainingAfter is not defined"

  /** The `verifyAuth` middleware: the identity, or the 401 response it sends. */
  function Authenticate(header: Option<string>, verify: Verifier): (r: Result<Identity, Response>)
    ensures r.Err? ==> r.error.status == 401
    ensures r.Err? <==> VerifyAuth(header, verify).Err?
    ensures r.Ok? ==> r == Ok(VerifyAuth(header, verify).value)
  {
    match VerifyAuth(header, verify)
    case Ok(id) => Ok(id)
    case Err(NoToken) => Err(Response(401, map[], ErrorBody("No authentication token provided")))
    case Err(Rejected(_)) => Err(Response(401, map[], ErrorBody("Invalid authentication token")))
  }

  const API_KEY_MISSING := "API key not configured. Please set ANTHROPIC_API_KEY in your .env.backend file"

  /** How the handler body of `/api/claude` ended before its final response. */
  datatype CallOutcome =
    | Answered(response: Response)                      // an early return or the catch at line 240
    | Succeeded(data: Json, used: nat, remaining: int)  // reached line 229 after charging

  /** What lines 172-229 leave behind for an authenticated user. */
  datatype Charge = Charge(ledger: Ledger, outcome: CallOutcome, upstreamCalled: bool)

  /**
   * Lines 172-229 of `/api/claude` for an authenticated user: the API key,
   * the admission on `admitDay`, the upstream call, and the charge on
   * `chargeDay` after an ok answer.
   */
  function ChargeOutcome(m: Ledger, apiKeyConfigured: bool, uid: string, body: Json, upstream: Upstream,
                         admitDay: Day, chargeDay: Day): Charge
  {
    if !apiKeyConfigured then Charge(m, Answered(Response(500, map[], ErrorBody(API_KEY_MISSING))), false)
    else
      var used := Used(m, uid, admitDay);
      var admitted := Touched(m, uid, admitDay);
      if used >= DAILY_CREDIT_LIMIT then Charge(admitted, Answered(Response(429, map[], LimitReachedBody(used))), false)
      else ForwardCharge(admitted, uid, body, upstream, chargeDay)
  }

  /** Lines 205-229 on a ledger where the call was admitted: forward, then charge after an ok answer. */
  function ForwardCharge(m: Ledger, uid: string, body: Json, upstream: Upstream, chargeDay: Day): Charge {
    match upstream(body)
    case Err(message) => Charge(m, Answered(Response(500, map[], ErrorBody(message))), true)
    case Ok(reply) =>
      if !IsOk(reply.status) then
        Charge(m, Answered(Response(reply.status, map[], JsonBody(reply.data))), true)
      else
        var charged := Charged(m, uid, chargeDay);
        var usedAfter := Used(charged, uid, chargeDay);
        Charge(charged, Succeeded(reply.data, usedAfter, DAILY_CREDIT_LIMIT - usedAfter), true)
  }

  /** Line 235 as written: the undeclared `remainingAfter` throws, and the catch answers 500. */
  function FinishAsWritten(outcome: CallOutcome): Response {
    match outcome
    case Answered(r) => r
    case Succeeded(_, _, _) => Response(500, map[], ErrorBody(REFERENCE_ERROR))
  }

  /** Line 235 as evidently intended: the upstream body with the counts of line 229 in the headers. */
  function FinishIntended(outcome: CallOutcome): Response {
    match outcome
    case Answered(r) => r
    case Succeeded(data, used, remaining) => Response(200, CreditHeaders(used, remaining), JsonBody(data))
  }

  /** `POST /api/claude`, finished by `finish`. */
  function ClaudeOutcome(m: Ledger, apiKeyConfigured: bool, header: Option<string>, body: Json, verify: Verifier,
                         upstream: Upstream, admitDay: Day, chargeDay: Day, intended: bool): Outcome
  {
    match Authenticate(header, verify)
    case Err(denied) => Outcome(m, denied, false)
    case Ok(id) =>
      var c := ChargeOutcome(m, apiKeyConfigured, id.uid, body, upstream, admitDay, chargeDay);
      Outcome(c.ledger, if intended then FinishIntended(c.outcome) else FinishAsWritten(c.outcome), c.upstreamCalled)
  }

  /** Whether the forwarded call came back ok. */
  predicate UpstreamOk(body: Json, upstream: Upstream) {
    upstream(body).Ok? && IsOk(upstream(body).value.status)
  }

  /**
   * The order of checks: a missing API key answers 500 and a user at the
   * limit 429 with the count used, neither calling upstream nor changing
   * any count; below the limit upstream is called, a failure answers 500 or
   * the upstream status, and only an ok answer reaches the charge.
   */
  lemma ChargeOrder(m: Ledger, apiKeyConfigured: bool, uid: string, body: Json, upstream: Upstream,
                    admitDay: Day, chargeDay: Day)
    ensures var c := ChargeOutcome(m, apiKeyConfigured, uid, body, upstream, admitDay, chargeDay);
      && (c.upstreamCalled <==> apiKeyConfigured && Used(m, uid, admitDay) < DAILY_CREDIT_LIMIT)
      && (!apiKeyConfigured ==> c == Charge(m, Answered(Response(500, map[], ErrorBody(API_KEY_MISSING))), false))
      && (apiKeyConfigured && Used(m, uid, admitDay) >= DAILY_CREDIT_LIMIT ==>
            c == Charge(m, Answered(Response(429, map[], LimitReachedBody(Used(m, uid, admitDay)))), false))
      && (c.upstreamCalled && upstream(body).Err? ==>
            c.outcome == Answered(Response(500, map[], ErrorBody(upstream(body).error))))
      && (c.upstreamCalled && upstream(body).Ok? && !IsOk(upstream(body).value.status) ==>
            c.outcome == Answered(Response(upstream(body).value.status, map[], JsonBody(upstream(body).value.data))))
      && (c.outcome.Succeeded? <==> c.upstreamCalled && UpstreamOk(body, upstream))
  {
  }

  /**
   * Only a successful call is charged: its user's count for the charge day
   * rises by one and the reply reports that count and the rest of the
   * allowance; every other count of every user and day is unchanged.
   */
  lemma {:induction false} ChargeCounts(m: Ledger, apiKeyConfigured: bool, uid: string, body: Json,
                                        upstream: Upstream, admitDay: Day, chargeDay: Day, u: string, d: Day)
    ensures var c := ChargeOutcome(m, apiKeyConfigured, uid, body, upstream, admitDay, chargeDay);
      && Used(c.ledger, u, d) == Used(m, u, d) + (if c.outcome.Succeeded? && (u, d) == (uid, chargeDay) then 1 else 0)
      && (c.outcome.Succeeded? ==>
            && c.outcome.data == upstream(body).value.data
            && c.outcome.used == Used(m, uid, chargeDay) + 1
            && c.outcome.remaining + c.outcome.used == DAILY_CREDIT_LIMIT)
  {
    var c := ChargeOutcome(m, apiKeyConfigured, uid, body, upstream, admitDay, chargeDay);
    if apiKeyConfigured {
      var admitted := Touched(m, uid, admitDay);
      TouchedKeepsCounts(m, uid, admitDay, u, d);
      TouchedKeepsCounts(m, uid, admitDay, uid, chargeDay);
      if c.outcome.Succeeded? {
        ChargedCounts(admitted, uid, chargeDay, u, d);
      }
    }
  }

  /** A call admitted and charged on the same day keeps every count within the limit. */
  lemma ChargeWithinLimit(m: Ledger, apiKeyConfigured: bool, uid: string, body: Json, upstream: Upstream, day: Day)
    requires WithinLimit(m)
    ensures WithinLimit(ChargeOutcome(m, apiKeyConfigured, uid, body, upstream, day, day).ledger)
  {
    if apiKeyConfigured {
      TouchedWithinLimit(m, uid, day);
      TouchedKeepsCounts(m, uid, day, uid, day);
      if Used(m, uid, day) < DAILY_CREDIT_LIMIT && UpstreamOk(body, upstream) {
        ChargedWithinLimit(Touched(m, uid, day), uid, day);
      }
    }
  }

  /** Every proxy call keeps each record under its own day's key. */
  lemma ChargeWellKeyed(m: Ledger, apiKeyConfigured: bool, uid: string, body: Json, upstream: Upstream,
                        admitDay: Day, chargeDay: Day)
    requires WellKeyed(m)
    ensures WellKeyed(ChargeOutcome(m, apiKeyConfigured, uid, body, upstream, admitDay, chargeDay).ledger)
  {
    if apiKeyConfigured {
      ChargedWellKeyed(m, uid, admitDay);
      if Used(m, uid, admitDay) < DAILY_CREDIT_LIMIT {
        ForwardWellKeyed(Touched(m, uid, admitDay), uid, body, upstream, chargeDay);
      }
    }
  }

  /** Forwarding a call and charging it keeps every record under its own day's key. */
  lemma ForwardWellKeyed(m: Ledger, uid: string, body: Json, upstream: Upstream, chargeDay: Day)
    requires WellKeyed(m)
    ensures WellKeyed(ForwardCharge(m, uid, body, upstream, chargeDay).ledger)
  {
    ChargedWellKeyed(m, uid, chargeDay);
  }

  /**
   * As written, no call ever answers 200: an ok upstream answer is charged
   * a credit and then answered with 500.
   */
  lemma AsWrittenNeverOk(m: Ledger, apiKeyConfigured: bool, header: Option<string>, body: Json, verify: Verifier,
                         upstream: Upstream, admitDay: Day, chargeDay: Day)
    ensures var o := ClaudeOutcome(m, apiKeyConfigured, header, body, verify, upstream, admitDay, chargeDay, false);
      && o.response.status != 200
      && (o.upstreamCalled && UpstreamOk(body, upstream) ==>
            var uid := VerifyAuth(header, verify).value.uid;
            && o.response == Response(500, map[], ErrorBody(REFERENCE_ERROR))
            && o.ledger == Charged(Touched(m, uid, admitDay), uid, chargeDay))
  {
    if VerifyAuth(header, verify).Ok? {
      var uid := VerifyAuth(header, verify).value.uid;
      var c := ChargeOutcome(m, apiKeyConfigured, uid, body, upstream, admitDay, chargeDay);
      assert ClaudeOutcome(m, apiKeyConfigured, header, body, verify, upstream, admitDay, chargeDay, false)
             == Outcome(c.ledger, FinishAsWritten(c.outcome), c.upstreamCalled);
      ChargeOrder(m, apiKeyConfigured, uid, body, upstream, admitDay, chargeDay);
      if c.outcome.Answered? {
        AnsweredNotOk(m, apiKeyConfigured, uid, body, upstream, admitDay, chargeDay);
      }
    } else {
      assert Authenticate(header, verify).Err?;
    }
  }

  /**
   * The intended handler: a failed authentication answers 401 and changes
   * nothing; upstream is called exactly when the key is set and the user is
   * below the limit; the answer is 200 exactly when the upstream answer was
   * ok, with the upstream body and the credit headers of the new count.
   */
  lemma IntendedAnswers(m: Ledger, apiKeyConfigured: bool, header: Option<string>, body: Json, verify: Verifier,
                        upstream: Upstream, admitDay: Day, chargeDay: Day)
    ensures var o := ClaudeOutcome(m, apiKeyConfigured, header, body, verify, upstream, admitDay, chargeDay, true);
      && (VerifyAuth(header, verify).Err? ==> o.response.status == 401 && !o.upstreamCalled && o.ledger == m)
      && (VerifyAuth(header, verify).Ok? ==>
            var uid := VerifyAuth(header, verify).value.uid;
            && (o.upstreamCalled <==> apiKeyConfigured && Used(m, uid, admitDay) < DAILY_CREDIT_LIMIT)
            && (o.response.status == 200 <==> o.upstreamCalled && UpstreamOk(body, upstream))
            && (o.response.status == 200 ==>
                  var used := Used(m, uid, chargeDay) + 1;
                  o.response == Response(200, CreditHeaders(used, DAILY_CREDIT_LIMIT - used),
                                         JsonBody(upstream(body).value.data))))
  {
    if VerifyAuth(header, verify).Ok? {
      var uid := VerifyAuth(header, verify).value.uid;
      var c := ChargeOutcome(m, apiKeyConfigured, uid, body, upstream, admitDay, chargeDay);
      assert ClaudeOutcome(m, apiKeyConfigured, header, body, verify, upstream, admitDay, chargeDay, true)
             == Outcome(c.ledger, FinishIntended(c.outcome), c.upstreamCalled);
      ChargeOrder(m, apiKeyConfigured, uid, body, upstream, admitDay, chargeDay);
      IntendedFinish(m, apiKeyConfigured, uid, body, upstream, admitDay, chargeDay);
    } else {
      assert Authenticate(header, verify).Err?;
    }
  }

  /** The intended finish of an authenticated call: 200 exactly for a charged call, with its counts. */
  lemma IntendedFinish(m: Ledger, apiKeyConfigured: bool, uid: string, body: Json, upstream: Upstream,
                       admitDay: Day, chargeDay: Day)
    ensures var c := ChargeOutcome(m, apiKeyConfigured, uid, body, upstream, admitDay, chargeDay);
      var r := FinishIntended(c.outcome);
      && (r.status == 200 <==> c.upstreamCalled && UpstreamOk(body, upstream))
      && (r.status == 200 ==>
            var used := Used(m, uid, chargeDay) + 1;
            r == Response(200, CreditHeaders(used, DAILY_CREDIT_LIMIT - used), JsonBody(upstream(body).value.data)))
  {
    ChargeOrder(m, apiKeyConfigured, uid, body, upstream, admitDay, chargeDay);
    ChargeCounts(m, apiKeyConfigured, uid, body, upstream, admitDay, chargeDay, uid, chargeDay);
    var c := ChargeOutcome(m, apiKeyConfigured, uid, body, upstream, admitDay, chargeDay);
    if c.outcome.Answered? {
      AnsweredNotOk(m, apiKeyConfigured, uid, body, upstream, admitDay, chargeDay);
    }
  }

  /** An early answer is never 200: the upstream status is passed on only when it is not ok. */
  lemma AnsweredNotOk(m: Ledger, apiKeyConfigured: bool, uid: string, body: Json, upstream: Upstream,
                      admitDay: Day, chargeDay: Day)
    requires ChargeOutcome(m, apiKeyConfigured, uid, body, upstream, admitDay, chargeDay).outcome.Answered?
    ensures ChargeOutcome(m, apiKeyConfigured, uid, body, upstream, admitDay, chargeDay).outcome.response.status != 200
  {
  }

  /** `GET /api/credits`: remaining and used, read on two clock reads. */
  function CreditsOutcome(m: Ledger, header: Option<string>, verify: Verifier, remainingDay: Day, usedDay: Day)
    : (r: Outcome)
    ensures !r.upstreamCalled
  {
    match Authenticate(header, verify)
    case Err(denied) => Outcome(m, denied, false)
    case Ok(id) =>
      Outcome(Touched(Touched(m, id.uid, remainingDay), id.uid, usedDay),
              Response(200, map[], CreditStatusBody(DAILY_CREDIT_LIMIT - Used(m, id.uid, remainingDay),
                                                    Used(m, id.uid, usedDay))), false)
  }

  /**
   * The credit status: 401 without a valid token; otherwise 200 with the
   * counts read, which add up to the limit when both reads fall on one day,
   * and no count of any user changed.
   */
  lemma CreditsAnswers(m: Ledger, header: Option<string>, verify: Verifier, remainingDay: Day, usedDay: Day,
                       u: string, d: Day)
    ensures var o := CreditsOutcome(m, header, verify, remainingDay, usedDay);
      && Used(o.ledger, u, d) == Used(m, u, d)
      && (VerifyAuth(header, verify).Err? ==> o.response.status == 401 && o.ledger == m)
      && (VerifyAuth(header, verify).Ok? ==>
            var uid := VerifyAuth(header, verify).value.uid;
            var remaining := DAILY_CREDIT_LIMIT - Used(m, uid, remainingDay);
            var used := Used(m, uid, usedDay);
            && o.response == Response(200, map[], CreditStatusBody(remaining, used))
            && (remainingDay == usedDay ==> remaining + used == DAILY_CREDIT_LIMIT))
  {
    if VerifyAuth(header, verify).Ok? {
      var uid := VerifyAuth(header, verify).value.uid;
      TouchedKeepsCounts(m, uid, remainingDay, u, d);
      TouchedKeepsCounts(Touched(m, uid, remainingDay), uid, usedDay, u, d);
    }
  }

  class ProxyServer {
    /** `userCredits`, the module-level Map of server.js. */
    const ledger: CreditLedger
    /** Whether `process.env.ANTHROPIC_API_KEY` is set. */
    const apiKeyConfigured: bool

    ghost predicate Valid()
      reads this, ledger
    {
      ledger.Valid()
    }

    constructor (apiKeyConfigured: bool)
      ensures Valid() && fresh(ledger)
      ensures ledger.userCredits == map[] && this.apiKeyConfigured == apiKeyConfigured
    {
      ledger := new CreditLedger();
      this.apiKeyConfigured := apiKeyConfigured;
    }

    /** Lines 181-191: the three reads of the current day's record; `has` is false at the limit. */
    method Admit(uid: string, admitDay: Day) returns (has: bool, used: nat)
      requires Valid()
      modifies ledger
      ensures Valid()
      ensures ledger.userCredits == Touched(old(ledger.userCredits), uid, admitDay)
      ensures used == Used(old(ledger.userCredits), uid, admitDay)
      ensures has <==> used < DAILY_CREDIT_LIMIT
    {
      var currentCredits := ledger.GetUserCredits(uid, admitDay);
      var remaining := ledger.GetRemainingCredits(uid, admitDay);
      has := ledger.HasCreditsRemaining(uid, admitDay);
      TouchedKeepsCounts(old(ledger.userCredits), uid, admitDay, uid, admitDay);
      used := currentCredits.count;
    }

    /** Lines 226-229: charge one credit, then read the new count and what remains. */
    method ChargeOne(uid: string, chargeDay: Day) returns (used: nat, remainingAfter: int)
      requires Valid()
      modifies ledger
      ensures Valid()
      ensures ledger.userCredits == Charged(old(ledger.userCredits), uid, chargeDay)
      ensures used == Used(ledger.userCredits, uid, chargeDay) && remainingAfter == DAILY_CREDIT_LIMIT - used
    {
      ledger.IncrementCredits(uid, chargeDay);
      ghost var charged := ledger.userCredits;
      var newCredits := ledger.GetUserCredits(uid, chargeDay);
      remainingAfter := ledger.GetRemainingCredits(uid, chargeDay);
      DayOfKeyOfKey(uid, chargeDay);
      assert Key(uid, chargeDay) in charged;
      used := newCredits.count;
    }

    /** Lines 172-229 of `/api/claude` for an authenticated user. */
    method ChargeCall(id: Identity, body: Json, upstream: Upstream, admitDay: Day, chargeDay: Day)
      returns (outcome: CallOutcome, upstreamCalled: bool)
      requires Valid()
      modifies ledger
      ensures Valid()
      ensures Charge(ledger.userCredits, outcome, upstreamCalled)
              == ChargeOutcome(old(ledger.userCredits), apiKeyConfigured, id.uid, body, upstream, admitDay, chargeDay)
    {
      upstreamCalled := false;
      if !apiKeyConfigured {
        outcome := Answered(Response(500, map[], ErrorBody(API_KEY_MISSING)));
        return;
      }
      var has, used := Admit(id.uid, admitDay);
      if !has {
        outcome := Answered(Response(429, map[], LimitReachedBody(used)));
        return;
      }
      outcome, upstreamCalled := Forward(id.uid, body, upstream, chargeDay);
    }

    /** Lines 205-229: the forwarded call, and the charge after an ok answer. */
    method Forward(uid: string, body: Json, upstream: Upstream, chargeDay: Day)
      returns (outcome: CallOutcome, upstreamCalled: bool)
      requires Valid()
      modifies ledger
      ensures Valid()
      ensures Charge(ledger.userCredits, outcome, upstreamCalled)
              == ForwardCharge(old(ledger.userCredits), uid, body, upstream, chargeDay)
    {
      upstreamCalled := true;
      var reply := upstream(body);
      if reply.Err? {
        outcome := Answered(Response(500, map[], ErrorBody(reply.error)));
        return;
      }
      if !IsOk(reply.value.status) {
        outcome := Answered(Response(reply.value.status, map[], JsonBody(reply.value.data)));
        return;
      }
      var used, remainingAfter := ChargeOne(uid, chargeDay);
      outcome := Succeeded(reply.value.data, used, remainingAfter);
    }

    /**
     * `POST /api/claude` as written: after the credit is charged, line 235
     * reads the undeclared `remainingAfter`, and the catch answers 500.
     */
    method HandleClaude(header: Option<string>, body: Json, verify: Verifier, upstream: Upstream,
                        admitDay: Day, chargeDay: Day)
      returns (response: Response, upstreamCalled: bool)
      requires Valid()
      modifies ledger
      ensures Valid()
      ensures Outcome(ledger.userCredits, response, upstreamCalled)
              == ClaudeOutcome(old(ledger.userCredits), apiKeyConfigured, header, body, verify, upstream,
                               admitDay, chargeDay, false)
    {
      match Authenticate(header, verify)
      case Err(denied) =>
        response, upstreamCalled := denied, false;
      case Ok(id) =>
        var outcome;
        outcome, upstreamCalled := ChargeCall(id, body, upstream, admitDay, chargeDay);
        response := FinishAsWritten(outcome);
    }

    /**
     * `POST /api/claude` as evidently intended: line 235 sending the value
     * computed at line 229, so a successful call answers 200 with the
     * upstream body and the credit headers.
     */
    method HandleClaudeIntended(header: Option<string>, body: Json, verify: Verifier, upstream: Upstream,
                                admitDay: Day, chargeDay: Day)
      returns (response: Response, upstreamCalled: bool)
      requires Valid()
      modifies ledger
      ensures Valid()
      ensures Outcome(ledger.userCredits, response, upstreamCalled)
              == ClaudeOutcome(old(ledger.userCredits), apiKeyConfigured, header, body, verify, upstream,
                               admitDay, chargeDay, true)
    {
      match Authenticate(header, verify)
      case Err(denied) =>
        response, upstreamCalled := denied, false;
      case Ok(id) =>
        var outcome;
        outcome, upstreamCalled := ChargeCall(id, body, upstream, admitDay, chargeDay);
        response := FinishIntended(outcome);
    }

    /**
     * `GET /api/credits`: remaining and used, read with two clock reads
     * (`remainingDay` at line 157, `usedDay` at line 158).
     */
    method HandleCredits(header: Option<string>, verify: Verifier, remainingDay: Day, usedDay: Day)
      returns (response: Response)
      requires Valid()
      modifies ledger
      ensures Valid()
      ensures Outcome(ledger.userCredits, response, false)
              == CreditsOutcome(old(ledger.userCredits), header, verify, remainingDay, usedDay)
    {
      match Authenticate(header, verify)
      case Err(denied) =>
        response := denied;
      case Ok(id) =>
        var remaining, used := ReadStatus(id.uid, remainingDay, usedDay);
        response := Response(200, map[], CreditStatusBody(remaining, used));
    }

    /** Lines 157-158: the two reads of the credit status. */
    method ReadStatus(uid: string, remainingDay: Day, usedDay: Day) returns (remaining: int, used: nat)
      requires Valid()
      modifies ledger
      ensures Valid()
      ensures ledger.userCredits == Touched(Touched(old(ledger.userCredits), uid, remainingDay), uid, usedDay)
      ensures remaining == DAILY_CREDIT_LIMIT - Used(old(ledger.userCredits), uid, remainingDay)
      ensures used == Used(old(ledger.userCredits), uid, usedDay)
    {
      remaining := ledger.GetRemainingCredits(uid, remainingDay);
      var credits := ledger.GetUserCredits(uid, usedDay);
      TouchedKeepsCounts(old(ledger.userCredits), uid, remainingDay, uid, usedDay);
      used := credits.count;
    }
  }

  /** A day, a user the verifier accepts, and an upstream that answers every call with 200. */
  const DEMO_DAY: Day := "Wed Oct 14 2026"
  const DEMO_HEADER: Option<string> := Some("Bearer t")

  function DemoVerify(token: string): Result<Identity, string> {
    Ok(Identity("user", Undefined))
  }

  function DemoUpstream(request: Json): Result<UpstreamReply, string> {
    Ok(UpstreamReply(200, JNull))
  }

  /** The demo call is authenticated, admitted on a fresh ledger, and its upstream answer is ok. */
  lemma DemoCall(intended: bool)
    ensures var o := ClaudeOutcome(map[], true, DEMO_HEADER, JNull, DemoVerify, DemoUpstream, DEMO_DAY, DEMO_DAY, intended);
      && o.upstreamCalled && Used(o.ledger, "user", DEMO_DAY) == 1
      && o.response.status == (if intended then 200 else 500)
      && (intended ==> o.response.headers == CreditHeaders(1, DAILY_CREDIT_LIMIT - 1))
  {
    BearerTokenExample();
    assert VerifyAuth(DEMO_HEADER, DemoVerify) == Ok(Identity("user", Undefined));
    ChargeCounts(map[], true, "user", JNull, DemoUpstream, DEMO_DAY, DEMO_DAY, "user", DEMO_DAY);
    ChargeOrder(map[], true, "user", JNull, DemoUpstream, DEMO_DAY, DEMO_DAY);
  }

  /**
   * The finding at line 235, on a fresh server: one authenticated call whose
   * upstream answers 200 is charged a credit and still answers 500.
   */
  method SuccessfulCallAsWritten() returns (status: int, used: nat)
    ensures status == 500 && used == 1
  {
    var server := new ProxyServer(true);
    DemoCall(false);
    var response, called := server.HandleClaude(DEMO_HEADER, JNull, DemoVerify, DemoUpstream, DEMO_DAY, DEMO_DAY);
    status := response.status;
    used := Used(server.ledger.userCredits, "user", DEMO_DAY);
  }

  /** The same call against the intended handler answers 200 with one credit used. */
  method SuccessfulCallIntended() returns (status: int, usedHeader: string, used: nat)
    ensures status == 200 && usedHeader == "1" && used == 1
  {
    var server := new ProxyServer(true);
    DemoCall(true);
    var response, called := server.HandleClaudeIntended(DEMO_HEADER, JNull, DemoVerify, DemoUpstream, DEMO_DAY, DEMO_DAY);
    status := response.status;
    assert response.headers["X-Credits-Used"] == IntToString(1);
    usedHeader := response.headers["X-Credits-Used"];
    used := Used(server.ledger.userCredits, "user", DEMO_DAY);
  }
}
