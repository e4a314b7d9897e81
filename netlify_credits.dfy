/**
 * netlify/functions/credits.js: the Netlify function that reports a user's
 * credit status. Its module-level ledger is its own: it never sees the
 * charges that clodudflare.js records in its ledger.
 *
 * The two clock reads of the handler (through `getRemainingCredits` at
 * line 71 and `getUserCredits` at line 72) are given as `remainingDay` and
 * `usedDay`.
 */
module NetlifyCredits {
  import opened JsValues
  import opened Http
  import opened Credits
  import opened Auth
  import opened CreditReplies
  import NetlifyClaude

  function Cors(): Headers {
    NetlifyCors("GET, OPTIONS")
  }

  /** The message of the error `verifyAuth` throws: its own for a bad header, the verifier's otherwise. */
  function AuthMessage(failure: AuthFailure): string {
    match failure
    case NoToken => "No authentication token provided"
    case Rejected(reason) => reason
  }

  /** What one invocation leaves behind: the ledger and the answer. */
  datatype Report = Report(ledger: Ledger, response: Response)

  /** `exports.handler` */
  function ReportOutcome(m: Ledger, event: Event, verify: Verifier, remainingDay: Day, usedDay: Day): Report {
    if event.httpMethod == "OPTIONS" then Report(m, Response(204, Cors(), EmptyText))
    else if event.httpMethod != "GET" then Report(m, Response(405, Cors(), ErrorBody("Method not allowed")))
    else
      match VerifyAuth(event.authorization, verify)
      case Err(failure) => Report(m, Response(401, Cors(), ErrorBody(AuthMessage(failure))))
      case Ok(id) =>
        var remaining := DAILY_CREDIT_LIMIT - Used(m, id.uid, remainingDay);
        var used := Used(m, id.uid, usedDay);
        Report(Touched(Touched(m, id.uid, remainingDay), id.uid, usedDay),
               Response(200, Cors(), CreditStatusBody(remaining, used)))
  }

  /**
   * Every answer carries the CORS headers; preflight is 204 and another
   * method than GET is 405, both before authentication; a failed
   * authentication is 401 with the reason; an authenticated GET is 200
   * with the counts read on the two days, which add up to the limit when
   * the days agree.
   */
  lemma ReportAnswers(m: Ledger, event: Event, verify: Verifier, remainingDay: Day, usedDay: Day)
    ensures var r := ReportOutcome(m, event, verify, remainingDay, usedDay).response;
            && r.headers == Cors()
            && (event.httpMethod == "OPTIONS" ==> r.status == 204 && r.body == EmptyText)
            && (event.httpMethod != "OPTIONS" && event.httpMethod != "GET" ==> r.status == 405)
            && (event.httpMethod == "GET" ==>
                  match VerifyAuth(event.authorization, verify)
                  case Err(NoToken) => r == Response(401, Cors(), ErrorBody("No authentication token provided"))
                  case Err(Rejected(reason)) => r == Response(401, Cors(), ErrorBody(reason))
                  case Ok(id) =>
                    var remaining := DAILY_CREDIT_LIMIT - Used(m, id.uid, remainingDay);
                    var used := Used(m, id.uid, usedDay);
                    && r == Response(200, Cors(), CreditStatusBody(remaining, used))
                    && (remainingDay == usedDay ==> remaining + used == DAILY_CREDIT_LIMIT))
  {
    if event.httpMethod == "GET" && VerifyAuth(event.authorization, verify).Err? {
      var failure := VerifyAuth(event.authorization, verify).error;
      assert ReportOutcome(m, event, verify, remainingDay, usedDay).response
             == Response(401, Cors(), ErrorBody(AuthMessage(failure)));
    }
  }

  /** Reading the status never charges: every count of every user and day is unchanged. */
  lemma ReportNeverCharges(m: Ledger, event: Event, verify: Verifier, remainingDay: Day, usedDay: Day,
                           u: string, d: Day)
    ensures Used(ReportOutcome(m, event, verify, remainingDay, usedDay).ledger, u, d) == Used(m, u, d)
  {
    if event.httpMethod == "GET" && VerifyAuth(event.authorization, verify).Ok? {
      var uid := VerifyAuth(event.authorization, verify).value.uid;
      TouchedKeepsCounts(m, uid, remainingDay, u, d);
      TouchedKeepsCounts(Touched(m, uid, remainingDay), uid, usedDay, u, d);
    }
  }

  /** Reading the status keeps every record under its own day's key. */
  lemma ReportWellKeyed(m: Ledger, event: Event, verify: Verifier, remainingDay: Day, usedDay: Day)
    requires WellKeyed(m)
    ensures WellKeyed(ReportOutcome(m, event, verify, remainingDay, usedDay).ledger)
  {
    if event.httpMethod == "GET" && VerifyAuth(event.authorization, verify).Ok? {
      var uid := VerifyAuth(event.authorization, verify).value.uid;
      ChargedWellKeyed(m, uid, remainingDay);
      ChargedWellKeyed(Touched(m, uid, remainingDay), uid, usedDay);
    }
  }

  class CreditsFunction {
    /** `userCredits`, the module-level Map of credits.js. */
    const ledger: CreditLedger

    ghost predicate Valid()
      reads this, ledger
    {
      ledger.Valid()
    }

    constructor ()
      ensures Valid() && fresh(ledger) && ledger.userCredits == map[]
    {
      ledger := new CreditLedger();
    }

    /** `exports.handler` */
    method Handle(event: Event, verify: Verifier, remainingDay: Day, usedDay: Day) returns (response: Response)
      requires Valid()
      modifies ledger
      ensures Valid()
      ensures Report(ledger.userCredits, response)
              == ReportOutcome(old(ledger.userCredits), event, verify, remainingDay, usedDay)
    {
      if event.httpMethod == "OPTIONS" {
        response := Response(204, Cors(), EmptyText);
        return;
      }
      if event.httpMethod != "GET" {
        response := Response(405, Cors(), ErrorBody("Method not allowed"));
        return;
      }
      var auth := VerifyAuth(event.authorization, verify);
      if auth.Err? {
        response := Response(401, Cors(), ErrorBody(AuthMessage(auth.error)));
        return;
      }
      response := Answer(auth.value.uid, remainingDay, usedDay);
    }

    /** The authenticated GET: both reads, then the status built from them. */
    method Answer(uid: string, remainingDay: Day, usedDay: Day) returns (response: Response)
      requires Valid()
      modifies ledger
      ensures Valid()
      ensures ledger.userCredits == Touched(Touched(old(ledger.userCredits), uid, remainingDay), uid, usedDay)
      ensures response == Response(200, Cors(), CreditStatusBody(DAILY_CREDIT_LIMIT - Used(old(ledger.userCredits), uid, remainingDay),
                                                                 Used(old(ledger.userCredits), uid, usedDay)))
    {
      var remaining := ledger.GetRemainingCredits(uid, remainingDay);
      var credits := ledger.GetUserCredits(uid, usedDay);
      TouchedKeepsCounts(old(ledger.userCredits), uid, remainingDay, uid, usedDay);
      response := Response(200, Cors(), CreditStatusBody(remaining, credits.count));
    }
  }

  /** A day, a user the verifier accepts, and an upstream that answers every call with 200. */
  const DEMO_DAY: Day := "Wed Oct 14 2026"
  const DEMO_HEADER: Option<string> := Some("Bearer t")

  function DemoVerify(token: string): Result<Identity, string> {
    Ok(Identity("user", Undefined))
  }

  function DemoParse(text: string): Result<Json, string> {
    Ok(JObj(map[]))
  }

  function DemoUpstream(request: Json): Result<UpstreamReply, string> {
    Ok(UpstreamReply(200, JObj(map[])))
  }

  /** The demo user's first call to the Claude function succeeds. */
  lemma DemoCallSucceeds()
    ensures VerifyAuth(DEMO_HEADER, DemoVerify) == Ok(Identity("user", Undefined))
    ensures NetlifyClaude.HandlerOutcome(map[], Event("POST", DEMO_HEADER, "{}"), DemoVerify, DemoParse,
                                         DemoUpstream, DEMO_DAY, DEMO_DAY).response.status == 200
  {
    BearerTokenExample();
    NetlifyClaude.HandlerAdmission(map[], Event("POST", DEMO_HEADER, "{}"), DemoVerify, DemoParse,
                                   DemoUpstream, DEMO_DAY, DEMO_DAY);
    NetlifyClaude.HandlerSuccess(map[], Event("POST", DEMO_HEADER, "{}"), DemoVerify, DemoParse,
                                 DemoUpstream, DEMO_DAY, DEMO_DAY);
  }

  /** A fresh ledger reports the whole allowance and nothing used. */
  lemma DemoReportFresh()
    ensures ReportOutcome(map[], Event("GET", DEMO_HEADER, ""), DemoVerify, DEMO_DAY, DEMO_DAY).response
            == Response(200, Cors(), CreditStatusBody(DAILY_CREDIT_LIMIT, 0))
  {
    BearerTokenExample();
    assert VerifyAuth(DEMO_HEADER, DemoVerify) == Ok(Identity("user", Undefined));
  }

  /**
   * The two functions keep separate ledgers: after a successful charged call
   * to the Claude function, the credits function still reports zero used.
   */
  method LedgersAreSeparate() returns (claudeStatus: int, reported: Response)
    ensures claudeStatus == 200
    ensures reported == Response(200, Cors(), CreditStatusBody(DAILY_CREDIT_LIMIT, 0))
  {
    var claude := new NetlifyClaude.ClaudeFunction();
    var credits := new CreditsFunction();
    DemoCallSucceeds();
    DemoReportFresh();
    var response, called := claude.Handle(Event("POST", DEMO_HEADER, "{}"), DemoVerify, DemoParse,
                                          DemoUpstream, DEMO_DAY, DEMO_DAY);
    claudeStatus := response.status;
    reported := credits.Handle(Event("GET", DEMO_HEADER, ""), DemoVerify, DEMO_DAY, DEMO_DAY);
  }
}
