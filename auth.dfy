/**
 * The bearer-header check that every proxy runs before it touches the
 * ledger. Firebase's `verifyIdToken` is an oracle: a function from the
 * token to the decoded identity or the message it rejects with.
 */
module Auth {
  import opened JsValues
  import opened JsStrings

  const BEARER := "Bearer "

  datatype Identity = Identity(uid: string, email: Value)

  /** `admin.auth().verifyIdToken(token)`: the decoded token, or the error it throws. */
  type Verifier = string -> Result<Identity, string>

  datatype AuthFailure =
    | NoToken                 // header missing or not starting with "Bearer "
    | Rejected(reason: string) // the verifier threw with this message

  /**
   * `authHeader.split('Bearer ')[1]` once the header is known to start with
   * "Bearer ": the text after the first "Bearer " up to the next one.
   */
  function BearerToken(header: Option<string>): (token: Option<string>)
    ensures token.Some? <==> header.Some? && StartsWith(header.value, BEARER)
  {
    if header.None? || !StartsWith(header.value, BEARER) then None
    else Some(UpTo(header.value[|BEARER|..], BEARER))
  }

  /**
   * The token is the longest prefix of the text after "Bearer " that holds
   * no further "Bearer ": it ends where the next one starts, or at the end.
   */
  lemma BearerTokenSpec(header: Option<string>)
    requires BearerToken(header).Some?
    ensures var token := BearerToken(header).value;
            var rest := header.value[|BEARER|..];
            && |token| <= |rest| && rest[..|token|] == token
            && (forall i :: 0 <= i < |token| ==> !StartsWith(rest[i..], BEARER))
            && (|token| < |rest| ==> StartsWith(rest[|token|..], BEARER))
  {
  }

  /** The header check followed by one call of the verifier on the extracted token. */
  function VerifyAuth(header: Option<string>, verify: Verifier): (r: Result<Identity, AuthFailure>)
    ensures r == Err(NoToken) <==> BearerToken(header).None?
    ensures r.Ok? ==> verify(BearerToken(header).value) == Ok(r.value)
    ensures r.Err? && r.error.Rejected? ==> verify(BearerToken(header).value) == Err(r.error.reason)
  {
    match BearerToken(header)
    case None => Err(NoToken)
    case Some(token) =>
      match verify(token)
      case Ok(id) => Ok(id)
      case Err(reason) => Err(Rejected(reason))
  }

  /** The token is everything after "Bearer " when no second "Bearer " follows. */
  lemma TokenOfSingleBearer(token: string)
    requires !Contains(token, BEARER)
    ensures BearerToken(Some(BEARER + token)) == Some(token)
  {
    var h := BEARER + token;
    assert h[..|BEARER|] == BEARER;
    assert h[|BEARER|..] == token;
    var t := BearerToken(Some(h)).value;
    BearerTokenSpec(Some(h));
    assert t == token[..|t|] == token;
  }

  /** The header "Bearer t" carries the token "t". */
  lemma BearerTokenExample()
    ensures BearerToken(Some("Bearer t")) == Some("t")
  {
    assert !Contains("", BEARER);
    assert "t"[1..] == "";
    assert !Contains("t", BEARER);
    assert "Bearer t" == BEARER + "t";
    TokenOfSingleBearer("t");
  }
}
