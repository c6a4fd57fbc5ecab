/**
  The authentication middleware. It takes the `Authorization` header, removes the first
  'Bearer ' found in it, and admits the request only when what is left is a non-empty
  token that verifies. Admission records the user id on the request and passes control
  on exactly once. Every refusal answers 401 and passes nothing on.
*/
module AuthMiddleware {
  import opened Common

  const BearerPrefix := "Bearer "
  const NoTokenMessage := "No token, authorization denied"
  const InvalidTokenMessage := "Token is not valid"

  /** `pat` occurs in `s` starting at position `k`. */
  predicate OccursAt(s: string, pat: string, k: nat)
  {
    k + |pat| <= |s| && s[k..k + |pat|] == pat
  }

  /** The first position at or after `k` where `pat` occurs in `s`. */
  function IndexFrom(s: string, pat: string, k: nat): (r: Option<nat>)
    requires k <= |s|
    decreases |s| - k
    ensures r.Some? ==> k <= r.value && OccursAt(s, pat, r.value)
    ensures r.Some? ==> forall j :: k <= j < r.value ==> !OccursAt(s, pat, j)
    ensures r.None? ==> forall j :: k <= j <= |s| ==> !OccursAt(s, pat, j)
  {
    if OccursAt(s, pat, k) then Some(k)
    else if k == |s| then None
    else IndexFrom(s, pat, k + 1)
  }

  /** `String.prototype.indexOf`: the first position where `pat` occurs in `s`, if any. */
  function IndexOf(s: string, pat: string): (r: Option<nat>)
    ensures r.Some? ==> OccursAt(s, pat, r.value)
    ensures r.Some? ==> forall j :: 0 <= j < r.value ==> !OccursAt(s, pat, j)
    ensures r.None? <==> forall j :: 0 <= j <= |s| ==> !OccursAt(s, pat, j)
  {
    IndexFrom(s, pat, 0)
  }

  /**
    `String.prototype.replace` with a string pattern: only the first occurrence of `pat`
    is replaced by `with`; without an occurrence the string comes back unchanged.
  */
  function ReplaceFirst(s: string, pat: string, with: string): (r: string)
    ensures IndexOf(s, pat).None? ==> r == s
    ensures IndexOf(s, pat).Some? ==> |r| == |s| - |pat| + |with|
    ensures IndexOf(s, pat).Some? ==>
      var k := IndexOf(s, pat).value;
      r[..k] == s[..k] && r[k..k + |with|] == with && r[k + |with|..] == s[k + |pat|..]
  {
    match IndexOf(s, pat)
    case None => s
    case Some(k) => s[..k] + with + s[k + |pat|..]
  }

  /** `req.header('Authorization')?.replace('Bearer ', '')`. */
  function ExtractToken(header: Option<string>): (t: Option<string>)
    ensures t.None? <==> header.None?
  {
    match header
    case None => None
    case Some(h) => Some(ReplaceFirst(h, BearerPrefix, ""))
  }

  /** A header of the form 'Bearer <t>' yields exactly `t`. */
  lemma BearerTokenExtracted(t: string)
    ensures ExtractToken(Some(BearerPrefix + t)) == Some(t)
  {
    var h := BearerPrefix + t;
    assert OccursAt(h, BearerPrefix, 0);
    assert h[|BearerPrefix|..] == t;
  }

  /** A header with no 'Bearer ' in it is taken whole as the token. */
  lemma RawHeaderIsToken(h: string)
    requires forall j :: 0 <= j <= |h| ==> !OccursAt(h, BearerPrefix, j)
    ensures ExtractToken(Some(h)) == Some(h)
  {
  }

  /** The outcome of the middleware on one request. */
  datatype Verdict = Denied(code: int, message: string) | Admitted(userId: string)

  /**
    The middleware's decision. `verify` stands for `jwt.verify` under the configured
    secret: the id the token was signed for, or `None` where verification throws.
  */
  function Gate(header: Option<string>, verify: string -> Option<string>): (v: Verdict)
    ensures v.Denied? ==> v.code == 401
    ensures v == Denied(401, NoTokenMessage) <==> ExtractToken(header) in {None, Some("")}
    ensures v == Denied(401, InvalidTokenMessage) <==>
      ExtractToken(header).Some? && ExtractToken(header).value != "" && verify(ExtractToken(header).value).None?
    ensures v.Admitted? <==>
      ExtractToken(header).Some? && ExtractToken(header).value != "" && verify(ExtractToken(header).value).Some?
    ensures v.Admitted? ==> verify(ExtractToken(header).value) == Some(v.userId)
  {
    match ExtractToken(header)
    case None => Denied(401, NoTokenMessage)
    case Some(t) =>
      if t == "" then Denied(401, NoTokenMessage)
      else match verify(t)
        case None => Denied(401, InvalidTokenMessage)
        case Some(id) => Admitted(id)
  }

  /** A request presenting 'Bearer <t>' for a token that verifies is admitted as its user. */
  lemma {:induction false} BearerAdmitted(t: string, verify: string -> Option<string>, id: string)
    requires t != "" && verify(t) == Some(id)
    ensures Gate(Some(BearerPrefix + t), verify) == Admitted(id)
  {
    BearerTokenExtracted(t);
  }

  /** 'Bearer ' with nothing after it, like no header at all, is refused as having no token. */
  lemma {:induction false} EmptyBearerRefused(verify: string -> Option<string>)
    ensures Gate(Some(BearerPrefix), verify) == Denied(401, NoTokenMessage)
    ensures Gate(None, verify) == Denied(401, NoTokenMessage)
  {
    BearerTokenExtracted("");
    assert BearerPrefix + "" == BearerPrefix;
  }

  /** The response the middleware writes. */
  datatype Response = Response(code: int, message: string)

  /** The part of an Express request and response the middleware touches. */
  class Request {
    const authorization: Option<string>
    var userId: Option<string>
    var response: Option<Response>
    /** How many times `next()` has been called for this request. */
    var nextCalls: nat

    constructor (authorization: Option<string>)
      ensures this.authorization == authorization
      ensures userId == None && response == None && nextCalls == 0
    {
      this.authorization := authorization;
      userId := None;
      response := None;
      nextCalls := 0;
    }
  }

  /**
    `authMiddleware`: an admitted request gets the user id and one call to `next()`
    and no response; a refused one gets its 401 response, no user id and no call.
  */
  method Authenticate(req: Request, verify: string -> Option<string>)
    modifies req
    ensures match Gate(req.authorization, verify)
      case Admitted(id) =>
        req.userId == Some(id) && req.nextCalls == old(req.nextCalls) + 1 && req.response == old(req.response)
      case Denied(code, message) =>
        req.userId == old(req.userId) && req.nextCalls == old(req.nextCalls)
        && req.response == Some(Response(code, message))
  {
    var token := ExtractToken(req.authorization);
    if token.None? || token.value == "" {
      req.response := Some(Response(401, NoTokenMessage));
      return;
    }
    var decoded := verify(token.value);
    if decoded.None? {
      req.response := Some(Response(401, InvalidTokenMessage));
      return;
    }
    req.userId := Some(decoded.value);
    req.nextCalls := req.nextCalls + 1;
  }
}
