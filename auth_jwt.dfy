/**
 * The JWT middleware (backend/middleware/authenticateJWT.js). It checks the
 * server secret, takes the token out of the Authorization header, asks the
 * verifier, and either answers the request itself or stores the decoded
 * payload on the request and passes it on. The verifier (`jwt.verify`) is an
 * oracle passed in as a function of the token and the secret.
 */
module AuthenticateJwt {
  import opened Wrappers
  import opened Http

  /** The decoded payload of a token, as a JSON object of string fields. */
  type Claims = map<string, string>

  /** What `jwt.verify` reports to its callback: an error, or the decoded payload. */
  datatype Verdict = Rejected | Accepted(payload: Claims)

  /** Either the middleware answers with a status and message, or it calls `next` with the user set. */
  datatype Outcome = Respond(status: Status, message: string) | Next(user: Claims)

  const ConfigurationError: string := "Server configuration error"
  const TokenMissing: string := "توکن ارائه نشده است."
  const TokenInvalid: string := "توکن نامعتبر است."

  /** JavaScript truthiness of an optional string: present and not empty. */
  predicate Filled(s: Option<string>) {
    s.Some? && s.value != ""
  }

  /** The position of the first space in `s`. */
  function FirstSpace(s: string): (k: nat)
    requires ' ' in s
    ensures k < |s| && s[k] == ' '
    ensures forall i :: 0 <= i < k ==> s[i] != ' '
  {
    if s[0] == ' ' then 0
    else
      assert ' ' in s[1..] by { var i :| 0 <= i < |s| && s[i] == ' '; assert s[1..][i - 1] == ' '; }
      FirstSpace(s[1..]) + 1
  }

  /** The first space is the one that ends a space-free prefix. */
  lemma FirstSpaceAfter(s: string, k: nat)
    requires k < |s| && s[k] == ' '
    requires forall i :: 0 <= i < k ==> s[i] != ' '
    ensures FirstSpace(s) == k
  {
    var j := FirstSpace(s);
    assert s[j] == ' ' && s[k] == ' ';
  }

  /** The pieces joined back with single spaces. */
  function Join(pieces: seq<string>): string
    requires |pieces| >= 1
  {
    if |pieces| == 1 then pieces[0] else pieces[0] + " " + Join(pieces[1..])
  }

  /**
   * `s.split(" ")`: the maximal space-free pieces between the spaces, in
   * order, empty pieces included, so there is one piece more than spaces.
   */
  function Split(s: string): (pieces: seq<string>)
    ensures |pieces| >= 1
    ensures forall i :: 0 <= i < |pieces| ==> ' ' !in pieces[i]
    decreases |s|
  {
    if ' ' !in s then [s]
    else
      var k := FirstSpace(s);
      var rest := Split(s[k + 1..]);
      assert ' ' !in s[..k] by {
        forall i | 0 <= i < k ensures s[..k][i] != ' ' { assert s[..k][i] == s[i]; }
      }
      [s[..k]] + rest
  }

  /** Joining the pieces with single spaces gives the string back. */
  lemma {:induction false} JoinSplit(s: string)
    ensures Join(Split(s)) == s
    decreases |s|
  {
    if ' ' in s {
      var k := FirstSpace(s);
      JoinSplit(s[k + 1..]);
      assert Split(s) == [s[..k]] + Split(s[k + 1..]);
      assert s == s[..k] + " " + s[k + 1..];
    }
  }

  /** Splitting the join of space-free pieces gives the pieces back. */
  lemma {:induction false} SplitJoin(pieces: seq<string>)
    requires |pieces| >= 1
    requires forall i :: 0 <= i < |pieces| ==> ' ' !in pieces[i]
    ensures Split(Join(pieces)) == pieces
  {
    if |pieces| > 1 {
      SplitAtSpace(pieces[0], Join(pieces[1..]));
      SplitJoin(pieces[1..]);
      assert pieces == [pieces[0]] + pieces[1..];
    }
  }

  /** A space-free prefix and a space split off as the first piece. */
  lemma SplitAtSpace(head: string, tail: string)
    requires ' ' !in head
    ensures Split(head + " " + tail) == [head] + Split(tail)
  {
    var s := head + " " + tail;
    assert s[|head|] == ' ';
    assert forall i :: 0 <= i < |head| ==> s[i] != ' ' by {
      forall i | 0 <= i < |head| ensures s[i] != ' ' { assert s[i] == head[i]; }
    }
    FirstSpaceAfter(s, |head|);
    assert s[..|head|] == head && s[|head| + 1..] == tail;
  }

  /**
   * The token the middleware verifies: with a space in the header, the second
   * space-separated piece ("Bearer <token>"); otherwise the whole header.
   */
  function ExtractToken(header: string): string {
    if ' ' in header then Split(header)[1] else header
  }

  /**
   * Taking the token apart: with a space, the header is a space-free prefix up
   * to its first space, the space-free token, and then either nothing or a
   * further space.
   */
  lemma ExtractTokenShape(header: string)
    requires ' ' in header
    ensures var k := FirstSpace(header); var token := ExtractToken(header);
            && ' ' !in token
            && k + 1 + |token| <= |header|
            && (forall i :: 0 <= i < |token| ==> header[k + 1 + i] == token[i])
            && (k + 1 + |token| == |header| || header[k + 1 + |token|] == ' ')
  {
    var k := FirstSpace(header);
    var after := header[k + 1..];
    assert Split(header) == [header[..k]] + Split(after);
    FirstPiece(after);
  }

  /** The first piece of a split is a prefix ending at the first space or at the end. */
  lemma FirstPiece(t: string)
    ensures var p := Split(t)[0];
            && |p| <= |t|
            && (forall i :: 0 <= i < |p| ==> t[i] == p[i])
            && (|p| == |t| || t[|p|] == ' ')
  {
    if ' ' in t {
      var k := FirstSpace(t);
      assert Split(t)[0] == t[..k];
    }
  }

  /** "Bearer <token>" yields the token, for any token without a space. */
  lemma BearerToken(scheme: string, token: string)
    requires ' ' !in scheme && ' ' !in token
    ensures ExtractToken(scheme + " " + token) == token
  {
    var header := scheme + " " + token;
    assert header == Join([scheme, token]);
    SplitJoin([scheme, token]);
    assert header[|scheme|] == ' ';
  }

  /** A header without a space is taken as the token itself. */
  lemma DirectToken(header: string)
    requires ' ' !in header
    ensures ExtractToken(header) == header
  {
  }

  /**
   * `authenticateJWT` as a decision: 500 without a secret, 401 without a
   * header, 403 when the verifier rejects the extracted token, otherwise
   * `next` with the decoded payload.
   */
  function Decide(secret: Option<string>, header: Option<string>, verify: (string, string) -> Verdict): (r: Outcome)
    ensures r.Respond? ==> r.status in {ServerError, Unauthorized, Forbidden}
  {
    if !Filled(secret) then Respond(ServerError, ConfigurationError)
    else if !Filled(header) then Respond(Unauthorized, TokenMissing)
    else match verify(ExtractToken(header.value), secret.value)
      case Rejected => Respond(Forbidden, TokenInvalid)
      case Accepted(payload) => Next(payload)
  }

  /** Without a secret the answer is 500 whatever the header and the verifier. */
  lemma MissingSecretFirst(secret: Option<string>, header: Option<string>, verify: (string, string) -> Verdict,
                           header2: Option<string>, verify2: (string, string) -> Verdict)
    requires !Filled(secret)
    ensures Decide(secret, header, verify) == Respond(ServerError, ConfigurationError)
    ensures Decide(secret, header, verify) == Decide(secret, header2, verify2)
  {
  }

  /** With a secret and no header the answer is 401 whatever the verifier. */
  lemma MissingHeaderUnauthorized(secret: Option<string>, header: Option<string>, verify: (string, string) -> Verdict)
    requires Filled(secret) && !Filled(header)
    ensures Decide(secret, header, verify) == Respond(Unauthorized, TokenMissing)
  {
  }

  /** 403 exactly when there are a secret and a header and the verifier rejects the extracted token. */
  lemma ForbiddenIffRejected(secret: Option<string>, header: Option<string>, verify: (string, string) -> Verdict)
    ensures Decide(secret, header, verify).Respond? && Decide(secret, header, verify).status == Forbidden
            <==> Filled(secret) && Filled(header) && verify(ExtractToken(header.value), secret.value).Rejected?
  {
  }

  /**
   * A header that ends at its first space ("Bearer ") yields the empty token,
   * which a verifier that refuses empty tokens rejects: the answer is 403.
   */
  lemma EmptyTokenForbidden(scheme: string, secret: Option<string>, verify: (string, string) -> Verdict)
    requires ' ' !in scheme && Filled(secret)
    requires verify("", secret.value).Rejected?
    ensures ExtractToken(scheme + " ") == ""
    ensures Decide(secret, Some(scheme + " "), verify) == Respond(Forbidden, TokenInvalid)
  {
    BearerToken(scheme, "");
    assert scheme + " " + "" == scheme + " ";
  }

  /**
   * `next` runs exactly when there are a secret and a header and the verifier
   * accepts the extracted token, and the user is the payload it decoded.
   */
  lemma NextIffAccepted(secret: Option<string>, header: Option<string>, verify: (string, string) -> Verdict)
    ensures Decide(secret, header, verify).Next?
            <==> Filled(secret) && Filled(header) && verify(ExtractToken(header.value), secret.value).Accepted?
    ensures Decide(secret, header, verify).Next?
            ==> Decide(secret, header, verify).user == verify(ExtractToken(header.value), secret.value).payload
  {
  }

  /** A request passing through the middleware: its header, `req.user`, the response, and the calls to `next`. */
  class Exchange {
    const authorization: Option<string>
    var user: Option<Claims>
    var response: Option<(Status, string)>
    var nextCalls: nat

    /** A request that has not been answered or passed on. */
    constructor (authorization: Option<string>)
      ensures this.authorization == authorization
      ensures user == None && response == None && nextCalls == 0
    {
      this.authorization := authorization;
      user, response, nextCalls := None, None, 0;
    }

    /**
     * `authenticateJWT(req, res, next)`: either sets the response and leaves
     * `req.user` and `next` alone, or sets `req.user` to the payload and calls
     * `next` once and sends nothing, as `Decide` says.
     */
    method Authenticate(secret: Option<string>, verify: (string, string) -> Verdict)
      modifies this
      ensures Decide(secret, authorization, verify).Respond? ==>
                && response == Some((Decide(secret, authorization, verify).status, Decide(secret, authorization, verify).message))
                && user == old(user) && nextCalls == old(nextCalls)
      ensures Decide(secret, authorization, verify).Next? ==>
                && user == Some(Decide(secret, authorization, verify).user)
                && nextCalls == old(nextCalls) + 1 && response == old(response)
    {
      if !Filled(secret) {
        response := Some((ServerError, ConfigurationError));
        return;
      }
      var token := authorization;
      if !Filled(token) {
        response := Some((Unauthorized, TokenMissing));
        return;
      }
      var t := token.value;
      if ' ' in t {
        t := Split(t)[1];
      }
      var verdict := verify(t, secret.value);
      match verdict {
        case Rejected =>
          response := Some((Forbidden, TokenInvalid));
        case Accepted(payload) =>
          user := Some(payload);
          nextCalls := nextCalls + 1;
      }
    }
  }
}
