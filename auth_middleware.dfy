/** The two token middlewares. Each decides, from the Authorization header, the token
    library's verdict and (for the second) the user lookup, whether the request goes on
    to the route with `req.user` set, or is answered with an error status. */
module AuthMiddleware {
  import opened Util
  import opened Models

  /** The decoded token payload, as far as the middlewares read it. */
  datatype Payload = Payload(id: Option<string>)

  /** What verifying a token gives: its payload, or the library's expiry or other error. */
  datatype Verification = Verified(payload: Payload) | TokenExpired | TokenInvalid

  /** What looking the user up by the token's id gives; a malformed id throws. */
  datatype Lookup = Found(user: UserDoc) | NoSuchUser | LookupThrew

  /** What the middleware puts in `req.user`. */
  datatype Principal = Claimed(payload: Payload) | Loaded(id: ObjectId, email: string, name: string)

  /** Go on to the route with this principal, or answer with a status and message. */
  datatype Verdict = Pass(principal: Principal) | Reject(status: nat, message: string)

  datatype Reply = Reply(status: nat, message: string)

  /** `authHeader.split(' ')[1]`: the second space-separated word, if there is one. */
  function SecondWord(header: string): (w: Option<string>)
    ensures w.Some? ==> ' ' !in w.value
  {
    var parts := Split(header, ' ');
    if |parts| >= 2 then SplitPartsHaveNoSep(header, ' '); Some(parts[1]) else None
  }

  lemma {:induction false} SplitPartsHaveNoSep(s: string, sep: char)
    ensures forall i :: 0 <= i < |Split(s, sep)| ==> sep !in Split(s, sep)[i]
  {
    if s != [] {
      SplitPartsHaveNoSep(s[1..], sep);
    }
  }

  /** The word after a scheme and one space is what `split(' ')[1]` finds, whatever the scheme. */
  lemma SecondWordOf(scheme: string, token: string)
    requires ' ' !in scheme && ' ' !in token
    ensures SecondWord(scheme + " " + token) == Some(token)
  {
    assert scheme + " " + token == scheme + [' '] + token;
    SplitAtSep(scheme, ' ', token);
    SplitNoSep(token, ' ');
  }

  /** `s.replace(pattern, with)` for a string pattern: only the first occurrence is replaced. */
  function ReplaceFirst(s: string, pattern: string, with: string): (r: string)
    ensures StartsWith(s, pattern) ==> r == with + s[|pattern|..]
    decreases |s|
  {
    if StartsWith(s, pattern) then with + s[|pattern|..]
    else if s == [] then s
    else [s[0]] + ReplaceFirst(s[1..], pattern, with)
  }

  /** verifyToken: no header, or no second word, answers 401; an expired token 401, any other
      verification failure 403; otherwise the request goes on with the decoded payload. The
      first word is never looked at. */
  function VerifyToken(header: Option<string>, verify: string -> Verification): (v: Verdict)
    ensures !Truthy(header) ==> v == Reject(401, "Authentication required. No token provided.")
    ensures Truthy(header) && !Truthy(SecondWord(header.value)) ==> v == Reject(401, "Authentication required. Invalid token format.")
    ensures v.Pass? <==> Truthy(header) && Truthy(SecondWord(header.value)) && verify(SecondWord(header.value).value).Verified?
    ensures v.Pass? ==> v.principal == Claimed(verify(SecondWord(header.value).value).payload)
    ensures v.Reject? ==> v.status == 401 || v.status == 403
    ensures v == Reject(403, "Invalid token.") <==>
      Truthy(header) && Truthy(SecondWord(header.value)) && verify(SecondWord(header.value).value) == TokenInvalid
    ensures v == Reject(401, "Token expired. Please login again.") <==>
      Truthy(header) && Truthy(SecondWord(header.value)) && verify(SecondWord(header.value).value) == TokenExpired
  {
    if !Truthy(header) then Reject(401, "Authentication required. No token provided.")
    else
      var token := SecondWord(header.value);
      if !Truthy(token) then Reject(401, "Authentication required. Invalid token format.")
      else match verify(token.value)
        case Verified(p) => Pass(Claimed(p))
        case TokenExpired => Reject(401, "Token expired. Please login again.")
        case TokenInvalid => Reject(403, "Invalid token.")
  }

  /** authMiddleware: the header must start with "Bearer "; the rest is verified, and the
      payload's id must name a stored user, whose id, email and name (default "User") go on
      with the request. Every failure, thrown or not, answers 401. */
  function AuthMiddleware(header: Option<string>, verify: string -> Verification, lookup: string -> Lookup): (v: Verdict)
    ensures v.Reject? ==> v.status == 401
    ensures !Truthy(header) || !StartsWith(header.value, "Bearer ") ==> v == Reject(401, "Authentication required")
    ensures v.Pass? <==> (Truthy(header) && StartsWith(header.value, "Bearer ")
      && var d := verify(header.value[7..]);
         d.Verified? && Truthy(d.payload.id) && lookup(d.payload.id.value).Found?)
    ensures v.Pass? ==> (var u := lookup(verify(header.value[7..]).payload.id.value).user;
      v.principal == Loaded(u.id, u.email, OrDefault(Some(u.name), "User")))
    ensures v == Reject(401, "Invalid token: Missing user ID") <==> (Truthy(header) && StartsWith(header.value, "Bearer ")
      && verify(header.value[7..]).Verified? && !Truthy(verify(header.value[7..]).payload.id))
    ensures v == Reject(401, "Invalid token: User not found") <==> (Truthy(header) && StartsWith(header.value, "Bearer ")
      && var d := verify(header.value[7..]);
         d.Verified? && Truthy(d.payload.id) && lookup(d.payload.id.value) == NoSuchUser)
  {
    if !Truthy(header) || !StartsWith(header.value, "Bearer ") then Reject(401, "Authentication required")
    else
      var token := ReplaceFirst(header.value, "Bearer ", "");
      assert token == header.value[7..];
      match verify(token)
        case TokenExpired => Reject(401, "Authentication failed")
        case TokenInvalid => Reject(401, "Authentication failed")
        case Verified(p) =>
          if !Truthy(p.id) then Reject(401, "Invalid token: Missing user ID")
          else match lookup(p.id.value)
            case LookupThrew => Reject(401, "Authentication failed")
            case NoSuchUser => Reject(401, "Invalid token: User not found")
            case Found(u) => Pass(Loaded(u.id, u.email, if u.name != "" then u.name else "User"))
  }

  /** On a well-formed "Bearer" header both middlewares verify the same token. */
  lemma BearerSameToken(token: string, verify: string -> Verification, lookup: string -> Lookup)
    requires token != "" && ' ' !in token
    ensures VerifyToken(Some("Bearer " + token), verify).Pass? <==> verify(token).Verified?
    ensures AuthMiddleware(Some("Bearer " + token), verify, lookup).Pass? ==> verify(token).Verified?
  {
    SecondWordOf("Bearer", token);
    assert "Bearer" + " " + token == "Bearer " + token;
    assert ("Bearer " + token)[7..] == token;
  }

  /** A token sent under any other scheme passes verifyToken but not authMiddleware. */
  lemma OtherSchemeDiverges(token: string, verify: string -> Verification, lookup: string -> Lookup)
    requires token != "" && ' ' !in token && verify(token).Verified?
    ensures VerifyToken(Some("Basic " + token), verify).Pass?
    ensures AuthMiddleware(Some("Basic " + token), verify, lookup) == Reject(401, "Authentication required")
  {
    SecondWordOf("Basic", token);
    assert "Basic" + " " + token == "Basic " + token;
    assert ("Basic " + token)[1] != "Bearer "[1];
  }

  /** An expired token is told apart by verifyToken only. */
  lemma ExpiredDiverges(token: string, verify: string -> Verification, lookup: string -> Lookup)
    requires token != "" && ' ' !in token && verify(token) == TokenExpired
    ensures VerifyToken(Some("Bearer " + token), verify) == Reject(401, "Token expired. Please login again.")
    ensures AuthMiddleware(Some("Bearer " + token), verify, lookup) == Reject(401, "Authentication failed")
  {
    SecondWordOf("Bearer", token);
    assert "Bearer" + " " + token == "Bearer " + token;
    assert ("Bearer " + token)[7..] == token;
  }

  /** One request passing through a middleware: the header it came with, the `req.user` the
      middleware sets, the reply sent, and how often `next` was called. */
  class Exchange {
    var header: Option<string>
    var user: Option<Principal>
    var reply: Option<Reply>
    var nextCalls: nat

    constructor (header: Option<string>)
      ensures this.header == header && user.None? && reply.None? && nextCalls == 0
    {
      this.header := header;
      user := None;
      reply := None;
      nextCalls := 0;
    }

    /** Passing sets `req.user` and calls `next` once; rejecting sends the reply and
        touches nothing else. */
    method Apply(v: Verdict)
      modifies this
      ensures header == old(header)
      ensures v.Pass? ==> user == Some(v.principal) && reply == old(reply) && nextCalls == old(nextCalls) + 1
      ensures v.Reject? ==> user == old(user) && reply == Some(Reply(v.status, v.message)) && nextCalls == old(nextCalls)
    {
      if v.Pass? {
        user := Some(v.principal);
        nextCalls := nextCalls + 1;
      } else {
        reply := Some(Reply(v.status, v.message));
      }
    }

    /** Runs verifyToken on this request. On a fresh request, exactly one of `next` and a
        reply happens. */
    method RunVerifyToken(verify: string -> Verification)
      modifies this
      ensures header == old(header)
      ensures var v := VerifyToken(header, verify);
        (v.Pass? ==> user == Some(v.principal) && reply == old(reply) && nextCalls == old(nextCalls) + 1)
        && (v.Reject? ==> user == old(user) && reply == Some(Reply(v.status, v.message)) && nextCalls == old(nextCalls))
      ensures old(reply).None? && old(nextCalls) == 0 ==> (nextCalls == 1 <==> reply.None?)
    {
      Apply(VerifyToken(header, verify));
    }

    /** Runs authMiddleware on this request, with the same one-outcome guarantee. */
    method RunAuthMiddleware(verify: string -> Verification, lookup: string -> Lookup)
      modifies this
      ensures header == old(header)
      ensures var v := AuthMiddleware(header, verify, lookup);
        (v.Pass? ==> user == Some(v.principal) && reply == old(reply) && nextCalls == old(nextCalls) + 1)
        && (v.Reject? ==> user == old(user) && reply == Some(Reply(401, v.message)) && nextCalls == old(nextCalls))
      ensures old(reply).None? && old(nextCalls) == 0 ==> (nextCalls == 1 <==> reply.None?)
    {
      Apply(AuthMiddleware(header, verify, lookup));
    }
  }
}
