/** The authentication middleware: `protect` reads a bearer token from the
    Authorization header, verifies it and loads the user it names; `ngoOnly`
    and `donorOnly` let a request through only for a loaded user of that
    role. Token verification and the user lookup are parameters: a function
    from a token to the user id it was signed for (None when it does not
    verify) and the map of stored users. */
module AuthMiddleware {
  import opened Common

  const NoTokenMessage: string := "Not authorized, no token"
  const TokenFailedMessage: string := "Not authorized, token failed"
  const NgoRequiredMessage: string := "Access denied. NGO role required."
  const DonorRequiredMessage: string := "Access denied. Donor role required."

  /** A stored user, without its password. */
  datatype User = User(id: UserId, name: string, email: string, role: string)

  /** How `protect` ends. `Authenticated` calls the next handler with
      `req.user` set to the looked-up user, which is null when no stored user
      has the token's id. */
  datatype AuthOutcome = NoToken | TokenFailed | Authenticated(user: Option<User>)
  {
    /** The reply `protect` sends itself, if any. */
    function Refusal(): (e: Option<ApiError>)
      ensures e.None? <==> this.Authenticated?
      ensures e.Some? ==> e.value.Status() == 401
    {
      match this
      case NoToken => Some(Unauthorized(NoTokenMessage))
      case TokenFailed => Some(Unauthorized(TokenFailedMessage))
      case Authenticated(_) => None
    }
  }

  /** `authorization.split(' ')[1]`: the second space-separated field, absent
      when the header holds no space. */
  function BearerToken(header: string): (t: Option<string>)
    ensures t.Some? <==> ' ' in header
    ensures t.Some? ==> ' ' !in t.value
  {
    var fields := SplitOnSpace(header);
    SplitFieldsCount(header);
    SplitJoinRoundTrip(header);
    if |fields| >= 2 then Some(fields[1]) else None
  }

  /** The header splits into more than one field exactly when it holds a
      space. */
  lemma {:induction false} SplitFieldsCount(s: string)
    ensures |SplitOnSpace(s)| >= 2 <==> ' ' in s
  {
    if ' ' in s {
      var i := IndexOf(s, ' ');
      assert |SplitOnSpace(s)| == 1 + |SplitOnSpace(s[i + 1..])|;
    }
  }

  /** The header a client sends, "Bearer " followed by the token, yields the
      token back. */
  lemma BearerTokenOfHeader(t: string)
    requires ' ' !in t
    ensures BearerToken("Bearer " + t) == Some(t)
  {
    var h := "Bearer " + t;
    assert h[6] == ' ';
    assert ' ' !in h[..6] by {
      assert h[..6] == "Bearer";
    }
    assert IndexOf(h, ' ') == 6 by {
      assert forall k :: 0 <= k < 6 ==> h[k] != ' ' by {
        assert forall k :: 0 <= k < 6 ==> h[k] == h[..6][k];
      }
    }
    assert h[7..] == t;
    assert SplitOnSpace(h) == [h[..6]] + SplitOnSpace(t);
  }

  /** `protect`. A missing header, or one that does not start with "Bearer",
      is refused with "no token". Otherwise the token is the second field of
      the header; when there is none, when it is empty or when it does not
      verify, the request is refused with "token failed" (that reply goes out
      first, so it is the one the client sees). A token that verifies lets
      the request through with the stored user of that id, or with none. */
  function Protect(header: Option<string>, verify: string -> Option<UserId>,
                   users: map<UserId, User>): (r: AuthOutcome)
    ensures r == NoToken <==> header.None? || !StartsWith(header.value, "Bearer")
    ensures r.Authenticated? <==>
      && header.Some? && StartsWith(header.value, "Bearer")
      && BearerToken(header.value).Some? && BearerToken(header.value).value != ""
      && verify(BearerToken(header.value).value).Some?
    ensures r.Authenticated? ==>
      var uid := verify(BearerToken(header.value).value).value;
      (uid in users ==> r.user == Some(users[uid])) && (uid !in users ==> r.user == None)
  {
    if header.None? || !StartsWith(header.value, "Bearer") then NoToken
    else
      match BearerToken(header.value)
      case None => TokenFailed
      case Some(token) =>
        if token == "" then TokenFailed
        else
          match verify(token)
          case None => TokenFailed
          case Some(uid) => Authenticated(if uid in users then Some(users[uid]) else None)
  }

  /** A well-formed header with a token that verifies authenticates as the
      token's user; any other scheme is refused as carrying no token. */
  lemma ProtectAcceptsBearer(t: string, verify: string -> Option<UserId>, users: map<UserId, User>, uid: UserId)
    requires t != "" && ' ' !in t && verify(t) == Some(uid) && uid in users
    ensures Protect(Some("Bearer " + t), verify, users) == Authenticated(Some(users[uid]))
  {
    BearerTokenOfHeader(t);
    assert StartsWith("Bearer " + t, "Bearer") by {
      assert ("Bearer " + t)[..6] == "Bearer";
    }
  }

  /** The bare scheme without a token is refused as a failed token, not as a
      missing one. */
  lemma ProtectBareBearer(verify: string -> Option<UserId>, users: map<UserId, User>)
    ensures Protect(Some("Bearer"), verify, users) == TokenFailed
  {
    assert StartsWith("Bearer", "Bearer") by {
      assert "Bearer"[..6] == "Bearer";
    }
    assert ' ' !in "Bearer";
  }

  /** `ngoOnly`: None lets the request through. */
  function NgoOnly(user: Option<User>): (e: Option<ApiError>)
    ensures e.None? <==> user.Some? && user.value.role == "ngo"
    ensures e.Some? ==> e.value == Forbidden(NgoRequiredMessage)
  {
    if user.Some? && user.value.role == "ngo" then None else Some(Forbidden(NgoRequiredMessage))
  }

  /** `donorOnly`: None lets the request through. */
  function DonorOnly(user: Option<User>): (e: Option<ApiError>)
    ensures e.None? <==> user.Some? && user.value.role == "donor"
    ensures e.Some? ==> e.value == Forbidden(DonorRequiredMessage)
  {
    if user.Some? && user.value.role == "donor" then None else Some(Forbidden(DonorRequiredMessage))
  }

  /** The two role gates exclude each other, and a token whose user no
      longer exists passes neither. */
  lemma NoUserPassesBoth(user: Option<User>)
    ensures NgoOnly(user).Some? || DonorOnly(user).Some?
    ensures user.None? ==> NgoOnly(user).Some? && DonorOnly(user).Some?
  {
  }
}
