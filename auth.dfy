/**
 * The decision logic of the seller `AuthService`: the session kept under the
 * raw `localStorage` keys "token" and "user" (not the namespaced
 * `bstock_seller_*` keys), the classification of a login response, and the
 * ordered endpoint search of `resendVerificationEmail`.
 *
 * The HTTP client is an oracle: each request comes with the outcome it had.
 */
module Auth {
  import opened Js
  import Text
  import Storage

  // ----- Wire types -----

  /** The `User` interface of the login response. */
  datatype User = User(id: string, name: string, email: string, isEmailVerified: bool, role: string)

  /** The object `JSON.stringify(user)` serialises. */
  function UserJson(u: User): Value {
    Obj(map["_id" := Str(u.id), "name" := Str(u.name), "email" := Str(u.email),
            "isEmailVerified" := Bool(u.isEmailVerified), "role" := Str(u.role)])
  }

  datatype AuthData = AuthData(token: Option<string>, customer: Option<User>)

  /** `AuthResponse`: the body of a resolved request. */
  datatype AuthResponse = AuthResponse(status: int, message: Option<string>, data: Option<AuthData>)

  /**
   * A rejected request's reason: `err.response.data.message` and `err.message`.
   * Its absence in `Rejected(None)` stands for a falsy rejection reason.
   */
  datatype HttpError = HttpError(responseMessage: Option<string>, message: Option<string>)

  /** How one request settled; a resolved response may lack a body (`res.data` undefined). */
  datatype HttpOutcome = Resolved(body: Option<AuthResponse>) | Rejected(reason: Option<HttpError>)

  // ----- Session persistence -----

  const SessionTokenKey: string := "token"
  const SessionUserKey: string := "user"

  /**
   * The entries after `persistSession(token, user)`: "token" is written only
   * for a non-empty token, "user" only when a user is given; nothing else changes.
   */
  function Persisted(m: map<string, string>, token: Option<string>, user: Option<User>,
                     stringify: Value -> string): (r: map<string, string>)
    ensures NonEmpty(token) ==> SessionTokenKey in r && r[SessionTokenKey] == token.value
    ensures !NonEmpty(token) ==> (SessionTokenKey in r <==> SessionTokenKey in m)
    ensures !NonEmpty(token) && SessionTokenKey in m ==> r[SessionTokenKey] == m[SessionTokenKey]
    ensures user.Some? ==> SessionUserKey in r && r[SessionUserKey] == stringify(UserJson(user.value))
    ensures user.None? ==> (SessionUserKey in r <==> SessionUserKey in m)
    ensures user.None? && SessionUserKey in m ==> r[SessionUserKey] == m[SessionUserKey]
    ensures forall k :: k != SessionTokenKey && k != SessionUserKey ==> (k in r <==> k in m)
    ensures forall k :: k in m && k != SessionTokenKey && k != SessionUserKey ==> r[k] == m[k]
  {
    var afterToken := if NonEmpty(token) then m[SessionTokenKey := token.value] else m;
    if user.Some? then afterToken[SessionUserKey := stringify(UserJson(user.value))] else afterToken
  }

  /** The entries after `clearSession()`: both session keys gone, nothing else changed. */
  function Cleared(m: map<string, string>): (r: map<string, string>)
    ensures SessionTokenKey !in r && SessionUserKey !in r
    ensures forall k :: k != SessionTokenKey && k != SessionUserKey ==> (k in r <==> k in m)
    ensures forall k :: k in r ==> r[k] == m[k]
  {
    m - {SessionTokenKey, SessionUserKey}
  }

  /** `persistSession(token, user)` */
  method PersistSession(ls: Storage.LocalStorage, token: Option<string>, user: Option<User>, stringify: Value -> string)
    modifies ls
    ensures ls.entries == Persisted(old(ls.entries), token, user, stringify)
  {
    if NonEmpty(token) {
      ls.entries := ls.entries[SessionTokenKey := token.value];
    }
    if user.Some? {
      ls.entries := ls.entries[SessionUserKey := stringify(UserJson(user.value))];
    }
  }

  /** `clearSession()` */
  method ClearSession(ls: Storage.LocalStorage)
    modifies ls
    ensures ls.entries == Cleared(old(ls.entries))
  {
    ls.entries := ls.entries - {SessionTokenKey};
    ls.entries := ls.entries - {SessionUserKey};
  }

  /** The session keys are not among the namespaced `STORAGE_KEYS` values. */
  lemma SessionKeysAreNotSellerKeys()
    ensures SessionTokenKey !in Storage.SellerKeys && SessionUserKey !in Storage.SellerKeys
  {
  }

  // ----- Login -----

  const NotVerifiedDefault: string := "Email is not verified. Please check your inbox."
  const LoginFailedDefault: string := "Failed to login"
  /** What the engine's TypeError says when `data.status` is read off an undefined body. */
  const StatusOfUndefined: string := "Cannot read properties of undefined (reading 'status')"

  /** How a login attempt ends. */
  datatype LoginDecision =
    | NotVerified(message: string)                            // throws EmailNotVerifiedError(message)
    | SignedIn(response: AuthResponse, token: string, user: User)  // session replaced, response returned
    | Declined(response: AuthResponse)                         // response returned, storage untouched
    | Failed(message: string)                                  // throws Error(message)

  /** `res.data.message.toString().toLowerCase() || ''` */
  function BackendMessage(body: Option<AuthResponse>): string {
    if body.Some? && body.value.message.Some? then Text.ToLower(body.value.message.value) else ""
  }

  /** The message mentions both "verify" and "email". */
  predicate AsksToVerifyEmail(message: string) {
    Text.Contains(message, "verify") && Text.Contains(message, "email")
  }

  function TokenOf(r: AuthResponse): Option<string> {
    if r.data.Some? then r.data.value.token else None
  }

  function CustomerOf(r: AuthResponse): Option<User> {
    if r.data.Some? then r.data.value.customer else None
  }

  /** `err?.response?.data?.message || err?.message || fallback` */
  function ErrorMessage(reason: Option<HttpError>, fallback: string): (m: string)
    ensures fallback != "" ==> m != ""
  {
    if reason.Some? then FirstNonEmpty([reason.value.responseMessage, reason.value.message], fallback)
    else fallback
  }

  /**
   * The classification `AuthService.login` makes of the login request's
   * outcome. The "verify email" check comes first, then the success check
   * (status 200 with a non-empty token and a user); a rejected request, or
   * a body-less response, becomes an Error.
   */
  function Decide(o: HttpOutcome): (d: LoginDecision)
    ensures d.NotVerified? <==> o.Resolved? && AsksToVerifyEmail(BackendMessage(o.body))
    ensures d.SignedIn? <==> (o.Resolved? && o.body.Some? && !AsksToVerifyEmail(BackendMessage(o.body))
      && o.body.value.status == 200 && NonEmpty(TokenOf(o.body.value)) && CustomerOf(o.body.value).Some?)
    ensures d.SignedIn? ==> (d.response == o.body.value
      && Some(d.token) == TokenOf(d.response) && Some(d.user) == CustomerOf(d.response))
    ensures d.Declined? ==> o.Resolved? && o.body == Some(d.response)
    ensures d.Failed? <==> o.Rejected? || (o.body.None? && !AsksToVerifyEmail(BackendMessage(o.body)))
    ensures d.Failed? || d.NotVerified? ==> d.message != ""
    ensures d.NotVerified? ==>
              d.message == if o.body.Some? && o.body.value.message.Some? then o.body.value.message.value else NotVerifiedDefault
    ensures o.Resolved? && o.body.None? && !AsksToVerifyEmail(BackendMessage(o.body)) ==> d == Failed(StatusOfUndefined)
    ensures o.Rejected? ==> d == Failed(ErrorMessage(o.reason, LoginFailedDefault))
  {
    match o
    case Rejected(reason) => Failed(ErrorMessage(reason, LoginFailedDefault))
    case Resolved(body) =>
      if AsksToVerifyEmail(BackendMessage(body)) then
        NotVerified(match body case Some(AuthResponse(_, Some(m), _)) => m case _ => NotVerifiedDefault)
      else if body.None? then Failed(StatusOfUndefined)
      else
        var r := body.value;
        if r.status == 200 && NonEmpty(TokenOf(r)) && CustomerOf(r).Some? then
          SignedIn(r, TokenOf(r).value, CustomerOf(r).value)
        else Declined(r)
  }

  /**
   * `AuthService.login`: on success the session is cleared and re-persisted
   * with the new token and user; in every other case storage is untouched.
   */
  method Login(ls: Storage.LocalStorage, outcome: HttpOutcome, stringify: Value -> string) returns (d: LoginDecision)
    modifies ls
    ensures d == Decide(outcome)
    ensures d.SignedIn? ==> ls.entries == Persisted(Cleared(old(ls.entries)), Some(d.token), Some(d.user), stringify)
    ensures !d.SignedIn? ==> ls.entries == old(ls.entries)
  {
    d := Decide(outcome);
    if d.SignedIn? {
      ClearSession(ls);
      PersistSession(ls, Some(d.token), Some(d.user), stringify);
    }
  }

  /** After a successful login the session holds exactly the new token and user. */
  lemma SignedInSession(m: map<string, string>, d: LoginDecision, stringify: Value -> string)
    requires d.SignedIn? && d.token != ""
    ensures var s := Persisted(Cleared(m), Some(d.token), Some(d.user), stringify);
      && s[SessionTokenKey] == d.token
      && s[SessionUserKey] == stringify(UserJson(d.user))
      && (forall k :: k != SessionTokenKey && k != SessionUserKey ==> (k in s <==> k in m))
  {
  }

  /**
   * The "verify email" check wins over a response that would otherwise be
   * a successful login: such a login writes no session.
   */
  lemma {:induction false} VerifyEmailBeatsSuccess(token: string, user: User)
    requires token != ""
    ensures var body := AuthResponse(200, Some("Please verify your Email"), Some(AuthData(Some(token), Some(user))));
      Decide(Resolved(Some(body))) == NotVerified("Please verify your Email")
  {
    var body := AuthResponse(200, Some("Please verify your Email"), Some(AuthData(Some(token), Some(user))));
    assert BackendMessage(Some(body)) == Text.ToLower("Please verify your Email");
    VerifyEmailMessageAsks();
  }

  /** The lower-cased "Please verify your Email" mentions both words. */
  lemma VerifyEmailMessageAsks()
    ensures AsksToVerifyEmail(Text.ToLower("Please verify your Email"))
  {
    var m := "Please verify your Email";
    var lower := Text.ToLower(m);
    assert m[7] == 'v' && m[8] == 'e' && m[9] == 'r' && m[10] == 'i' && m[11] == 'f' && m[12] == 'y';
    assert m[19] == 'E' && m[20] == 'm' && m[21] == 'a' && m[22] == 'i' && m[23] == 'l';
    assert lower[7..13] == "verify" by {
      assert lower[7] == 'v' && lower[8] == 'e' && lower[9] == 'r';
      assert lower[10] == 'i' && lower[11] == 'f' && lower[12] == 'y';
    }
    assert lower[19..24] == "email" by {
      assert lower[19] == 'e' && lower[20] == 'm' && lower[21] == 'a';
      assert lower[22] == 'i' && lower[23] == 'l';
    }
    assert Text.OccursAt(lower, "verify", 7);
    assert Text.OccursAt(lower, "email", 19);
    Text.ContainsIffOccurs(lower, "verify");
    Text.ContainsIffOccurs(lower, "email");
  }

  // ----- resendVerificationEmail -----

  /** The fixed guesses tried after the configured paths. */
  const FallbackPaths: seq<string> := [
    "/api/seller/verify-email/resend",
    "/api/seller/resend-verification-email",
    "/api/seller/resend-verification",
    "/api/seller/send-verification-email",
    "/api/auth/resend-verification"
  ]

  const ResendFailedDefault: string := "Verification email endpoint not available"
  /** What the engine's TypeError says when `data.message` is read off an undefined body. */
  const MessageOfUndefined: string := "Cannot read properties of undefined (reading 'message')"

  /** `candidatePaths`: the configured paths first, then the fixed guesses in order. */
  function CandidatePaths(configured: seq<string>): (paths: seq<string>)
    ensures |paths| == |configured| + |FallbackPaths|
    ensures paths[..|configured|] == configured
    ensures paths[|configured|..] == FallbackPaths
  {
    configured + FallbackPaths
  }

  /** One HTTP call the search makes, by the candidate path it targets. */
  datatype Request = Post(path: string) | Get(path: string)

  /** The oracle for one candidate path: how its POST and its GET would settle. */
  datatype Attempt = Attempt(post: HttpOutcome, get: HttpOutcome)

  /**
   * The end of one `try` block of the search: the body on success, else the
   * thrown reason. A body-less response fails when the block reads its message.
   */
  function Settle(o: HttpOutcome): Result<AuthResponse, Option<HttpError>> {
    match o
    case Resolved(Some(body)) => Ok(body)
    case Resolved(None) => Err(Some(HttpError(None, Some(MessageOfUndefined))))
    case Rejected(reason) => Err(reason)
  }

  /** Neither call for this path succeeded. */
  predicate BothFail(a: Attempt) {
    Settle(a.post).Err? && Settle(a.get).Err?
  }

  /** `getErr || postErr` for a path whose two calls both failed. */
  function AttemptError(a: Attempt): Option<HttpError>
    requires BothFail(a)
  {
    var getErr := Settle(a.get).error;
    if getErr.Some? then getErr else Settle(a.post).error
  }

  /** `lastError?.response?.data?.message || 'Verification email endpoint not available'` */
  function ResendFailure(lastError: Option<HttpError>): (m: string)
    ensures m != ""
  {
    if lastError.Some? then FirstNonEmpty([lastError.value.responseMessage], ResendFailedDefault)
    else ResendFailedDefault
  }

  /** The result of the search and the calls it made, in order. */
  datatype Search = Search(result: Result<AuthResponse, string>, requests: seq<Request>)

  /**
   * The search over `paths[..]`, the oracle in `attempts`, starting from
   * `lastError`: per path POST, then GET, stopping at the first success.
   */
  function ResendSearch(paths: seq<string>, attempts: seq<Attempt>, lastError: Option<HttpError>): Search
    requires |paths| == |attempts|
    decreases |paths|
  {
    if paths == [] then Search(Err(ResendFailure(lastError)), [])
    else
      match Settle(attempts[0].post)
      case Ok(body) => Search(Ok(body), [Post(paths[0])])
      case Err(_) =>
        match Settle(attempts[0].get)
        case Ok(body) => Search(Ok(body), [Post(paths[0]), Get(paths[0])])
        case Err(_) =>
          var rest := ResendSearch(paths[1..], attempts[1..], AttemptError(attempts[0]));
          Search(rest.result, [Post(paths[0]), Get(paths[0])] + rest.requests)
  }

  /** Both calls, POST then GET, for each path in order. */
  function BothCalls(paths: seq<string>): (rs: seq<Request>)
    ensures |rs| == 2 * |paths|
    ensures forall i :: 0 <= i < |paths| ==> rs[2 * i] == Post(paths[i]) && rs[2 * i + 1] == Get(paths[i])
  {
    if paths == [] then [] else [Post(paths[0]), Get(paths[0])] + BothCalls(paths[1..])
  }

  /**
   * The first path to succeed decides the result: its POST body when the
   * POST succeeded, else its GET body; no later path is tried.
   */
  lemma {:induction false} FirstSuccessWins(paths: seq<string>, attempts: seq<Attempt>, lastError: Option<HttpError>, i: nat)
    requires |paths| == |attempts| && i < |paths|
    requires forall j :: 0 <= j < i ==> BothFail(attempts[j])
    requires !BothFail(attempts[i])
    ensures var s := ResendSearch(paths, attempts, lastError);
      && s.result == (if Settle(attempts[i].post).Ok? then Ok(Settle(attempts[i].post).value) else Ok(Settle(attempts[i].get).value))
      && s.requests == BothCalls(paths[..i]) + (if Settle(attempts[i].post).Ok? then [Post(paths[i])] else [Post(paths[i]), Get(paths[i])])
  {
    if i > 0 {
      assert BothFail(attempts[0]);
      FirstSuccessWins(paths[1..], attempts[1..], AttemptError(attempts[0]), i - 1);
      assert paths[1..][..i - 1] == paths[..i][1..];
    }
  }

  /**
   * When every path fails, the search makes both calls for every path and
   * throws with the message of the last path's error, or the default.
   */
  lemma {:induction false} AllFailThrows(paths: seq<string>, attempts: seq<Attempt>, lastError: Option<HttpError>)
    requires |paths| == |attempts|
    requires forall j :: 0 <= j < |attempts| ==> BothFail(attempts[j])
    ensures var s := ResendSearch(paths, attempts, lastError);
      && s.requests == BothCalls(paths)
      && s.result == Err(ResendFailure(if paths == [] then lastError else AttemptError(attempts[|attempts| - 1])))
  {
    if paths != [] {
      assert BothFail(attempts[0]);
      AllFailThrows(paths[1..], attempts[1..], AttemptError(attempts[0]));
    }
  }

  /** Appending two calls one at a time and then the rest is appending them together. */
  lemma AppendPair(a: seq<Request>, x: Request, y: Request, b: seq<Request>)
    ensures a + ([x, y] + b) == a + [x] + [y] + b
  {
    assert [x, y] + b == [x] + ([y] + b);
  }

  /** One step of the search: path `i`'s POST, then its GET, then the rest of the paths. */
  lemma SearchStep(paths: seq<string>, attempts: seq<Attempt>, lastError: Option<HttpError>, i: nat)
    requires |paths| == |attempts| && i < |paths|
    ensures var s := ResendSearch(paths[i..], attempts[i..], lastError);
      var post := Settle(attempts[i].post);
      var get := Settle(attempts[i].get);
      && (post.Ok? ==> s == Search(Ok(post.value), [Post(paths[i])]))
      && (post.Err? && get.Ok? ==> s == Search(Ok(get.value), [Post(paths[i]), Get(paths[i])]))
      && (post.Err? && get.Err? ==>
            var rest := ResendSearch(paths[i + 1..], attempts[i + 1..], AttemptError(attempts[i]));
            s == Search(rest.result, [Post(paths[i]), Get(paths[i])] + rest.requests))
  {
    assert paths[i..][0] == paths[i] && attempts[i..][0] == attempts[i];
    assert paths[i..][1..] == paths[i + 1..] && attempts[i..][1..] == attempts[i + 1..];
  }

  /** After both calls to path `i` failed, the search continues from path `i + 1` with two more calls made. */
  lemma SearchAdvance(paths: seq<string>, attempts: seq<Attempt>, lastError: Option<HttpError>, i: nat,
                      total: Search, before: seq<Request>)
    requires |paths| == |attempts| && i < |paths| && BothFail(attempts[i])
    requires var rest := ResendSearch(paths[i..], attempts[i..], lastError);
      total == Search(rest.result, before + rest.requests)
    ensures var rest := ResendSearch(paths[i + 1..], attempts[i + 1..], AttemptError(attempts[i]));
      total == Search(rest.result, before + [Post(paths[i])] + [Get(paths[i])] + rest.requests)
  {
    SearchStep(paths, attempts, lastError, i);
    var rest := ResendSearch(paths[i + 1..], attempts[i + 1..], AttemptError(attempts[i]));
    AppendPair(before, Post(paths[i]), Get(paths[i]), rest.requests);
  }

  /**
   * `AuthService.resendVerificationEmail`: tries each candidate path, POST
   * first and GET second, returns the first body obtained, and throws when
   * every call failed. `attempts[i]` is how the calls to path `i` settle.
   */
  method ResendVerificationEmail(configured: seq<string>, attempts: seq<Attempt>)
    returns (result: Result<AuthResponse, string>, requests: seq<Request>)
    requires |attempts| == |configured| + |FallbackPaths|
    ensures Search(result, requests) == ResendSearch(CandidatePaths(configured), attempts, None)
  {
    var paths := CandidatePaths(configured);
    ghost var total := ResendSearch(paths, attempts, None);
    var lastError: Option<HttpError> := None;
    requests := [];
    assert paths[0..] == paths && attempts[0..] == attempts;
    assert [] + total.requests == total.requests;
    var i := 0;
    while i < |paths|
      invariant 0 <= i <= |paths|
      invariant var rest := ResendSearch(paths[i..], attempts[i..], lastError);
        total == Search(rest.result, requests + rest.requests)
    {
      var path := paths[i];
      var attempt := attempts[i];
      ghost var before := requests;
      requests := requests + [Post(path)];
      var post := Settle(attempt.post);
      if post.Ok? {
        SearchStep(paths, attempts, lastError, i);
        return Ok(post.value), requests;
      }
      requests := requests + [Get(path)];
      var get := Settle(attempt.get);
      if get.Ok? {
        SearchStep(paths, attempts, lastError, i);
        assert before + [Post(path), Get(path)] == requests;
        return Ok(get.value), requests;
      }
      SearchAdvance(paths, attempts, lastError, i, total, before);
      lastError := if get.error.Some? then get.error else post.error;
      i := i + 1;
    }
    assert paths[i..] == [] && attempts[i..] == [];
    assert requests + [] == requests;
    result := Err(ResendFailure(lastError));
  }
}
