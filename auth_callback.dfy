/** The OAuth / e-mail-link callback (`GET /auth/callback`): it turns the query into a
    redirect, exchanging the code for a session and making sure the user has a profile on
    the way. The backend's answers are parameters; the backend calls the handler makes are
    returned in order, with what they send. */
module AuthCallback {
  import opened Wrappers
  import opened Records
  import opened UriEncoding
  import CreateProfile

  /** The query parameters the handler reads (`searchParams.get` gives `null` when absent). */
  datatype Query = Query(code: Option<string>, error: Option<string>, errorDescription: Option<string>)

  /** `user_metadata` as the identity provider fills it. */
  datatype Metadata = Metadata(fullName: Option<string>, name: Option<string>, avatarUrl: Option<string>)

  datatype User = User(id: string, email: Option<string>, metadata: Metadata)

  /** How the code exchange ended: a session (with or without a user), an `error` object, or
      an exception thrown by it; or the set-up before it (`cookies()`, creating the client)
      threw, so that the exchange was never called. */
  datatype Exchange =
    | Exchanged(user: Option<User>)
    | ExchangeFailed(message: string)
    | ExchangeThrew
    | SetupThrew

  /** A backend call the handler makes, with the values it sends. */
  datatype Call =
    | ExchangeCode(code: string)
    | SelectProfile(id: string)
    | AdminCreateUser(id: string, email: Option<string>, fullName: string, avatarUrl: string)
    | InsertProfile(id: string, name: Option<string>, avatar: Option<string>)

  /** Where the handler redirects (a path on the request's origin), the calls it made, and
      whether it logged the profile check's error as an error. */
  datatype Reply = Reply(location: string, calls: seq<Call>, checkErrorLogged: bool)

  /** A JavaScript truthy string: present and not empty. */
  predicate Truthy(v: Option<string>)
  {
    v.Some? && v.value != ""
  }

  /** `a || b` on strings. */
  function Or(a: Option<string>, b: Option<string>): Option<string>
  {
    if Truthy(a) then a else b
  }

  const LoginError := "/login?error="
  const NoCode := "no_code"
  const AuthException := "auth_exception"

  /** The profile check and creation for a signed-in user: the select, then the admin call
      when no profile came back, then the direct insert when the admin call returned an
      error. A thrown exception ends the sequence. */
  function ProfileCalls(u: User, lookup: CreateProfile.Lookup, admin: Outcome): seq<Call>
  {
    var m := u.metadata;
    [SelectProfile(u.id)]
    + if lookup.LookupThrew? || lookup.found then []
      else
        [AdminCreateUser(u.id, u.email, Or(Or(m.fullName, m.name), Some("")).value,
                         Or(m.avatarUrl, Some("")).value)]
        + if admin.Failed? then [InsertProfile(u.id, Or(Or(m.fullName, m.name), u.email), m.avatarUrl)]
          else []
  }

  /** `GET(request)`. */
  function Callback(q: Query, exchange: Exchange, lookup: CreateProfile.Lookup, admin: Outcome): Reply
  {
    if Truthy(q.error) then
      Reply(LoginError + Encode(Or(q.errorDescription, q.error).value), [], false)
    else if !Truthy(q.code) then Reply(LoginError + NoCode, [], false)
    else
      var call := [ExchangeCode(q.code.value)];
      match exchange
      case SetupThrew => Reply(LoginError + AuthException, [], false)
      case ExchangeThrew => Reply(LoginError + AuthException, call, false)
      case ExchangeFailed(message) => Reply(LoginError + Encode(message), call, false)
      case Exchanged(user) =>
        if user.None? then Reply("/dashboard", call, false)
        else
          Reply("/dashboard", call + ProfileCalls(user.value, lookup, admin),
                  lookup.Lookup? && lookup.errorCode.Some?
                  && lookup.errorCode.value != CreateProfile.NotFoundCode)
  }

  /** The value of the `error` parameter of a login redirect, with its escapes undone once
      (`searchParams.get("error")`, which agrees with `decodeURIComponent` on every parameter
      this handler writes); `None` when the location is not a login redirect. */
  function ErrorParam(location: string): Option<string>
  {
    if LoginError <= location then Decode(location[|LoginError|..]) else None
  }

  /** The parameter of a login redirect carrying `message` decodes once to exactly
      `message`, and holds no character that could end it. */
  lemma LoginRedirectReadsBack(message: string)
    ensures ErrorParam(LoginError + Encode(message)) == Some(message)
    ensures forall i :: |LoginError| <= i < |LoginError + Encode(message)| ==>
              Encoded((LoginError + Encode(message))[i])
  {
    DecodeEncode(message);
    EncodeIsSafe(message);
    AfterPrefix(LoginError, Encode(message));
  }

  lemma AfterPrefix(p: string, t: string)
    ensures p <= p + t && (p + t)[|p|..] == t
    ensures forall i :: |p| <= i < |p + t| ==> (p + t)[i] == t[i - |p|]
  {
  }

  /** The fixed messages need no escapes. */
  lemma FixedMessagesPlain()
    ensures Encode(NoCode) == NoCode && Encode(AuthException) == AuthException
  {
    assert forall i :: 0 <= i < |NoCode| ==> Unreserved(NoCode[i]);
    EncodeUnreserved(NoCode);
    assert forall i :: 0 <= i < |AuthException| ==> Unreserved(AuthException[i]);
    EncodeUnreserved(AuthException);
  }

  /** An `error` parameter wins over everything else: no backend call, and the login
      redirect carries `error_description`, or `error` when the description is absent or
      empty. */
  lemma ProviderErrorWins(q: Query, exchange: Exchange, lookup: CreateProfile.Lookup, admin: Outcome)
    requires Truthy(q.error)
    ensures var r := Callback(q, exchange, lookup, admin);
            && r.calls == []
            && ErrorParam(r.location)
               == Some(if Truthy(q.errorDescription) then q.errorDescription.value else q.error.value)
  {
    LoginRedirectReadsBack(Or(q.errorDescription, q.error).value);
  }

  /** Without an error and without a code, the login redirect carries "no_code" and
      nothing is called. */
  lemma MissingCode(q: Query, exchange: Exchange, lookup: CreateProfile.Lookup, admin: Outcome)
    requires !Truthy(q.error) && !Truthy(q.code)
    ensures var r := Callback(q, exchange, lookup, admin);
            r.calls == [] && ErrorParam(r.location) == Some(NoCode)
  {
    FixedMessagesPlain();
    LoginRedirectReadsBack(NoCode);
  }

  /** A failed exchange puts its message in the login redirect; an exception puts
      "auth_exception". The exchange was the only call, or no call was made when the
      set-up threw before it. */
  lemma ExchangeProblems(q: Query, exchange: Exchange, lookup: CreateProfile.Lookup, admin: Outcome)
    requires !Truthy(q.error) && Truthy(q.code) && !exchange.Exchanged?
    ensures var r := Callback(q, exchange, lookup, admin);
            && r.calls == (if exchange.SetupThrew? then [] else [ExchangeCode(q.code.value)])
            && ErrorParam(r.location)
               == Some(if exchange.ExchangeFailed? then exchange.message else AuthException)
  {
    if exchange.ExchangeFailed? {
      LoginRedirectReadsBack(exchange.message);
    } else {
      FixedMessagesPlain();
      LoginRedirectReadsBack(AuthException);
    }
  }

  /** Once the code is exchanged the handler always lands on the dashboard: whatever the
      profile check and creation return or throw, the location is the same. */
  lemma SessionGoesToDashboard(q: Query, user: Option<User>, lookup: CreateProfile.Lookup, admin: Outcome,
                               lookup': CreateProfile.Lookup, admin': Outcome)
    requires !Truthy(q.error) && Truthy(q.code)
    ensures Callback(q, Exchanged(user), lookup, admin).location == "/dashboard"
    ensures Callback(q, Exchanged(user), lookup, admin).location
            == Callback(q, Exchanged(user), lookup', admin').location
    ensures ErrorParam(Callback(q, Exchanged(user), lookup, admin).location).None?
  {
    assert !(LoginError <= "/dashboard") by {
      assert LoginError[1] != "/dashboard"[1];
    }
  }

  /** The direct insert is made exactly when a signed-in user's profile check came back
      empty without throwing and the admin call returned an error. */
  lemma DirectInsertOnlyAfterAdminError(q: Query, exchange: Exchange, lookup: CreateProfile.Lookup, admin: Outcome)
    ensures var calls := Callback(q, exchange, lookup, admin).calls;
            (exists i :: 0 <= i < |calls| && calls[i].InsertProfile?)
            <==> && !Truthy(q.error) && Truthy(q.code)
                 && exchange.Exchanged? && exchange.user.Some?
                 && lookup.Lookup? && !lookup.found && admin.Failed?
  {
    var calls := Callback(q, exchange, lookup, admin).calls;
    if exists i :: 0 <= i < |calls| && calls[i].InsertProfile? {
      var i :| 0 <= i < |calls| && calls[i].InsertProfile?;
      assert i == 3;
    }
    if && !Truthy(q.error) && Truthy(q.code) && exchange.Exchanged? && exchange.user.Some?
       && lookup.Lookup? && !lookup.found && admin.Failed? {
      assert calls[3].InsertProfile?;
    }
  }

  /** The kind of call the `i`-th step of the full sequence makes. */
  predicate StepKind(c: Call, i: nat)
  {
    match i
    case 0 => c.ExchangeCode?
    case 1 => c.SelectProfile?
    case 2 => c.AdminCreateUser?
    case _ => i == 3 && c.InsertProfile?
  }

  /** The calls follow the fixed order exchange, select, admin create, direct insert, each
      at most once, stopping early where the handler does; the profile calls are about the
      exchanged user. */
  lemma CallOrder(q: Query, exchange: Exchange, lookup: CreateProfile.Lookup, admin: Outcome)
    ensures var calls := Callback(q, exchange, lookup, admin).calls;
            && |calls| <= 4
            && (forall i :: 0 <= i < |calls| ==> StepKind(calls[i], i))
            && (forall i :: 1 <= i < |calls| ==> calls[i].id == exchange.user.value.id)
  {
  }

  /** "No row" (PGRST116) from the profile check is not an error: it is not logged as one,
      and the handler goes on exactly as when the check returns no error. */
  lemma NotFoundIsNoError(q: Query, user: Option<User>, admin: Outcome)
    requires !Truthy(q.error) && Truthy(q.code)
    ensures var r := Callback(q, Exchanged(user), CreateProfile.Lookup(false, Some(CreateProfile.NotFoundCode)), admin);
            && !r.checkErrorLogged
            && r == Callback(q, Exchanged(user), CreateProfile.Lookup(false, None), admin)
  {
  }
}
