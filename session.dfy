/** The session store (context/UserContext.js): the persisted "token" slot,
    the in-memory `user` and the `loading` flag, and the four operations that
    change them. Each operation is given once as a step function on `State`
    and once as a method of `Store` that performs it field by field; every
    method's postcondition is that it takes exactly that step. Responses and
    the outcome of each storage write are inputs. */
module Session {
  import opened Js
  import opened Api

  datatype State = State(storage: map<string, string>, user: Value, loading: bool)

  /** How an async operation ends: with a value, or by throwing to its caller. */
  datatype Completion = Returned(value: Value) | Threw

  datatype Step = Step(next: State, completion: Completion)

  /** `useState(null)` for the user and `useState(true)` for loading, over
      whatever the device already stores. */
  function Initial(storage: map<string, string>): (s: State)
    ensures s.storage == storage && s.user == Null && s.loading
  {
    State(storage, Null, true)
  }

  /** The three states a screen distinguishes: still loading the session,
      signed in, or signed out. */
  datatype Phase = Unknown | Authenticated | Anonymous

  function PhaseOf(s: State): (p: Phase)
    ensures p == Unknown <==> s.loading
    ensures p == Authenticated <==> !s.loading && Truthy(s.user)
    ensures p == Anonymous <==> !s.loading && !Truthy(s.user)
  {
    if s.loading then Unknown else if Truthy(s.user) then Authenticated else Anonymous
  }

  /** `AsyncStorage.setItem("token", v)`: the library refuses a value that is
      not a string, and `fails` stands for any other storage failure. */
  predicate WriteSucceeds(v: Value, fails: bool) {
    !fails && v.Str?
  }

  // ---- getProfile ----

  /** The headers getProfile passes with its profile request. */
  function ProfileHeaders(token: string): (h: map<string, string>)
    ensures h.Keys == {AuthorizationHeader} && h[AuthorizationHeader] == BearerValue(token)
  {
    map[AuthorizationHeader := BearerValue(token)]
  }

  /** The profile request getProfile issues, if any: only when the storage
      read succeeds and yields a non-empty token. */
  function ProfileRequest(s: State, readFails: bool): (r: Option<map<string, string>>)
    ensures r.Some? <==> !readFails && HasToken(StoredToken(s.storage))
    ensures r.Some? ==> r.value == ProfileHeaders(StoredToken(s.storage).value)
  {
    var token := StoredToken(s.storage);
    if readFails || !HasToken(token) then None else Some(ProfileHeaders(token.value))
  }

  /** The user getProfile ends with: `res.data.user || res.data` after a
      successful profile request, and null on every other path (no token, a
      failed storage read, a failed request, or a null body). */
  function ProfileUser(s: State, readFails: bool, resp: Fetch<Value>): (u: Value)
    ensures ProfileRequest(s, readFails).None? || resp.Rejected? ==> u == Null
    ensures Nullish(u) ==> u == Null
  {
    if ProfileRequest(s, readFails).None? then Null
    else match resp
      case Rejected(_) => Null
      case Resolved(body) => if Nullish(body) then Null else Or(Prop(body, "user"), body)
  }

  /** getProfile: the storage is only read, the user becomes the profile
      user, and loading ends on every path. */
  function ProfileStep(s: State, readFails: bool, resp: Fetch<Value>): (t: State)
    ensures t.storage == s.storage && !t.loading
    ensures PhaseOf(t) == Authenticated <==> Truthy(ProfileUser(s, readFails, resp))
  {
    State(s.storage, ProfileUser(s, readFails, resp), false)
  }

  // ---- login ----

  /** `res.data.data?.token || res.data.token`: the nested token wins when truthy. */
  function LoginToken(body: Value): (t: Value)
    requires !Nullish(body)
  {
    Or(OptMember(Prop(body, "data"), "token"), Prop(body, "token"))
  }

  /** `res.data.user || res.data.data?.user`: here the top-level user wins. */
  function LoginUser(body: Value): (u: Value)
    requires !Nullish(body)
  {
    Or(Prop(body, "user"), OptMember(Prop(body, "data"), "user"))
  }

  /** login: a rejected request, a null body or a refused storage write throw
      with nothing changed; otherwise the token is stored, then the user set,
      and the body returned. */
  function LoginStep(s: State, resp: Fetch<Value>, writeFails: bool): (t: Step)
    ensures t.next.loading == s.loading
    ensures t.completion.Threw? ==> t.next == s
    ensures t.completion.Returned? ==>
      && resp.Resolved? && t.completion.value == resp.body
      && TokenKey in t.next.storage && t.next.storage - {TokenKey} == s.storage - {TokenKey}
  {
    match resp
    case Rejected(_) => Step(s, Threw)
    case Resolved(body) =>
      if Nullish(body) || !WriteSucceeds(LoginToken(body), writeFails) then Step(s, Threw)
      else Step(State(s.storage[TokenKey := LoginToken(body).s], LoginUser(body), s.loading), Returned(body))
  }

  // ---- register ----

  /** register: without a truthy top-level token it returns whatever login does
      (with the login request's own response); otherwise it stores that token,
      sets the user to `res.data.user` and returns the body. */
  function RegisterStep(s: State, resp: Fetch<Value>, writeFails: bool, loginResp: Fetch<Value>): (t: Step)
    ensures t.next.loading == s.loading
    ensures t.completion.Threw? ==> t.next == s
    ensures t.completion.Returned? ==>
      TokenKey in t.next.storage && t.next.storage - {TokenKey} == s.storage - {TokenKey}
  {
    match resp
    case Rejected(_) => Step(s, Threw)
    case Resolved(body) =>
      if Nullish(body) then Step(s, Threw)
      else if !Truthy(Prop(body, "token")) then LoginStep(s, loginResp, writeFails)
      else if !WriteSucceeds(Prop(body, "token"), writeFails) then Step(s, Threw)
      else Step(State(s.storage[TokenKey := Prop(body, "token").s], Prop(body, "user"), s.loading), Returned(body))
  }

  // ---- logout ----

  /** logout: the token slot is removed and then the user cleared; a failed
      removal throws before the user is touched. */
  function LogoutStep(s: State, removeFails: bool): (t: Step)
    ensures t.next.loading == s.loading
    ensures t.completion.Threw? <==> removeFails
    ensures t.completion.Threw? ==> t.next == s
    ensures t.completion.Returned? ==> TokenKey !in t.next.storage && t.next.user == Null
  {
    if removeFails then Step(s, Threw)
    else Step(State(s.storage - {TokenKey}, Null, s.loading), Returned(Undefined))
  }

  // ---- properties ----

  /** With no usable token getProfile issues no request, ignores whatever a
      response would have been, clears the user, and still ends loading. */
  lemma ProfileWithoutToken(s: State, resp: Fetch<Value>, other: Fetch<Value>)
    requires !HasToken(StoredToken(s.storage))
    ensures ProfileRequest(s, false).None?
    ensures ProfileStep(s, false, resp) == ProfileStep(s, false, other)
    ensures ProfileStep(s, false, resp) == State(s.storage, Null, false)
  {
  }

  /** After a profile request: the body's `user` when truthy, else the whole
      body; any failure clears the user. getProfile never changes storage and
      always ends with loading false. */
  lemma ProfileOutcome(s: State, readFails: bool, resp: Fetch<Value>)
    ensures ProfileStep(s, readFails, resp).storage == s.storage
    ensures !ProfileStep(s, readFails, resp).loading
    ensures PhaseOf(ProfileStep(s, readFails, resp)) != Unknown
    ensures ProfileRequest(s, readFails).Some? && resp.Resolved? && !Nullish(resp.body) ==>
      ProfileStep(s, readFails, resp).user ==
        (if Truthy(Prop(resp.body, "user")) then Prop(resp.body, "user") else resp.body)
    ensures resp.Rejected? || readFails ==> ProfileStep(s, readFails, resp).user == Null
  {
  }

  /** The header getProfile supplies and the one the interceptor writes agree,
      so the outgoing profile request carries "Bearer " + the stored token. */
  lemma ProfileHeaderAgreesWithInterceptor(s: State)
    requires ProfileRequest(s, false).Some?
    ensures WithBearer(RequestHeaders(ProfileRequest(s, false).value), StoredToken(s.storage))
      == RequestHeaders(ProfileRequest(s, false).value)
    ensures RequestHeaders(ProfileRequest(s, false).value)[AuthorizationHeader]
      == BearerValue(s.storage[TokenKey])
  {
  }

  /** A successful login stores the nested token when it is truthy and the
      top-level one otherwise, while for the user the top-level value wins. */
  lemma LoginPrecedence(s: State, body: Value, writeFails: bool)
    requires !Nullish(body)
    requires LoginStep(s, Resolved(body), writeFails).completion.Returned?
    ensures var nested := OptMember(Prop(body, "data"), "token");
      Str(LoginStep(s, Resolved(body), writeFails).next.storage[TokenKey])
        == (if Truthy(nested) then nested else Prop(body, "token"))
    ensures var top := Prop(body, "user");
      LoginStep(s, Resolved(body), writeFails).next.user
        == (if Truthy(top) then top else OptMember(Prop(body, "data"), "user"))
    ensures LoginStep(s, Resolved(body), writeFails).next.storage - {TokenKey} == s.storage - {TokenKey}
  {
  }

  /** A failing login (rejected request, null body, refused write) propagates
      the error and changes neither the stored token nor the user. */
  lemma LoginFailureChangesNothing(s: State, resp: Fetch<Value>, writeFails: bool)
    requires LoginStep(s, resp, writeFails).completion.Threw?
    ensures LoginStep(s, resp, writeFails).next == s
  {
  }

  /** A register response without a truthy top-level token ends in exactly the
      state and result that login with the same credentials produces. */
  lemma RegisterFallsBackToLogin(s: State, body: Value, writeFails: bool, loginResp: Fetch<Value>)
    requires !Nullish(body) && !Truthy(Prop(body, "token"))
    ensures RegisterStep(s, Resolved(body), writeFails, loginResp) == LoginStep(s, loginResp, writeFails)
  {
  }

  /** register reads only the top-level token: replacing the nested `data`
      object of its response changes nothing when a top-level token is present,
      and when none is the outcome is login's, whatever `data` held. */
  lemma RegisterIgnoresNestedData(s: State, fields: map<string, Value>, d: Value, writeFails: bool, loginResp: Fetch<Value>)
    ensures RegisterStep(s, Resolved(Obj(fields)), writeFails, loginResp).next
      == RegisterStep(s, Resolved(Obj(fields["data" := d])), writeFails, loginResp).next
  {
    var body, body' := Obj(fields), Obj(fields["data" := d]);
    assert Prop(body, "token") == Prop(body', "token");
    assert Prop(body, "user") == Prop(body', "user");
  }

  /** A register response with a truthy string token stores it and sets the
      user to the response's `user`, without calling login. */
  lemma RegisterWithToken(s: State, body: Value, loginResp: Fetch<Value>)
    requires !Nullish(body) && Truthy(Prop(body, "token")) && Prop(body, "token").Str?
    ensures RegisterStep(s, Resolved(body), false, loginResp)
      == Step(State(s.storage[TokenKey := Prop(body, "token").s], Prop(body, "user"), s.loading), Returned(body))
  {
  }

  /** A logout whose removal succeeds leaves no token and no user, so the
      signed-out phase follows once loading is over. A failed removal leaves the
      session as it was, including the user. */
  lemma LogoutOutcome(s: State)
    ensures TokenKey !in LogoutStep(s, false).next.storage
    ensures LogoutStep(s, false).next.user == Null
    ensures LogoutStep(s, false).next.storage == s.storage - {TokenKey}
    ensures !s.loading ==> PhaseOf(LogoutStep(s, false).next) == Anonymous
    ensures LogoutStep(s, true) == Step(s, Threw)
  {
  }

  /** Only getProfile touches `loading`; login, register and logout keep it. */
  lemma OnlyProfileTouchesLoading(s: State, resp: Fetch<Value>, writeFails: bool, loginResp: Fetch<Value>, removeFails: bool)
    ensures LoginStep(s, resp, writeFails).next.loading == s.loading
    ensures RegisterStep(s, resp, writeFails, loginResp).next.loading == s.loading
    ensures LogoutStep(s, removeFails).next.loading == s.loading
  {
  }

  /** After logout, the next request goes out without an Authorization header
      being added. */
  lemma LogoutThenUnauthenticated(s: State, headers: map<string, string>)
    ensures WithBearer(headers, StoredToken(LogoutStep(s, false).next.storage)) == headers
  {
  }

  /** The store as the provider holds it. */
  class Store {
    var storage: map<string, string>
    var user: Value
    var loading: bool

    function Current(): (s: State)
      reads this
    {
      State(storage, user, loading)
    }

    constructor (persisted: map<string, string>)
      ensures Current() == Initial(persisted)
    {
      storage := persisted;
      user := Null;
      loading := true;
    }

    /** getProfile: returns the headers of the profile request it issued, if any. */
    method GetProfile(readFails: bool, resp: Fetch<Value>) returns (request: Option<map<string, string>>)
      modifies this
      ensures Current() == ProfileStep(old(Current()), readFails, resp)
      ensures request == ProfileRequest(old(Current()), readFails)
    {
      request := None;
      if readFails {
        user := Null;          // the catch block
      } else {
        var token := StoredToken(storage);
        if !(token.Some? && token.value != "") {
          user := Null;        // the early return; finally still runs
        } else {
          request := Some(ProfileHeaders(token.value));
          match resp {
            case Rejected(_) =>
              user := Null;
            case Resolved(body) =>
              if Nullish(body) {
                user := Null;  // reading `res.data.user` throws
              } else {
                user := Or(Prop(body, "user"), body);
              }
          }
        }
      }
      loading := false;
    }

    method Login(email: string, password: string, resp: Fetch<Value>, writeFails: bool) returns (c: Completion)
      modifies this
      ensures Step(Current(), c) == LoginStep(old(Current()), resp, writeFails)
    {
      if resp.Rejected? {
        return Threw;
      }
      var body := resp.body;
      if Nullish(body) {
        return Threw;
      }
      var token := Or(OptMember(Prop(body, "data"), "token"), Prop(body, "token"));
      if writeFails || !token.Str? {
        return Threw;
      }
      storage := storage[TokenKey := token.s];
      user := Or(Prop(body, "user"), OptMember(Prop(body, "data"), "user"));
      c := Returned(body);
    }

    method Register(email: string, password: string, displayName: string,
                    resp: Fetch<Value>, writeFails: bool, loginResp: Fetch<Value>) returns (c: Completion)
      modifies this
      ensures Step(Current(), c) == RegisterStep(old(Current()), resp, writeFails, loginResp)
    {
      if resp.Rejected? {
        return Threw;
      }
      var body := resp.body;
      if Nullish(body) {
        return Threw;
      }
      var token := Prop(body, "token");
      if !Truthy(token) {
        c := Login(email, password, loginResp, writeFails);
        return;
      }
      if writeFails || !token.Str? {
        return Threw;
      }
      storage := storage[TokenKey := token.s];
      user := Prop(body, "user");
      c := Returned(body);
    }

    method Logout(removeFails: bool) returns (c: Completion)
      modifies this
      ensures Step(Current(), c) == LogoutStep(old(Current()), removeFails)
    {
      if removeFails {
        return Threw;
      }
      storage := storage - {TokenKey};
      user := Null;
      c := Returned(Undefined);
    }
  }
}
