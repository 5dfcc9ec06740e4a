/** The login screen (app/login.js): login followed by a profile load before
    navigating home, and the forgot-password request with its message
    fallbacks. */
module LoginScreen {
  import opened Js
  import opened Api
  import opened Ui
  import Session

  const LoginFailedAlert := Notice("Login gagal", "Email atau password salah!")

  /** handleLogin: `login`, then `getProfile`, then `router.replace("/")`.
      getProfile catches every failure itself, so the only way to miss the
      navigation is a throwing login, which leaves the session as it was. */
  method HandleLogin(session: Session.Store, email: string, password: string,
                     loginResp: Fetch<Value>, writeFails: bool, readFails: bool, profileResp: Fetch<Value>)
    returns (alert: Option<Alert>, nav: Navigation)
    modifies session
    ensures var t := Session.LoginStep(old(session.Current()), loginResp, writeFails);
      && (t.completion.Threw? ==>
            session.Current() == old(session.Current()) && alert == Some(LoginFailedAlert) && nav == Stay)
      && (t.completion.Returned? ==>
            session.Current() == Session.ProfileStep(t.next, readFails, profileResp)
            && alert == None && nav == Replace("/"))
  {
    var c := session.Login(email, password, loginResp, writeFails);
    if c.Threw? {
      Session.LoginFailureChangesNothing(old(session.Current()), loginResp, writeFails);
      return Some(LoginFailedAlert), Stay;
    }
    var _ := session.GetProfile(readFails, profileResp);
    alert, nav := None, Replace("/");
  }

  /** After a successful login the profile request carries the token login
      just stored, unless that token is empty; and the screen it lands on is
      settled (not loading). */
  lemma LoginFeedsProfile(s: Session.State, loginResp: Fetch<Value>, readFails: bool, profileResp: Fetch<Value>)
    requires Session.LoginStep(s, loginResp, false).completion.Returned?
    ensures var t := Session.LoginStep(s, loginResp, false).next;
      && TokenKey in t.storage
      && (t.storage[TokenKey] != "" ==>
            Session.ProfileRequest(t, false) == Some(Session.ProfileHeaders(t.storage[TokenKey])))
      && Session.PhaseOf(Session.ProfileStep(t, readFails, profileResp)) != Session.Unknown
  {
    var t := Session.LoginStep(s, loginResp, false).next;
    Session.ProfileOutcome(t, readFails, profileResp);
  }

  const EmptyEmailAlert := Notice("Peringatan", "Silakan isi email terlebih dahulu.")
  const ResetSentText := "Link reset password sudah dikirim ke email kamu."
  const GenericErrorText := "Terjadi kesalahan."

  /** What handleForgotPassword sends, if anything, and the alert it shows. */
  datatype ForgotOutcome = ForgotOutcome(request: Option<Value>, alert: Alert)

  /** handleForgotPassword with the given outcome of the request. An empty
      email sends nothing. On success the server's `message` is shown when
      truthy, else the default text. A request error shows
      `err.response.data.message` when present, else the generic text; a
      null success body makes reading `message` throw, landing in the same
      handler with no response attached. */
  function ForgotPassword(email: string, resp: Fetch<Value>): (r: ForgotOutcome)
    ensures r.request.None? <==> email == ""
    ensures r.request.Some? ==> r.request.value == Obj(map["email" := Str(email)])
    ensures email == "" ==> r.alert == EmptyEmailAlert
    ensures r.alert.title == "Berhasil" <==> email != "" && resp.Resolved? && !Nullish(resp.body)
    ensures r.alert.title == "Berhasil" ==>
      r.alert.message == Or(Prop(resp.body, "message"), Str(ResetSentText))
    ensures r.alert.title == "Gagal" <==> email != "" && (resp.Rejected? || Nullish(resp.body))
    ensures email != "" && resp.Rejected? ==>
      r.alert.message == Or(OptPath(resp.error.response, ["data", "message"]), Str(GenericErrorText))
    ensures email != "" && resp.Resolved? && Nullish(resp.body) ==> r.alert.message == Str(GenericErrorText)
    ensures Truthy(r.alert.message)
  {
    if email == "" then ForgotOutcome(None, EmptyEmailAlert)
    else
      var request := Some(Obj(map["email" := Str(email)]));
      match resp
      case Resolved(body) =>
        if Nullish(body) then
          OptPathOfUndefined(["data", "message"]);
          ForgotOutcome(request, Alert("Gagal", Or(OptPath(Undefined, ["data", "message"]), Str(GenericErrorText))))
        else ForgotOutcome(request, Alert("Berhasil", Or(Prop(body, "message"), Str(ResetSentText))))
      case Rejected(err) =>
        ForgotOutcome(request, Alert("Gagal", Or(OptPath(err.response, ["data", "message"]), Str(GenericErrorText))))
  }

  /** A network error (no response at all) always shows the generic text. */
  lemma NetworkErrorIsGeneric(email: string)
    requires email != ""
    ensures ForgotPassword(email, Rejected(HttpError(Undefined))).alert == Notice("Gagal", GenericErrorText)
  {
    OptPathOfUndefined(["data", "message"]);
  }
}
