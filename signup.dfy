/** The sign-up screen (app/signUp.js): four checks run in a fixed order,
    the first failure alone deciding the alert, and `register` called only
    when all pass. */
module SignUp {
  import opened Js
  import opened Api
  import opened Text
  import opened Ui
  import Session

  // ---- the email rule ----

  /** `[^\s@]`: neither JavaScript whitespace nor '@'. */
  predicate PlainChar(c: char) {
    !IsJsWhitespace(c) && c != '@'
  }

  predicate AllPlain(s: string) {
    forall k :: 0 <= k < |s| ==> PlainChar(s[k])
  }

  /** A match of `^[^\s@]+@[^\s@]+\.[^\s@]+$` with the '@' at `i` and the
      matched '.' at `j`: every other character is plain, at least one comes
      before the '@', between the '@' and the '.', and after the '.'. */
  predicate EmailSplit(e: string, i: int, j: int) {
    && 1 <= i && i + 2 <= j && j + 2 <= |e|
    && e[i] == '@' && e[j] == '.'
    && (forall k :: 0 <= k < |e| && k != i ==> PlainChar(e[k]))
  }

  /** `emailRegex.test(email)`. */
  predicate EmailPattern(e: string) {
    exists i, j :: 0 <= i < j < |e| && EmailSplit(e, i, j)
  }

  /** The first index of `c` in `s`. */
  function IndexOf(s: string, c: char): (r: nat)
    requires c in s
    ensures r < |s| && s[r] == c && c !in s[..r]
    decreases |s|
  {
    if s[0] == c then 0
    else
      var r := 1 + IndexOf(s[1..], c);
      assert s[..r] == [s[0]] + s[1..][..r - 1];
      r
  }

  /** The same rule read off the string directly: a non-empty plain local
      part, an '@', and a plain domain with a '.' that is neither its first
      nor its last character. */
  predicate EmailShape(e: string) {
    && '@' in e
    && var i := IndexOf(e, '@');
    && i >= 1 && AllPlain(e[..i])
    && var d := e[i + 1..];
    && |d| >= 3 && AllPlain(d) && '.' in d[1..|d| - 1]
  }

  /** The direct reading agrees with the regular expression, both ways. */
  lemma EmailShapeMatchesPattern(e: string)
    ensures EmailShape(e) <==> EmailPattern(e)
  {
    if EmailShape(e) {
      ShapeGivesPattern(e);
    }
    if EmailPattern(e) {
      PatternGivesShape(e);
    }
  }

  lemma ShapeGivesPattern(e: string)
    requires EmailShape(e)
    ensures EmailPattern(e)
  {
    var i := IndexOf(e, '@');
    var d := e[i + 1..];
    var m :| 0 <= m < |d[1..|d| - 1]| && d[1..|d| - 1][m] == '.';
    var j := i + 2 + m;
    assert e[j] == '.';
    forall k | 0 <= k < |e| && k != i
      ensures PlainChar(e[k])
    {
      if k < i {
        assert e[k] == e[..i][k];
      } else {
        assert e[k] == d[k - i - 1];
      }
    }
    assert EmailSplit(e, i, j);
  }

  lemma PatternGivesShape(e: string)
    requires EmailPattern(e)
    ensures EmailShape(e)
  {
    var i, j :| 0 <= i < j < |e| && EmailSplit(e, i, j);
    assert '@' in e;
    var i' := IndexOf(e, '@');
    assert e[i'] == '@';
    assert i' == i;
    var local := e[..i];
    forall k | 0 <= k < |local| ensures PlainChar(local[k]) {
      assert local[k] == e[k];
    }
    var d := e[i + 1..];
    forall k | 0 <= k < |d| ensures PlainChar(d[k]) {
      assert d[k] == e[i + 1 + k];
    }
    assert d[1..|d| - 1][j - i - 2] == '.';
  }

  /** An accepted email holds exactly one '@'. */
  lemma EmailPatternHasOneAt(e: string)
    requires EmailPattern(e)
    ensures multiset(e)['@'] == 1
  {
    var i, j :| 0 <= i < j < |e| && EmailSplit(e, i, j);
    assert e == e[..i] + [e[i]] + e[i + 1..];
    assert '@' !in e[..i] by {
      forall k | 0 <= k < i ensures e[..i][k] != '@' {
        assert e[..i][k] == e[k];
      }
    }
    var rest := e[i + 1..];
    assert '@' !in rest by {
      forall k | 0 <= k < |rest| ensures rest[k] != '@' {
        assert rest[k] == e[i + 1 + k];
      }
    }
    assert multiset(e) == multiset(e[..i]) + multiset{'@'} + multiset(e[i + 1..]);
  }

  // ---- the validation chain ----

  datatype Check = Incomplete | BadEmail | TooShort | Mismatch | Valid

  /** The four checks in order: every field filled, email shape, a password
      of at least 6 UTF-16 code units, and the confirmation equal to it. */
  function Validate(email: string, name: string, password: string, confirm: string): (c: Check)
    ensures c == Incomplete <==> email == "" || name == "" || password == "" || confirm == ""
    ensures c == BadEmail <==>
      email != "" && name != "" && password != "" && confirm != "" && !EmailPattern(email)
    ensures c == TooShort <==>
      email != "" && name != "" && password != "" && confirm != "" && EmailPattern(email)
      && Utf16Length(password) < 6
    ensures c == Mismatch <==>
      email != "" && name != "" && password != "" && confirm != "" && EmailPattern(email)
      && Utf16Length(password) >= 6 && password != confirm
    ensures c == Valid <==>
      email != "" && name != "" && EmailPattern(email) && Utf16Length(password) >= 6 && password == confirm
  {
    EmailShapeMatchesPattern(email);
    if email == "" || name == "" || password == "" || confirm == "" then Incomplete
    else if !EmailShape(email) then BadEmail
    else if Utf16Length(password) < 6 then TooShort
    else if password != confirm then Mismatch
    else Valid
  }

  /** A valid form's email has exactly one '@' and its password at least six characters. */
  lemma ValidForm(email: string, name: string, password: string, confirm: string)
    requires Validate(email, name, password, confirm) == Valid
    ensures multiset(email)['@'] == 1
    ensures |password| >= 3 && password == confirm
  {
    EmailPatternHasOneAt(email);
    Utf16LengthBounds(password);
  }

  /** The alert each failed check raises; none of them can be mistaken for
      the outcome of a register call. */
  function CheckAlert(c: Check): (a: Alert)
    requires c != Valid
    ensures a.title != RegisteredAlert.title && a.title != RegisterFailedAlert.title
  {
    match c
    case Incomplete => Notice("Data Belum Lengkap", "Semua kolom harus diisi!")
    case BadEmail => Notice("Format Email Salah", "Masukkan alamat email yang valid!")
    case TooShort => Notice("Kata Sandi Terlalu Pendek", "Kata sandi harus memiliki minimal 6 karakter!")
    case Mismatch => Notice("Kata Sandi Tidak Cocok", "Konfirmasi kata sandi harus sama dengan kata sandi!")
  }

  /** Every failed check has its own alert. */
  lemma CheckAlertInjective(a: Check, b: Check)
    requires a != Valid && b != Valid
    ensures CheckAlert(a) == CheckAlert(b) <==> a == b
  {
  }

  const RegisteredAlert := Notice("Registrasi Berhasil", "Silakan login dengan akun Anda!")
  const RegisterFailedAlert := Notice("Registrasi Gagal", "Coba lagi, pastikan datanya benar!")

  /** handleRegister. `registerCall` is the argument triple passed to
      `register`, if it was called; `resp`, `writeFails` and `loginResp` are
      what that call meets. */
  method HandleRegister(session: Session.Store, email: string, name: string, password: string, confirm: string,
                        resp: Fetch<Value>, writeFails: bool, loginResp: Fetch<Value>)
    returns (registerCall: Option<(string, string, string)>, alert: Alert, nav: Navigation)
    modifies session
    ensures Validate(email, name, password, confirm) != Valid ==>
      && registerCall == None && session.Current() == old(session.Current())
      && alert == CheckAlert(Validate(email, name, password, confirm)) && nav == Stay
    ensures Validate(email, name, password, confirm) == Valid ==>
      && registerCall == Some((email, password, name))
      && var t := Session.RegisterStep(old(session.Current()), resp, writeFails, loginResp);
      && session.Current() == t.next
      && (t.completion.Returned? ==> alert == RegisteredAlert && nav == Replace("/login"))
      && (t.completion.Threw? ==> alert == RegisterFailedAlert && nav == Stay)
  {
    var check := Validate(email, name, password, confirm);
    if check != Valid {
      return None, CheckAlert(check), Stay;
    }
    registerCall := Some((email, password, name));
    var c := session.Register(email, password, name, resp, writeFails, loginResp);
    if c.Threw? {
      alert, nav := RegisterFailedAlert, Stay;
    } else {
      alert, nav := RegisteredAlert, Replace("/login");
    }
  }
}
