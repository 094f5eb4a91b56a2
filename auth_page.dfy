/** The sign-in page: the login/register toggle, the email check, the
    ordered checks of the two forms, and what `authenticateUser` and
    `registerUser` decide from the backend's answer, including their offline
    fallbacks. The request itself is not modelled: its outcome is the
    parameter `reply`. */
module AuthPage {
  import opened Text

  datatype Mode = Login | Register

  function Flip(m: Mode): (r: Mode)
    ensures r != m
  {
    if m == Login then Register else Login
  }

  /** Toggling twice shows the form first shown. */
  lemma FlipTwice(m: Mode)
    ensures Flip(Flip(m)) == m
  {
  }

  /** The page's `currentAuthMode`. */
  class AuthForms {
    var mode: Mode

    constructor ()
      ensures mode == Login
    {
      mode := Login;
    }

    /** `toggleAuth`: the other form becomes the active one. */
    method Toggle()
      modifies this
      ensures mode == Flip(old(mode))
    {
      if mode == Login {
        mode := Register;
      } else {
        mode := Login;
      }
    }
  }

  // ------------------------------------------------------------ the email check

  /** A character `[^\s@]` matches. */
  predicate Plain(c: char) {
    !IsSpace(c) && c != '@'
  }

  predicate AllPlain(s: string) {
    forall i | 0 <= i < |s| :: Plain(s[i])
  }

  /** The index of the first '@', or the length when there is none. */
  function FirstAt(s: string): (r: nat)
    ensures r <= |s| && '@' !in s[..r]
    ensures r < |s| ==> s[r] == '@'
  {
    if s == [] || s[0] == '@' then 0
    else
      var k := FirstAt(s[1..]);
      assert s[..k + 1] == [s[0]] + s[1..][..k];
      k + 1
  }

  /** The domain half of the pattern, `[^\s@]+\.[^\s@]+$`, tried with the
      '.' at index `i` and then further right, as the matcher backtracks.
      The characters before `i` but the last have already matched. */
  function DomainFrom(d: string, i: nat): bool
    requires i >= 1
    decreases |d| - i
  {
    if i + 1 >= |d| || !Plain(d[i - 1]) then false
    else if d[i] == '.' && AllPlain(d[i + 1..]) then true
    else DomainFrom(d, i + 1)
  }

  /** `isValidEmail`: `/^[^\s@]+@[^\s@]+\.[^\s@]+$/.test(email)`. The local
      part cannot hold an '@', so it ends at the first one. */
  function IsValidEmail(email: string): bool {
    var p := FirstAt(email);
    && 1 <= p < |email|
    && AllPlain(email[..p])
    && DomainFrom(email[p + 1..], 1)
  }

  /** The shape the pattern accepts, stated without the matcher: no white
      space; exactly one '@', not first; after it, a '.' that is neither the
      first nor the last character. */
  predicate EmailShape(email: string) {
    && NoSpace(email)
    && exists p | 0 < p < |email| ::
         && email[p] == '@'
         && '@' !in email[..p] && '@' !in email[p + 1..]
         && exists k | p + 1 < k < |email| - 1 :: email[k] == '.'
  }

  /** The matcher accepts a domain exactly when it is plain and has a '.'
      with plain text on both sides. */
  lemma {:induction false} DomainFromIff(d: string, i: nat)
    requires 1 <= i <= |d| + 1 && AllPlain(d[..i - 1])
    ensures DomainFrom(d, i) <==> AllPlain(d) && exists k | i <= k < |d| - 1 :: d[k] == '.'
    decreases |d| - i
  {
    if i + 1 >= |d| {
    } else if !Plain(d[i - 1]) {
      assert !AllPlain(d) by { assert !Plain(d[i - 1]); }
    } else {
      assert AllPlain(d[..i]) by {
        forall j | 0 <= j < i ensures Plain(d[j]) {
          if j < i - 1 { assert d[..i - 1][j] == d[j]; }
        }
      }
      if d[i] == '.' && AllPlain(d[i + 1..]) {
        assert AllPlain(d) by {
          forall j | 0 <= j < |d| ensures Plain(d[j]) {
            if j < i { assert d[..i][j] == d[j]; }
            else if j > i { assert d[i + 1..][j - i - 1] == d[j]; }
          }
        }
      } else {
        DomainFromIff(d, i + 1);
      }
    }
  }

  /** The matcher and the shape agree on every string, both ways. */
  lemma EmailCheckIff(email: string)
    ensures IsValidEmail(email) <==> EmailShape(email)
  {
    var p := FirstAt(email);
    if p < |email| {
      var d := email[p + 1..];
      DomainFromIff(d, 1);
      if IsValidEmail(email) {
        assert NoSpace(email) by {
          forall j | 0 <= j < |email| ensures !IsSpace(email[j]) {
            if j < p { assert email[..p][j] == email[j]; }
            else if j > p { assert d[j - p - 1] == email[j]; }
          }
        }
        assert '@' !in d by {
          forall j | 0 <= j < |d| ensures d[j] != '@' { assert Plain(d[j]); }
        }
        var k :| 1 <= k < |d| - 1 && d[k] == '.';
        assert email[p + 1 + k] == '.';
      }
      if EmailShape(email) {
        var q :| 0 < q < |email| && email[q] == '@' && '@' !in email[..q] && '@' !in email[q + 1..]
                 && exists k | q + 1 < k < |email| - 1 :: email[k] == '.';
        assert q == p;
        assert AllPlain(email[..p]) by {
          forall j | 0 <= j < p ensures Plain(email[..p][j]) {
            assert email[..p][j] == email[j];
          }
        }
        assert AllPlain(d) by {
          forall j | 0 <= j < |d| ensures Plain(d[j]) {
            assert d[j] == email[p + 1 + j];
          }
        }
        var k :| q + 1 < k < |email| - 1 && email[k] == '.';
        assert d[k - p - 1] == '.';
      }
    }
  }

  // ------------------------------------------------------------ the form checks

  /** The outcome of a form's checks: go on to the request, or stop with a message. */
  datatype Check = Proceed | Reject(message: string)

  const FillIn: string := "Please fill in all fields"
  const BadEmail: string := "Please enter a valid email address"
  const Mismatch: string := "Passwords do not match"
  const TooShort: string := "Password must be at least 6 characters long"

  /** The login form's checks, in order: both fields filled (the email
      trimmed), then the email's shape. */
  function CheckLogin(rawEmail: string, password: string): (r: Check)
    ensures r == Reject(FillIn) <==> Trim(rawEmail) == [] || password == []
    ensures r == Reject(BadEmail) <==> Trim(rawEmail) != [] && password != [] && !EmailShape(Trim(rawEmail))
    ensures r == Proceed <==> password != [] && EmailShape(Trim(rawEmail))
  {
    var email := Trim(rawEmail);
    EmailCheckIff(email);
    if email == [] || password == [] then Reject(FillIn)
    else if !IsValidEmail(email) then Reject(BadEmail)
    else Proceed
  }

  /** The register form's checks, in order: all four fields filled (name
      and email trimmed), the email's shape, the confirmation equal to the
      password, the password at least six characters long. */
  function CheckRegister(rawName: string, rawEmail: string, password: string, confirm: string): (r: Check)
    ensures r == Proceed <==>
              && Trim(rawName) != [] && password != []
              && EmailShape(Trim(rawEmail)) && password == confirm && |password| >= 6
    ensures r == Reject(FillIn) <==> Trim(rawName) == [] || Trim(rawEmail) == [] || password == [] || confirm == []
    ensures r == Reject(BadEmail) <==>
              && Trim(rawName) != [] && Trim(rawEmail) != [] && password != [] && confirm != []
              && !EmailShape(Trim(rawEmail))
    ensures r == Reject(Mismatch) <==>
              && Trim(rawName) != [] && password != [] && confirm != []
              && EmailShape(Trim(rawEmail)) && password != confirm
    ensures r == Reject(TooShort) <==>
              && Trim(rawName) != [] && password != []
              && EmailShape(Trim(rawEmail)) && password == confirm && |password| < 6
    ensures r.Reject? ==> r.message in {FillIn, BadEmail, Mismatch, TooShort}
  {
    var name, email := Trim(rawName), Trim(rawEmail);
    EmailCheckIff(email);
    if name == [] || email == [] || password == [] || confirm == [] then Reject(FillIn)
    else if !IsValidEmail(email) then Reject(BadEmail)
    else if password != confirm then Reject(Mismatch)
    else if |password| < 6 then Reject(TooShort)
    else Proceed
  }

  /** An email of white space alone counts as an empty field. */
  lemma BlankEmailIsEmpty(rawEmail: string, password: string)
    requires AllSpace(rawEmail)
    ensures CheckLogin(rawEmail, password) == Reject(FillIn)
  {
    TrimEmptyIff(rawEmail);
  }

  /** A mismatch is reported before a short password: once the fields are
      filled and the email has its shape, differing passwords are a
      mismatch whatever their length. */
  lemma MismatchBeforeLength(rawName: string, rawEmail: string, password: string, confirm: string)
    requires Trim(rawName) != [] && EmailShape(Trim(rawEmail)) && password != [] && confirm != []
    requires password != confirm
    ensures CheckRegister(rawName, rawEmail, password, confirm) == Reject(Mismatch)
  {
    var email := Trim(rawEmail);
    EmailCheckIff(email);
    assert email != [];
  }

  // ------------------------------------------------------------ requests and fallbacks

  /** The user a successful sign-in stores. */
  datatype LocalUser = LocalUser(id: string, name: string, email: string)

  /** What the backend request came to: it threw (no server, or a body that
      is not JSON), the server accepted, or the server refused, with the
      `message` of its body if any. */
  datatype Reply = Unreachable | Accepted(user: LocalUser, token: string) | Declined(message: string)

  datatype AuthResult = Success(user: LocalUser, token: string) | Failure(message: string)

  const DemoEmail: string := "demo@fittracker.com"
  const DemoPassword: string := "demo123"
  const OfflineRefusal: string := "Invalid email or password. Try demo@fittracker.com / demo123"

  /** `authenticateUser`: the server's answer when there is one; offline,
      only the demo account signs in, with the token 'demo-token'. A refusal
      without a message reads 'Login failed'. */
  function AuthenticateUser(email: string, password: string, reply: Reply): (r: AuthResult)
    ensures reply.Accepted? ==> r == Success(reply.user, reply.token)
    ensures reply.Declined? ==> r == Failure(if reply.message == "" then "Login failed" else reply.message)
    ensures reply.Unreachable? ==> (r.Success? <==> email == DemoEmail && password == DemoPassword)
    ensures reply.Unreachable? && r.Success? ==> r == Success(LocalUser("demo-user", "Demo User", DemoEmail), "demo-token")
    ensures reply.Unreachable? && r.Failure? ==> r.message == OfflineRefusal
    ensures r.Failure? ==> r.message != ""
  {
    match reply
    case Accepted(user, token) => Success(user, token)
    case Declined(message) => Failure(if message == "" then "Login failed" else message)
    case Unreachable =>
      if email == DemoEmail && password == DemoPassword then
        Success(LocalUser("demo-user", "Demo User", email), "demo-token")
      else Failure(OfflineRefusal)
  }

  /** `registerUser`: the server's answer when there is one; offline, the
      registration always succeeds locally, with the token 'local-token' and
      the time as the user's id. */
  function RegisterUser(name: string, email: string, reply: Reply, now: int): (r: AuthResult)
    ensures reply.Accepted? ==> r == Success(reply.user, reply.token)
    ensures reply.Declined? ==> r == Failure(if reply.message == "" then "Registration failed" else reply.message)
    ensures reply.Unreachable? ==> r == Success(LocalUser(IntString(now), name, email), "local-token")
    ensures r.Failure? ==> reply.Declined? && r.message != ""
  {
    match reply
    case Accepted(user, token) => Success(user, token)
    case Declined(message) => Failure(if message == "" then "Registration failed" else message)
    case Unreachable => Success(LocalUser(IntString(now), name, email), "local-token")
  }

  /** What a submit ends in: stopped by a check before any request, signed
      in, or refused with the message shown. */
  datatype Outcome = Stopped(message: string) | SignedIn(user: LocalUser, token: string) | Refused(message: string)

  /** The login form's submit handler: the checks, then `authenticateUser`
      with the trimmed email. */
  function SubmitLogin(rawEmail: string, password: string, reply: Reply): (r: Outcome)
    ensures r.Stopped? <==> CheckLogin(rawEmail, password).Reject?
    ensures CheckLogin(rawEmail, password).Reject? ==> r == Stopped(CheckLogin(rawEmail, password).message)
    ensures r.SignedIn? ==> password != [] && EmailShape(Trim(rawEmail))
    ensures !r.Stopped? && reply.Accepted? ==> r == SignedIn(reply.user, reply.token)
    ensures !r.Stopped? && reply.Declined? ==> r == Refused(if reply.message == "" then "Login failed" else reply.message)
    ensures !r.Stopped? && reply.Unreachable? ==> (r.SignedIn? <==> Trim(rawEmail) == DemoEmail && password == DemoPassword)
    ensures !r.Stopped? && reply.Unreachable? && !r.SignedIn? ==> r == Refused(OfflineRefusal)
  {
    match CheckLogin(rawEmail, password)
    case Reject(message) => Stopped(message)
    case Proceed =>
      match AuthenticateUser(Trim(rawEmail), password, reply)
      case Success(user, token) => SignedIn(user, token)
      case Failure(message) => Refused(message)
  }

  /** The register form's submit handler: the checks, then `registerUser`
      with the trimmed name and email. */
  function SubmitRegister(rawName: string, rawEmail: string, password: string, confirm: string,
                          reply: Reply, now: int): (r: Outcome)
    ensures r.Stopped? <==> CheckRegister(rawName, rawEmail, password, confirm).Reject?
    ensures CheckRegister(rawName, rawEmail, password, confirm).Reject? ==>
              r == Stopped(CheckRegister(rawName, rawEmail, password, confirm).message)
    ensures !r.Stopped? && reply.Accepted? ==> r == SignedIn(reply.user, reply.token)
    ensures !r.Stopped? && reply.Declined? ==> r == Refused(if reply.message == "" then "Registration failed" else reply.message)
    ensures !r.Stopped? ==> password == confirm && |password| >= 6 && EmailShape(Trim(rawEmail))
    ensures reply.Unreachable? && !r.Stopped? ==> r == SignedIn(LocalUser(IntString(now), Trim(rawName), Trim(rawEmail)), "local-token")
  {
    match CheckRegister(rawName, rawEmail, password, confirm)
    case Reject(message) => Stopped(message)
    case Proceed =>
      match RegisterUser(Trim(rawName), Trim(rawEmail), reply, now)
      case Success(user, token) => SignedIn(user, token)
      case Failure(message) => Refused(message)
  }

  /** A submit the checks stop sends nothing: its outcome is the same
      whatever the backend would have answered. */
  lemma StoppedSendsNothing(rawEmail: string, password: string, a: Reply, b: Reply)
    requires SubmitLogin(rawEmail, password, a).Stopped?
    ensures SubmitLogin(rawEmail, password, a) == SubmitLogin(rawEmail, password, b)
  {
  }

  /** The demo address has the shape of an email. */
  lemma DemoEmailShape()
    ensures EmailShape(DemoEmail)
  {
    DemoEmailParts();
    DemoEmailNoSpace();
    assert 0 < 4 < |DemoEmail| && 4 + 1 < 15 < |DemoEmail| - 1;
  }

  lemma DemoEmailParts()
    ensures |DemoEmail| == 19 && DemoEmail[4] == '@' && DemoEmail[15] == '.'
    ensures '@' !in DemoEmail[..4] && '@' !in DemoEmail[5..]
  {
    assert DemoEmail[..4] == "demo" && DemoEmail[5..] == "fittracker.com";
  }

  lemma DemoEmailNoSpace()
    ensures NoSpace(DemoEmail)
  {
  }

  /** Offline, a form that passes its checks signs in exactly when it
      holds the demo account, white space around the address aside. */
  lemma LoginOffline(rawEmail: string, password: string)
    requires CheckLogin(rawEmail, password) == Proceed
    ensures SubmitLogin(rawEmail, password, Unreachable).SignedIn? <==>
              Trim(rawEmail) == DemoEmail && password == DemoPassword
    ensures SubmitLogin(rawEmail, password, Unreachable).SignedIn? ==>
              SubmitLogin(rawEmail, password, Unreachable).token == "demo-token"
  {
  }

  /** The demo account passes the login form's checks, so offline it
      signs in. */
  lemma DemoOffline(rawEmail: string)
    requires Trim(rawEmail) == DemoEmail
    ensures SubmitLogin(rawEmail, DemoPassword, Unreachable).SignedIn?
  {
    DemoEmailShape();
    assert DemoPassword != [];
    LoginOffline(rawEmail, DemoPassword);
  }
}
