/**
 * The authentication modal: a login form, a signup form with a five-rule
 * password-strength meter, a forgot-password form, an "email sent" screen
 * and a reset-password form, sharing one `view`, `loading` flag and `error`
 * message. There is no server: each submission waits on a timer and then
 * applies fixed mock rules.
 *
 * A submission and the timer it sets are two events here: `...Submit` runs
 * the synchronous checks and sets `loading`, `...Done` is the timer firing
 * with the form values the handler captured.
 */
module Auth {
  import opened Wrappers
  import opened Lists

  datatype View = Login | Signup | ForgotPassword | ResetPassword | EmailSent

  /** The two modes the modal may be opened in. */
  datatype Mode = LoginMode | SignupMode

  function ModeView(m: Mode): View {
    match m
    case LoginMode => Login
    case SignupMode => Signup
  }

  const MismatchError := "Passwords do not match."
  const RequirementsError := "Please meet all password requirements."
  const RulesError := "You must agree to the Responsible Usage rules."
  const ReusedError := "Cannot reuse previous passwords."
  const TakenError := "This email is already registered."
  const InvalidCredentials := "Invalid credentials."
  /** The reset form's mismatch message, which has no final period. */
  const ResetMismatchError := "Passwords do not match"

  /** The mock history and uniqueness data. */
  const PreviousSignupPassword := "Password123!"
  const RegisteredEmail := "test@example.com"
  const PreviousResetPassword := "OldPassword1!"
  const LoginFailMarker := "error"

  const MinLength := 8

  // The five password rules of the signup form.
  predicate HasMinLength(p: string) { |p| >= MinLength }
  predicate HasUpper(p: string) { exists i :: 0 <= i < |p| && 'A' <= p[i] <= 'Z' }
  predicate HasLower(p: string) { exists i :: 0 <= i < |p| && 'a' <= p[i] <= 'z' }
  predicate HasDigit(p: string) { exists i :: 0 <= i < |p| && '0' <= p[i] <= '9' }
  predicate IsAlnum(c: char) { 'A' <= c <= 'Z' || 'a' <= c <= 'z' || '0' <= c <= '9' }
  predicate HasSpecial(p: string) { exists i :: 0 <= i < |p| && !IsAlnum(p[i]) }

  predicate AllRulesMet(p: string) {
    HasMinLength(p) && HasUpper(p) && HasLower(p) && HasDigit(p) && HasSpecial(p)
  }

  /** How many entries of `bs` are true, as `filter(Boolean).length` counts them. */
  function CountTrue(bs: seq<bool>): (n: nat)
    ensures n <= |bs|
    ensures n == |bs| <==> forall i :: 0 <= i < |bs| ==> bs[i]
  {
    if bs == [] then 0
    else
      var rest := CountTrue(bs[1..]);
      assert bs == [bs[0]] + bs[1..];
      assert multiset(bs) == multiset{bs[0]} + multiset(bs[1..]);
      assert (forall i :: 0 <= i < |bs| ==> bs[i]) <==> bs[0] && forall i :: 0 <= i < |bs[1..]| ==> bs[1..][i] by {
        if forall i :: 0 <= i < |bs[1..]| ==> bs[1..][i] {
          forall i | 1 <= i < |bs| ensures bs[i] { assert bs[i] == bs[1..][i - 1]; }
        }
      }
      (if bs[0] then 1 else 0) + rest
  }

  /** The count is the number of occurrences of `true`, whatever the list. */
  lemma {:induction false} CountTrueCounts(bs: seq<bool>)
    ensures CountTrue(bs) == multiset(bs)[true]
  {
    if bs != [] {
      CountTrueCounts(bs[1..]);
      assert bs == [bs[0]] + bs[1..];
      assert multiset(bs) == multiset{bs[0]} + multiset(bs[1..]);
    }
  }

  /** 1 for a rule that holds, 0 for one that does not. */
  function Score(b: bool): nat {
    if b then 1 else 0
  }

  /** Five rule outcomes count as the sum of their scores. */
  lemma CountFive(a: bool, b: bool, c: bool, d: bool, e: bool)
    ensures CountTrue([a, b, c, d, e]) == Score(a) + Score(b) + Score(c) + Score(d) + Score(e)
  {
    assert [e][1..] == [];
    assert CountTrue([e]) == Score(e);
    assert [d, e][1..] == [e];
    assert CountTrue([d, e]) == Score(d) + Score(e);
    assert [c, d, e][1..] == [d, e];
    assert CountTrue([c, d, e]) == Score(c) + Score(d) + Score(e);
    assert [b, c, d, e][1..] == [c, d, e];
    assert CountTrue([b, c, d, e]) == Score(b) + Score(c) + Score(d) + Score(e);
    assert [a, b, c, d, e][1..] == [b, c, d, e];
  }

  /** The strength meter's value: the number of the five rules the password meets. */
  function Strength(p: string): (n: nat)
    ensures n == Score(HasMinLength(p)) + Score(HasUpper(p)) + Score(HasLower(p)) + Score(HasDigit(p)) + Score(HasSpecial(p))
    ensures n <= 5
    ensures n == 5 <==> AllRulesMet(p)
  {
    CountFive(HasMinLength(p), HasUpper(p), HasLower(p), HasDigit(p), HasSpecial(p));
    CountTrue([HasMinLength(p), HasUpper(p), HasLower(p), HasDigit(p), HasSpecial(p)])
  }

  /** The look of one of the meter's five bars. */
  datatype Bar = Unlit | Rose | Emerald

  /** Bar `s` (1 to 5): lit once the strength reaches `s`, emerald only at full strength. */
  function MeterBar(strength: nat, s: int): Bar {
    if strength >= s then (if strength == 5 then Emerald else Rose) else Unlit
  }

  /** The meter under the password field: one lit bar per rule met, all emerald exactly when every rule holds. */
  function Meter(p: string): (bars: seq<Bar>)
    ensures |bars| == 5
    ensures forall i :: 0 <= i < 5 ==> (bars[i] != Unlit <==> i + 1 <= Strength(p))
    ensures forall i :: 0 <= i < 5 ==> (bars[i] == Emerald <==> AllRulesMet(p))
  {
    seq(5, i requires 0 <= i < 5 => MeterBar(Strength(p), i + 1))
  }

  /** Eight lower-case letters meet two rules and light two rose bars. */
  lemma LowerCaseMeter()
    ensures Strength("abcdefgh") == 2
    ensures Meter("abcdefgh") == [Rose, Rose, Unlit, Unlit, Unlit]
  {
    var p := "abcdefgh";
    assert 'a' <= p[0] <= 'z';
    assert !HasUpper(p) && !HasDigit(p) && !HasSpecial(p) by {
      forall i | 0 <= i < |p| ensures 'a' <= p[i] <= 'z' { }
    }
  }

  /** The password the mock history rejects on signup meets every strength rule. */
  lemma PreviousSignupPasswordIsStrong()
    ensures Strength(PreviousSignupPassword) == 5
  {
    var p := PreviousSignupPassword;
    assert 'A' <= p[0] <= 'Z' && 'a' <= p[1] <= 'z' && '0' <= p[8] <= '9' && !IsAlnum(p[11]);
  }

  /** The fields of the signup form when it is submitted. */
  datatype SignupForm = SignupForm(
    name: string, email: string, password: string, confirm: string, rules: bool)

  /** The synchronous signup checks, in order: confirmation, strength, rules box. */
  function SignupCheck(f: SignupForm): (r: Option<string>)
    ensures r.None? <==> f.password == f.confirm && AllRulesMet(f.password) && f.rules
    ensures f.password != f.confirm ==> r == Some(MismatchError)
    ensures f.password == f.confirm && !AllRulesMet(f.password) ==> r == Some(RequirementsError)
    ensures f.password == f.confirm && AllRulesMet(f.password) && !f.rules ==> r == Some(RulesError)
  {
    if f.password != f.confirm then Some(MismatchError)
    else if Strength(f.password) < 5 then Some(RequirementsError)
    else if !f.rules then Some(RulesError)
    else None
  }

  /** The result of the mock back end. */
  datatype Outcome = Rejected(error: string) | Accepted

  /** The signup timer: the reused password is reported before the taken email. */
  function SignupMock(f: SignupForm): (r: Outcome)
    ensures r.Accepted? <==> f.password != PreviousSignupPassword && f.email != RegisteredEmail
    ensures f.password == PreviousSignupPassword ==> r == Rejected(ReusedError)
    ensures f.password != PreviousSignupPassword && f.email == RegisteredEmail ==> r == Rejected(TakenError)
  {
    if f.password == PreviousSignupPassword then Rejected(ReusedError)
    else if f.email == RegisteredEmail then Rejected(TakenError)
    else Accepted
  }

  /** The login timer: any address containing "error" is refused. */
  function LoginMock(email: string): (r: Outcome)
    ensures r.Rejected? <==> exists i :: OccursAt(email, LoginFailMarker, i)
    ensures r.Rejected? ==> r.error == InvalidCredentials
  {
    if Contains(email, LoginFailMarker) then Rejected(InvalidCredentials) else Accepted
  }

  /** The reset checks: confirmation, then the mock history; no strength rule. */
  function ResetCheck(pass: string, confirm: string): (r: Option<string>)
    ensures r.None? <==> pass == confirm && pass != PreviousResetPassword
    ensures pass != confirm ==> r == Some(ResetMismatchError)
    ensures pass == confirm && pass == PreviousResetPassword ==> r == Some(ReusedError)
  {
    if pass != confirm then Some(ResetMismatchError)
    else if pass == PreviousResetPassword then Some(ReusedError)
    else None
  }

  /** A reset accepts passwords that signup would refuse as weak. */
  lemma ResetIgnoresStrength()
    ensures ResetCheck("a", "a").None?
    ensures SignupCheck(SignupForm("", "", "a", "a", true)) == Some(RequirementsError)
  {
    assert !HasMinLength("a");
  }

  /** What the modal holds itself; the forms' field values live in the submit events. */
  datatype AuthState = AuthState(view: View, loading: bool, error: Option<string>)

  /** A callback to the parent fired by an event. */
  datatype Signal = Quiet | LoginSucceeded | SignupSucceeded

  datatype Reaction = Reaction(state: AuthState, signal: Signal)

  datatype Event =
    | Opened(mode: Mode)
    | Follow(target: View)
    | LoginSubmit
    | LoginDone(email: string)
    | SignupSubmit(form: SignupForm)
    | SignupDone(form: SignupForm)
    | ForgotSubmit
    | ForgotDone
    | ResetSubmit(pass: string, confirm: string)
    | ResetDone

  /** The links each view shows. */
  predicate Links(from: View, to: View) {
    match from
    case Login => to == ForgotPassword || to == Signup
    case Signup => to == Login
    case ForgotPassword => to == Login
    case EmailSent => to == Login || to == ResetPassword
    case ResetPassword => false
  }

  /**
   * One event. Submit buttons are disabled while loading, and each form
   * exists only on its own view; timers fire whatever the current view is.
   * Following a link does not clear the shared error.
   */
  function Step(s: AuthState, e: Event): Reaction {
    match e
    case Opened(m) => Reaction(AuthState(ModeView(m), false, None), Quiet)
    case Follow(t) => Reaction(if Links(s.view, t) then s.(view := t) else s, Quiet)
    case LoginSubmit =>
      Reaction(if s.view == Login && !s.loading then s.(loading := true, error := None) else s, Quiet)
    case LoginDone(email) =>
      (match LoginMock(email)
       case Rejected(msg) => Reaction(s.(loading := false, error := Some(msg)), Quiet)
       case Accepted => Reaction(s.(loading := false), LoginSucceeded))
    case SignupSubmit(f) =>
      if s.view != Signup || s.loading then Reaction(s, Quiet)
      else
        (match SignupCheck(f)
         case Some(msg) => Reaction(s.(error := Some(msg)), Quiet)
         case None => Reaction(s.(loading := true, error := None), Quiet))
    case SignupDone(f) =>
      (match SignupMock(f)
       case Rejected(msg) => Reaction(s.(loading := false, error := Some(msg)), Quiet)
       case Accepted => Reaction(s.(loading := false), SignupSucceeded))
    case ForgotSubmit =>
      Reaction(if s.view == ForgotPassword && !s.loading then s.(loading := true) else s, Quiet)
    case ForgotDone => Reaction(s.(loading := false, view := EmailSent), Quiet)
    case ResetSubmit(p, c) =>
      if s.view != ResetPassword || s.loading then Reaction(s, Quiet)
      else
        (match ResetCheck(p, c)
         case Some(msg) => Reaction(s.(error := Some(msg)), Quiet)
         case None => Reaction(s.(loading := true, error := None), Quiet))
    case ResetDone => Reaction(s.(loading := false, view := Login), Quiet)
  }

  /** Whether `e` is the timer set by a submission. */
  predicate IsTimer(e: Event) {
    e.LoginDone? || e.SignupDone? || e.ForgotDone? || e.ResetDone?
  }

  /** Opening always shows the requested form, clean and idle. */
  lemma OpenedResets(s: AuthState, m: Mode)
    ensures Step(s, Opened(m)).state == AuthState(ModeView(m), false, None)
  {
  }

  /** Only a completed forgot-password request reaches the "email sent" screen. */
  lemma {:induction false} EmailSentOnlyAfterRequest(s: AuthState, e: Event)
    requires s.view != EmailSent && Step(s, e).state.view == EmailSent
    ensures e == ForgotDone
  {
  }

  /** The reset form is reached only from the "email sent" screen's link. */
  lemma {:induction false} ResetOnlyFromEmailSent(s: AuthState, e: Event)
    requires s.view != ResetPassword && Step(s, e).state.view == ResetPassword
    ensures s.view == EmailSent && e == Follow(ResetPassword)
  {
  }

  /** Signup reaches the parent exactly for a form that passes every check, local and mock. */
  lemma SignupSucceedsExactly(s: AuthState, f: SignupForm)
    requires s.view == Signup && !s.loading
    ensures var r := Step(Step(s, SignupSubmit(f)).state, SignupDone(f));
      (SignupCheck(f).None? && r.signal == SignupSucceeded) <==>
        f.password == f.confirm && Strength(f.password) == 5 && f.rules
        && f.password != PreviousSignupPassword && f.email != RegisteredEmail
  {
  }

  /** A failed local check leaves the form idle with the first failing message on show. */
  lemma SignupErrorKeepsIdle(s: AuthState, f: SignupForm)
    requires s.view == Signup && !s.loading && SignupCheck(f).Some?
    ensures Step(s, SignupSubmit(f)).state == s.(error := SignupCheck(f))
    ensures f.password != f.confirm ==> Step(s, SignupSubmit(f)).state.error == Some(MismatchError)
  {
  }

  /** Login succeeds exactly when the address does not contain "error", and then clears loading. */
  lemma {:induction false} LoginRoundTrip(s: AuthState, email: string)
    requires s.view == Login && !s.loading
    ensures var r := Step(Step(s, LoginSubmit).state, LoginDone(email));
      && !r.state.loading
      && (r.signal == LoginSucceeded <==> !Contains(email, LoginFailMarker))
      && (r.signal == Quiet ==> r.state.error == Some(InvalidCredentials))
  {
  }

  /** A successful reset lands on the login form. */
  lemma {:induction false} ResetRoundTrip(s: AuthState, p: string)
    requires s.view == ResetPassword && !s.loading && p != PreviousResetPassword
    ensures Step(Step(s, ResetSubmit(p, p)).state, ResetDone).state == AuthState(Login, false, None)
  {
  }

  /** Every timer clears `loading`; no other event except a submission sets it. */
  lemma {:induction false} LoadingOnlyWhileWaiting(s: AuthState, e: Event)
    ensures IsTimer(e) ==> !Step(s, e).state.loading
    ensures !s.loading && Step(s, e).state.loading ==> e.LoginSubmit? || e.SignupSubmit? || e.ForgotSubmit? || e.ResetSubmit?
  {
  }

  class AuthModalView {
    var view: View
    var loading: bool
    var error: Option<string>

    function State(): AuthState
      reads this
    {
      AuthState(view, loading, error)
    }

    constructor (initialMode: Mode)
      ensures State() == AuthState(ModeView(initialMode), false, None)
    {
      view := ModeView(initialMode);
      loading := false;
      error := None;
    }

    /** One event; the result is the parent callback it fires, if any. */
    method Handle(e: Event) returns (signal: Signal)
      modifies this
      ensures Reaction(State(), signal) == Step(old(State()), e)
    {
      signal := Quiet;
      match e {
        case Opened(m) =>
          view := ModeView(m);
          error := None;
          loading := false;
        case Follow(t) =>
          if Links(view, t) { view := t; }
        case LoginSubmit =>
          if view == Login && !loading {
            loading := true;
            error := None;
          }
        case LoginDone(email) =>
          loading := false;
          if Contains(email, LoginFailMarker) {
            error := Some(InvalidCredentials);
          } else {
            signal := LoginSucceeded;
          }
        case SignupSubmit(f) =>
          if view == Signup && !loading {
            if f.password != f.confirm {
              error := Some(MismatchError);
              return;
            }
            if Strength(f.password) < 5 {
              error := Some(RequirementsError);
              return;
            }
            if !f.rules {
              error := Some(RulesError);
              return;
            }
            loading := true;
            error := None;
          }
        case SignupDone(f) =>
          loading := false;
          if f.password == PreviousSignupPassword {
            error := Some(ReusedError);
          } else if f.email == RegisteredEmail {
            error := Some(TakenError);
          } else {
            signal := SignupSucceeded;
          }
        case ForgotSubmit =>
          if view == ForgotPassword && !loading { loading := true; }
        case ForgotDone =>
          loading := false;
          view := EmailSent;
        case ResetSubmit(p, c) =>
          if view == ResetPassword && !loading {
            if p != c {
              error := Some(ResetMismatchError);
              return;
            }
            if p == PreviousResetPassword {
              error := Some(ReusedError);
              return;
            }
            loading := true;
            error := None;
          }
        case ResetDone =>
          loading := false;
          view := Login;
      }
    }
  }
}
