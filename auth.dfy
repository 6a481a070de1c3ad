/** The sign-in / sign-up page: the passcode generated at sign-up, the
    profile row created on first authentication, and the message, error flag
    and navigation each submission ends with. */
module Auth {
  import opened Common
  import opened Codes

  /** `generatePasscode()`: the shared generator with its default length. */
  function Passcode(rng: RandomSource, pos: nat): string {
    CodeFrom(rng, pos, DefaultLength)
  }

  method GeneratePasscode(rng: RandomSource, pos: nat) returns (passcode: string)
    ensures passcode == Passcode(rng, pos)
    ensures |passcode| == 8 && Spelled(passcode)
  {
    passcode := GenerateCode(rng, pos, DefaultLength);
  }

  /** The `profiles` row `ensureUserProfile` inserts. */
  datatype ProfileRow = ProfileRow(id: string, email: string, fullName: string, avatarUrl: Option<string>)

  /** The `user_passcodes` row sign-up inserts. */
  datatype PasscodeRow = PasscodeRow(userId: string, passcode: string)

  /** `ensureUserProfile()`: `session` is what `auth.getUser()` answers and
      `profileFound` whether the profile lookup returned data. The row it
      inserts, if any: only for a signed-in user without a profile, with that
      user's id and e-mail, an empty name and no avatar. */
  function ProfileToInsert(session: Option<User>, profileFound: bool): (r: Option<ProfileRow>)
    ensures r.Some? <==> session.Some? && !profileFound
    ensures r.Some? ==> r.value.id == session.value.id && r.value.email == session.value.email
    ensures r.Some? ==> r.value.fullName == "" && r.value.avatarUrl.None?
  {
    if session.None? || profileFound then None
    else Some(ProfileRow(session.value.id, session.value.email, "", None))
  }

  /** The reply to `auth.signUp`: an error, or data whose `user` may be
      `null`. */
  datatype SignUpReply = SignUpError(message: string) | SignedUp(user: Option<User>)

  const DashboardRoute: string := "/dashboard"
  const LoggedIn: string := "Logged in successfully!"
  const PasscodeNotSaved: string := "Signup failed: Could not save passcode."
  const Unexpected: string := "Unexpected error, please try again."
  const SignupPrefix: string := "Signup successful! Your unique passcode is "
  const SignupSuffix: string := ". Check your email for confirmation."

  function SignupMessage(passcode: string): string {
    SignupPrefix + passcode + SignupSuffix
  }

  /** The passcode can be read back from the sign-up message. */
  lemma SignupMessageShowsPasscode(passcode: string)
    ensures var m := SignupMessage(passcode);
      |m| == |SignupPrefix| + |passcode| + |SignupSuffix|
      && m[|SignupPrefix|..|SignupPrefix| + |passcode|] == passcode
  {
    var m := SignupMessage(passcode);
    assert m == SignupPrefix + (passcode + SignupSuffix);
    assert m[|SignupPrefix|..] == passcode + SignupSuffix;
    assert (passcode + SignupSuffix)[..|passcode|] == passcode;
  }

  /** Different passcodes give different sign-up messages. */
  lemma SignupMessageInjective(p: string, q: string)
    ensures SignupMessage(p) == SignupMessage(q) <==> p == q
  {
    if SignupMessage(p) == SignupMessage(q) {
      SignupMessageShowsPasscode(p);
      SignupMessageShowsPasscode(q);
    }
  }

  /** What one submission ends with. */
  datatype Outcome = Outcome(
    message: string, isError: bool, route: Option<string>,
    passcodeRow: Option<PasscodeRow>, profileRow: Option<ProfileRow>)

  /** The stores' replies to one submission: to `signInWithPassword` (login
      mode), to `signUp` and the passcode insert (sign-up mode), and to the
      two calls `ensureUserProfile` makes. */
  datatype Replies = Replies(
    signInError: Option<string>, signUp: SignUpReply, passcodeInsertError: Option<string>,
    session: Option<User>, profileFound: bool)

  /** `handleSubmit`, given the mode, the replies and the passcode that would
      be generated. A sign-up whose data has no user reads `null.id`, which
      lands in the catch. */
  function Submit(isLogin: bool, rs: Replies, passcode: string): Outcome {
    if isLogin then
      if rs.signInError.Some? then Outcome(rs.signInError.value, true, None, None, None)
      else Outcome(LoggedIn, false, Some(DashboardRoute), None, ProfileToInsert(rs.session, rs.profileFound))
    else
      match rs.signUp
      case SignUpError(m) => Outcome(m, true, None, None, None)
      case SignedUp(None) => Outcome(Unexpected, true, None, None, None)
      case SignedUp(Some(u)) =>
        var row := Some(PasscodeRow(u.id, passcode));
        if rs.passcodeInsertError.Some? then Outcome(PasscodeNotSaved, true, None, row, None)
        else Outcome(SignupMessage(passcode), false, None, row, ProfileToInsert(rs.session, rs.profileFound))
  }

  /** A successful login or sign-up is exactly what clears the error flag;
      only a successful login navigates, and always to the dashboard. */
  lemma SubmitSucceeds(isLogin: bool, rs: Replies, passcode: string)
    ensures var o := Submit(isLogin, rs, passcode);
      && (!o.isError <==>
            if isLogin then rs.signInError.None?
            else rs.signUp.SignedUp? && rs.signUp.user.Some? && rs.passcodeInsertError.None?)
      && (o.route.Some? <==> isLogin && rs.signInError.None?)
      && (o.route.Some? ==> o.route.value == DashboardRoute)
  {
  }

  /** A passcode row is written exactly for a sign-up that returned a user,
      under that user's id; a profile row only after a success, for a
      signed-in user who has none. Neither is written on login failure. */
  lemma SubmitWrites(isLogin: bool, rs: Replies, passcode: string)
    ensures var o := Submit(isLogin, rs, passcode);
      && (o.passcodeRow.Some? <==> !isLogin && rs.signUp.SignedUp? && rs.signUp.user.Some?)
      && (o.passcodeRow.Some? ==>
            o.passcodeRow.value == PasscodeRow(rs.signUp.user.value.id, passcode))
      && (o.profileRow.Some? ==> !o.isError && o.profileRow == ProfileToInsert(rs.session, rs.profileFound))
      && (!o.isError && rs.session.Some? && !rs.profileFound ==> o.profileRow.Some?)
  {
  }

  /** After a successful sign-up the message shows exactly the passcode that
      was stored. */
  lemma SignupShowsStoredPasscode(rs: Replies, passcode: string)
    requires !Submit(false, rs, passcode).isError
    ensures var o := Submit(false, rs, passcode);
      o.passcodeRow.Some? && o.message == SignupMessage(o.passcodeRow.value.passcode)
      && o.message[|SignupPrefix|..|SignupPrefix| + |passcode|] == o.passcodeRow.value.passcode
  {
    SignupMessageShowsPasscode(passcode);
  }

  /** A failure message is the service's own, or one of the page's two. */
  lemma FailureMessages(isLogin: bool, rs: Replies, passcode: string)
    requires Submit(isLogin, rs, passcode).isError
    ensures var m := Submit(isLogin, rs, passcode).message;
      (isLogin ==> m == rs.signInError.value)
      && (!isLogin ==>
            (rs.signUp.SignUpError? && m == rs.signUp.message) || m == Unexpected || m == PasscodeNotSaved)
  {
  }

  /** The page's state; `route` is where it navigated, if anywhere. */
  class AuthPage {
    var isLogin: bool
    var email: string
    var password: string
    var loading: bool
    var message: string
    var isError: bool
    var showPassword: bool
    var route: Option<string>

    constructor ()
      ensures isLogin && email == "" && password == "" && !loading
      ensures message == "" && !isError && !showPassword && route == None
    {
      isLogin := true;
      email := "";
      password := "";
      loading := false;
      message := "";
      isError := false;
      showPassword := false;
      route := None;
    }

    /** `resetForm`: clears the inputs and the message; keeps the mode. */
    method ResetForm()
      modifies this
      ensures email == "" && password == "" && message == "" && !isError && !showPassword
      ensures isLogin == old(isLogin) && loading == old(loading) && route == old(route)
    {
      email := "";
      password := "";
      message := "";
      isError := false;
      showPassword := false;
    }

    /** `toggleForm`: switches between login and sign-up and resets. */
    method ToggleForm()
      modifies this
      ensures isLogin == !old(isLogin)
      ensures email == "" && password == "" && message == "" && !isError && !showPassword
      ensures loading == old(loading) && route == old(route)
    {
      isLogin := !isLogin;
      ResetForm();
    }

    /** `handleSubmit`, the passcode drawn from `rng` at `pos`. The returned
        rows are the ones written to the store. */
    method HandleSubmit(rs: Replies, rng: RandomSource, pos: nat)
      returns (passcodeRow: Option<PasscodeRow>, profileRow: Option<ProfileRow>)
      modifies this
      ensures var o := Submit(old(isLogin), rs, Passcode(rng, pos));
        && message == o.message && isError == o.isError
        && route == (if o.route.Some? then o.route else old(route))
        && passcodeRow == o.passcodeRow && profileRow == o.profileRow
      ensures !loading && isLogin == old(isLogin) && email == old(email) && password == old(password)
      ensures showPassword == old(showPassword)
    {
      loading := true;
      message := "";
      isError := false;
      passcodeRow, profileRow := None, None;
      if isLogin {
        if rs.signInError.Some? {
          isError := true;
          message := rs.signInError.value;
        } else {
          profileRow := ProfileToInsert(rs.session, rs.profileFound);
          isError := false;
          message := LoggedIn;
          route := Some(DashboardRoute);
        }
      } else if rs.signUp.SignUpError? {
        isError := true;
        message := rs.signUp.message;
      } else if rs.signUp.user.None? {
        isError := true;
        message := Unexpected;
      } else {
        var userId := rs.signUp.user.value.id;
        var passcode := GeneratePasscode(rng, pos);
        passcodeRow := Some(PasscodeRow(userId, passcode));
        if rs.passcodeInsertError.Some? {
          isError := true;
          message := PasscodeNotSaved;
          loading := false;
          return;
        }
        profileRow := ProfileToInsert(rs.session, rs.profileFound);
        isError := false;
        message := SignupMessage(passcode);
      }
      loading := false;
    }
  }
}
