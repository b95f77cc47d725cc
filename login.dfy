/**
 * The login/sign-up screen of the client: the form checks made before any
 * request, the `loading` and form-mode flags, and what a successful login
 * stores (the token, the user record, the authenticated flag).  `fetch`
 * replies are inputs of the handlers; the requests sent are logged.
 */
module Login {
  import opened Wrappers
  import opened Alerts

  // ---------------------------------------------------------------------
  // Profile-image normalisation
  // ---------------------------------------------------------------------

  /** The path the server stores for a user who never set a picture. */
  const DefaultProfileImage := "/Users/Ferdinand/NoName/Recollekt/assets/images/DefProfile.webp"

  /** The text removed from a fetched profile image. */
  const InlinePrefix := "dataimage/jpegbase64"

  /** `pat` occurs in `s` starting at position `i`. */
  predicate OccursAt(s: string, pat: string, i: nat) {
    i + |pat| <= |s| && s[i..i + |pat|] == pat
  }

  /** `s` begins with `pat` (what `startsWith` tests). */
  predicate StartsWith(s: string, pat: string) {
    |pat| <= |s| && s[..|pat|] == pat
  }

  /** Occurrences in `s[1..]` are the occurrences in `s` one position later. */
  lemma OccursShift(s: string, pat: string)
    requires |s| > 0
    ensures forall j: nat :: 0 < j ==> (OccursAt(s, pat, j) <==> OccursAt(s[1..], pat, j - 1))
  {
  }

  /** A position found in `s[1..]`, as a position in `s`. */
  function Later(o: Option<nat>): (r: Option<nat>) {
    match o
    case None => None
    case Some(k) => Some(k + 1)
  }

  /** The first position at which `pat` occurs in `s` (what `indexOf`
      finds), or None. */
  function FirstOccurrence(s: string, pat: string): (r: Option<nat>)
    ensures r.Some? ==> r.value + |pat| <= |s|
    decreases |s|
  {
    if StartsWith(s, pat) then Some(0)
    else if |s| == 0 then None
    else Later(FirstOccurrence(s[1..], pat))
  }

  /** `FirstOccurrence` finds an occurrence with none before it, and finds
      nothing only when `pat` occurs nowhere. */
  lemma {:induction false} FirstOccurrenceIsFirst(s: string, pat: string)
    ensures FirstOccurrence(s, pat).Some? ==> OccursAt(s, pat, FirstOccurrence(s, pat).value)
    ensures FirstOccurrence(s, pat).Some? ==>
              forall j: nat :: j < FirstOccurrence(s, pat).value ==> !OccursAt(s, pat, j)
    ensures FirstOccurrence(s, pat).None? ==> forall j: nat :: !OccursAt(s, pat, j)
    decreases |s|
  {
    if !StartsWith(s, pat) && |s| > 0 {
      FirstOccurrenceIsFirst(s[1..], pat);
      OccursShift(s, pat);
    }
  }

  /** `s.replace(pat, '')` with a string pattern. */
  function RemoveFirst(s: string, pat: string): (r: string)
    ensures |r| <= |s|
    decreases |s|
  {
    if StartsWith(s, pat) then s[|pat|..]
    else if |s| == 0 then []
    else [s[0]] + RemoveFirst(s[1..], pat)
  }

  /** `r` is `s` with the `|pat|` characters at position `i` cut out. */
  predicate CutAt(s: string, pat: string, i: nat, r: string) {
    i + |pat| <= |s| && r == s[..i] + s[i + |pat|..]
  }

  /** The first occurrence of `pat` is cut out, and `s` is returned as it
      is when there is none. */
  lemma {:induction false} RemoveFirstCutsFirst(s: string, pat: string)
    ensures FirstOccurrence(s, pat).None? ==> RemoveFirst(s, pat) == s
    ensures FirstOccurrence(s, pat).Some? ==> CutAt(s, pat, FirstOccurrence(s, pat).value, RemoveFirst(s, pat))
    decreases |s|
  {
    if StartsWith(s, pat) {
      CutAtStart(s, pat);
    } else if |s| > 0 {
      var t := s[1..];
      RemoveFirstCutsFirst(t, pat);
      RemoveFirstUnfold(s, pat);
      FirstOccurrenceUnfold(s, pat);
      CutsFirstStep(s, pat, FirstOccurrence(t, pat), RemoveFirst(t, pat));
    }
  }

  /** The base case: an occurrence at 0 is cut by dropping a prefix. */
  lemma CutAtStart(s: string, pat: string)
    requires StartsWith(s, pat)
    ensures FirstOccurrence(s, pat) == Some(0) && CutAt(s, pat, 0, RemoveFirst(s, pat))
  {
    assert s[..0] + s[|pat|..] == s[|pat|..];
  }

  /** The induction step, stated on the results for `s[1..]`. */
  lemma CutsFirstStep(s: string, pat: string, o: Option<nat>, rt: string)
    requires |s| > 0
    requires o.None? ==> rt == s[1..]
    requires o.Some? ==> CutAt(s[1..], pat, o.value, rt)
    ensures Later(o).None? ==> [s[0]] + rt == s
    ensures Later(o).Some? ==> CutAt(s, pat, Later(o).value, [s[0]] + rt)
  {
    if o.Some? {
      CutShifts(s, pat, o.value, rt);
    } else {
      assert s == [s[0]] + s[1..];
    }
  }

  /** One step of the removal when `s` does not start with `pat`. */
  lemma RemoveFirstUnfold(s: string, pat: string)
    requires |s| > 0 && !StartsWith(s, pat)
    ensures RemoveFirst(s, pat) == [s[0]] + RemoveFirst(s[1..], pat)
  {
  }

  /** One step of the search when `s` does not start with `pat`. */
  lemma FirstOccurrenceUnfold(s: string, pat: string)
    requires |s| > 0 && !StartsWith(s, pat)
    ensures FirstOccurrence(s, pat) == Later(FirstOccurrence(s[1..], pat))
  {
  }

  /** A cut at `k` in `s[1..]`, with `s[0]` put back, is a cut at `k + 1`
      in `s`. */
  lemma CutShifts(s: string, pat: string, k: nat, rt: string)
    requires |s| > 0 && CutAt(s[1..], pat, k, rt)
    ensures CutAt(s, pat, k + 1, [s[0]] + rt)
  {
    var t := s[1..];
    assert s[..k + 1] == [s[0]] + t[..k];
    assert s[k + 1 + |pat|..] == t[k + |pat|..];
  }

  // ---------------------------------------------------------------------
  // Form checks
  // ---------------------------------------------------------------------

  /** The checks made before any request. */
  datatype FormError = FieldsMissing | PasswordsDiffer | CredentialsMissing

  function FormNotice(e: FormError): (n: Notice)
    ensures n.title == "Error"
  {
    match e
    case FieldsMissing => Notice("Error", "Please fill in all fields")
    case PasswordsDiffer => Notice("Error", "Passwords do not match")
    case CredentialsMissing => Notice("Error", "Please enter both username and password")
  }

  /** The sign-up form: every field filled in, then the two passwords equal. */
  function SignUpFormCheck(username: string, password: string, confirmPassword: string): (r: Option<FormError>)
    ensures r == None <==> username != "" && password != "" && confirmPassword != "" && password == confirmPassword
    ensures r == Some(FieldsMissing) <==> username == "" || password == "" || confirmPassword == ""
    ensures r == Some(PasswordsDiffer) <==>
              username != "" && password != "" && confirmPassword != "" && password != confirmPassword
  {
    if username == "" || password == "" || confirmPassword == "" then Some(FieldsMissing)
    else if password != confirmPassword then Some(PasswordsDiffer)
    else None
  }

  /** The login form: both fields filled in. */
  function LoginFormCheck(username: string, password: string): (r: Option<FormError>)
    ensures r == None <==> username != "" && password != ""
    ensures r != None ==> r == Some(CredentialsMissing)
  {
    if username == "" || password == "" then Some(CredentialsMissing) else None
  }

  // ---------------------------------------------------------------------
  // Requests, replies and the user record
  // ---------------------------------------------------------------------

  /** A request sent by the screen. */
  datatype Request =
    | SignUpRequest(username: string, password: string)
    | LoginRequest(username: string, password: string)
    | ProfileImageRequest(url: string)

  /** What the screen does, in order: a change of the `loading` flag, or a
      request sent. */
  datatype Step = LoadingSet(on: bool) | Sent(request: Request)

  /** How `POST /signup` ended: it threw (network or JSON), or the server
      answered with `ok` and the body's `error` field. */
  datatype SignUpReply = SignUpThrew | SignUpAnswered(ok: bool, error: Option<string>)

  /** The fields of an accepted login's body that the screen reads. */
  datatype LoginData = LoginData(token: string, username: Option<string>,
                                 friends: Option<seq<string>>, profileImage: Option<string>)

  /** How `POST /login` ended. */
  datatype LoginReply = LoginThrew | LoginRejected(error: Option<string>) | LoginAccepted(data: LoginData)

  /** How the profile-image fetch ended. */
  datatype ProfileReply = ProfileThrew | ProfileFetched(image: string)

  /** The user kept in the user context. */
  datatype User = User(username: Option<string>, friends: seq<string>, profileImage: string)

  /** The user context's value before any login. */
  const GuestUser := User(Some("Guest"), [], "")

  const SignedUpNotice := Notice("Success", "Account created successfully")

  /** The alert at the end of a sign-up request. */
  function SignUpReplyNotice(reply: SignUpReply): (n: Notice)
    ensures n == SignedUpNotice <==> reply.SignUpAnswered? && reply.ok
    ensures reply.SignUpThrew? ==> n == GenericErrorNotice
    ensures reply.SignUpAnswered? && !reply.ok ==>
              && n.title == "Sign Up Failed"
              && (reply.error.Some? && reply.error.value != "" ==> n.message == reply.error.value)
              && (reply.error.None? || reply.error == Some("") ==> n.message == "Something went wrong")
  {
    match reply
    case SignUpThrew => GenericErrorNotice
    case SignUpAnswered(ok, error) =>
      if ok then SignedUpNotice else Notice("Sign Up Failed", OrElse(error, "Something went wrong"))
  }

  /** The alert of a rejected login. */
  function LoginRejectedNotice(error: Option<string>): (n: Notice)
    ensures n.title == "Login Failed"
    ensures error.Some? && error.value != "" ==> n.message == error.value
    ensures error.None? || error == Some("") ==> n.message == "Invalid credentials"
  {
    Notice("Login Failed", OrElse(error, "Invalid credentials"))
  }

  /** Whether the stored picture has to be fetched: anything but the
      default path, an absent one included. */
  predicate NeedsProfileFetch(profileImage: Option<string>) {
    profileImage != Some(DefaultProfileImage)
  }

  /** The URL parameter of the image request; an absent path is
      interpolated as the text `undefined`. */
  function ProfileImageUrl(profileImage: Option<string>): (url: string)
    ensures profileImage.Some? ==> url == profileImage.value
  {
    match profileImage
    case Some(p) => p
    case None => "undefined"
  }

  /** The picture stored after an accepted login, or None when the image
      request throws: the default path is kept without a request; any
      other path is fetched, and the fetched string loses the first
      occurrence of the inline prefix, if it has one. */
  function ProfileImageAfterLogin(profileImage: Option<string>, profile: ProfileReply): (r: Option<string>)
    ensures !NeedsProfileFetch(profileImage) ==> r == Some(DefaultProfileImage)
    ensures NeedsProfileFetch(profileImage) ==> (r == None <==> profile.ProfileThrew?)
    ensures NeedsProfileFetch(profileImage) && profile.ProfileFetched? ==>
              var image := profile.image;
              && (r.value == image <==> FirstOccurrence(image, InlinePrefix).None?)
              && (r.value != image ==> |r.value| == |image| - |InlinePrefix|)
              && (FirstOccurrence(image, InlinePrefix).Some? ==>
                    CutAt(image, InlinePrefix, FirstOccurrence(image, InlinePrefix).value, r.value))
  {
    if !NeedsProfileFetch(profileImage) then Some(profileImage.value)
    else match profile
      case ProfileThrew => None
      case ProfileFetched(image) =>
        RemoveFirstCutsFirst(image, InlinePrefix);
        Some(RemoveFirst(image, InlinePrefix))
  }

  /** The user record stored after a login, given the picture `img`:
      absent friends become the empty list. */
  function UserRecord(data: LoginData, img: string): (u: User)
    ensures u.username == data.username && u.profileImage == img
    ensures data.friends.None? ==> u.friends == []
    ensures data.friends.Some? ==> u.friends == data.friends.value
  {
    // `img || ''` changes nothing here: `img` is always a string.
    User(data.username, if data.friends.Some? then data.friends.value else [], img)
  }

  /** The picture request an accepted login sends: none for the default
      path, one otherwise. */
  function ProfileRequests(profileImage: Option<string>): (r: seq<Step>)
    ensures |r| <= 1
    ensures r == [] <==> !NeedsProfileFetch(profileImage)
  {
    if NeedsProfileFetch(profileImage) then [Sent(ProfileImageRequest(ProfileImageUrl(profileImage)))] else []
  }

  /** User, authentication flag and alerts after an accepted login, from
      their values before it: the user record with the normalised picture
      and `isAuthenticated` set, or, when the picture request throws, the
      old values and the generic alert. */
  ghost predicate AcceptedLoginState(data: LoginData, profile: ProfileReply,
                                     user0: User, auth0: bool, alerts0: seq<Notice>,
                                     user: User, auth: bool, alerts: seq<Notice>)
  {
    var img := ProfileImageAfterLogin(data.profileImage, profile);
    if img.Some? then user == UserRecord(data, img.value) && auth && alerts == alerts0
    else user == user0 && auth == auth0 && alerts == alerts0 + [GenericErrorNotice]
  }

  // ---------------------------------------------------------------------
  // The screen state
  // ---------------------------------------------------------------------

  /** The form shown: `logorSign` is 0 for the login form, 1 for sign-up. */
  const LoginMode := 0
  const SignUpMode := 1

  class LoginScreen {
    var username: string
    var password: string
    var confirmPassword: string
    var loading: bool
    var mode: int
    /** The user context and the authentication context. */
    var user: User
    var isAuthenticated: bool
    /** The `token` entry of the device storage. */
    var storedToken: Option<string>
    /** Whether the navigation stack was reset to the home tabs. */
    var onHome: bool
    /** Alerts shown, oldest first. */
    var alerts: seq<Notice>
    /** Every `setLoading` call and every request, oldest first. */
    var log: seq<Step>

    /** A fresh screen in login mode, with the contexts at their defaults. */
    constructor (storedToken: Option<string>)
      ensures username == "" && password == "" && confirmPassword == ""
      ensures !loading && mode == LoginMode
      ensures user == GuestUser && !isAuthenticated
      ensures this.storedToken == storedToken && !onHome
      ensures alerts == [] && log == []
    {
      username, password, confirmPassword := "", "", "";
      loading, mode := false, LoginMode;
      user, isAuthenticated := GuestUser, false;
      this.storedToken, onHome := storedToken, false;
      alerts, log := [], [];
    }

    /** The text fields. */
    method EnterUsername(s: string)
      modifies this`username
      ensures username == s
    {
      username := s;
    }

    method EnterPassword(s: string)
      modifies this`password
      ensures password == s
    {
      password := s;
    }

    method EnterConfirmPassword(s: string)
      modifies this`confirmPassword
      ensures confirmPassword == s
    {
      confirmPassword := s;
    }

    /** The buttons that switch between the two forms. */
    method ShowSignUpForm()
      modifies this`mode
      ensures mode == SignUpMode
    {
      mode := SignUpMode;
    }

    method ShowLoginForm()
      modifies this`mode
      ensures mode == LoginMode
    {
      mode := LoginMode;
    }

    /** `handleSignUp`; `reply` is how the request ends if one is sent. */
    method HandleSignUp(reply: SignUpReply)
      modifies this`loading, this`mode, this`alerts, this`log
      ensures SignUpFormCheck(username, password, confirmPassword).Some? ==>
                && alerts == old(alerts) + [FormNotice(SignUpFormCheck(username, password, confirmPassword).value)]
                && log == old(log) && loading == old(loading) && mode == old(mode)
      ensures SignUpFormCheck(username, password, confirmPassword).None? ==>
                && log == old(log) + [LoadingSet(true), Sent(SignUpRequest(username, password)), LoadingSet(false)]
                && !loading
                && alerts == old(alerts) + [SignUpReplyNotice(reply)]
                && mode == if reply.SignUpAnswered? && reply.ok then LoginMode else old(mode)
    {
      var check := SignUpFormCheck(username, password, confirmPassword);
      if check.Some? {
        alerts := alerts + [FormNotice(check.value)];
        return;
      }
      loading := true;
      log := log + [LoadingSet(true), Sent(SignUpRequest(username, password))];
      // try
      if reply.SignUpAnswered? && reply.ok {
        mode := LoginMode;
      }
      alerts := alerts + [SignUpReplyNotice(reply)];
      // finally
      loading := false;
      log := log + [LoadingSet(false)];
    }

    /** `handleLogin`; `reply` is how the login request ends and `profile`
        how the profile-image request ends if one is sent. */
    method HandleLogin(reply: LoginReply, profile: ProfileReply)
      modifies this`loading, this`user, this`isAuthenticated, this`storedToken, this`onHome,
               this`alerts, this`log
      ensures LoginFormCheck(username, password).Some? ==>
                && alerts == old(alerts) + [FormNotice(CredentialsMissing)]
                && log == old(log) && loading == old(loading)
                && user == old(user) && isAuthenticated == old(isAuthenticated)
                && storedToken == old(storedToken) && onHome == old(onHome)
      ensures LoginFormCheck(username, password).None? ==> !loading
      ensures LoginFormCheck(username, password).None? && reply.LoginThrew? ==>
                && log == old(log) + [LoadingSet(true), Sent(LoginRequest(username, password)), LoadingSet(false)]
                && alerts == old(alerts) + [GenericErrorNotice]
                && user == old(user) && isAuthenticated == old(isAuthenticated)
                && storedToken == old(storedToken) && onHome == old(onHome)
      ensures LoginFormCheck(username, password).None? && reply.LoginRejected? ==>
                && log == old(log) + [LoadingSet(true), Sent(LoginRequest(username, password)), LoadingSet(false)]
                && alerts == old(alerts) + [LoginRejectedNotice(reply.error)]
                && user == old(user) && isAuthenticated == old(isAuthenticated)
                && storedToken == old(storedToken) && onHome == old(onHome)
      ensures LoginFormCheck(username, password).None? && reply.LoginAccepted? ==>
                && storedToken == Some(reply.data.token) && onHome
                && log == old(log) + [LoadingSet(true), Sent(LoginRequest(username, password))]
                          + ProfileRequests(reply.data.profileImage) + [LoadingSet(false)]
                && AcceptedLoginState(reply.data, profile, old(user), old(isAuthenticated), old(alerts),
                                      user, isAuthenticated, alerts)
    {
      var check := LoginFormCheck(username, password);
      if check.Some? {
        alerts := alerts + [FormNotice(check.value)];
        return;
      }
      loading := true;
      log := log + [LoadingSet(true), Sent(LoginRequest(username, password))];
      // try
      match reply {
        case LoginThrew =>
          alerts := alerts + [GenericErrorNotice];
        case LoginRejected(error) =>
          alerts := alerts + [LoginRejectedNotice(error)];
        case LoginAccepted(data) =>
          AcceptLogin(data, profile);
      }
      // finally
      loading := false;
      log := log + [LoadingSet(false)];
    }

    /** The `response.ok` branch of `handleLogin`: store the token, go to
        the home tabs, fetch the picture unless it is the default one, then
        set the user and the authenticated flag; a throwing picture request
        ends in the generic alert instead. */
    method AcceptLogin(data: LoginData, profile: ProfileReply)
      modifies this`user, this`isAuthenticated, this`storedToken, this`onHome, this`alerts, this`log
      ensures storedToken == Some(data.token) && onHome
      ensures log == old(log) + ProfileRequests(data.profileImage)
      ensures AcceptedLoginState(data, profile, old(user), old(isAuthenticated), old(alerts),
                                 user, isAuthenticated, alerts)
    {
      storedToken := Some(data.token);
      onHome := true;
      log := log + ProfileRequests(data.profileImage);
      var img := ProfileImageAfterLogin(data.profileImage, profile);
      if img.Some? {
        user := UserRecord(data, img.value);
        isAuthenticated := true;
      } else {
        // catch
        alerts := alerts + [GenericErrorNotice];
      }
    }
  }
}
