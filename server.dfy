/**
 * The authentication endpoints of the Recollekt API server (`POST /signup`
 * and `POST /login`).  The user collection is a map from user name to the
 * stored password hash; bcrypt's `hash`/`compare` and the JWT signer are
 * passed in as functions, since their internals are not part of this model.
 */
module Server {
  import opened Wrappers

  // ---------------------------------------------------------------------
  // Character classes used by the two regular expressions
  // ---------------------------------------------------------------------

  /** The regex classes the handler uses: `[a-z]`, `[A-Z]`, `\d` and `[a-zA-Z0-9]`. */
  datatype CharClass = Lower | Upper | Digit | Alnum

  /** Membership in a class; `\d` without the `u` flag is the ASCII digits only. */
  predicate InClass(c: char, k: CharClass) {
    match k
    case Lower => 'a' <= c <= 'z'
    case Upper => 'A' <= c <= 'Z'
    case Digit => '0' <= c <= '9'
    case Alnum => 'a' <= c <= 'z' || 'A' <= c <= 'Z' || '0' <= c <= '9'
  }

  /** The characters a JavaScript `.` does not match (line terminators). */
  predicate IsLineTerminator(c: char) {
    c == '\n' || c == '\r' || c == '\U{2028}' || c == '\U{2029}'
  }

  /** Every character of `s` is in class `k`. */
  predicate AllIn(s: string, k: CharClass) {
    forall i :: 0 <= i < |s| ==> InClass(s[i], k)
  }

  /** Some character of `s` is in class `k`. */
  predicate SomeIn(s: string, k: CharClass) {
    exists i :: 0 <= i < |s| && InClass(s[i], k)
  }

  /** The lookahead `(?=.*C)` at the start of `s`: a character of class `k`
      preceded only by characters that `.` matches. */
  predicate DotStarThen(s: string, k: CharClass) {
    exists i :: 0 <= i < |s| && InClass(s[i], k) && NoLineTerminatorBefore(s, i)
  }

  predicate NoLineTerminatorBefore(s: string, i: int)
    requires 0 <= i <= |s|
  {
    forall j :: 0 <= j < i ==> !IsLineTerminator(s[j])
  }

  /** `/^(?=.*[a-z])(?=.*[A-Z])(?=.*\d)[a-zA-Z\d]{8,}$/.test(s)`, read literally. */
  predicate PasswordPatternMatches(s: string) {
    && DotStarThen(s, Lower) && DotStarThen(s, Upper) && DotStarThen(s, Digit)
    && |s| >= 8 && AllIn(s, Alnum)
  }

  /** `/^[a-zA-Z0-9]+$/.test(s)`. */
  predicate UsernamePatternMatches(s: string) {
    |s| >= 1 && AllIn(s, Alnum)
  }

  /** What the password rule means: at least eight ASCII letters and digits,
      among them a lower-case letter, an upper-case letter and a digit. */
  predicate StrongPassword(s: string) {
    |s| >= 8 && AllIn(s, Alnum) && SomeIn(s, Lower) && SomeIn(s, Upper) && SomeIn(s, Digit)
  }

  /** Because the body of the pattern admits only letters and digits, the
      `.*` of the three lookaheads never meets a line terminator, and the
      pattern is exactly the character-class rule. */
  lemma PasswordPatternMeaning(s: string)
    ensures PasswordPatternMatches(s) <==> StrongPassword(s)
  {
  }

  /** The user-name pattern accepts exactly the non-empty names made only
      of ASCII letters and digits. */
  lemma UsernamePatternMeaning(s: string)
    ensures UsernamePatternMatches(s) <==>
              s != "" && forall c :: c in s ==> 'a' <= c <= 'z' || 'A' <= c <= 'Z' || '0' <= c <= '9'
  {
    if UsernamePatternMatches(s) {
      forall c | c in s
        ensures 'a' <= c <= 'z' || 'A' <= c <= 'Z' || '0' <= c <= '9'
      {
        var i :| 0 <= i < |s| && s[i] == c;
        assert InClass(s[i], Alnum);
      }
    } else if s != "" {
      var i :| 0 <= i < |s| && !InClass(s[i], Alnum);
      assert s[i] in s;
    }
  }

  /** A name with an underscore, and the empty name, fail the user-name
      pattern; a plain alphanumeric name passes it. */
  lemma UsernameExamples()
    ensures !UsernamePatternMatches("ann_42")
    ensures !UsernamePatternMatches("")
    ensures UsernamePatternMatches("ann42")
  {
    assert !InClass("ann_42"[3], Alnum);
  }

  // ---------------------------------------------------------------------
  // Responses
  // ---------------------------------------------------------------------

  /** The JSON body of a response. */
  datatype Body = ErrorBody(error: string) | MessageBody(message: string) | TokenBody(token: string)

  datatype Response = Response(status: nat, body: Body)

  /** The four guards of `/signup`, in the order they are tried. */
  datatype SignUpError = UsernameTaken | PasswordTooShort | PasswordTooWeak | UsernameNotAlphanumeric

  /** The `error` field of each guard's 400 answer. */
  function SignUpErrorMessage(e: SignUpError): (m: string) {
    match e
    case UsernameTaken => "Username already exists"
    case PasswordTooShort => "Password must be at least 8 characters long"
    case PasswordTooWeak => "Password must contain at least one uppercase letter, one lowercase letter, and one number"
    case UsernameNotAlphanumeric => "Username can only contain alphanumeric characters"
  }

  const SignUpSuccessMessage := "User registered successfully"
  const InvalidCredentialsMessage := "Invalid username or password"

  // ---------------------------------------------------------------------
  // POST /signup
  // ---------------------------------------------------------------------

  /** The guard chain of `/signup`: the first guard that fails, or None when
      all pass.  `taken` is whether the store already holds the user name. */
  function SignUpGuard(taken: bool, username: string, password: string): (r: Option<SignUpError>)
    ensures r == None <==> !taken && StrongPassword(password) && UsernamePatternMatches(username)
    ensures taken ==> r == Some(UsernameTaken)
    ensures r == Some(PasswordTooShort) <==> !taken && |password| < 8
    ensures r == Some(PasswordTooWeak) <==> !taken && |password| >= 8 && !StrongPassword(password)
    ensures r == Some(UsernameNotAlphanumeric) <==>
              !taken && StrongPassword(password) && !UsernamePatternMatches(username)
  {
    PasswordPatternMeaning(password);
    if taken then Some(UsernameTaken)
    else if |password| < 8 then Some(PasswordTooShort)
    else if !PasswordPatternMatches(password) then Some(PasswordTooWeak)
    else if !UsernamePatternMatches(username) then Some(UsernameNotAlphanumeric)
    else None
  }

  /** A long password with a character outside `[a-zA-Z0-9]` fails the
      pattern even though it has all three required kinds of character. */
  lemma WeakPasswordExample(username: string)
    ensures SignUpGuard(false, username, "Abcdefg1!") == Some(PasswordTooWeak)
  {
    assert !InClass("Abcdefg1!"[8], Alnum);
  }

  /** The response and the new user store of one `/signup` request against
      store `users`; `hash` is the bcrypt hash drawn for this request. */
  function SignUpStep(users: map<string, string>, username: string, password: string,
                      hash: string -> string): (out: (Response, map<string, string>))
    ensures out.0.status == 201 || out.0.status == 400
    ensures out.0.status == 201 <==> SignUpGuard(username in users, username, password) == None
    ensures out.0.status == 201 ==>
              && out.0.body == MessageBody(SignUpSuccessMessage)
              && username !in users
              && out.1.Keys == users.Keys + {username}
              && |out.1| == |users| + 1
              && out.1[username] == hash(password)
              && forall u :: u in users ==> out.1[u] == users[u]
    ensures out.0.status == 400 ==>
              && out.1 == users
              && out.0.body == ErrorBody(SignUpErrorMessage(SignUpGuard(username in users, username, password).value))
  {
    match SignUpGuard(username in users, username, password)
    case Some(e) => (Response(400, ErrorBody(SignUpErrorMessage(e))), users)
    case None => (Response(201, MessageBody(SignUpSuccessMessage)), users[username := hash(password)])
  }

  // ---------------------------------------------------------------------
  // POST /login
  // ---------------------------------------------------------------------

  /** The response of `/login`: a token signed for the user exactly when the
      user exists and `compare` accepts the password against the stored
      hash, and otherwise one and the same 401 answer. */
  function LoginResponse(users: map<string, string>, username: string, password: string,
                         compare: (string, string) -> bool, sign: string -> string): (r: Response)
    ensures r.status == 200 <==> username in users && compare(password, users[username])
    ensures r.status == 200 ==> r.body == TokenBody(sign(username))
    ensures r.status != 200 ==> r == Response(401, ErrorBody(InvalidCredentialsMessage))
  {
    if username !in users then Response(401, ErrorBody(InvalidCredentialsMessage))
    else if !compare(password, users[username]) then Response(401, ErrorBody(InvalidCredentialsMessage))
    else Response(200, TokenBody(sign(username)))
  }

  /** Every stored user name matches the user-name pattern. */
  predicate NamesValid(users: map<string, string>) {
    forall u :: u in users ==> UsernamePatternMatches(u)
  }

  /** A sign-up stores a name only after the user-name guard passed, so a
      store whose names all match the pattern keeps that property. */
  lemma SignUpKeepsNamesValid(users: map<string, string>, username: string, password: string,
                              hash: string -> string)
    requires NamesValid(users)
    ensures NamesValid(SignUpStep(users, username, password, hash).1)
  {
  }

  /** A user who has just signed up can log in with the same password,
      provided `compare` accepts every password against its own hash. */
  lemma SignUpThenLogin(users: map<string, string>, username: string, password: string,
                        hash: string -> string, compare: (string, string) -> bool,
                        sign: string -> string)
    requires compare(password, hash(password))
    requires SignUpStep(users, username, password, hash).0.status == 201
    ensures LoginResponse(SignUpStep(users, username, password, hash).1, username, password, compare, sign)
            == Response(200, TokenBody(sign(username)))
  {
  }

  /** A rejected sign-up changes nothing: whoever could log in before still
      can, with the same answer. */
  lemma RejectedSignUpKeepsLogins(users: map<string, string>, username: string, password: string,
                                  hash: string -> string, who: string, attempt: string,
                                  compare: (string, string) -> bool, sign: string -> string)
    requires SignUpStep(users, username, password, hash).0.status != 201
    ensures LoginResponse(SignUpStep(users, username, password, hash).1, who, attempt, compare, sign)
            == LoginResponse(users, who, attempt, compare, sign)
  {
  }

  /** The user collection of a running server. */
  class AuthServer {
    /** User name to stored (hashed) password; user names are unique. */
    var users: map<string, string>

    /** A server started on a database that already holds `stored`. */
    constructor (stored: map<string, string>)
      ensures users == stored
    {
      users := stored;
    }

    /** `POST /signup`. */
    method SignUp(username: string, password: string, hash: string -> string) returns (res: Response)
      modifies this
      ensures (res, users) == SignUpStep(old(users), username, password, hash)
      ensures res.status == 201 <==> SignUpGuard(username in old(users), username, password) == None
      ensures res.status == 201 ==> users == old(users)[username := hash(password)]
      ensures res.status != 201 ==> users == old(users)
      ensures NamesValid(old(users)) ==> NamesValid(users)
    {
      var out := SignUpStep(users, username, password, hash);
      if NamesValid(users) {
        SignUpKeepsNamesValid(users, username, password, hash);
      }
      res, users := out.0, out.1;
    }

    /** `POST /login`; the store is only read. */
    method Login(username: string, password: string,
                 compare: (string, string) -> bool, sign: string -> string) returns (res: Response)
      ensures res == LoginResponse(users, username, password, compare, sign)
    {
      res := LoginResponse(users, username, password, compare, sign);
    }
  }
}
