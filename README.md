# Recollekt: sign-up, login and album editing

Recollekt is a mobile photo-album application with an Express/MongoDB API
server. This project models in Dafny the parts of it that make decisions,
rather than drawing screens or calling libraries:

- **Server authentication** (`Recollekt/server.js`). `POST /signup` runs an
  ordered chain of guards: the user name is already taken, the password is
  shorter than 8 characters, the password fails
  `/^(?=.*[a-z])(?=.*[A-Z])(?=.*\d)[a-zA-Z\d]{8,}$/`, the user name fails
  `/^[a-zA-Z0-9]+$/`. The first guard that fails decides the 400 message.
  Only when every guard passes is the user stored, under its bcrypt hash,
  with status 201. `POST /login` gives the same 401 answer for an unknown
  user and for a wrong password, and a signed token otherwise. The user
  collection is the `users` field of class `Server.AuthServer`, a map from
  user name to stored hash. bcrypt `hash`/`compare` and the JWT signer are
  function-valued parameters.
- **Album edit screen** (`Recollekt/app/Albums/EditAlbum.tsx`). Class
  `EditAlbum.AlbumEditor` holds the screen state `title`, `coverImage` and
  `images`. Its handlers pick a cover, append picked images, delete every
  occurrence of a URI and save. Save checks the title, the cover and the
  stored token before it builds the `PUT /edit-album` payload. The new
  lists are computed by the pure functions `Uris` (the picker's `map`) and
  `Without` (the `filter`).
- **Login screen** (`Recollekt/app/login/login.tsx`). Class
  `Login.LoginScreen` holds the form fields, the `loading` flag, the form
  mode (`logorSign`), the user and authentication contexts, the stored
  token, the alerts shown and an ordered log of `setLoading` calls and
  requests sent. The form checks, the profile-image normalisation (JS
  `String.replace` with a string pattern, specified against a first-occurrence
  search) and the user-record defaults are pure functions.

Inputs from outside are parameters of the handlers: `fetch` replies,
image-picker results, the stored token, whether `jwtDecode` accepts it, and
the crypto functions. Responses and alerts are datatypes.

## Model

| member | source | states |
|---|---|---|
| `Server.PasswordPatternMatches` | Recollekt/server.js:40 | The password regex read literally: each `(?=.*C)` lookahead needs a character of class C preceded only by non-line-terminators, and the body needs 8 or more ASCII letters/digits up to the end |
| `Server.UsernamePatternMatches` | Recollekt/server.js:42 | The user-name regex `/^[a-zA-Z0-9]+$/`: one or more ASCII letters/digits and nothing else |
| `Server.UsernamePatternMeaning` | Recollekt/server.js:42 | The user-name pattern accepts exactly the non-empty names every character of which is an ASCII letter or digit |
| `Server.UsernameExamples` | Recollekt/server.js:42 | `ann_42` and the empty name fail the user-name pattern, `ann42` passes it |
| `Server.SignUpErrorMessage` | Recollekt/server.js:37-43 | The `error` text of each guard's 400 answer, word for word |
| `Server.PasswordPatternMeaning` | Recollekt/server.js:40 | The password regex, read literally (three `.*` lookaheads, where `.` excludes line terminators), holds exactly when the password has 8 or more ASCII letters/digits and includes a lower-case letter, an upper-case letter and a digit |
| `Server.SignUpGuard` | Recollekt/server.js:35-44 | The guard chain passes iff the name is free, the password is strong and the name is non-empty alphanumeric. A taken name is rejected before any password rule. Length < 8 gets the length error whatever the characters. A long non-strong password gets the pattern error. The name rule is reached only after all password rules pass |
| `Server.WeakPasswordExample` | Recollekt/server.js:40-41 | `Abcdefg1!` gets the uppercase/lowercase/number error |
| `Server.SignUpStep` | Recollekt/server.js:30-53 | Status is 201 or 400, and 201 exactly when no guard fails. On 201 the name was new, exactly one entry is added, under that name, holding `hash(password)`, and all other entries are kept. On 400 the store is unchanged and the body carries the first failing guard's message |
| `Server.LoginResponse` | Recollekt/server.js:62-76 | Status 200 iff the user exists and `compare(password, stored)` holds, and then the body is the token signed for that user. Every other case is the same 401 `Invalid username or password` |
| `Server.SignUpThenLogin` | Recollekt/server.js:47-76 | After a successful sign-up, logging in with the same password yields the token, provided `compare` accepts a password against its own hash |
| `Server.RejectedSignUpKeepsLogins` | Recollekt/server.js:36-44 | After a rejected sign-up, every login attempt gets the same answer as before |
| `Server.AuthServer.constructor` | Recollekt/server.js:16-21 | The user collection, keyed by the unique user name, holds what the database already stores when the server starts |
| `Server.SignUpKeepsNamesValid` | Recollekt/server.js:42-51 | A sign-up stores a name only after the user-name guard passed, so if every stored name matches `/^[a-zA-Z0-9]+$/` before a request, every one does after it |
| `Server.AuthServer.SignUp` | Recollekt/server.js:30-54 | The response and new store are those of `SignUpStep`. A rejected request leaves `users` unchanged; an accepted one sets `users[username] := hash(password)`. A store whose names all match the user-name pattern keeps that property |
| `Server.AuthServer.Login` | Recollekt/server.js:57-77 | Answers as `LoginResponse` on the current store and does not change it |
| `EditAlbum.Without` | Recollekt/app/Albums/EditAlbum.tsx:48 | The filtered list has no occurrence of the URI, its length drops by exactly the number of occurrences, and it holds only elements of the input |
| `EditAlbum.WithoutKeepsOthers` | Recollekt/app/Albums/EditAlbum.tsx:48 | Every other URI occurs as often after the deletion as before |
| `EditAlbum.WithoutKeepsOrder` | Recollekt/app/Albums/EditAlbum.tsx:48 | The remaining elements sit at strictly increasing positions of the old list, so their relative order is kept |
| `EditAlbum.WithoutAbsent` | Recollekt/app/Albums/EditAlbum.tsx:48 | Deleting a URI that is not in the list leaves it unchanged |
| `EditAlbum.WithoutIdempotent` | Recollekt/app/Albums/EditAlbum.tsx:48 | Deleting the same URI twice is the same as deleting it once |
| `EditAlbum.WithoutAppend` | Recollekt/app/Albums/EditAlbum.tsx:43-48 | Deleting from an appended list deletes from both parts: `Without(a + b) == Without(a) + Without(b)` |
| `EditAlbum.Uris` | Recollekt/app/Albums/EditAlbum.tsx:42 | One URI per picked asset, in picker order |
| `EditAlbum.PrepareSave` | Recollekt/app/Albums/EditAlbum.tsx:51-79 | A request is built iff title and cover are non-empty and a non-empty token is stored that decodes. An empty title or cover gives the fields alert, checked before the token. A missing token gives the token alert. A stored token that `jwtDecode` rejects gives the generic alert. The request carries the bearer token and exactly the current id, title, cover and images |
| `EditAlbum.SaveFinish` | Recollekt/app/Albums/EditAlbum.tsx:82-97 | Navigation to the album view, with the saved values, happens iff the server answers OK, with the success alert. A non-OK answer shows `Error` with the body's non-empty `error` or else `Failed to update album`. A thrown request shows the generic alert and navigates nowhere |
| `EditAlbum.AlbumEditor.constructor` | Recollekt/app/Albums/EditAlbum.tsx:16-20 | The state starts from the route's album values |
| `EditAlbum.AlbumEditor.SetTitle` | Recollekt/app/Albums/EditAlbum.tsx:120 | Only the title changes |
| `EditAlbum.AlbumEditor.PickCoverImage` | Recollekt/app/Albums/EditAlbum.tsx:22-32 | The cover becomes the first asset's URI. A cancelled picker, or one with no asset, leaves it. Title and images are untouched |
| `EditAlbum.AlbumEditor.AddImages` | Recollekt/app/Albums/EditAlbum.tsx:34-45 | `images` becomes old images followed by the picked URIs, and is unchanged on cancel. Title and cover are untouched |
| `EditAlbum.AlbumEditor.DeleteImage` | Recollekt/app/Albums/EditAlbum.tsx:47-49 | `images` becomes `Without(old images, uri)`, so the URI is gone and the length drops by its count. Title and cover are untouched |
| `EditAlbum.AlbumEditor.Save` | Recollekt/app/Albums/EditAlbum.tsx:51-98 | A request is sent iff `PrepareSave` succeeds, and it is exactly the prepared request: the stored token as bearer and the current state as payload. Otherwise only the guard's alert is shown. Once sent, the outcome is `SaveFinish` of the reply |
| `Alerts.OrElse` | Recollekt/app/Albums/EditAlbum.tsx:92 | The JavaScript or-default on a string keeps a non-empty string and replaces a missing or empty one |
| `Login.FirstOccurrence` | Recollekt/app/login/login.tsx:108 | The position where `replace` finds its string pattern; a found occurrence lies wholly inside the string |
| `Login.RemoveFirst` | Recollekt/app/login/login.tsx:108 | `s.replace(pat, '')` with a string pattern; the result is never longer than `s` |
| `Login.FirstOccurrenceIsFirst` | Recollekt/app/login/login.tsx:108 | The search that `replace` performs finds a position where the pattern occurs with no occurrence before it, and finds nothing only when the pattern occurs nowhere |
| `Login.RemoveFirstCutsFirst` | Recollekt/app/login/login.tsx:108 | `replace(pat, '')` returns the string unchanged when the pattern does not occur, and otherwise cuts out exactly its first occurrence |
| `Login.ProfileImageAfterLogin` | Recollekt/app/login/login.tsx:100-109 | The default path is kept. Any other path is fetched: a throwing fetch yields nothing, and a fetched string is unchanged iff it lacks `dataimage/jpegbase64`, otherwise exactly its first occurrence of that text is cut out, so it is shorter by that text's length |
| `Login.SignUpReplyNotice` | Recollekt/app/login/login.tsx:51-60 | The success alert iff the server answers OK. A non-OK answer shows `Sign Up Failed` with the body's non-empty `error` or else `Something went wrong`. A thrown request shows the generic alert |
| `Login.LoginRejectedNotice` | Recollekt/app/login/login.tsx:120 | `Login Failed` with the body's non-empty `error`, or `Invalid credentials` when it is missing or empty |
| `Login.FormNotice` | Recollekt/app/login/login.tsx:30-34 | The alert of each failed form check (login.tsx:30, 34 and 69); every one is titled `Error` |
| `Login.SignUpFormCheck` | Recollekt/app/login/login.tsx:29-36 | Passes iff all three fields are non-empty and the passwords match. Any empty field gives the fill-in error, checked before the mismatch error |
| `Login.LoginFormCheck` | Recollekt/app/login/login.tsx:68-71 | Passes iff both fields are non-empty |
| `Login.NeedsProfileFetch` | Recollekt/app/login/login.tsx:101 | The picture is fetched for every path other than the default one, a missing path included |
| `Login.ProfileImageUrl` | Recollekt/app/login/login.tsx:102 | The `url` parameter of the picture request is the stored path; a missing field is written `undefined` |
| `Login.AcceptedLoginState` | Recollekt/app/login/login.tsx:112-123 | After an accepted login, the user record and `isAuthenticated = true` are set when the picture is known; a throwing picture request leaves both and adds the generic alert |
| `Login.UserRecord` | Recollekt/app/login/login.tsx:112-116 | The stored user has the reply's name, the given picture, and the reply's friends, or `[]` when absent |
| `Login.LoginScreen.constructor` | Recollekt/app/login/login.tsx:21-25 | Empty fields, not loading, login mode |
| `Login.LoginScreen.EnterUsername` | Recollekt/app/login/login.tsx:141 | Only the user name changes |
| `Login.LoginScreen.EnterPassword` | Recollekt/app/login/login.tsx:147 | Only the password changes |
| `Login.LoginScreen.EnterConfirmPassword` | Recollekt/app/login/login.tsx:175 | Only the confirmation changes |
| `Login.LoginScreen.ShowSignUpForm` | Recollekt/app/login/login.tsx:136 | Switches to sign-up mode |
| `Login.LoginScreen.ShowLoginForm` | Recollekt/app/login/login.tsx:157 | Switches to login mode |
| `Login.LoginScreen.HandleSignUp` | Recollekt/app/login/login.tsx:28-65 | A failed form check shows its alert and sends nothing, leaving `loading` and the mode alone. Otherwise the log gains `loading := true`, the sign-up request and `loading := false` in that order, whatever the reply. The mode switches to login only on an OK reply |
| `Login.LoginScreen.HandleLogin` | Recollekt/app/login/login.tsx:67-128 | An empty field shows an alert and changes nothing else. Otherwise `loading` is set true before the request(s) and false after, on every path. Error replies and exceptions leave user, authentication, token and navigation unchanged. An OK reply stores the token and goes home. The profile-image request is sent only for a non-default path. User and `isAuthenticated = true` are set unless that request throws |
| `Login.LoginScreen.AcceptLogin` | Recollekt/app/login/login.tsx:88-118 | On an OK reply the token is stored and the screen goes home. The picture request is sent only for a non-default path. The user record and `isAuthenticated = true` are set unless that request throws, which instead shows the generic alert and leaves user and flag as they were |
| `Login.ProfileRequests` | Recollekt/app/login/login.tsx:100-104 | An accepted login sends no picture request for the default path and exactly one otherwise |

## Left out

- Network, database and crypto: `fetch` replies, the image picker, the
  device token storage, `jwtDecode` and MongoDB are inputs of the handlers.
  bcrypt `hash`/`compare` and `jwt.sign` are function parameters, so their
  salt, cost factor, secret and expiry are not modelled. The token is
  signed over the user name; the source signs the MongoDB `_id`.
- Alerts, `console.log`, navigation details: alerts are recorded as
  title/message pairs. Navigation is the `navigateTo` of the save outcome
  and the `onHome` flag after login. `handleCancel` (EditAlbum.tsx:100-102)
  only navigates back.
- String lengths count characters. JavaScript's `length` counts UTF-16
  code units. The two differ only for characters outside the Basic
  Multilingual Plane, which the pattern rejects anyway, so only which 400
  message is given can differ.
- Request bodies whose `username` or `password` is not a string are not
  modelled. A `null` or missing password makes `password.length` throw at
  server.js:38 when the name is free, and no answer is sent. Other values
  are coerced by `.length` and `.test`, and most get a 400. A `null` user
  name with a strong password passes all four guards, and then `save()`
  (server.js:51) rejects it because the schema requires a user name, with
  no answer.
- The unique index race is not modelled: two concurrent sign-ups for one
  name can both pass the guard and the second save fails. Requests are
  modelled one at a time.
- The `disabled={loading}` buttons are not modelled as a precondition:
  the handlers can be called in any state.
- Login.ProfileImageUrl: a JSON `null` profile path is modelled like a
  missing one, as `undefined` in the URL; the source interpolates it as
  `null`. The request is sent in both cases; only the URL text differs.
- The login reply's `token` is modelled as always present on an OK reply.
  Its `username`, `friends` and `profileImage` may be absent. `img || ''`
  is the identity in every reachable case, since `img` is always a string
  there.
- The EditAlbum picker result with no asset is modelled as leaving the
  state unchanged. `result.assets[0].uri` throws before the setter runs.
- `Recollekt/editVideo.js`, the root `server.js`, the other screens,
  contexts, models and utilities are not part of this model. They are
  rendering, library wrappers or duplicates.
