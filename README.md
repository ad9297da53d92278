# Profile edit form: a verified model

This project models the profile-edit page of the client application
(`client/src/Pages/Profile.js`): the password-strength regular expression,
the ordered submit gate of `handleSubmit`, the per-field update of
`handleChange`, and what a successful profile update, an image upload and an
image deletion do to the page's state cells `userInput`, `errorMessage`,
`image` and the shared current `user`.

Layout:

- `js_text.dfy` (`JsText`): JavaScript strings as sequences of UTF-16 code
  units, `Js` for writing literals, and `Slot` for object properties that can
  be `undefined`.
- `password_rule.dfy` (`PasswordRule`): the regular expression
  `/^(?=.*[a-zA-Z])(?=.*[!@#$%^*+=-])(?=.*[0-9]).{8,25}$/` followed piece by
  piece (`PasswordRegex`: each lookahead `.*X`, then `.{8,25}$`), the rule
  stated outright (`StrongPassword`), and the proof that the two agree.
- `profile_form.dfy` (`ProfileForm`): the records, the message texts, and the
  submit decision `Submit` with its properties.
- `profile_page.dfy` (`ProfilePage`): the page as a class with one field per
  state cell and one method per handler. Network calls are outcome
  parameters; requests, `alert`, `navigate(-1)` and `console.log` are
  appended to an `outbox` of effects.

Two behaviours of the code are modelled as written. The empty-nickname
branch of `handleSubmit` spreads the previous messages and overwrites only
the nickname message, so an earlier password message survives and both
messages can show at once (`StalePasswordMessage`). `deleteImg` replaces the
whole user by `{img: ''}`, dropping every other property
(`Profile.DeleteImg`, `DeleteThenApply`).

## Model

| member | source | states |
|---|---|---|
| `PasswordRule.DotStarThenExact` | client/src/Pages/Profile.js:154 | a lookahead `(?=.*X)` at the start matches exactly when some unit of class X is preceded only by units other than line terminators |
| `PasswordRule.DotsToEndExact` | client/src/Pages/Profile.js:154 | `.{min,max}$` matches the whole string exactly when its length in code units is between min and max and it holds no line terminator |
| `PasswordRule.PasswordRegexExact` | client/src/Pages/Profile.js:153-154 | `passwordRegex.test(s)` holds exactly when s has 8 to 25 code units, an ASCII letter, a digit, one of `! @ # $ % ^ * + = -`, and no line terminator |
| `PasswordRule.AcceptedHasEightUnits` | client/src/Pages/Profile.js:153-154 | a password the expression accepts has at least 8 code units |
| `PasswordRule.NoListedSymbolFails` | client/src/Pages/Profile.js:154 | a password with none of the ten listed symbols is refused, whatever other punctuation it holds |
| `PasswordRule.AcceptsExample` | client/src/Pages/Profile.js:153-154 | `Abcdefg1!` is accepted |
| `PasswordRule.RejectsLettersOnly` | client/src/Pages/Profile.js:153-154 | `abcdefgh` is refused: no digit |
| `PasswordRule.RejectsShort` | client/src/Pages/Profile.js:153-154 | `Abc1!` is refused: too short |
| `PasswordRule.RejectsUnlistedPunctuation` | client/src/Pages/Profile.js:154 | `Abcdefg1&` and `Abcdefg1_` are refused: `&` and `_` are not in the symbol class |
| `PasswordRule.RejectsLineFeed` | client/src/Pages/Profile.js:154 | a password ending in a line feed is refused, though every lookahead is met before it |
| `ProfileForm.SubmitOutcomes` | client/src/Pages/Profile.js:155-174 | empty nickname: nickname message set and the old password message kept; weak password: messages exactly `{'', weak}`; mismatch: exactly `{'', confirm}`; otherwise one update with nickname, password and `image.preview_URL` |
| `ProfileForm.SubmitSendsIffAcceptable` | client/src/Pages/Profile.js:155-166 | submit sends an update if and only if the nickname is non-empty, the password strong and equal to the confirmation; the test at line 165 never fails once reached |
| `ProfileForm.RefusalShowsMessage` | client/src/Pages/Profile.js:155-164 | a refused submit always shows a message, and both messages show only when the empty-nickname branch keeps an earlier password message |
| `ProfileForm.StalePasswordMessage` | client/src/Pages/Profile.js:155-162 | after a weak-password refusal, submitting with an empty nickname shows the nickname message and the stale password message together |
| `ProfileForm.FieldNamesDistinct` | client/src/Pages/Profile.js:140-147 | the names `nickname`, `password` and `rePassword` differ, so one event matches at most one test |
| `ProfilePage.Profile.constructor` | client/src/Pages/Profile.js:119-136 | the initial state: empty image record, empty form, no messages, the shared user as it stands |
| `ProfilePage.Profile.HandleChange` | client/src/Pages/Profile.js:139-149 | only the field named by the event changes, to the event's value; any other name, and `profileImage`, leave the form unchanged; no other cell changes |
| `ProfilePage.Profile.HandleSubmit` | client/src/Pages/Profile.js:151-193 | a refused form changes only the messages, as `Submit` decides; an acceptable one clears them and emits exactly one PATCH to the current `memberId`; on success the user is `{memberId, nickname, img}` from the response with `grade` and `gradeCount` from before, then an alert and a step back; on failure nothing more |
| `ProfilePage.Profile.SaveImg` | client/src/Pages/Profile.js:195-215 | the upload is always posted; on success `user.img` is the stored reference with the other user properties kept, and `image` is `{preview_URL}` alone, `image_file` gone; on failure only a log entry |
| `ProfilePage.Profile.DeleteImg` | client/src/Pages/Profile.js:217-223 | no request; the user becomes `{img: ''}` and both image properties become empty strings |
| `ProfilePage.DeleteThenApply` | client/src/Pages/Profile.js:165-223 | deleting the picture and then applying an acceptable form sends the PATCH to an undefined `memberId` with an empty `profileImage`, and the rebuilt user has no `grade` or `gradeCount` |

## Left out

- Rendering: the JSX tree and the emotion and MUI styling. This includes
  the cancel button, which is also a submit button, so a click both submits
  the form and navigates back.
- `client/src/Components/jamDetailComponent/ReplyComment.js`: presentational,
  with hard-coded data; its elapsed-time text depends on the wall clock.
- Transport: axios, `FormData`, the request headers, `getCookie`, and
  `BASE_URL`. A PATCH or POST is an effect in `outbox` and its result is a
  parameter. The uploaded file's contents are not modelled, so `PostUpload`
  carries none.
- `e.preventDefault()` and the argument of `console.log` (the upload error
  is recorded only as `ConsoleLog`).
- `ProfilePage.Profile.HandleSubmit`: a failed PATCH is an unhandled rejection.
  The model stops there with the messages already cleared, and does not model
  how the rejection propagates.
- Concurrency: duplicate submits in flight and the order in which awaited
  requests settle. Each handler runs to completion before the next.
- React and Recoil semantics: batching and stale closures. Each setter is an
  immediate assignment.
- The types of `grade` and `gradeCount` are not visible in the page, which
  only copies them. They are modelled as a string and an integer.
- `User`: the shared user is assumed to hold only `memberId`, `nickname`,
  `img`, `grade` and `gradeCount`; its definition is not part of this model.
  Any further property would be kept by the spread in `saveImg` and dropped
  by the rebuild after a successful update and by `deleteImg`.
