/** The values of the profile-edit form and its submit gate
    (client/src/Pages/Profile.js): the form input, the error messages, the
    image and current-user records, and the ordered decision `handleSubmit`
    takes before it sends anything. */
module ProfileForm {
  import opened JsText
  import opened PasswordRule

  /** `userInput`. `profileImage` is never written by any handler. */
  datatype FormInput = FormInput(
    nickname: JsString, password: JsString, rePassword: JsString, profileImage: JsString)

  /** `errorMessage`: the texts shown under the nickname and password fields. */
  datatype ErrorMessage = ErrorMessage(nickname: JsString, password: JsString)

  /** `image`: `image_file` disappears once an upload result replaces the
      record, so both properties may be undefined. */
  datatype ImageState = ImageState(imageFile: Slot<JsString>, previewUrl: Slot<JsString>)

  /** The shared current user. `deleteImg` replaces it by a record holding
      only `img`, so every property may be undefined. */
  datatype User = User(
    memberId: Slot<int>, nickname: Slot<JsString>, img: Slot<JsString>,
    grade: Slot<JsString>, gradeCount: Slot<int>)

  /** The body of the PATCH request. */
  datatype UpdateRequest = UpdateRequest(nickname: JsString, password: JsString, profileImage: JsString)

  /** `res.data.data` of a successful PATCH. */
  datatype UpdateResponse = UpdateResponse(memberId: int, nickname: JsString, profileImage: JsString)

  /** The `name` attributes of the three text fields. */
  const NicknameField: JsString := Js("nickname")
  const PasswordField: JsString := Js("password")
  const RePasswordField: JsString := Js("rePassword")

  /** "Please enter a nickname". */
  const NicknameRequired: JsString := Js("닉네임을 입력해주세요")
  /** "The password must be 8 or more characters including digits, letters and symbols". */
  const WeakPassword: JsString := Js("비밀번호는 숫자,영문,특수문자를 포함해 8자리 이상이어야 합니다")
  /** "Please confirm your password". */
  const ConfirmPassword: JsString := Js("비밀번호를 확인해주세요")

  const NoErrors: ErrorMessage := ErrorMessage([], [])

  /** What one press of submit does to the form: show new error messages,
      or clear them and send one update; `Idle` is the implicit empty
      branch after the fourth test, where nothing happens. */
  datatype Decision = ShowErrors(errors: ErrorMessage) | SendUpdate(request: UpdateRequest) | Idle

  /** The ordered tests of `handleSubmit`, given the form, the messages on
      screen and `image.preview_URL`. An empty string is falsy, so
      `!userInput.nickname` is `nickname == []`; the first branch spreads
      the previous messages and overwrites only the nickname message. */
  function Submit(input: FormInput, shown: ErrorMessage, previewUrl: JsString): Decision
  {
    if input.nickname == [] then
      ShowErrors(shown.(nickname := NicknameRequired))
    else if !PasswordRegex(input.password) then
      ShowErrors(ErrorMessage([], WeakPassword))
    else if input.password != input.rePassword then
      ShowErrors(ErrorMessage([], ConfirmPassword))
    else if input.nickname != [] && input.password != [] then
      SendUpdate(UpdateRequest(input.nickname, input.password, previewUrl))
    else
      Idle
  }

  /** The form is accepted: a nickname, a strong password, and a matching
      confirmation. */
  ghost predicate Acceptable(input: FormInput)
  {
    input.nickname != [] && StrongPassword(input.password) && input.password == input.rePassword
  }

  /** The outcome of submit in every case, stated with the password rule
      rather than the regular expression. */
  lemma SubmitOutcomes(input: FormInput, shown: ErrorMessage, previewUrl: JsString)
    ensures input.nickname == [] ==>
            Submit(input, shown, previewUrl) == ShowErrors(ErrorMessage(NicknameRequired, shown.password))
    ensures input.nickname != [] && !StrongPassword(input.password) ==>
            Submit(input, shown, previewUrl) == ShowErrors(ErrorMessage([], WeakPassword))
    ensures input.nickname != [] && StrongPassword(input.password) && input.password != input.rePassword ==>
            Submit(input, shown, previewUrl) == ShowErrors(ErrorMessage([], ConfirmPassword))
    ensures Acceptable(input) ==>
            Submit(input, shown, previewUrl) ==
            SendUpdate(UpdateRequest(input.nickname, input.password, previewUrl))
  {
    PasswordRegexExact(input.password);
  }

  /** Submit sends an update exactly when the form is acceptable, and
      the fourth test (`userInput.nickname && userInput.password`) never
      fails once it is reached. */
  lemma SubmitSendsIffAcceptable(input: FormInput, shown: ErrorMessage, previewUrl: JsString)
    ensures Submit(input, shown, previewUrl).SendUpdate? <==> Acceptable(input)
    ensures Submit(input, shown, previewUrl) != Idle
  {
    PasswordRegexExact(input.password);
    if PasswordRegex(input.password) {
      AcceptedHasEightUnits(input.password);
    }
  }

  /** A refused submit always leaves a message on screen, and the only way
      both messages show at once is the first branch keeping an earlier
      password message. */
  lemma RefusalShowsMessage(input: FormInput, shown: ErrorMessage, previewUrl: JsString)
    ensures Submit(input, shown, previewUrl).ShowErrors? ==>
            Submit(input, shown, previewUrl).errors != NoErrors
    ensures Submit(input, shown, previewUrl).ShowErrors? &&
            Submit(input, shown, previewUrl).errors.nickname != [] &&
            Submit(input, shown, previewUrl).errors.password != [] ==>
            input.nickname == [] && Submit(input, shown, previewUrl).errors.password == shown.password
  {
  }

  /** Emptying the nickname after a weak-password refusal shows both
      messages: the stale password message survives the next submit. */
  lemma StalePasswordMessage(password: JsString, previewUrl: JsString)
    requires !PasswordRegex(password)
    ensures var first := Submit(FormInput(Js("a"), password, password, []), NoErrors, previewUrl);
            var second := Submit(FormInput([], password, password, []), first.errors, previewUrl);
            first == ShowErrors(ErrorMessage([], WeakPassword)) &&
            second == ShowErrors(ErrorMessage(NicknameRequired, WeakPassword))
  {
  }

  /** The three field names differ, so an edit event touches one field. */
  lemma FieldNamesDistinct()
    ensures NicknameField != PasswordField
    ensures NicknameField != RePasswordField
    ensures PasswordField != RePasswordField
  {
    assert NicknameField[0] != PasswordField[0];
    assert NicknameField[0] != RePasswordField[0];
    assert |PasswordField| != |RePasswordField|;
  }
}
