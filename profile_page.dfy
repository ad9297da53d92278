/** The profile page's state cells and event handlers
    (client/src/Pages/Profile.js, `Profile`). Each React setter is an
    immediate assignment to a field; each network call is an outcome
    parameter, and what the page sends or shows outside itself (requests,
    `alert`, `navigate(-1)`, `console.log`) is appended to `outbox`. */
module ProfilePage {
  import opened JsText
  import opened PasswordRule
  import opened ProfileForm

  /** What the page does outside its own state. */
  datatype Effect =
    | PatchProfile(memberId: Slot<int>, body: UpdateRequest)  // PATCH /user/change/{memberId}
    | PostUpload                                             // POST /upload with the chosen file
    | Alert(message: JsString)
    | NavigateBack                                           // navigate(-1)
    | ConsoleLog

  /** How the PATCH request settles. A failure is an unhandled rejection. */
  datatype PatchOutcome = PatchSucceeded(response: UpdateResponse) | PatchFailed

  /** How the upload settles: the stored image reference, or an error. */
  datatype UploadOutcome = UploadSucceeded(stored: JsString) | UploadFailed

  /** "The update is complete". */
  const UpdateDone: JsString := Js("수정이 완료되었습니다")

  class Profile {
    var image: ImageState
    var userInput: FormInput
    var errorMessage: ErrorMessage
    var user: User
    var outbox: seq<Effect>

    /** `image.preview_URL` is always a string, so the update request always
        carries a `profileImage`. */
    ghost predicate Valid()
      reads this
    {
      image.previewUrl.Defined?
    }

    /** The initial `useState` values, and the shared user as it stands. */
    constructor (current: User)
      ensures Valid()
      ensures image == ImageState(Defined([]), Defined([]))
      ensures userInput == FormInput([], [], [], [])
      ensures errorMessage == NoErrors
      ensures user == current && outbox == []
    {
      image := ImageState(Defined([]), Defined([]));
      userInput := FormInput([], [], [], []);
      errorMessage := NoErrors;
      user := current;
      outbox := [];
    }

    /** `handleChange`: the field the event names takes the event's value;
        any other name, `profileImage` included, changes nothing. */
    method HandleChange(name: JsString, value: JsString)
      modifies this`userInput
      ensures name == NicknameField ==> userInput == old(userInput).(nickname := value)
      ensures name == PasswordField ==> userInput == old(userInput).(password := value)
      ensures name == RePasswordField ==> userInput == old(userInput).(rePassword := value)
      ensures name != NicknameField && name != PasswordField && name != RePasswordField ==>
              userInput == old(userInput)
      ensures userInput.profileImage == old(userInput).profileImage
    {
      FieldNamesDistinct();
      if name == NicknameField {
        userInput := userInput.(nickname := value);
      }
      if name == PasswordField {
        userInput := userInput.(password := value);
      }
      if name == RePasswordField {
        userInput := userInput.(rePassword := value);
      }
    }

    /** `handleSubmit`: a refused form only changes the messages; an
        acceptable one clears them and sends exactly one PATCH, and when it
        succeeds the user is rebuilt from the response, keeping `grade` and
        `gradeCount`, then the page alerts and goes back. */
    method HandleSubmit(patch: PatchOutcome)
      requires Valid()
      modifies this`errorMessage, this`user, this`outbox
      ensures !Acceptable(userInput) ==>
              Submit(userInput, old(errorMessage), image.previewUrl.value) == ShowErrors(errorMessage) &&
              user == old(user) && outbox == old(outbox)
      ensures userInput.nickname == [] ==>
              errorMessage == old(errorMessage).(nickname := NicknameRequired)
      ensures userInput.nickname != [] && !StrongPassword(userInput.password) ==>
              errorMessage == ErrorMessage([], WeakPassword)
      ensures userInput.nickname != [] && StrongPassword(userInput.password) &&
              userInput.password != userInput.rePassword ==>
              errorMessage == ErrorMessage([], ConfirmPassword)
      ensures Acceptable(userInput) ==>
              var sent := PatchProfile(old(user).memberId,
                UpdateRequest(userInput.nickname, userInput.password, image.previewUrl.value));
              errorMessage == NoErrors &&
              match patch
              case PatchSucceeded(res) =>
                user == User(Defined(res.memberId), Defined(res.nickname), Defined(res.profileImage),
                             old(user).grade, old(user).gradeCount) &&
                outbox == old(outbox) + [sent, Alert(UpdateDone), NavigateBack]
              case PatchFailed =>
                user == old(user) && outbox == old(outbox) + [sent]
    {
      var decision := Submit(userInput, errorMessage, image.previewUrl.value);
      SubmitOutcomes(userInput, errorMessage, image.previewUrl.value);
      SubmitSendsIffAcceptable(userInput, errorMessage, image.previewUrl.value);
      if decision.ShowErrors? {
        errorMessage := decision.errors;
      } else if decision.SendUpdate? {
        errorMessage := NoErrors;
        outbox := outbox + [PatchProfile(user.memberId, decision.request)];
        match patch
        case PatchSucceeded(res) =>
          user := User(Defined(res.memberId), Defined(res.nickname), Defined(res.profileImage),
                       user.grade, user.gradeCount);
          outbox := outbox + [Alert(UpdateDone), NavigateBack];
        case PatchFailed =>
      }
    }

    /** `saveImg`: the file is posted at once; a stored reference becomes
        `user.img` (the rest of the user kept) and the whole `image` record,
        which loses `image_file`; a failure is only logged. */
    method SaveImg(upload: UploadOutcome)
      requires Valid()
      modifies this`user, this`image, this`outbox
      ensures Valid()
      ensures match upload
              case UploadSucceeded(stored) =>
                user == old(user).(img := Defined(stored)) &&
                image == ImageState(Undefined, Defined(stored)) &&
                outbox == old(outbox) + [PostUpload]
              case UploadFailed =>
                user == old(user) && image == old(image) &&
                outbox == old(outbox) + [PostUpload, ConsoleLog]
    {
      outbox := outbox + [PostUpload];
      match upload
      case UploadSucceeded(stored) =>
        user := user.(img := Defined(stored));
        image := ImageState(Undefined, Defined(stored));
      case UploadFailed =>
        outbox := outbox + [ConsoleLog];
    }

    /** `deleteImg`: local only, no request. The user becomes `{img: ''}`,
        dropping `memberId`, `nickname`, `grade` and `gradeCount`. */
    method DeleteImg()
      modifies this`user, this`image
      ensures Valid()
      ensures user == User(Undefined, Undefined, Defined([]), Undefined, Undefined)
      ensures image == ImageState(Defined([]), Defined([]))
    {
      user := User(Undefined, Undefined, Defined([]), Undefined, Undefined);
      image := ImageState(Defined([]), Defined([]));
    }
  }

  /** A session on the page: delete the picture, fill in an acceptable form
      and apply it. The PATCH goes to `/user/change/undefined`, and the
      rebuilt user has lost `grade` and `gradeCount`. */
  method DeleteThenApply(current: User, nickname: JsString, password: JsString, res: UpdateResponse)
    returns (sent: seq<Effect>, after: User)
    requires nickname != [] && StrongPassword(password)
    ensures sent == [PatchProfile(Undefined, UpdateRequest(nickname, password, [])),
                     Alert(UpdateDone), NavigateBack]
    ensures after.grade == Undefined && after.gradeCount == Undefined
    ensures after.memberId == Defined(res.memberId)
  {
    var page := new Profile(current);
    page.DeleteImg();
    page.HandleChange(NicknameField, nickname);
    page.HandleChange(PasswordField, password);
    page.HandleChange(RePasswordField, password);
    page.HandleSubmit(PatchSucceeded(res));
    sent, after := page.outbox, page.user;
  }
}
