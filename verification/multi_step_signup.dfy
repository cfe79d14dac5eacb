/**
 * The three-step signup wizard: a step counter (1 = credentials, 2 = genres, 3 = profile picture)
 * and the signup record that each completed step is spread into.
 */
module MultiStepSignup {
  import opened Options

  /** The accumulated signup record. */
  datatype SignupData = SignupData(
    username: string,
    email: string,
    password: string,
    genres: seq<string>,
    profilePicture: Option<string>)

  /** The record the wizard starts from and is reset to after a successful signup. */
  const EmptySignupData := SignupData("", "", "", [], None)

  /** The fields one step hands on; `None` means the key is absent from the step's object. */
  datatype Patch = Patch(
    username: Option<string>,
    email: Option<string>,
    password: Option<string>,
    genres: Option<seq<string>>,
    profilePicture: Option<Option<string>>)

  const NoFields := Patch(None, None, None, None, None)

  /** What the credentials step hands on. */
  function CredentialsPatch(username: string, email: string, password: string): Patch {
    Patch(Some(username), Some(email), Some(password), None, None)
  }

  /** What the genre step hands on. */
  function GenresPatch(genres: seq<string>): Patch {
    Patch(None, None, None, Some(genres), None)
  }

  /** What the profile-picture step hands on (a picture, or `null` when skipped). */
  function PicturePatch(picture: Option<string>): Patch {
    Patch(None, None, None, None, Some(picture))
  }

  /** `{ ...d, ...p }`: every key present in `p` takes `p`'s value, every other keeps `d`'s. */
  function Overlay(d: SignupData, p: Patch): (r: SignupData)
    ensures p.username.Some? ==> r.username == p.username.value
    ensures p.username.None? ==> r.username == d.username
    ensures p.email.Some? ==> r.email == p.email.value
    ensures p.email.None? ==> r.email == d.email
    ensures p.password.Some? ==> r.password == p.password.value
    ensures p.password.None? ==> r.password == d.password
    ensures p.genres.Some? ==> r.genres == p.genres.value
    ensures p.genres.None? ==> r.genres == d.genres
    ensures p.profilePicture.Some? ==> r.profilePicture == p.profilePicture.value
    ensures p.profilePicture.None? ==> r.profilePicture == d.profilePicture
  {
    SignupData(
      p.username.GetOr(d.username),
      p.email.GetOr(d.email),
      p.password.GetOr(d.password),
      p.genres.GetOr(d.genres),
      p.profilePicture.GetOr(d.profilePicture))
  }

  /** `{ ...p, ...q }` on step objects: `q`'s keys win. */
  function Then(p: Patch, q: Patch): Patch {
    Patch(
      if q.username.Some? then q.username else p.username,
      if q.email.Some? then q.email else p.email,
      if q.password.Some? then q.password else p.password,
      if q.genres.Some? then q.genres else p.genres,
      if q.profilePicture.Some? then q.profilePicture else p.profilePicture)
  }

  /** An empty step object changes nothing. */
  lemma OverlayNothing(d: SignupData)
    ensures Overlay(d, NoFields) == d
  {
  }

  /** Spreading two step objects one after the other is spreading their combination: the later wins. */
  lemma OverlayCompose(d: SignupData, p: Patch, q: Patch)
    ensures Overlay(Overlay(d, p), q) == Overlay(d, Then(p, q))
  {
  }

  /** Spreading the same step object twice is spreading it once. */
  lemma OverlayIdempotent(d: SignupData, p: Patch)
    ensures Overlay(Overlay(d, p), p) == Overlay(d, p)
  {
    OverlayCompose(d, p, p);
    assert Then(p, p) == p;
  }

  /** Steps that hand on disjoint keys can be applied in either order. */
  lemma OverlayDisjointCommute(d: SignupData, p: Patch, q: Patch)
    requires !(p.username.Some? && q.username.Some?) && !(p.email.Some? && q.email.Some?)
    requires !(p.password.Some? && q.password.Some?) && !(p.genres.Some? && q.genres.Some?)
    requires !(p.profilePicture.Some? && q.profilePicture.Some?)
    ensures Overlay(Overlay(d, p), q) == Overlay(Overlay(d, q), p)
  {
  }

  /** Going through the three steps from the empty record submits exactly what the steps handed on,
      whatever the earlier steps had stored. */
  lemma FullFlowPayload(d: SignupData, username: string, email: string, password: string,
                        genres: seq<string>, picture: Option<string>)
    ensures Overlay(Overlay(Overlay(d, CredentialsPatch(username, email, password)), GenresPatch(genres)),
                    PicturePatch(picture))
            == SignupData(username, email, password, genres, picture)
  {
  }

  /** Which screen each step shows; any other step value shows nothing. */
  datatype StepScreen = CredentialsStep | GenresStep | PictureStep

  function ScreenOf(step: int): (r: Option<StepScreen>)
    ensures r.Some? <==> 1 <= step <= 3
    ensures r == Some(CredentialsStep) <==> step == 1
    ensures r == Some(PictureStep) <==> step == 3
  {
    if step == 1 then Some(CredentialsStep)
    else if step == 2 then Some(GenresStep)
    else if step == 3 then Some(PictureStep)
    else None
  }

  /** The screens whose `onNext` is wired to `handleStepComplete`: credentials and genres; the
      picture screen's completion goes to `handleFinalSignup` instead. */
  predicate WiredToStepComplete(s: StepScreen) {
    s == CredentialsStep || s == GenresStep
  }

  /** Completing a step from a screen that is wired to it keeps the step within 1..3. */
  lemma StepCompleteStaysInRange(step: int)
    requires ScreenOf(step).Some? && WiredToStepComplete(ScreenOf(step).value)
    ensures ScreenOf(step + 1).Some?
  {
  }

  /** How the signup request ended, as seen by the wizard. */
  datatype SignupResponse<U> = Created(user: U) | Refused(error: string) | NetworkError

  /** The wizard's state. */
  class Wizard {
    var currentStep: int
    var data: SignupData

    ghost predicate Valid()
      reads this
    {
      ScreenOf(currentStep).Some?
    }

    constructor ()
      ensures currentStep == 1 && data == EmptySignupData
      ensures Valid()
    {
      currentStep := 1;
      data := EmptySignupData;
    }

    /** A step finished: its fields are spread into the record and the step advances by one. */
    method HandleStepComplete(stepData: Patch)
      modifies this
      ensures data == Overlay(old(data), stepData)
      ensures currentStep == old(currentStep) + 1
      ensures old(Valid()) && WiredToStepComplete(ScreenOf(old(currentStep)).value) ==> Valid()
    {
      data := Overlay(data, stepData);
      currentStep := currentStep + 1;
    }

    /** Back: at step 1 it switches to the login screen (the result), elsewhere it steps back. */
    method HandleBack() returns (switchToLogin: bool)
      modifies this
      ensures switchToLogin <==> old(currentStep) == 1
      ensures currentStep == if old(currentStep) == 1 then 1 else old(currentStep) - 1
      ensures data == old(data)
      ensures old(Valid()) ==> Valid()
    {
      if currentStep == 1 {
        switchToLogin := true;
      } else {
        switchToLogin := false;
        currentStep := currentStep - 1;
      }
    }

    /** The final step: the record spread with the final fields is submitted (`payload`). On creation
        the wizard resets to step 1 and the empty record and reports the new user; a refusal or a
        network failure is caught and logged, leaving the state as it was. */
    method HandleFinalSignup<U>(finalData: Patch, response: SignupResponse<U>)
      returns (payload: SignupData, signedUp: Option<U>)
      modifies this
      ensures payload == Overlay(old(data), finalData)
      ensures signedUp.Some? <==> response.Created?
      ensures response.Created? ==>
        signedUp.value == response.user && currentStep == 1 && data == EmptySignupData
      ensures !response.Created? ==> currentStep == old(currentStep) && data == old(data)
      ensures old(Valid()) ==> Valid()
    {
      payload := Overlay(data, finalData);
      match response {
        case Created(user) =>
          currentStep := 1;
          data := EmptySignupData;
          signedUp := Some(user);
        case Refused(_) =>
          signedUp := None;
        case NetworkError =>
          signedUp := None;
      }
    }
  }
}
