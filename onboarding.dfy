/** The onboarding wizard: four steps moved by Next and Back, Next blocked on
    the first two steps while a required field is empty, and the profile
    inserted from the fields at the end. */
module Onboarding {
  import opened Wrappers
  import opened Thrown
  import opened FormCodec

  const Required := "Please fill in all required fields"

  /** Whether Next refuses to leave `step` with these fields. */
  predicate Blocked(step: int, f: FormText)
  {
    (step == 1 && (f.fullName == "" || f.dateOfBirth == "" || f.gender == ""))
    || (step == 2 && (f.heightCm == "" || f.weightKg == ""))
  }

  /** Only the first two steps check their fields, and each checks only its
      own: the optional phone, the emergency contact and the medical history
      never block. */
  lemma OnlyOwnFieldsBlock(step: int, f: FormText, g: FormText)
    requires f.fullName == g.fullName && f.dateOfBirth == g.dateOfBirth && f.gender == g.gender
    requires f.heightCm == g.heightCm && f.weightKg == g.weightKg
    ensures Blocked(step, f) == Blocked(step, g)
    ensures step == 3 || step == 4 ==> !Blocked(step, f)
  {
  }

  class OnboardingWizard {
    var step: int
    var loading: bool
    var error: Option<string>
    var userId: Option<string>
    var form: FormText
    /** Where the page sent the browser, if anywhere. */
    var route: Option<string>
    /** The profiles rows this wizard inserted. */
    var inserted: seq<(string, Profile)>

    /** The step stays within 1..4. */
    predicate Valid()
      reads this
    {
      1 <= step <= 4
    }

    constructor()
      ensures Valid() && step == 1 && !loading && error == None && userId == None
      ensures form == BlankForm && route == None && inserted == []
    {
      step := 1;
      loading := false;
      error := None;
      userId := None;
      form := BlankForm;
      route := None;
      inserted := [];
    }

    /** The sign-in check on mount: without a user the page goes to the login
        page; otherwise it keeps the user's id and prefills the name. */
    method CheckAuth(user: Option<(string, Option<string>)>)
      modifies this
      ensures user.None? ==> route == Some("/auth/login") && userId == old(userId) && form == old(form)
      ensures user.Some? ==>
        route == old(route) && userId == Some(user.value.0) && form == old(form).(fullName := user.value.1.GetOr(""))
      ensures step == old(step) && error == old(error) && loading == old(loading) && inserted == old(inserted)
    {
      if user.None? {
        route := Some("/auth/login");
      } else {
        userId := Some(user.value.0);
        form := form.(fullName := user.value.1.GetOr(""));
      }
    }

    /** Typing into the fields. */
    method Edit(f: FormText)
      modifies this
      ensures form == f
      ensures step == old(step) && error == old(error) && loading == old(loading)
      ensures userId == old(userId) && route == old(route) && inserted == old(inserted)
    {
      form := f;
    }

    /** `handleNext`, offered only below the last step. */
    method Next()
      requires Valid() && step < 4
      modifies this
      ensures Valid()
      ensures Blocked(old(step), form) ==> step == old(step) && error == Some(Required)
      ensures !Blocked(old(step), form) ==> step == old(step) + 1 && error == None
      ensures form == old(form) && loading == old(loading) && userId == old(userId)
      ensures route == old(route) && inserted == old(inserted)
    {
      if step == 1 && (form.fullName == "" || form.dateOfBirth == "" || form.gender == "") {
        error := Some(Required);
        return;
      }
      if step == 2 && (form.heightCm == "" || form.weightKg == "") {
        error := Some(Required);
        return;
      }
      error := None;
      step := step + 1;
    }

    /** `handleBack`, offered only above the first step. */
    method Back()
      requires Valid() && step > 1
      modifies this
      ensures Valid() && step == old(step) - 1 && error == None
      ensures form == old(form) && loading == old(loading) && userId == old(userId)
      ensures route == old(route) && inserted == old(inserted)
    {
      error := None;
      step := step - 1;
    }

    /** `handleComplete`. `failure` is what the insert throws, if it fails. */
    method Complete(failure: Option<Failure>)
      modifies this
      ensures step == old(step) && form == old(form) && userId == old(userId)
      ensures old(userId).Some? ==> !loading
      ensures old(userId).None? ==>
        error == old(error) && route == old(route) && inserted == old(inserted) && loading == old(loading)
      ensures old(userId).Some? && failure.Some? ==>
        error == Some(ErrorText(failure.value)) && route == old(route) && inserted == old(inserted)
      ensures old(userId).Some? && failure.None? ==>
        && error == None && route == Some("/dashboard")
        && inserted == old(inserted) + [(old(userId).value, ProfileOf(form))]
    {
      if userId.None? {
        return;
      }
      loading := true;
      error := None;
      var row := (userId.value, ProfileOf(form));
      if failure.Some? {
        error := Some(ErrorText(failure.value));
      } else {
        inserted := inserted + [row];
        route := Some("/dashboard");
      }
      loading := false;
    }
  }

  /** Next then Back returns to the step it left, with no error shown. */
  method NextThenBack(w: OnboardingWizard)
    requires w.Valid() && w.step < 4 && !Blocked(w.step, w.form)
    modifies w
    ensures w.Valid() && w.step == old(w.step) && w.error == None && w.form == old(w.form)
  {
    w.Next();
    w.Back();
  }

  /** A wizard that has just been opened is at step 1, and Next keeps it
      there until the name, the date of birth and the gender are filled. */
  method FirstStepNeedsBasics(f: FormText) returns (w: OnboardingWizard)
    requires f.fullName == "" || f.dateOfBirth == "" || f.gender == ""
    ensures fresh(w) && w.step == 1 && w.error == Some(Required)
  {
    w := new OnboardingWizard();
    w.Edit(f);
    w.Next();
  }
}
