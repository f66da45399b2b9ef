/** The profile form: fields filled from the stored profile, and a submit that
    saves the parsed fields and ends with exactly one of success or error. */
module ProfileForm {
  import opened Wrappers
  import opened Thrown
  import opened FormCodec

  class ProfileEditor {
    const userId: string
    var loading: bool
    var error: Option<string>
    var success: bool
    var form: FormText
    /** The profile updates this form sent, with the id they were sent for. */
    var updates: seq<(string, Profile)>

    constructor(profile: Profile, userId: string)
      ensures this.userId == userId && form == FormOf(profile)
      ensures !loading && error == None && !success && updates == []
    {
      this.userId := userId;
      loading := false;
      error := None;
      success := false;
      form := FormOf(profile);
      updates := [];
    }

    /** Typing into the fields. */
    method Edit(f: FormText)
      modifies this
      ensures form == f && loading == old(loading) && error == old(error)
      ensures success == old(success) && updates == old(updates)
    {
      form := f;
    }

    /** `handleSubmit`. `failure` is what the update throws, if it fails. */
    method Submit(failure: Option<Failure>)
      modifies this
      ensures !loading && form == old(form)
      ensures success <==> error == None
      ensures failure.None? ==> success && updates == old(updates) + [(userId, ProfileOf(form))]
      ensures failure.Some? ==> error == Some(ErrorText(failure.value)) && updates == old(updates)
    {
      loading := true;
      error := None;
      success := false;
      if failure.Some? {
        error := Some(ErrorText(failure.value));
      } else {
        updates := updates + [(userId, ProfileOf(form))];
        success := true;
      }
      loading := false;
    }
  }

  /** Saving the form unedited stores back the profile it was opened with,
      under the round-trip conditions of the list fields. */
  method SaveUnedited(p: Profile, userId: string) returns (e: ProfileEditor)
    requires p.dateOfBirth != Some("") && p.gender != Some("") && p.heightCm != Some("")
    requires p.weightKg != Some("") && p.phone != Some("") && p.emergencyName != Some("")
    requires p.emergencyPhone != Some("")
    requires Carried(p.medicalConditions) && Carried(p.allergies) && Carried(p.medications)
    ensures fresh(e) && e.success && e.updates == [(userId, p)]
  {
    e := new ProfileEditor(p, userId);
    e.Submit(None);
    UneditedProfileRoundTrip(p);
  }
}
