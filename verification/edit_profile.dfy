/** EditProfileScreen: the profile form, its validation chain and the
    updateProfile request. */
module EditProfile {
  import opened Wrappers
  import opened Text
  import opened FirstMatch
  import opened Ui

  /** The fields of the profile fixture this screen reads. */
  datatype UserProfile = UserProfile(id: string, name: string, username: string, bio: string, profileImage: string)

  datatype ProfileError = NoName | NoUsername

  function ErrorMessage(e: ProfileError): string {
    match e
    case NoName => "Please enter your name"
    case NoUsername => "Please enter a username"
  }

  /** updateProfile(profileId, {name, username, bio}). */
  datatype ProfileUpdate = ProfileUpdate(profileId: string, name: string, username: string, bio: string)

  /** The early-return checks of handleSave, in order; the update on success.
      The bio is never checked. */
  function CheckProfile(profileId: string, name: string, username: string, bio: string): Result<ProfileUpdate, ProfileError> {
    if Trim(name) == [] then Failure(NoName)
    else if Trim(username) == [] then Failure(NoUsername)
    else Success(ProfileUpdate(profileId, name, username, bio))
  }

  /** A blank name is reported first, then a blank username; otherwise the
      update carries the three texts as typed, whatever the bio is. */
  lemma CheckProfileOutcomes(profileId: string, name: string, username: string, bio: string)
    ensures var r := CheckProfile(profileId, name, username, bio);
      && (r == Failure(NoName) <==> IsBlank(name))
      && (r == Failure(NoUsername) <==> !IsBlank(name) && IsBlank(username))
      && (r == Success(ProfileUpdate(profileId, name, username, bio)) <==> !IsBlank(name) && !IsBlank(username))
  {
    TrimEmptyIffBlank(name);
    TrimEmptyIffBlank(username);
  }

  /** The bio has no say in the verdict: an empty bio is accepted like any other. */
  lemma BioNeverChecked(profileId: string, name: string, username: string, bio: string, bio': string)
    ensures CheckProfile(profileId, name, username, bio).Success?
        <==> CheckProfile(profileId, name, username, bio').Success?
    ensures CheckProfile(profileId, name, username, bio).Success?
        ==> CheckProfile(profileId, name, username, []) == Success(ProfileUpdate(profileId, name, username, []))
  {
  }

  function ProfileChecks(name: string, username: string): seq<Rule<ProfileError>> {
    [ Rule(Trim(name) == [], NoName),
      Rule(Trim(username) == [], NoUsername) ]
  }

  /** handleSave reports the first failing check of the table, and sends the
      update only when both pass. */
  lemma CheckProfileIsFirstFailure(profileId: string, name: string, username: string, bio: string)
    ensures CheckProfile(profileId, name, username, bio)
        == match First(ProfileChecks(name, username))
           case Some(e) => Failure(e)
           case None => Success(ProfileUpdate(profileId, name, username, bio))
  {
    var checks := ProfileChecks(name, username);
    assert First(checks) == if checks[0].fires then Some(NoName) else First(checks[1..]);
    assert First(checks[1..]) == if checks[1].fires then Some(NoUsername) else First(checks[2..]);
    assert checks[2..] == [];
  }

  function Submit(checked: Result<ProfileUpdate, ProfileError>): Submission<ProfileUpdate> {
    match checked
    case Failure(e) => Blocked(ErrorAlert(ErrorMessage(e)))
    case Success(update) => Requested(update)
  }

  const SuccessAlert := Alert("Success", "Profile updated successfully!")
  const FailureAlert := ErrorAlert("Failed to update profile. Please try again.")

  /** Local state of EditProfileScreen. */
  class Screen {
    const profile: UserProfile
    var name: string
    var username: string
    var bio: string
    var profileImage: string
    var loading: bool

    /** The form starts from the profile fixture. */
    constructor (profile: UserProfile)
      ensures this.profile == profile
      ensures name == profile.name && username == profile.username && bio == profile.bio
      ensures profileImage == profile.profileImage && !loading
    {
      this.profile := profile;
      name, username, bio := profile.name, profile.username, profile.bio;
      profileImage := profile.profileImage;
      loading := false;
    }

    /** onChangeText of the name box. */
    method ChangeName(text: string)
      modifies this
      ensures name == text
      ensures username == old(username) && bio == old(bio) && profileImage == old(profileImage) && loading == old(loading)
    {
      name := text;
    }

    /** onChangeText of the username box. */
    method ChangeUsername(text: string)
      modifies this
      ensures username == text
      ensures name == old(name) && bio == old(bio) && profileImage == old(profileImage) && loading == old(loading)
    {
      username := text;
    }

    /** onChangeText of the bio box. */
    method ChangeBio(text: string)
      modifies this
      ensures bio == text
      ensures name == old(name) && username == old(username) && profileImage == old(profileImage) && loading == old(loading)
    {
      bio := text;
    }

    /** handleChangePhoto only shows an alert; the photo is not changed. */
    method HandleChangePhoto() returns (alert: Alert)
      ensures alert == Alert("Info", "In production, this would open image picker")
    {
      alert := Alert("Info", "In production, this would open image picker");
    }

    /** handleSave up to the awaited request: a failed check alerts and sends
        nothing; otherwise loading is set and the update for the fixture's id
        is sent. The button is disabled while loading. */
    method HandleSave() returns (outcome: Submission<ProfileUpdate>)
      requires !loading
      modifies this
      ensures name == old(name) && username == old(username) && bio == old(bio) && profileImage == old(profileImage)
      ensures outcome == Submit(CheckProfile(profile.id, name, username, bio))
      ensures loading == outcome.Requested?
    {
      var checked := CheckProfile(profile.id, name, username, bio);
      outcome := Submit(checked);
      if outcome.Requested? {
        loading := true;
      }
    }

    /** The updateProfile request settles: the finally block clears loading
        whether it resolved or threw. */
    method FinishSave(succeeded: bool) returns (alert: Alert)
      requires loading
      modifies this
      ensures !loading
      ensures alert == Settled(succeeded, SuccessAlert, FailureAlert)
      ensures name == old(name) && username == old(username) && bio == old(bio) && profileImage == old(profileImage)
    {
      alert := Settled(succeeded, SuccessAlert, FailureAlert);
      loading := false;
    }
  }
}
