/** CreatePostScreen: the new-post form, its validation chain and the
    createPost request. */
module CreatePost {
  import opened Wrappers
  import opened Text
  import opened FirstMatch
  import opened Ui

  /** The placeholder photo handleSelectImage picks instead of opening a picker. */
  const DummyImage: string := "https://images.pexels.com/photos/3601425/pexels-photo-3601425.jpeg?auto=compress&cs=tinysrgb&w=800"

  datatype PostError = NoImage | NoCaption | NoLocation

  function ErrorMessage(e: PostError): string {
    match e
    case NoImage => "Please select an image"
    case NoCaption => "Please enter a caption"
    case NoLocation => "Please enter a location"
  }

  /** The multipart form sent to createPost: caption and location, as typed.
      The selected image is not attached. */
  datatype PostForm = PostForm(caption: string, location: string)

  /** `!selectedImage` is false: the image is neither null nor the empty string. */
  predicate HasImage(selectedImage: Option<string>) {
    selectedImage.Some? && selectedImage.value != ""
  }

  /** The early-return checks of handleSubmit, in order; the form on success. */
  function CheckPost(selectedImage: Option<string>, caption: string, location: string): Result<PostForm, PostError> {
    if !HasImage(selectedImage) then Failure(NoImage)
    else if Trim(caption) == [] then Failure(NoCaption)
    else if Trim(location) == [] then Failure(NoLocation)
    else Success(PostForm(caption, location))
  }

  /** The image check comes first; a caption or location that is empty or
      whitespace only is rejected, caption before location; the form is sent
      exactly when all three are present, with the texts as typed. */
  lemma CheckPostOutcomes(selectedImage: Option<string>, caption: string, location: string)
    ensures var r := CheckPost(selectedImage, caption, location);
      && (r == Failure(NoImage) <==> !HasImage(selectedImage))
      && (r == Failure(NoCaption) <==> HasImage(selectedImage) && IsBlank(caption))
      && (r == Failure(NoLocation) <==> HasImage(selectedImage) && !IsBlank(caption) && IsBlank(location))
      && (r == Success(PostForm(caption, location)) <==> HasImage(selectedImage) && !IsBlank(caption) && !IsBlank(location))
  {
    TrimEmptyIffBlank(caption);
    TrimEmptyIffBlank(location);
  }

  /** The same checks as a table, first failure wins. */
  function PostChecks(selectedImage: Option<string>, caption: string, location: string): seq<Rule<PostError>> {
    [ Rule(!HasImage(selectedImage), NoImage),
      Rule(Trim(caption) == [], NoCaption),
      Rule(Trim(location) == [], NoLocation) ]
  }

  /** handleSubmit reports the first failing check of the table, and sends the
      form only when every check passes. */
  lemma CheckPostIsFirstFailure(selectedImage: Option<string>, caption: string, location: string)
    ensures var checks := PostChecks(selectedImage, caption, location);
      CheckPost(selectedImage, caption, location)
        == match First(checks)
           case Some(e) => Failure(e)
           case None => Success(PostForm(caption, location))
  {
    var checks := PostChecks(selectedImage, caption, location);
    assert First(checks) == if checks[0].fires then Some(NoImage) else First(checks[1..]);
    assert First(checks[1..]) == if checks[1].fires then Some(NoCaption) else First(checks[2..]);
    assert First(checks[2..]) == if checks[2].fires then Some(NoLocation) else First(checks[3..]);
    assert checks[3..] == [];
  }

  /** Once handleSelectImage has run, the image check passes. */
  lemma SelectedImagePasses(caption: string, location: string)
    ensures CheckPost(Some(DummyImage), caption, location) != Failure(NoImage)
  {
  }

  const SuccessAlert := Alert("Success", "Post created successfully!")
  const FailureAlert := ErrorAlert("Failed to create post. Please try again.")

  /** A failed check becomes its alert; a passing one, the request. */
  function Submit(checked: Result<PostForm, PostError>): Submission<PostForm> {
    match checked
    case Failure(e) => Blocked(ErrorAlert(ErrorMessage(e)))
    case Success(form) => Requested(form)
  }

  /** Local state of CreatePostScreen. */
  class Screen {
    var caption: string
    var location: string
    var selectedImage: Option<string>
    var loading: bool

    constructor ()
      ensures caption == [] && location == [] && selectedImage == None && !loading
    {
      caption, location, selectedImage, loading := [], [], None, false;
    }

    /** onChangeText of the caption box. */
    method ChangeCaption(text: string)
      modifies this
      ensures caption == text
      ensures location == old(location) && selectedImage == old(selectedImage) && loading == old(loading)
    {
      caption := text;
    }

    /** onChangeText of the location box. */
    method ChangeLocation(text: string)
      modifies this
      ensures location == text
      ensures caption == old(caption) && selectedImage == old(selectedImage) && loading == old(loading)
    {
      location := text;
    }

    /** handleSelectImage: the placeholder photo becomes the selection. */
    method HandleSelectImage() returns (alert: Alert)
      modifies this
      ensures selectedImage == Some(DummyImage) && HasImage(selectedImage)
      ensures caption == old(caption) && location == old(location) && loading == old(loading)
      ensures alert == Alert("Info", "In production, this would open image picker")
    {
      selectedImage := Some(DummyImage);
      alert := Alert("Info", "In production, this would open image picker");
    }

    /** handleSubmit up to the awaited request: a failed check alerts and sends
        nothing; otherwise loading is set and the form is sent. The button is
        disabled while loading, so this never starts during a request. */
    method HandleSubmit() returns (outcome: Submission<PostForm>)
      requires !loading
      modifies this
      ensures caption == old(caption) && location == old(location) && selectedImage == old(selectedImage)
      ensures outcome == Submit(CheckPost(selectedImage, caption, location))
      ensures loading == outcome.Requested?
    {
      var checked := CheckPost(selectedImage, caption, location);
      outcome := Submit(checked);
      if outcome.Requested? {
        loading := true;
      }
    }

    /** The createPost request settles: the finally block clears loading
        whether it resolved or threw. */
    method FinishSubmit(succeeded: bool) returns (alert: Alert)
      requires loading
      modifies this
      ensures !loading
      ensures alert == Settled(succeeded, SuccessAlert, FailureAlert)
      ensures caption == old(caption) && location == old(location) && selectedImage == old(selectedImage)
    {
      alert := Settled(succeeded, SuccessAlert, FailureAlert);
      loading := false;
    }
  }
}
