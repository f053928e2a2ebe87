/**
  The closet page: the list of clothing items and the "add item" form with
  its required-field validation, the payload it sends, and what the form
  keeps after an item has been added.
 */
module Closet {
  import opened Wrappers
  import opened Text
  import opened Lists
  import opened Wardrobe

  /** The form's inputs, each with its own error slot. */
  datatype Field = Name | Category | Color | Season | WarmthLevel | Formality | ImageFile

  /** A picked image file; only its presence matters here. */
  datatype File = File(fileName: string)

  /** The form state; `warmth_level` holds the selected option's text ("" when none). */
  datatype Form = Form(
    name: string,
    category: string,
    color: string,
    season: string,
    warmth_level: string,
    formality: string,
    tags: seq<string>,
    imageFile: Option<File>)

  /** What an input hands to `updateField`: text for the text inputs, a file or nothing for the image. */
  datatype FieldValue = Text(text: string) | Upload(file: Option<File>)

  /** What "Add" sends to `POST /clothing`. */
  datatype ItemRequest = ItemRequest(
    user_id: Id,
    name: string,
    category: string,
    color: string,
    season: string,
    primary_image_url: string,
    warmth_level: Option<int>,     // None: null, the text was not a number
    formality: string,
    tags: seq<string>)

  const EmptyForm := Form("", "", "", "", "", "", [], None)

  /** Whether the value fits the field: text for text inputs, an upload for the image. */
  predicate Fits(field: Field, value: FieldValue) {
    (field == ImageFile) == value.Upload?
  }

  /** The current value of one field. */
  function FieldOf(form: Form, field: Field): (v: FieldValue)
    ensures Fits(field, v)
  {
    match field
    case Name => Text(form.name)
    case Category => Text(form.category)
    case Color => Text(form.color)
    case Season => Text(form.season)
    case WarmthLevel => Text(form.warmth_level)
    case Formality => Text(form.formality)
    case ImageFile => Upload(form.imageFile)
  }

  /** `{ ...prev, [field]: value }`: the one field set, the others and the tags kept. */
  function WithField(form: Form, field: Field, value: FieldValue): (r: Form)
    requires Fits(field, value)
    ensures FieldOf(r, field) == value
    ensures forall g :: g != field ==> FieldOf(r, g) == FieldOf(form, g)
    ensures r.tags == form.tags
  {
    match field
    case Name => form.(name := value.text)
    case Category => form.(category := value.text)
    case Color => form.(color := value.text)
    case Season => form.(season := value.text)
    case WarmthLevel => form.(warmth_level := value.text)
    case Formality => form.(formality := value.text)
    case ImageFile => form.(imageFile := value.file)
  }

  /** The check `validateForm` makes for one field: a blank name, an empty choice, no image. */
  predicate Missing(form: Form, field: Field) {
    match field
    case Name => Trim(form.name) == ""
    case Category => form.category == ""
    case Color => form.color == ""
    case Season => form.season == ""
    case WarmthLevel => form.warmth_level == ""
    case Formality => form.formality == ""
    case ImageFile => form.imageFile.None?
  }

  /** The position of a field in the form, which is also the order `validateForm` checks them in. */
  function Rank(field: Field): (k: nat)
    ensures k < 7
  {
    match field
    case Name => 0
    case Category => 1
    case Color => 2
    case Season => 3
    case WarmthLevel => 4
    case Formality => 5
    case ImageFile => 6
  }

  function RequiredMessage(field: Field): string {
    match field
    case Name => "Name is required"
    case Category => "Category is required"
    case Color => "Color is required"
    case Season => "Season is required"
    case WarmthLevel => "Warmth level is required"
    case Formality => "Formality is required"
    case ImageFile => "Image is required"
  }

  /** The field checked at position `k`: the inverse of `Rank`. */
  function FieldAt(k: nat): (field: Field)
    requires k < 7
    ensures Rank(field) == k
  {
    [Name, Category, Color, Season, WarmthLevel, Formality, ImageFile][k]
  }

  /** The errors object `validateForm` has built after checking the first `done` fields. */
  function ErrorsOf(form: Form, done: nat): map<Field, string>
    requires done <= 7
  {
    if done == 0 then map[]
    else
      var field := FieldAt(done - 1);
      var errors := ErrorsOf(form, done - 1);
      if Missing(form, field) then errors[field := RequiredMessage(field)] else errors
  }

  /** `errors` holds the message of each missing field among the first `done` fields, and nothing else. */
  predicate Collected(errors: map<Field, string>, form: Form, done: nat) {
    && (forall g :: g in errors <==> Rank(g) < done && Missing(form, g))
    && (forall g :: g in errors ==> errors[g] == RequiredMessage(g))
  }

  /** The field errors are exactly the messages of the missing fields. */
  predicate ErrorsReport(errors: map<Field, string>, form: Form) {
    && (forall g :: g in errors <==> Missing(form, g))
    && (forall g :: g in errors ==> errors[g] == RequiredMessage(g))
  }

  /** Checking the fields one by one collects exactly the missing ones among those checked. */
  lemma {:induction false} ErrorsOfCollected(form: Form, done: nat)
    requires done <= 7
    ensures Collected(ErrorsOf(form, done), form, done)
  {
    if done > 0 {
      ErrorsOfCollected(form, done - 1);
      var field := FieldAt(done - 1);
      forall g | Rank(g) == done - 1 ensures g == field {
      }
    }
  }

  /** Once all seven fields are checked the errors report exactly the missing fields, and none means a complete form. */
  lemma ErrorsOfReport(form: Form)
    ensures ErrorsReport(ErrorsOf(form, 7), form)
    ensures ErrorsOf(form, 7) == map[] <==> forall f :: !Missing(form, f)
  {
    ErrorsOfCollected(form, 7);
    var errors := ErrorsOf(form, 7);
    if errors != map[] {
      var g :| g in errors;
      assert Missing(form, g);
    }
  }

  /** `isAddDisabled`: a submission is running or one of the required fields is empty. */
  predicate AddDisabled(form: Form, submitting: bool) {
    submitting || Trim(form.name) == "" || form.category == "" || form.color == "" || form.season == ""
    || form.warmth_level == "" || form.formality == "" || form.imageFile.None?
  }

  /** While nothing is being submitted, "Add" is disabled exactly when validation would report a field. */
  lemma AddDisabledAgreesWithValidation(form: Form)
    ensures AddDisabled(form, false) <==> exists f :: Missing(form, f)
  {
    if AddDisabled(form, false) {
      if IsBlank(form.name) { assert Missing(form, Name); }
      else if form.category == "" { assert Missing(form, Category); }
      else if form.color == "" { assert Missing(form, Color); }
      else if form.season == "" { assert Missing(form, Season); }
      else if form.warmth_level == "" { assert Missing(form, WarmthLevel); }
      else if form.formality == "" { assert Missing(form, Formality); }
      else { assert Missing(form, ImageFile); }
    }
  }

  /** The request for a validated form: the trimmed name, the warmth as a number (null when not one), the rest as entered. */
  function PayloadOf(userId: Id, form: Form, imageUrl: string): (r: ItemRequest)
    ensures r.name == Trim(form.name) && r.warmth_level == NumberOf(form.warmth_level)
    ensures r.user_id == userId && r.primary_image_url == imageUrl && r.tags == form.tags
    ensures r.category == form.category && r.color == form.color && r.season == form.season
    ensures r.formality == form.formality
  {
    ItemRequest(userId, Trim(form.name), form.category, form.color, form.season, imageUrl,
      NumberOf(form.warmth_level), form.formality, form.tags)
  }

  /** A warmth chosen from the numbered options reaches the server as that number. */
  lemma PayloadWarmth(userId: Id, form: Form, imageUrl: string, level: int)
    requires form.warmth_level == IntToString(level)
    ensures PayloadOf(userId, form, imageUrl).warmth_level == Some(level)
  {
    NumberOfIntToString(level);
  }

  /** After an item is added the name and the image are cleared; the other choices stay for the next item. */
  function PartialReset(form: Form): (r: Form)
    ensures r.name == "" && r.imageFile.None?
    ensures r.category == form.category && r.color == form.color && r.season == form.season
    ensures r.warmth_level == form.warmth_level && r.formality == form.formality && r.tags == form.tags
  {
    form.(name := "", imageFile := None)
  }

  /** After the reset of a complete form, only the name and the image are missing. */
  lemma PartialResetMissing(form: Form)
    requires forall f :: !Missing(form, f)
    ensures forall f :: Missing(PartialReset(form), f) <==> f == Name || f == ImageFile
  {
    forall f ensures Missing(PartialReset(form), f) <==> f == Name || f == ImageFile {
      assert !Missing(form, f);
    }
  }

  /** `warmth_level ? `Warmth ${warmth_level}/5` : null` (a missing level is 0). */
  function WarmthLabel(warmth: int): (r: Option<string>)
    ensures r.None? <==> warmth == 0
    ensures r.Some? ==>
      (|r.value| == 9 + |IntToString(warmth)| && r.value[..7] == "Warmth "
       && r.value[7..|r.value| - 2] == IntToString(warmth) && r.value[|r.value| - 2..] == "/5")
  {
    if warmth != 0 then Some("Warmth " + IntToString(warmth) + "/5") else None
  }

  /** The card's season line: season and warmth joined by " · " when both exist, else whichever exists, else nothing. */
  function SeasonLabel(season: string, warmth: int): (r: Option<string>)
    ensures r.None? <==> season == "" && warmth == 0
    ensures season != "" && warmth == 0 ==> r == Some(season)
    ensures season == "" && warmth != 0 ==> r == WarmthLabel(warmth)
    ensures season != "" && warmth != 0 ==>
      (|r.value| > |season| + 3 && r.value[..|season|] == season
       && r.value[|season|..|season| + 3] == " · " && r.value[|season| + 3..] == WarmthLabel(warmth).value)
  {
    var w := WarmthLabel(warmth);
    if season != "" && w.Some? then Some(season + " · " + w.value)
    else if season != "" then Some(season)
    else w
  }

  class ClosetPage {
    const user: Option<User>
    var items: seq<ClothingItem>
    var error: string
    var submitError: string
    var submitting: bool
    var imagePreviewUrl: string
    var form: Form
    var fieldErrors: map<Field, string>

    constructor (user: Option<User>)
      ensures this.user == user && items == [] && error == "" && submitError == "" && !submitting
      ensures imagePreviewUrl == "" && form == EmptyForm && fieldErrors == map[]
    {
      this.user := user;
      items := [];
      error := "";
      submitError := "";
      submitting := false;
      imagePreviewUrl := "";
      form := EmptyForm;
      fieldErrors := map[];
    }

    /** `loadItems` once `/clothing` has answered: a null answer reads as no items. */
    method LoadItems(reply: Result<Option<seq<ClothingItem>>>)
      modifies this
      ensures reply.Ok? ==> items == reply.value.GetOr([]) && error == ""
      ensures reply.Err? ==> items == old(items) && error == OrElse(reply.message, "Could not load clothing items")
      ensures form == old(form) && fieldErrors == old(fieldErrors) && submitting == old(submitting)
      ensures submitError == old(submitError) && imagePreviewUrl == old(imagePreviewUrl)
    {
      error := "";
      match reply
      case Ok(data) =>
        items := data.GetOr([]);
      case Err(message) =>
        error := OrElse(message, "Could not load clothing items");
    }

    /**
      `updateField`: the field takes the value and its error is cleared (set
      to ""). Choosing a file shows its object URL `objectUrl` as the preview;
      clearing the file clears the preview.
     */
    method UpdateField(field: Field, value: FieldValue, objectUrl: string)
      requires Fits(field, value)
      modifies this
      ensures form == WithField(old(form), field, value)
      ensures fieldErrors == old(fieldErrors)[field := ""]
      ensures field == ImageFile && value.file.Some? ==> imagePreviewUrl == objectUrl
      ensures field == ImageFile && value.file.None? ==> imagePreviewUrl == ""
      ensures field != ImageFile ==> imagePreviewUrl == old(imagePreviewUrl)
      ensures items == old(items) && submitting == old(submitting) && submitError == old(submitError)
      ensures error == old(error)
    {
      form := WithField(form, field, value);
      fieldErrors := fieldErrors[field := ""];
      if field == ImageFile {
        imagePreviewUrl := if value.file.Some? then objectUrl else "";
      }
    }

    /** The tag chips. */
    method ToggleTag(tag: string)
      modifies this
      ensures form == old(form).(tags := Toggle(old(form).tags, tag))
      ensures fieldErrors == old(fieldErrors) && items == old(items) && imagePreviewUrl == old(imagePreviewUrl)
      ensures error == old(error) && submitError == old(submitError) && submitting == old(submitting)
    {
      form := form.(tags := Toggle(form.tags, tag));
    }

    /**
      `validateForm`: one error per missing field, collected field by field
      and shown in place of the old errors; the form is valid when none was found.
     */
    method ValidateForm() returns (ok: bool)
      modifies this
      ensures fieldErrors == ErrorsOf(form, 7)
      ensures ErrorsReport(fieldErrors, form)
      ensures ok <==> forall f :: !Missing(form, f)
      ensures ok <==> fieldErrors == map[]
      ensures form == old(form) && items == old(items) && submitting == old(submitting)
      ensures imagePreviewUrl == old(imagePreviewUrl) && submitError == old(submitError) && error == old(error)
    {
      var errors := ErrorsOf(form, 7);
      ErrorsOfReport(form);
      fieldErrors := errors;
      ok := errors == map[];
    }

    /**
      `handleSubmit`: nothing without a user; otherwise the submit error
      clears and the form is validated, and a valid form is sent and the
      reply handled by `FinishSubmit`.
     */
    method Submit(objectUrl: string, reply: Result<ClothingItem>) returns (request: Option<ItemRequest>)
      modifies this
      ensures user.None? ==>
        (request.None? && items == old(items) && form == old(form)
         && fieldErrors == old(fieldErrors) && submitError == old(submitError) && submitting == old(submitting)
         && imagePreviewUrl == old(imagePreviewUrl))
      ensures user.Some? && ErrorsOf(old(form), 7) != map[] ==>
        (request.None? && items == old(items) && form == old(form) && submitError == ""
         && fieldErrors == ErrorsOf(form, 7) && submitting == old(submitting)
         && imagePreviewUrl == old(imagePreviewUrl))
      ensures user.Some? && ErrorsOf(old(form), 7) == map[] ==>
        (request == Some(PayloadOf(user.value.id, old(form), OrElse(old(imagePreviewUrl), objectUrl)))
         && SubmitFinished(reply, old(items), old(form), map[], old(imagePreviewUrl)) && !submitting)
      ensures error == old(error)
    {
      if user.None? {
        return None;
      }
      submitError := "";
      var ok := ValidateForm();
      if !ok {
        return None;
      }
      request := SendValid(objectUrl, reply);
    }

    /** The valid-form half of `handleSubmit`: the payload is built and the reply handled. */
    method SendValid(objectUrl: string, reply: Result<ClothingItem>) returns (request: Option<ItemRequest>)
      requires user.Some? && submitError == "" && fieldErrors == map[]
      requires form.imageFile.Some?
      modifies this
      ensures request == Some(PayloadOf(user.value.id, old(form), OrElse(old(imagePreviewUrl), objectUrl)))
      ensures SubmitFinished(reply, old(items), old(form), map[], old(imagePreviewUrl)) && !submitting
      ensures error == old(error)
    {
      var localImageUrl := OrElse(imagePreviewUrl, if form.imageFile.Some? then objectUrl else "");
      request := Some(PayloadOf(user.value.id, form, localImageUrl));
      FinishSubmit(reply);
    }

    /**
      The state once the server has answered an add: on success the item is
      appended, the form partly reset and the preview and errors cleared; on
      failure the list, the form, the field errors and the preview stay and
      the error shows.
     */
    predicate SubmitFinished(reply: Result<ClothingItem>, items0: seq<ClothingItem>, form0: Form,
                             fieldErrors0: map<Field, string>, preview0: string)
      reads this
    {
      match reply
      case Ok(newItem) =>
        items == items0 + [newItem] && form == PartialReset(form0) && imagePreviewUrl == ""
        && fieldErrors == map[] && submitError == ""
      case Err(message) =>
        items == items0 && form == form0 && submitError == OrElse(message, "Could not add item")
        && fieldErrors == fieldErrors0 && imagePreviewUrl == preview0
    }

    /** The part of `handleSubmit` after the request is sent; submitting ends either way. */
    method FinishSubmit(reply: Result<ClothingItem>)
      requires submitError == ""
      modifies this
      ensures SubmitFinished(reply, old(items), old(form), old(fieldErrors), old(imagePreviewUrl)) && !submitting
      ensures error == old(error)
    {
      submitting := true;
      match reply {
        case Ok(newItem) =>
          items := items + [newItem];
          form := PartialReset(form);
          imagePreviewUrl := "";
          fieldErrors := map[];
        case Err(message) =>
          submitError := OrElse(message, "Could not add item");
      }
      submitting := false;
    }
  }
}
