/**
 * The stall submission form: its guard chain, where the first failing
 * check decides the message shown; the duplicate-name check against the
 * stored stalls; and, once every check passes and the image has been read,
 * the record handed to the store.
 */
module AddStallForm {
  import opened Wrappers
  import opened Text
  import opened Types
  import opened LocalStorage

  datatype StallError =
    | MissingName | MissingLocation | MissingDescription | MissingDish
    | MissingPrice | MissingImage | InvalidPrice | DuplicateName
    | UploadFailed

  /** The text shown for each rejection. */
  function Message(e: StallError): string {
    match e
    case MissingName => "Please enter a stall name"
    case MissingLocation => "Please enter a location"
    case MissingDescription => "Please enter a description"
    case MissingDish => "Please enter a must-try dish"
    case MissingPrice => "Please enter an approximate price"
    case MissingImage => "Please upload an image"
    case InvalidPrice => "Please enter a valid price"
    case DuplicateName => "A stall with this name already exists"
    // the file reader rejects with an event that is not an `Error`
    case UploadFailed => "An error occurred"
  }

  /** What the user has typed and picked. */
  datatype StallFields = StallFields(
    name: string,
    location: string,
    description: string,
    mustTryDish: string,
    approximatePrice: string,
    image: Option<ImageFile>)

  /** Some stored stall has this name, ignoring case. */
  predicate NameTaken(existing: seq<FoodStall>, name: string) {
    exists k :: 0 <= k < |existing| && SameIgnoringCase(existing[k].name, name)
  }

  /** The four text fields are not blank. */
  predicate TextFilled(f: StallFields) {
    !IsBlank(f.name) && !IsBlank(f.location) && !IsBlank(f.description) && !IsBlank(f.mustTryDish)
  }

  /** The price parses to a positive number. */
  predicate PriceValid(price: string) {
    var p := ParseFloat(price);
    p.Some? && p.value > 0.0
  }

  /**
   * The guard chain of `handleSubmit`, in order; on success, the parsed
   * price. The duplicate check compares the name as typed, untrimmed.
   */
  function Validate(f: StallFields, existing: seq<FoodStall>): (r: Result<real, StallError>)
    ensures r == Failure(MissingName) <==> IsBlank(f.name)
    ensures r == Failure(MissingLocation) <==> !IsBlank(f.name) && IsBlank(f.location)
    ensures r == Failure(MissingDescription) <==>
              !IsBlank(f.name) && !IsBlank(f.location) && IsBlank(f.description)
    ensures r == Failure(MissingDish) <==>
              !IsBlank(f.name) && !IsBlank(f.location) && !IsBlank(f.description) && IsBlank(f.mustTryDish)
    ensures r == Failure(MissingPrice) <==> TextFilled(f) && f.approximatePrice == ""
    ensures r == Failure(MissingImage) <==> TextFilled(f) && f.approximatePrice != "" && f.image.None?
    ensures r == Failure(InvalidPrice) <==>
              TextFilled(f) && f.approximatePrice != "" && f.image.Some? && !PriceValid(f.approximatePrice)
    ensures r == Failure(DuplicateName) <==>
              TextFilled(f) && f.approximatePrice != "" && f.image.Some? && PriceValid(f.approximatePrice) &&
              NameTaken(existing, f.name)
    ensures r.Success? <==>
              TextFilled(f) && f.approximatePrice != "" && f.image.Some? && PriceValid(f.approximatePrice) &&
              !NameTaken(existing, f.name)
    ensures r.Success? ==> ParseFloat(f.approximatePrice) == Some(r.value) && r.value > 0.0
    ensures r != Failure(UploadFailed)
  {
    TrimEmptyIffBlank(f.name);
    TrimEmptyIffBlank(f.location);
    TrimEmptyIffBlank(f.description);
    TrimEmptyIffBlank(f.mustTryDish);
    if Trim(f.name) == "" then Failure(MissingName)
    else if Trim(f.location) == "" then Failure(MissingLocation)
    else if Trim(f.description) == "" then Failure(MissingDescription)
    else if Trim(f.mustTryDish) == "" then Failure(MissingDish)
    else if f.approximatePrice == "" then Failure(MissingPrice)
    else if f.image.None? then Failure(MissingImage)
    else
      var price := ParseFloat(f.approximatePrice);
      if price.None? || price.value <= 0.0 then Failure(InvalidPrice)
      else if NameTaken(existing, f.name) then Failure(DuplicateName)
      else Success(price.value)
  }

  /** The record handed to `addStall`: trimmed text, the parsed price, no rating. */
  function NewStallData(f: StallFields, price: real, imageUrl: string, now: Time): StallData {
    StallData(Trim(f.name), Trim(f.location), Trim(f.description), Trim(f.mustTryDish),
              price, imageUrl, None, now, now)
  }

  /** Where the browser goes after a stall is created. */
  function StallRoute(id: string): string {
    "/stall/" + id
  }

  /**
   * A stall that passes the checks is stored with non-empty text fields
   * free of surrounding white space, a positive price and no rating.
   */
  lemma AcceptedStallIsWellFormed(f: StallFields, existing: seq<FoodStall>, imageUrl: string, now: Time)
    requires Validate(f, existing).Success?
    ensures var d := NewStallData(f, Validate(f, existing).value, imageUrl, now);
      Trimmed(d.name) && Trimmed(d.location) && Trimmed(d.description) && Trimmed(d.mustTryDish) &&
      d.approximatePrice > 0.0 && d.rating.None? && d.imageUrl == imageUrl
  {
    assert TextFilled(f);
    TrimOfFilled(f.name);
    TrimOfFilled(f.location);
    TrimOfFilled(f.description);
    TrimOfFilled(f.mustTryDish);
  }

  /** A price of white space only gets past the empty-price check but not the parse. */
  lemma BlankPriceIsInvalid(f: StallFields, existing: seq<FoodStall>)
    requires TextFilled(f) && f.image.Some? && f.approximatePrice == " "
    ensures Validate(f, existing) == Failure(InvalidPrice)
  {
    assert TrimStart(" ") == [];
  }

  /**
   * Because the duplicate check looks at the name as typed while the
   * stored name is trimmed, re-entering an existing (trimmed) name with a
   * leading space passes every check, and the stall stored is named like
   * the existing one.
   */
  lemma PaddedNameEscapesDuplicateCheck(f: StallFields, existing: seq<FoodStall>, k: nat, imageUrl: string, now: Time)
    requires k < |existing|
    requires forall j :: 0 <= j < |existing| ==> Trimmed(existing[j].name)
    requires f.name == " " + existing[k].name
    requires !IsBlank(f.location) && !IsBlank(f.description) && !IsBlank(f.mustTryDish)
    requires f.image.Some? && PriceValid(f.approximatePrice)
    ensures Validate(f, existing).Success?
    ensures NewStallData(f, Validate(f, existing).value, imageUrl, now).name == existing[k].name
  {
    var n := existing[k].name;
    assert !IsSpace(f.name[1]);
    assert f.approximatePrice != "";
    forall j | 0 <= j < |existing|
      ensures !SameIgnoringCase(existing[j].name, f.name)
    {
      assert ToLower(f.name)[0] == ' ';
      assert ToLower(existing[j].name)[0] != ' ';
    }
    assert f.name[1..] == n;
    assert TrimStart(f.name) == n;
  }

  /** The form's state: the field values, the busy flag and the message shown. */
  class StallForm {
    var name: string
    var location: string
    var description: string
    var mustTryDish: string
    var approximatePrice: string
    var image: Option<ImageFile>
    var loading: bool
    var error: Option<string>

    function Fields(): StallFields
      reads this
    {
      StallFields(name, location, description, mustTryDish, approximatePrice, image)
    }

    /** The form as first shown: empty fields, no image, idle, no message. */
    constructor ()
      ensures Fields() == StallFields("", "", "", "", "", None)
      ensures !loading && error.None?
    {
      name, location, description, mustTryDish, approximatePrice := "", "", "", "", "";
      image := None;
      loading := false;
      error := None;
    }

    /**
     * `handleSubmit`. `upload` is what reading the picked image yields:
     * its data URL, or `None` when the read fails. On any failure the
     * store is untouched and the message is shown; on success the new stall
     * is appended and the browser is sent to its page.
     */
    method HandleSubmit(store: LocalStorageService, upload: Option<string>, now: Time)
      returns (created: Option<FoodStall>, route: Option<string>)
      modifies this`loading, this`error, store
      ensures Fields() == old(Fields())
      ensures var check := Validate(old(Fields()), old(store.GetAllStalls()));
        (check.Failure? ==>
          created.None? && route.None? && error == Some(Message(check.error)) && !loading &&
          unchanged(store)) &&
        (check.Success? && upload.None? ==>
          created.None? && route.None? && error == Some(Message(UploadFailed)) && !loading &&
          unchanged(store)) &&
        (check.Success? && upload.Some? ==>
          created == Some(StallWithId(NewStallData(old(Fields()), check.value, upload.value, now), NewId(now))) &&
          route == Some(StallRoute(created.value.id)) &&
          store.stalls == Some(old(store.GetAllStalls()) + [created.value]) &&
          store.reviews == old(store.reviews) &&
          error.None? && loading)
    {
      loading := true;
      error := None;
      var existing := store.GetAllStalls();
      var check := Validate(Fields(), existing);
      if check.Failure? {
        error := Some(Message(check.error));
        loading := false;
        return None, None;
      }
      if upload.None? {
        error := Some(Message(UploadFailed));
        loading := false;
        return None, None;
      }
      var data := NewStallData(Fields(), check.value, upload.value, now);
      var stall := store.AddStall(data, now);
      created := Some(stall);
      route := Some(StallRoute(stall.id));
    }
  }
}
