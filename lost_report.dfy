/** The "make lost report" screen: a draft report (category, description, up to
    five photos, an optional location) edited through pickers and modals, and a
    submit handler that validates it and shows an alert.

    Two things about this screen follow from its code and are proved below:
    nothing ever makes `showLocationOptions` true, so the location sheet, the map
    and their handlers can never be reached and no location is ever attached; and
    the success alert receives its buttons array as part of the message string,
    so it has no button with a handler and the screen never navigates back. */
module LostReport {
  import opened Common
  import opened Strings
  import opened ImageList
  import opened Draft

  /** The location the map opens on when none is known yet. */
  const DefaultMapLocation: Location := Location(6.9271, 80.7789, "Select location on map")

  /** The screen's state. */
  datatype LostForm = LostForm(
    category: Option<string>,
    description: string,
    images: seq<string>,
    selectedLocation: Option<Location>,
    showCategoryPicker: bool,
    showPhotoOptions: bool,
    showLocationOptions: bool,
    showMapModal: bool,
    mapLocation: Option<Location>,
    isLoadingLocation: bool)
  {
    /** A category chosen from the picker: it is stored and the picker closes. */
    function ChooseCategory(c: string): LostForm {
      this.(category := Some(c), showCategoryPicker := false)
    }

    /** `handleTakePhoto`: the photo sheet closes; with camera permission the
        camera's response is applied to the photo list. */
    function TakePhoto(permitted: bool, response: PickerResponse): LostForm {
      if permitted then this.(showPhotoOptions := false, images := AfterCamera(images, response))
      else this.(showPhotoOptions := false)
    }

    /** `handleSelectFromGallery`: the photo sheet closes and the library's
        response is applied to the photo list. */
    function SelectFromGallery(response: PickerResponse): LostForm {
      this.(showPhotoOptions := false, images := AfterGallery(images, response))
    }

    /** `removeImage(index)`. */
    function RemoveImage(index: int): LostForm {
      this.(images := RemoveIndex(images, index))
    }

    /** `handleAttachLocation`, from the tap to the end of the position request:
        the sheet closes, and with permission a position fix becomes both the
        selected and the map location. The loading flag is false at the end on
        every path. */
    function AttachLocation(permitted: bool, fix: Option<Location>): LostForm {
      var done := this.(showLocationOptions := false, isLoadingLocation := false);
      if permitted && fix.Some? then done.(selectedLocation := fix, mapLocation := fix) else done
    }

    /** `handleOpenMap`: the sheet closes, the map location defaults when there is
        none, and the map modal opens. */
    function OpenMap(): LostForm {
      this.(showLocationOptions := false,
            mapLocation := if mapLocation.None? then Some(DefaultMapLocation) else mapLocation,
            showMapModal := true)
    }

    /** `handleMapPress`: a tap that carries a coordinate moves the map location;
        an event without one is ignored. */
    function MapPress(coordinate: Option<Location>): LostForm {
      if coordinate.Some? then this.(mapLocation := coordinate) else this
    }

    /** `handleConfirmLocation`. */
    function ConfirmLocation(): LostForm {
      if mapLocation.Some? then this.(selectedLocation := mapLocation, showMapModal := false) else this
    }
  }

  /** The state the screen mounts with. */
  const Initial: LostForm := LostForm(None, "", [], None, false, false, false, false, None, false)

  /** The alert `handleSubmit` shows. On success the buttons array is concatenated
      into the message, so the dialog gets no buttons of its own. */
  datatype SubmitAlert =
    | Invalid(error: ValidationError)
    | Submitted(category: string, description: string, photoCount: nat, buttons: seq<AlertButton>)

  /** `handleSubmit`: the validation alert for the first failing check, or the
      success alert. */
  function Submit(f: LostForm): SubmitAlert {
    match Validate(f.category, f.description, f.images)
    case Some(e) => Invalid(e)
    case None => Submitted(f.category.value, f.description, |f.images|, [])
  }

  /** Submission validates in the fixed order and does not look at the location:
      a draft is accepted exactly when it has a category, a trimmed description of
      at least ten characters and a photo, whatever location is attached. */
  lemma SubmitChecksInOrderWithoutLocation(f: LostForm, location: Option<Location>)
    ensures Submit(f) == Submit(f.(selectedLocation := location))
    ensures Submit(f).Submitted? <==>
      !NoCategory(f.category) && |Trim(f.description)| >= MinDescriptionLength && f.images != []
    ensures NoCategory(f.category) ==> Submit(f) == Invalid(MissingCategory)
    ensures !NoCategory(f.category) && |Trim(f.description)| < MinDescriptionLength ==>
      Submit(f) == Invalid(DescriptionTooShort)
  {
    ValidateReportsFirstFailure(f.category, f.description, f.images);
  }

  /** No alert `handleSubmit` shows has a button that navigates: on success the
      user stays on the form, with every field as it was. */
  lemma SubmitNeverNavigates(f: LostForm)
    ensures Submit(f).Submitted? ==>
      Submit(f).buttons == [] && Some(Submit(f).category) == f.category &&
      Submit(f).description == f.description && Submit(f).photoCount == |f.images|
  {
  }

  /** Every user interaction the screen offers. */
  datatype LostEvent =
    | OpenCategoryPicker
    | CloseCategoryPicker
    | PickCategory(category: string)
    | EditDescription(text: string)
    | OpenPhotoOptions
    | ClosePhotoOptions
    | TakePhoto(permitted: bool, response: PickerResponse)
    | SelectFromGallery(response: PickerResponse)
    | RemovePhoto(index: int)
    | ClearLocation
    | AttachLocation(permitted: bool, fix: Option<Location>)
    | OpenMap
    | CloseLocationOptions
    | MapPress(coordinate: Option<Location>)
    | ConfirmLocation
    | CloseMap
    | SubmitReport

  /** Some modal (category picker, photo sheet, location sheet or map) is visible
      and takes every touch. */
  predicate ModalOpen(f: LostForm) {
    f.showCategoryPicker || f.showPhotoOptions || f.showLocationOptions || f.showMapModal
  }

  /** The control that raises the event is on screen and enabled. */
  predicate Enabled(f: LostForm, e: LostEvent) {
    match e
    case OpenCategoryPicker => !ModalOpen(f)
    case CloseCategoryPicker => f.showCategoryPicker
    case PickCategory(c) => f.showCategoryPicker && c in Categories
    case EditDescription(text) => !ModalOpen(f) && |text| <= MaxDescriptionLength
    case OpenPhotoOptions => !ModalOpen(f)
    case ClosePhotoOptions => f.showPhotoOptions
    case TakePhoto(_, _) => f.showPhotoOptions
    case SelectFromGallery(_) => f.showPhotoOptions
    case RemovePhoto(i) => !ModalOpen(f) && 0 <= i < |f.images|
    case ClearLocation => !ModalOpen(f) && f.selectedLocation.Some?
    case AttachLocation(_, _) => f.showLocationOptions && !f.isLoadingLocation
    case OpenMap => f.showLocationOptions
    case CloseLocationOptions => f.showLocationOptions
    case MapPress(_) => f.showMapModal && f.mapLocation.Some?
    case ConfirmLocation => f.showMapModal && f.mapLocation.Some?
    case CloseMap => f.showMapModal
    case SubmitReport => !ModalOpen(f)
  }

  /** The state after the handler of `e` has run. */
  function Apply(f: LostForm, e: LostEvent): LostForm {
    match e
    case OpenCategoryPicker => f.(showCategoryPicker := true)
    case CloseCategoryPicker => f.(showCategoryPicker := false)
    case PickCategory(c) => f.ChooseCategory(c)
    case EditDescription(text) => f.(description := text)
    case OpenPhotoOptions => f.(showPhotoOptions := true)
    case ClosePhotoOptions => f.(showPhotoOptions := false)
    case TakePhoto(permitted, response) => f.TakePhoto(permitted, response)
    case SelectFromGallery(response) => f.SelectFromGallery(response)
    case RemovePhoto(i) => f.RemoveImage(i)
    case ClearLocation => f.(selectedLocation := None)
    case AttachLocation(permitted, fix) => f.AttachLocation(permitted, fix)
    case OpenMap => f.OpenMap()
    case CloseLocationOptions => f.(showLocationOptions := false)
    case MapPress(coordinate) => f.MapPress(coordinate)
    case ConfirmLocation => f.ConfirmLocation()
    case CloseMap => f.(showMapModal := false)
    case SubmitReport => f
  }

  /** The state after a sequence of events, whether or not each was enabled. */
  function Run(f: LostForm, events: seq<LostEvent>): LostForm
    decreases |events|
  {
    if events == [] then f else Run(Apply(f, events[0]), events[1..])
  }

  /** Every event of the sequence is enabled when it happens. */
  predicate Feasible(f: LostForm, events: seq<LostEvent>)
    decreases |events|
  {
    events == [] || (Enabled(f, events[0]) && Feasible(Apply(f, events[0]), events[1..]))
  }

  /** The photo list never holds more than five URIs, after any sequence of
      handler calls from any state that respects the cap, enabled or not, and
      whatever the picker returns (it may ignore `selectionLimit`). */
  lemma {:induction false} PhotoCapAlwaysHolds(f: LostForm, events: seq<LostEvent>)
    requires |f.images| <= MaxImages
    ensures |Run(f, events).images| <= MaxImages
    decreases |events|
  {
    if events != [] {
      StepKeepsCap(f, events[0]);
      PhotoCapAlwaysHolds(Apply(f, events[0]), events[1..]);
    }
  }

  /** One handler call keeps the photo cap, enabled or not. */
  lemma StepKeepsCap(f: LostForm, e: LostEvent)
    requires |f.images| <= MaxImages
    ensures |Apply(f, e).images| <= MaxImages
  {
    match e {
      case TakePhoto(_, r) => OperationsKeepCap(f.images, r, 0);
      case SelectFromGallery(r) => OperationsKeepCap(f.images, r, 0);
      case RemovePhoto(i) => OperationsKeepCap(f.images, PickerResponse(true, None, None), i);
      case _ =>
    }
  }

  /** What holds in every state the user can reach: the location sheet, the map
      and the loading flag are never shown, no location is ever held, at most five
      photos, a description the input accepted and a category from the list. */
  ghost predicate Reachable(f: LostForm) {
    !f.showLocationOptions && !f.showMapModal && !f.isLoadingLocation &&
    f.selectedLocation.None? && f.mapLocation.None? &&
    |f.images| <= MaxImages && |f.description| <= MaxDescriptionLength &&
    (f.category.Some? ==> f.category.value in Categories)
  }

  lemma StepKeepsReachable(f: LostForm, e: LostEvent)
    requires Reachable(f) && Enabled(f, e)
    ensures Reachable(Apply(f, e))
  {
    match e {
      case TakePhoto(_, r) => OperationsKeepCap(f.images, r, 0);
      case SelectFromGallery(r) => OperationsKeepCap(f.images, r, 0);
      case RemovePhoto(i) => OperationsKeepCap(f.images, PickerResponse(true, None, None), i);
      case _ =>
    }
  }

  lemma {:induction false} RunKeepsReachable(f: LostForm, events: seq<LostEvent>)
    requires Reachable(f) && Feasible(f, events)
    ensures Reachable(Run(f, events))
    decreases |events|
  {
    if events != [] {
      StepKeepsReachable(f, events[0]);
      RunKeepsReachable(Apply(f, events[0]), events[1..]);
    }
  }

  /** Whatever the user does, the location handlers stay out of reach: the
      attach-location, open-map, map-press and confirm controls are never enabled,
      and the draft never carries a location. */
  lemma LocationIsNeverAttached(events: seq<LostEvent>, fix: Option<Location>, coordinate: Option<Location>)
    requires Feasible(Initial, events)
    ensures Run(Initial, events).selectedLocation.None?
    ensures !Enabled(Run(Initial, events), AttachLocation(true, fix))
    ensures !Enabled(Run(Initial, events), OpenMap)
    ensures !Enabled(Run(Initial, events), MapPress(coordinate))
    ensures !Enabled(Run(Initial, events), ConfirmLocation)
    ensures |Run(Initial, events).images| <= MaxImages
  {
    RunKeepsReachable(Initial, events);
  }

  /** The screen's state as the component holds it: one field per `useState`. */
  class MakeLostReportScreen {
    var selectedCategory: Option<string>
    var description: string
    var selectedImages: seq<string>
    var selectedLocation: Option<Location>
    var showCategoryPicker: bool
    var showPhotoOptions: bool
    var showLocationOptions: bool
    var showMapModal: bool
    var mapLocation: Option<Location>
    var isLoadingLocation: bool

    /** The fields as one value. */
    function Form(): LostForm
      reads this
    {
      LostForm(selectedCategory, description, selectedImages, selectedLocation,
               showCategoryPicker, showPhotoOptions, showLocationOptions,
               showMapModal, mapLocation, isLoadingLocation)
    }

    constructor ()
      ensures Form() == Initial
    {
      selectedCategory, description, selectedImages, selectedLocation := None, "", [], None;
      showCategoryPicker, showPhotoOptions, showLocationOptions, showMapModal := false, false, false, false;
      mapLocation, isLoadingLocation := None, false;
    }

    method HandleTakePhoto(permitted: bool, response: PickerResponse)
      modifies this
      ensures Form() == old(Form()).TakePhoto(permitted, response)
    {
      showPhotoOptions := false;
      if !permitted {
        return;
      }
      if response.didCancel || HasError(response) {
        return;
      }
      if response.assets.Some? && |response.assets.value| > 0 {
        var imageUri := response.assets.value[0].uri;
        if imageUri.Some? && imageUri.value != "" && |selectedImages| < MaxImages {
          selectedImages := selectedImages + [imageUri.value];
        }
      }
    }

    method HandleSelectFromGallery(response: PickerResponse)
      modifies this
      ensures Form() == old(Form()).SelectFromGallery(response)
    {
      showPhotoOptions := false;
      if response.didCancel || HasError(response) {
        return;
      }
      if response.assets.Some? && |response.assets.value| > 0 {
        var newImages := DefinedUris(response.assets.value);
        selectedImages := Take(selectedImages + newImages, MaxImages);
      }
    }

    method RemoveImage(index: int)
      modifies this
      ensures Form() == old(Form()).RemoveImage(index)
    {
      selectedImages := RemoveIndex(selectedImages, index);
    }

    method HandleAttachLocation(permitted: bool, fix: Option<Location>)
      modifies this
      ensures Form() == old(Form()).AttachLocation(permitted, fix)
    {
      showLocationOptions := false;
      isLoadingLocation := true;
      if !permitted {
        isLoadingLocation := false;
        return;
      }
      match fix {
        case Some(position) =>
          selectedLocation := Some(position);
          mapLocation := Some(position);
          isLoadingLocation := false;
        case None =>
          isLoadingLocation := false;
      }
    }

    method HandleOpenMap()
      modifies this
      ensures Form() == old(Form()).OpenMap()
    {
      showLocationOptions := false;
      if mapLocation.None? {
        mapLocation := Some(DefaultMapLocation);
      }
      showMapModal := true;
    }

    method HandleMapPress(coordinate: Option<Location>)
      modifies this
      ensures Form() == old(Form()).MapPress(coordinate)
    {
      if coordinate.None? {
        return;
      }
      mapLocation := coordinate;
    }

    method HandleConfirmLocation()
      modifies this
      ensures Form() == old(Form()).ConfirmLocation()
    {
      if mapLocation.Some? {
        selectedLocation := mapLocation;
        showMapModal := false;
      }
    }

    /** `handleSubmit` only shows an alert; it sets no state. */
    method HandleSubmit() returns (alert: SubmitAlert)
      ensures alert == Submit(Form())
    {
      match Validate(selectedCategory, description, selectedImages) {
        case Some(e) =>
          alert := Invalid(e);
        case None =>
          alert := Submitted(selectedCategory.value, description, |selectedImages|, []);
      }
    }
  }
}
