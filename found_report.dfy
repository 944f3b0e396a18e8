/** The "make found report" screen: the same draft editing as the lost-report
    screen (category, description, up to five photos), but submitting asks the
    device for its position first. While that request is outstanding the submit
    button is disabled; when the position arrives a report record is built from
    the draft as it was at submit time and a success alert offers an OK button
    that clears the form and goes back. */
module FoundReport {
  import opened Common
  import opened Strings
  import opened ImageList
  import opened Draft

  /** Who the record names as the finder. */
  const Finder := "User"

  /** The address a record falls back to when the position has none. */
  const FallbackAddress := "Current Location"

  /** The draft as `handleSubmit` saw it: the position callback closes over these
      values, not over later edits. */
  datatype Snapshot = Snapshot(category: string, description: string, images: seq<string>)

  /** The screen's state. `pending` is the draft captured by the position request
      that is still outstanding, if any. */
  datatype FoundForm = FoundForm(
    category: Option<string>,
    description: string,
    images: seq<string>,
    showCategoryPicker: bool,
    showPhotoOptions: bool,
    isLoadingLocation: bool,
    pending: Option<Snapshot>)
  {
    /** `handleTakePhoto`. */
    function TakePhoto(permitted: bool, response: PickerResponse): FoundForm {
      if permitted then this.(showPhotoOptions := false, images := AfterCamera(images, response))
      else this.(showPhotoOptions := false)
    }

    /** `handleSelectFromGallery`. */
    function SelectFromGallery(response: PickerResponse): FoundForm {
      this.(showPhotoOptions := false, images := AfterGallery(images, response))
    }

    /** `removeImage(index)`. */
    function RemoveImage(index: int): FoundForm {
      this.(images := RemoveIndex(images, index))
    }

    /** `handleSubmit` up to the position request: a draft that fails a check is
        left as it is; one that passes sets the loading flag and starts a request
        that captures the draft. */
    function Submit(): FoundForm {
      if Validate(category, description, images).Some? then this
      else this.(isLoadingLocation := true, pending := Some(Snapshot(category.value, description, images)))
    }

    /** The request failed: the loading flag is reset and nothing else changes. */
    function LocationFailed(): FoundForm {
      this.(isLoadingLocation := false, pending := None)
    }

    /** The request succeeded: the loading flag is reset; the form is cleared only
        by the success alert's OK button. */
    function LocationArrived(): FoundForm {
      this.(isLoadingLocation := false, pending := None)
    }

    /** The success alert's OK handler clears the category, the description and the
        photos. */
    function ResetForm(): FoundForm {
      this.(category := None, description := "", images := [])
    }
  }

  /** The state the screen mounts with. */
  const Initial: FoundForm := FoundForm(None, "", [], false, false, false, None)

  /** The submit button is disabled exactly while the position is being fetched. */
  predicate SubmitDisabled(f: FoundForm) {
    f.isLoadingLocation
  }

  /** The report record logged on success. `id` and `timestamp` come from the
      clock. */
  datatype FoundReportRecord = FoundReportRecord(
    id: string,
    category: string,
    description: string,
    images: seq<string>,
    location: Location,
    relatedToReport: Option<string>,
    timestamp: string,
    foundBy: string)

  /** `relatedReport?.id || null`: the related report's id when there is one and
      it is not the empty string. */
  function RelatedId(relatedReport: Option<ReportData>): Option<string> {
    if relatedReport.Some? && relatedReport.value.id != "" then Some(relatedReport.value.id) else None
  }

  /** The record built from the captured draft and the position. */
  function BuildReport(draft: Snapshot, position: Location, relatedReport: Option<ReportData>,
                       id: string, timestamp: string): FoundReportRecord
  {
    var address := if position.address == "" then FallbackAddress else position.address;
    FoundReportRecord(id, draft.category, draft.description, draft.images,
                      position.(address := address), RelatedId(relatedReport), timestamp, Finder)
  }

  /** The buttons of the success alert: OK clears the form and goes back. */
  const SuccessButtons: seq<AlertButton> := [AlertButton("OK", Some(GoBack))]

  /** A failed check sets no loading flag and starts no request; a passing draft
      sets the flag and captures exactly the current category, description and
      photos. No other field changes either way. */
  lemma SubmitStartsOneRequest(f: FoundForm)
    ensures Validate(f.category, f.description, f.images).Some? ==> f.Submit() == f
    ensures Validate(f.category, f.description, f.images).None? ==>
      f.Submit().isLoadingLocation && f.Submit().pending.Some? &&
      Some(f.Submit().pending.value.category) == f.category &&
      f.Submit().pending.value.description == f.description &&
      f.Submit().pending.value.images == f.images &&
      f.Submit().(isLoadingLocation := f.isLoadingLocation, pending := f.pending) == f
  {
  }

  /** Both outcomes of the request reset the loading flag; neither touches the
      category, the description or the photos. */
  lemma RequestOutcomesResetLoading(f: FoundForm)
    ensures !f.LocationFailed().isLoadingLocation && !f.LocationArrived().isLoadingLocation
    ensures f.LocationFailed().(isLoadingLocation := f.isLoadingLocation, pending := f.pending) == f
    ensures f.LocationArrived().(isLoadingLocation := f.isLoadingLocation, pending := f.pending) == f
  {
  }

  /** The record carries the captured draft, the position (with a fallback
      address) and the related report's id exactly when that id is truthy. */
  lemma ReportCarriesDraftAndRelation(draft: Snapshot, position: Location, relatedReport: Option<ReportData>,
                                      id: string, timestamp: string)
    ensures var r := BuildReport(draft, position, relatedReport, id, timestamp);
      r.category == draft.category && r.description == draft.description && r.images == draft.images &&
      r.location.latitude == position.latitude && r.location.longitude == position.longitude &&
      r.location.address != "" &&
      (r.relatedToReport.Some? <==> relatedReport.Some? && relatedReport.value.id != "") &&
      (r.relatedToReport.Some? ==> r.relatedToReport.value == relatedReport.value.id) &&
      r.foundBy == Finder && r.id == id && r.timestamp == timestamp
  {
  }

  /** Pressing OK on the success alert empties the draft and goes back. */
  lemma OkClearsDraft(f: FoundForm)
    ensures f.ResetForm().category.None? && f.ResetForm().description == "" && f.ResetForm().images == []
    ensures Validate(f.ResetForm().category, f.ResetForm().description, f.ResetForm().images) == Some(MissingCategory)
    ensures SuccessButtons[0].onPress == Some(GoBack)
  {
  }

  /** Every user interaction the screen offers, and the two ways the position
      request can end. */
  datatype FoundEvent =
    | OpenCategoryPicker
    | CloseCategoryPicker
    | PickCategory(category: string)
    | EditDescription(text: string)
    | OpenPhotoOptions
    | ClosePhotoOptions
    | TakePhoto(permitted: bool, response: PickerResponse)
    | SelectFromGallery(response: PickerResponse)
    | RemovePhoto(index: int)
    | SubmitReport
    | PositionArrived
    | PositionFailed
    | PressOk

  predicate ModalOpen(f: FoundForm) {
    f.showCategoryPicker || f.showPhotoOptions
  }

  /** The control that raises the event is on screen and enabled; the request
      can only end while it is outstanding. `PressOk`, the success alert's OK
      button, is allowed whenever no request is outstanding: more often than the
      alert really appears, which only widens the set of runs the lemmas cover. */
  predicate Enabled(f: FoundForm, e: FoundEvent) {
    match e
    case OpenCategoryPicker => !ModalOpen(f)
    case CloseCategoryPicker => f.showCategoryPicker
    case PickCategory(c) => f.showCategoryPicker && c in Categories
    case EditDescription(text) => !ModalOpen(f) && |text| <= MaxDescriptionLength
    case OpenPhotoOptions => !ModalOpen(f)
    case ClosePhotoOptions => f.showPhotoOptions
    case TakePhoto(_, _) => f.showPhotoOptions
    case SelectFromGallery(_) => f.showPhotoOptions
    case RemovePhoto(i) => !ModalOpen(f) && 0 <= i < |f.images|
    case SubmitReport => !ModalOpen(f) && !SubmitDisabled(f)
    case PositionArrived => f.pending.Some?
    case PositionFailed => f.pending.Some?
    case PressOk => !f.isLoadingLocation
  }

  function Apply(f: FoundForm, e: FoundEvent): FoundForm {
    match e
    case OpenCategoryPicker => f.(showCategoryPicker := true)
    case CloseCategoryPicker => f.(showCategoryPicker := false)
    case PickCategory(c) => f.(category := Some(c), showCategoryPicker := false)
    case EditDescription(text) => f.(description := text)
    case OpenPhotoOptions => f.(showPhotoOptions := true)
    case ClosePhotoOptions => f.(showPhotoOptions := false)
    case TakePhoto(permitted, response) => f.TakePhoto(permitted, response)
    case SelectFromGallery(response) => f.SelectFromGallery(response)
    case RemovePhoto(i) => f.RemoveImage(i)
    case SubmitReport => f.Submit()
    case PositionArrived => f.LocationArrived()
    case PositionFailed => f.LocationFailed()
    case PressOk => f.ResetForm()
  }

  function Run(f: FoundForm, events: seq<FoundEvent>): FoundForm
    decreases |events|
  {
    if events == [] then f else Run(Apply(f, events[0]), events[1..])
  }

  predicate Feasible(f: FoundForm, events: seq<FoundEvent>)
    decreases |events|
  {
    events == [] || (Enabled(f, events[0]) && Feasible(Apply(f, events[0]), events[1..]))
  }

  /** A captured draft passed every check. */
  predicate ValidSnapshot(s: Snapshot) {
    Validate(Some(s.category), s.description, s.images).None? && |s.images| <= MaxImages
  }

  /** What holds in every state the user can reach: the loading flag is set
      exactly while a request is outstanding, that request captured a valid draft,
      and the photo and description limits hold. */
  ghost predicate Reachable(f: FoundForm) {
    (f.isLoadingLocation <==> f.pending.Some?) &&
    (f.pending.Some? ==> ValidSnapshot(f.pending.value)) &&
    |f.images| <= MaxImages && |f.description| <= MaxDescriptionLength
  }

  lemma StepKeepsReachable(f: FoundForm, e: FoundEvent)
    requires Reachable(f) && Enabled(f, e)
    ensures Reachable(Apply(f, e))
  {
    match e {
      case TakePhoto(_, r) => OperationsKeepCap(f.images, r, 0);
      case SelectFromGallery(r) => OperationsKeepCap(f.images, r, 0);
      case RemovePhoto(i) => OperationsKeepCap(f.images, PickerResponse(true, None, None), i);
      case _ =>
    }
  }

  lemma {:induction false} RunKeepsReachable(f: FoundForm, events: seq<FoundEvent>)
    requires Reachable(f) && Feasible(f, events)
    ensures Reachable(Run(f, events))
    decreases |events|
  {
    if events != [] {
      StepKeepsReachable(f, events[0]);
      RunKeepsReachable(Apply(f, events[0]), events[1..]);
    }
  }

  /** A record built from a captured draft that passed the checks carries a
      category, a trimmed description of at least ten characters and one to five
      photos. */
  lemma ValidDraftMakesValidReport(draft: Snapshot, position: Location, relatedReport: Option<ReportData>,
                                   id: string, timestamp: string)
    requires ValidSnapshot(draft)
    ensures var r := BuildReport(draft, position, relatedReport, id, timestamp);
      r.category != "" && |Trim(r.description)| >= MinDescriptionLength && 1 <= |r.images| <= MaxImages
  {
    ValidateReportsFirstFailure(Some(draft.category), draft.description, draft.images);
  }

  /** In a state with the invariant: a second submission cannot start while a
      request is outstanding, a position can only arrive for a request that is
      outstanding, and any record built from it carries a category, a trimmed
      description of at least ten characters and one to five photos. */
  lemma ReachableStateFacts(f: FoundForm, position: Location, relatedReport: Option<ReportData>,
                            id: string, timestamp: string)
    requires Reachable(f)
    ensures f.pending.Some? ==> !Enabled(f, SubmitReport)
    ensures Enabled(f, PositionArrived) ==> f.isLoadingLocation
    ensures f.pending.Some? ==>
      var r := BuildReport(f.pending.value, position, relatedReport, id, timestamp);
      r.category != "" && |Trim(r.description)| >= MinDescriptionLength && 1 <= |r.images| <= MaxImages
  {
    if f.pending.Some? {
      ValidDraftMakesValidReport(f.pending.value, position, relatedReport, id, timestamp);
    }
  }

  /** The same facts in every state reached from the initial one. */
  lemma OneRequestAtATime(events: seq<FoundEvent>, position: Location, relatedReport: Option<ReportData>,
                          id: string, timestamp: string)
    requires Feasible(Initial, events)
    ensures var f := Run(Initial, events);
      (f.pending.Some? ==> !Enabled(f, SubmitReport)) &&
      (Enabled(f, PositionArrived) ==> f.isLoadingLocation) &&
      |f.images| <= MaxImages
    ensures var f := Run(Initial, events);
      f.pending.Some? ==>
        var r := BuildReport(f.pending.value, position, relatedReport, id, timestamp);
        r.category != "" && |Trim(r.description)| >= MinDescriptionLength && 1 <= |r.images| <= MaxImages
  {
    RunKeepsReachable(Initial, events);
    ReachableStateFacts(Run(Initial, events), position, relatedReport, id, timestamp);
  }

  /** The screen's state as the component holds it. `relatedReport` is the route
      parameter the screen was opened with. */
  class MakeFoundReportScreen {
    const relatedReport: Option<ReportData>
    var selectedCategory: Option<string>
    var description: string
    var selectedImages: seq<string>
    var showCategoryPicker: bool
    var showPhotoOptions: bool
    var isLoadingLocation: bool
    var pending: Option<Snapshot>

    function Form(): FoundForm
      reads this
    {
      FoundForm(selectedCategory, description, selectedImages, showCategoryPicker,
                showPhotoOptions, isLoadingLocation, pending)
    }

    constructor (relatedReport: Option<ReportData>)
      ensures Form() == Initial && this.relatedReport == relatedReport
    {
      this.relatedReport := relatedReport;
      selectedCategory, description, selectedImages := None, "", [];
      showCategoryPicker, showPhotoOptions, isLoadingLocation, pending := false, false, false, None;
    }

    method HandleTakePhoto(permitted: bool, response: PickerResponse)
      modifies this
      ensures Form() == old(Form()).TakePhoto(permitted, response)
    {
      showPhotoOptions := false;
      if !permitted {
        return;
      }
      if response.didCancel || HasError(response) {
        return;
      }
      if response.assets.Some? && |response.assets.value| > 0 {
        var imageUri := response.assets.value[0].uri;
        if imageUri.Some? && imageUri.value != "" && |selectedImages| < MaxImages {
          selectedImages := selectedImages + [imageUri.value];
        }
      }
    }

    method HandleSelectFromGallery(response: PickerResponse)
      modifies this
      ensures Form() == old(Form()).SelectFromGallery(response)
    {
      showPhotoOptions := false;
      if response.didCancel || HasError(response) {
        return;
      }
      if response.assets.Some? && |response.assets.value| > 0 {
        var newImages := DefinedUris(response.assets.value);
        selectedImages := Take(selectedImages + newImages, MaxImages);
      }
    }

    method RemoveImage(index: int)
      modifies this
      ensures Form() == old(Form()).RemoveImage(index)
    {
      selectedImages := RemoveIndex(selectedImages, index);
    }

    /** `handleSubmit` up to the position request; the result is the validation
        alert shown, if any. */
    method HandleSubmit() returns (error: Option<ValidationError>)
      modifies this
      ensures error == Validate(old(selectedCategory), old(description), old(selectedImages))
      ensures Form() == old(Form()).Submit()
    {
      error := Validate(selectedCategory, description, selectedImages);
      if error.None? {
        isLoadingLocation := true;
        pending := Some(Snapshot(selectedCategory.value, description, selectedImages));
      }
    }

    /** The position request resolved: the record is built from the captured
        draft and the success alert is shown. */
    method OnPosition(position: Location, id: string, timestamp: string)
      returns (report: FoundReportRecord, buttons: seq<AlertButton>)
      requires pending.Some?
      modifies this
      ensures report == BuildReport(old(pending).value, position, relatedReport, id, timestamp)
      ensures buttons == SuccessButtons
      ensures Form() == old(Form()).LocationArrived()
    {
      var draft := pending.value;
      isLoadingLocation := false;
      pending := None;
      report := BuildReport(draft, position, relatedReport, id, timestamp);
      buttons := SuccessButtons;
    }

    /** The position request was rejected: only the loading flag is reset. */
    method OnPositionError()
      modifies this
      ensures Form() == old(Form()).LocationFailed()
    {
      isLoadingLocation := false;
      pending := None;
    }

    /** The success alert's OK button. */
    method PressOk() returns (nav: NavAction)
      modifies this
      ensures Form() == old(Form()).ResetForm()
      ensures nav == GoBack
    {
      selectedCategory := None;
      description := "";
      selectedImages := [];
      nav := GoBack;
    }
  }
}
