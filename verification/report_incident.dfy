/**
 The accident-report form: its state, the handlers that edit it, the
 ordered submit validation and the cancel decision. Device calls (location,
 camera, gallery) appear only through the values they hand back.
 */
module ReportIncident {
  import opened Ui
  import opened InputText

  datatype MediaKind = Photo | Video

  /** One captured item, `{ type, uri }`. */
  datatype Evidence = Evidence(kind: MediaKind, uri: string)

  datatype State = State(
    incidentType: string,
    description: string,
    vehicles: map<string, string>,
    injuries: map<string, string>,
    evidence: seq<Evidence>,
    location: Option<Coordinates>,
    dropdownVisible: bool,
    submitting: bool)

  /** The choices the accident-type dropdown offers; the first is the placeholder. */
  const AccidentTypes: seq<string> := [
    "Choose the Accident Type",
    "Vehicle Collision",
    "Slip Off Road",
    "Rollover Accident",
    "Head-On Collision",
    "Rear-End Collision",
    "Side-Impact Collision",
    "Hit and Run",
    "Pedestrian Accident",
    "Cyclist Accident",
    "Multiple Vehicle Pileup",
    "Vehicle Fire",
    "Other Accident"
  ]

  /** The form as the screen mounts it: placeholder type, empty counts, no location yet. */
  const Initial: State := State(
    AccidentTypes[0],
    "",
    map["car" := "", "truck" := "", "motorcycle" := "", "bicycle" := "", "pedestrian" := "", "other" := ""],
    map["minor" := "", "serious" := "", "fatal" := ""],
    [],
    None,
    false,
    false)

  // ---------------------------------------------------------------------------
  // Count fields

  /**
   `updateVehicleCount`: the entry for `key` becomes the digits of `value`;
   every other entry, and every other field of the form, is untouched.
   */
  function UpdateVehicleCount(s: State, key: string, value: string): (r: State)
    ensures key in r.vehicles && r.vehicles.Keys == s.vehicles.Keys + {key}
    ensures r.vehicles[key] == DigitsOnly(value)
    ensures forall k :: k in s.vehicles && k != key ==> r.vehicles[k] == s.vehicles[k]
    ensures r == s.(vehicles := r.vehicles)
  {
    s.(vehicles := s.vehicles[key := DigitsOnly(value)])
  }

  /** `updateInjuriesCount`: the same digit filter, applied to the injury counts. */
  function UpdateInjuriesCount(s: State, key: string, value: string): (r: State)
    ensures key in r.injuries && r.injuries.Keys == s.injuries.Keys + {key}
    ensures r.injuries[key] == DigitsOnly(value)
    ensures forall k :: k in s.injuries && k != key ==> r.injuries[k] == s.injuries[k]
    ensures r == s.(injuries := r.injuries)
  {
    s.(injuries := s.injuries[key := DigitsOnly(value)])
  }

  /** Typing the same text into a count field twice leaves it as typing it once. */
  lemma VehicleUpdateIdempotent(s: State, key: string, value: string)
    ensures UpdateVehicleCount(UpdateVehicleCount(s, key, value), key, value)
            == UpdateVehicleCount(s, key, value)
  {
  }

  // ---------------------------------------------------------------------------
  // Evidence

  /** What a camera or gallery request hands back. */
  datatype PickerResult =
    | Canceled                              // result.canceled
    | Picked(assetType: string, uri: string) // result.assets[0]
    | PickerFailed                          // the request threw

  /** The type the gallery handler gives an asset: video only for type 'video'. */
  function GalleryKind(assetType: string): (k: MediaKind)
    ensures k == Video <==> assetType == "video"
  {
    if assetType == "video" then Video else Photo
  }

  /** Shared shape of the three capture handlers. */
  function Capture(s: State, res: PickerResult, kind: MediaKind, failure: string): (r: (State, Outcome))
    ensures res.Picked? ==>
              r.0 == s.(evidence := s.evidence + [Evidence(kind, res.uri)]) && r.1 == Outcome(Silent, Stay)
    ensures res.Canceled? ==> r == (s, Outcome(Silent, Stay))
    ensures res.PickerFailed? ==> r == (s, Outcome(ErrorNotice(failure), Stay))
  {
    match res
    case Canceled => (s, Outcome(Silent, Stay))
    case Picked(_, uri) => (s.(evidence := s.evidence + [Evidence(kind, uri)]), Outcome(Silent, Stay))
    case PickerFailed => (s, Outcome(ErrorNotice(failure), Stay))
  }

  /** `takePhoto`: a picked image is appended as a photo. */
  function TakePhoto(s: State, res: PickerResult): (r: (State, Outcome))
    ensures res.Picked? ==> r.0.evidence == s.evidence + [Evidence(Photo, res.uri)]
    ensures !res.Picked? ==> r.0 == s
    ensures r.0 == s.(evidence := r.0.evidence)
    ensures res.PickerFailed? <==> r.1.notice.Alert?
    ensures res.PickerFailed? ==> r.1.notice == ErrorNotice("Failed to take photo")
    ensures r.1.nav == Stay
  {
    Capture(s, res, Photo, "Failed to take photo")
  }

  /** `takeVideo`: a picked recording is appended as a video. */
  function TakeVideo(s: State, res: PickerResult): (r: (State, Outcome))
    ensures res.Picked? ==> r.0.evidence == s.evidence + [Evidence(Video, res.uri)]
    ensures !res.Picked? ==> r.0 == s
    ensures r.0 == s.(evidence := r.0.evidence)
    ensures res.PickerFailed? <==> r.1.notice.Alert?
    ensures res.PickerFailed? ==> r.1.notice == ErrorNotice("Failed to record video")
    ensures r.1.nav == Stay
  {
    Capture(s, res, Video, "Failed to record video")
  }

  /**
   `pickFromGallery`: the picked asset is appended after the existing items,
   typed video exactly when the asset says 'video'.
   */
  function PickFromGallery(s: State, res: PickerResult): (r: (State, Outcome))
    ensures res.Picked? ==>
              && |r.0.evidence| == |s.evidence| + 1
              && r.0.evidence[..|s.evidence|] == s.evidence
              && r.0.evidence[|s.evidence|].uri == res.uri
              && (r.0.evidence[|s.evidence|].kind == Video <==> res.assetType == "video")
    ensures !res.Picked? ==> r.0 == s
    ensures r.0 == s.(evidence := r.0.evidence)
    ensures res.PickerFailed? <==> r.1.notice.Alert?
    ensures res.PickerFailed? ==> r.1.notice == ErrorNotice("Failed to pick media from gallery")
    ensures r.1.nav == Stay
  {
    match res
    case Picked(t, _) => Capture(s, res, GalleryKind(t), "Failed to pick media from gallery")
    case _ => Capture(s, res, Photo, "Failed to pick media from gallery")
  }

  /**
   `xs.filter((_, i) => i !== index)` where `start` is the position of
   `xs[0]` in the whole list: drops the element at `index` if there is one.
   */
  function FilterOutIndex<T>(xs: seq<T>, index: int, start: int): (r: seq<T>)
    ensures start <= index < start + |xs| ==> r == xs[..index - start] + xs[index - start + 1..]
    ensures !(start <= index < start + |xs|) ==> r == xs
    decreases |xs|
  {
    if xs == [] then []
    else
      var rest := FilterOutIndex(xs[1..], index, start + 1);
      if start == index then
        rest
      else
        assert xs == [xs[0]] + xs[1..];
        [xs[0]] + rest
  }

  /**
   `removeEvidence(index)`: an index in range removes that one item and keeps
   the others in order; any other index leaves the list as it was.
   */
  function RemoveEvidence(s: State, index: int): (r: State)
    ensures 0 <= index < |s.evidence| ==>
              && |r.evidence| == |s.evidence| - 1
              && (forall j :: 0 <= j < index ==> r.evidence[j] == s.evidence[j])
              && (forall j :: index <= j < |r.evidence| ==> r.evidence[j] == s.evidence[j + 1])
    ensures !(0 <= index < |s.evidence|) ==> r == s
    ensures r == s.(evidence := r.evidence)
  {
    s.(evidence := FilterOutIndex(s.evidence, index, 0))
  }

  /**
   Removing the item any capture just appended (photo, video or gallery
   pick) restores the form.
   */
  lemma RemoveUndoesAppend(s: State, res: PickerResult)
    requires res.Picked?
    ensures RemoveEvidence(TakePhoto(s, res).0, |s.evidence|) == s
    ensures RemoveEvidence(TakeVideo(s, res).0, |s.evidence|) == s
    ensures RemoveEvidence(PickFromGallery(s, res).0, |s.evidence|) == s
  {
    assert TakePhoto(s, res).0.evidence[..|s.evidence|] == s.evidence;
    assert TakeVideo(s, res).0.evidence[..|s.evidence|] == s.evidence;
    assert PickFromGallery(s, res).0.evidence[..|s.evidence|] == s.evidence;
  }

  // ---------------------------------------------------------------------------
  // Other edits

  /** The dropdown button flips the list open or closed. */
  function ToggleDropdown(s: State): (r: State)
    ensures r.dropdownVisible != s.dropdownVisible
    ensures r == s.(dropdownVisible := r.dropdownVisible)
  {
    s.(dropdownVisible := !s.dropdownVisible)
  }

  /** Choosing an entry of the dropdown sets the type and closes the list. */
  function ChooseAccidentType(s: State, index: nat): (r: State)
    requires index < |AccidentTypes|
    ensures r.incidentType == AccidentTypes[index] && r.incidentType != [] && !r.dropdownVisible
    ensures r.(incidentType := s.incidentType, dropdownVisible := s.dropdownVisible) == s
  {
    s.(incidentType := AccidentTypes[index], dropdownVisible := false)
  }

  // ---------------------------------------------------------------------------
  // Submit and cancel

  const ValidationTitle: string := "Validation Error"
  const TypeMissing: string := "Please select an accident type"
  const DescriptionMissing: string := "Please provide accident description"
  const LocationMissing: string := "Location is required for accident reporting"
  const SubmittedTitle: string := "Accident Report Submitted"
  const SubmittedMessage: string :=
    "Your accident report has been submitted successfully. Emergency services have been notified and are on their way."

  function ValidationAlert(message: string): Outcome {
    Outcome(Alert(ValidationTitle, message, []), Stay)
  }

  /** The confirmation shown after a successful submission; OK goes to 'Report'. */
  const SubmittedAlert: Outcome :=
    Outcome(Alert(SubmittedTitle, SubmittedMessage, [Button("OK", Navigate(ReportRoute))]), Stay)

  /**
   `handleSubmit`. The checks run in order (type present, description not
   blank after trimming, location present) and the first failure is
   reported with the form untouched. On success the submitting flag is
   raised for the simulated request and lowered again in `finally`, and
   the confirmation alert offers OK, which navigates to 'Report'.
   */
  function HandleSubmit(s: State): (r: (State, Outcome))
    ensures s.incidentType == [] ==> r == (s, ValidationAlert(TypeMissing))
    ensures s.incidentType != [] && Blank(s.description) ==> r == (s, ValidationAlert(DescriptionMissing))
    ensures s.incidentType != [] && !Blank(s.description) && s.location.None? ==>
              r == (s, ValidationAlert(LocationMissing))
    ensures s.incidentType != [] && !Blank(s.description) && s.location.Some? ==>
              r == (s.(submitting := false), SubmittedAlert)
  {
    if s.incidentType == [] then
      (s, ValidationAlert(TypeMissing))
    else if Trim(s.description) == [] then
      (s, ValidationAlert(DescriptionMissing))
    else if s.location.None? then
      (s, ValidationAlert(LocationMissing))
    else
      (s.(submitting := false), SubmittedAlert)
  }

  /** Every rejection leaves the whole form, the submitting flag included, as it was. */
  lemma RejectionChangesNothing(s: State)
    ensures HandleSubmit(s).1.notice.title == ValidationTitle ==> HandleSubmit(s).0 == s
  {
  }

  /**
   Any description made only of whitespace (spaces, tabs, newlines,
   no-break spaces, ...) is rejected like an empty one, with the form
   unchanged: `trim` leaves nothing of it.
   */
  lemma WhitespaceDescriptionRejected(s: State)
    requires s.incidentType != []
    requires Blank(s.description)
    ensures Trim(s.description) == []
    ensures HandleSubmit(s) == (s, ValidationAlert(DescriptionMissing))
  {
  }

  /**
   The type check tests only for a non-empty string, so the placeholder
   'Choose the Accident Type' passes it.
   */
  lemma PlaceholderTypePasses(description: string, at: Coordinates)
    requires !Blank(description)
    ensures HandleSubmit(Initial.(description := description, location := Some(at))).1 == SubmittedAlert
  {
  }

  /** The dialog `handleCancel` raises: keep editing, or leave for 'Report'. */
  const CancelDialog: Notice :=
    Alert("Cancel Accident Report", "Are you sure you want to cancel? All entered data will be lost.",
          [Button("Continue Editing", Stay), Button("Cancel Report", Navigate(ReportRoute))])

  /**
   `handleCancel`: with a description, a type or any evidence, the user is
   asked first; only a completely empty form navigates straight to 'Report'.
   */
  function HandleCancel(s: State): (r: Outcome)
    ensures r.nav == Navigate(ReportRoute) <==> s.description == [] && s.incidentType == [] && s.evidence == []
    ensures r.nav.Stay? ==> r.notice == CancelDialog
    ensures !(s.description == [] && s.incidentType == [] && s.evidence == []) ==> r == Outcome(CancelDialog, Stay)
    ensures r.nav == Navigate(ReportRoute) ==> r.notice == Silent
  {
    if s.description != [] || s.incidentType != [] || |s.evidence| > 0 then
      Outcome(CancelDialog, Stay)
    else
      Outcome(Silent, Navigate(ReportRoute))
  }

  // ---------------------------------------------------------------------------
  // Sessions: what the screen lets the user do, in sequence

  /** One user or device event on the screen. */
  datatype Action =
    | PressDropdown
    | DismissDropdown
    | ChooseType(index: nat)
    | EditDescription(text: string)
    | EditVehicle(vehicleKey: string, vehicleText: string)
    | EditInjury(injuryKey: string, injuryText: string)
    | CapturePhoto(photo: PickerResult)
    | CaptureVideo(video: PickerResult)
    | PickMedia(media: PickerResult)
    | RemoveItem(position: int)
    | LocationFix(at: Coordinates)
    | PressSubmit

  /** The dropdown offers only the entries of its list. */
  predicate Offered(a: Action) {
    a.ChooseType? ==> a.index < |AccidentTypes|
  }

  /**
   The form after one event. The submit button is disabled while a
   submission is running; only choosing from the dropdown changes the type.
   */
  function Step(s: State, a: Action): (r: State)
    requires Offered(a)
    ensures a.PressSubmit? && s.submitting ==> r == s
    ensures a.ChooseType? ==> r.incidentType == AccidentTypes[a.index]
    ensures !a.ChooseType? ==> r.incidentType == s.incidentType
    ensures !s.submitting ==> !r.submitting
  {
    match a
    case PressDropdown => ToggleDropdown(s)
    case DismissDropdown => s.(dropdownVisible := false)
    case ChooseType(i) => ChooseAccidentType(s, i)
    case EditDescription(t) => s.(description := t)
    case EditVehicle(k, v) => UpdateVehicleCount(s, k, v)
    case EditInjury(k, v) => UpdateInjuriesCount(s, k, v)
    case CapturePhoto(res) => TakePhoto(s, res).0
    case CaptureVideo(res) => TakeVideo(s, res).0
    case PickMedia(res) => PickFromGallery(s, res).0
    case RemoveItem(i) => RemoveEvidence(s, i)
    case LocationFix(c) => s.(location := Some(c))
    case PressSubmit => if s.submitting then s else HandleSubmit(s).0
  }

  function Run(s: State, actions: seq<Action>): State
    requires forall i :: 0 <= i < |actions| ==> Offered(actions[i])
    decreases |actions|
  {
    if actions == [] then s else Run(Step(s, actions[0]), actions[1..])
  }

  /** What holds of every form the screen can reach. */
  predicate Reachable(s: State) {
    s.incidentType in AccidentTypes && !s.submitting
  }

  lemma StepKeepsReachable(s: State, a: Action)
    requires Reachable(s) && Offered(a)
    ensures Reachable(Step(s, a))
  {
  }

  /** The type always holds one of the dropdown's entries, whatever the user does. */
  lemma {:induction false} RunKeepsReachable(s: State, actions: seq<Action>)
    requires Reachable(s)
    requires forall i :: 0 <= i < |actions| ==> Offered(actions[i])
    ensures Reachable(Run(s, actions))
    decreases |actions|
  {
    if actions != [] {
      StepKeepsReachable(s, actions[0]);
      RunKeepsReachable(Step(s, actions[0]), actions[1..]);
    }
  }

  /**
   Because no dropdown entry is empty, a reachable form always passes the
   type check and cancelling always asks for confirmation.
   */
  lemma {:induction false} CancelAlwaysAsks(actions: seq<Action>)
    requires forall i :: 0 <= i < |actions| ==> Offered(actions[i])
    ensures HandleCancel(Run(Initial, actions)).notice == CancelDialog
    ensures HandleSubmit(Run(Initial, actions)).1 != ValidationAlert(TypeMissing)
  {
    RunKeepsReachable(Initial, actions);
  }
}
