/** The location-acquisition state of the emergency dialog: the triple
    (isLocating, location, locationError), the one automatic request made
    when the dialog opens, the two geolocation callbacks, which hospital
    parts are visible, and the simulated ambulance request. */
module EmergencyDialog {
  import opened Common
  import opened Flows

  /** Coordinates reported by the platform's location provider. */
  datatype Geolocation = Geolocation(latitude: real, longitude: real)

  datatype DialogState = DialogState(
    isLocating: bool,
    location: Option<Geolocation>,
    locationError: Option<string>)

  /** State of a freshly opened dialog. */
  const Opened := DialogState(false, None, None)

  const NotSupportedError := "Geolocation is not supported by your browser."
  const PermissionError := "Unable to retrieve your location. Please grant permission."

  /** `isLocating || location || locationError` as a boolean. */
  predicate HasRequestedLocation(s: DialogState) {
    s.isLocating || s.location.Some? || Truthy(s.locationError)
  }

  /** The dialog after `handleGetLocation`, and whether the platform was
      asked for the current position. */
  datatype Request = Request(state: DialogState, positionRequested: bool)

  /** `handleGetLocation`: start locating and clear the old error; without
      platform support, stop at once with the "not supported" error. */
  function HandleGetLocation(s: DialogState, supported: bool): (r: Request)
    ensures r.positionRequested == supported
    ensures r.state.location == s.location
    ensures supported ==> r.state.isLocating && r.state.locationError.None?
    ensures !supported ==> !r.state.isLocating && r.state.locationError == Some(NotSupportedError)
    ensures HasRequestedLocation(r.state)
  {
    var started := s.(isLocating := true, locationError := None);
    if !supported then
      Request(started.(locationError := Some(NotSupportedError), isLocating := false), false)
    else
      Request(started, true)
  }

  /** The dialog after the success callback, and the coordinates handed to
      `onLocationFound`. */
  datatype Found = Found(state: DialogState, reported: Geolocation)

  /** The success callback of `getCurrentPosition`. */
  function OnPosition(s: DialogState, g: Geolocation): (r: Found)
    ensures r.state.location == Some(g) && r.reported == g
    ensures !r.state.isLocating && r.state.locationError == s.locationError
  {
    Found(s.(location := Some(g), isLocating := false), g)
  }

  /** The error callback of `getCurrentPosition`: the stored location, if
      any, is left alone. */
  function OnPositionError(s: DialogState): (r: DialogState)
    ensures r.locationError == Some(PermissionError) && !r.isLocating
    ensures r.location == s.location
  {
    s.(locationError := Some(PermissionError), isLocating := false)
  }

  /** The mount/update effect: request the location only while nothing has
      been requested yet. */
  function AutoRequest(s: DialogState, supported: bool): (r: Request)
    ensures HasRequestedLocation(s) ==> r == Request(s, false)
    ensures !HasRequestedLocation(s) ==> r == HandleGetLocation(s, supported)
    ensures HasRequestedLocation(r.state)
  {
    if !HasRequestedLocation(s) then HandleGetLocation(s, supported) else Request(s, false)
  }

  /** The list of hospitals (with their call and ambulance buttons) is shown. */
  predicate ShowsHospitalEntries(s: DialogState, hospitals: Option<seq<Facility>>) {
    s.location.Some? && hospitals.Some? && |hospitals.value| > 0
  }

  /** The "Nearby Hospitals" section is shown. */
  predicate ShowsHospitalSection(s: DialogState, hospitals: Option<seq<Facility>>) {
    s.isLocating || (s.location.Some? && hospitals.Some? && |hospitals.value| > 0)
  }

  /** How the hospital area follows a location request: the "Nearby
      Hospitals" section (with its spinner) shows while the request is out;
      a found position with a non-empty list shows the entries and no
      spinner; a refused request with no location shows neither. */
  lemma VisibilityAcrossRequest(s: DialogState, g: Geolocation, hospitals: Option<seq<Facility>>)
    ensures ShowsHospitalSection(HandleGetLocation(s, true).state, hospitals)
    ensures hospitals.Some? && |hospitals.value| > 0 ==>
      var found := OnPosition(s, g).state;
      ShowsHospitalEntries(found, hospitals) && ShowsHospitalSection(found, hospitals) &&
      !found.isLocating
    ensures hospitals.None? || hospitals == Some([]) ==>
      !ShowsHospitalEntries(OnPosition(s, g).state, hospitals) &&
      !ShowsHospitalSection(OnPosition(s, g).state, hospitals)
    ensures s.location.None? ==>
      !ShowsHospitalSection(OnPositionError(s), hospitals) &&
      !ShowsHospitalSection(HandleGetLocation(s, false).state, hospitals)
  {
  }

  /** A simulation notice shown as a toast. */
  datatype Notice = Notice(title: string, description: string)

  /** `handleAmbulanceClick`: only a notice naming the hospital; the dialog
      state is untouched and no request is recorded anywhere. */
  function AmbulanceClick(s: DialogState, hospitalName: string): (r: (DialogState, Notice))
    ensures r.0 == s
    ensures r.1.title == "Ambulance Dispatched (Simulation)"
    ensures var at := |"An ambulance has been requested from "|;
      at + |hospitalName| <= |r.1.description| &&
      r.1.description[at..at + |hospitalName|] == hospitalName
  {
    (s, Notice("Ambulance Dispatched (Simulation)",
               "An ambulance has been requested from " + hospitalName + ". Help is on the way."))
  }

  /** What can happen while the dialog is open. `Effect` is one run of the
      auto-request effect; the two callbacks answer an outstanding request. */
  datatype DialogEvent =
    | Effect(supported: bool)
    | PositionFound(g: Geolocation)
    | PositionDenied
    | AmbulanceRequested(hospitalName: string)

  /** The dialog after one event, and how many position requests it issued.
      The platform answers only an outstanding request, that is, only while
      `isLocating`; a callback at any other time cannot be delivered. */
  datatype Stepped = Stepped(state: DialogState, requests: nat)

  function Step(s: DialogState, e: DialogEvent): Stepped {
    match e
    case Effect(supported) =>
      var r := AutoRequest(s, supported);
      Stepped(r.state, if r.positionRequested then 1 else 0)
    case PositionFound(g) =>
      Stepped(if s.isLocating then OnPosition(s, g).state else s, 0)
    case PositionDenied =>
      Stepped(if s.isLocating then OnPositionError(s) else s, 0)
    case AmbulanceRequested(name) =>
      Stepped(AmbulanceClick(s, name).0, 0)
  }

  /** The dialog after a sequence of events, with the total number of
      position requests issued along the way. */
  function Run(s: DialogState, events: seq<DialogEvent>): Stepped
    decreases |events|
  {
    if events == [] then Stepped(s, 0)
    else
      var first := Step(s, events[0]);
      var rest := Run(first.state, events[1..]);
      Stepped(rest.state, first.requests + rest.requests)
  }

  /** The states a dialog can be in: while locating nothing else is known,
      a location and an error never show together, and the only errors are
      the two fixed messages. */
  predicate Consistent(s: DialogState) {
    && (s.isLocating ==> s.location.None? && s.locationError.None?)
    && !(s.location.Some? && s.locationError.Some?)
    && (s.locationError.Some? ==>
          s.locationError.value == NotSupportedError || s.locationError.value == PermissionError)
  }

  /** Once a request has been made, every later state still records it, and
      no further position request is ever issued. */
  lemma {:induction false} RequestedStaysRequested(s: DialogState, events: seq<DialogEvent>)
    requires HasRequestedLocation(s)
    ensures HasRequestedLocation(Run(s, events).state)
    ensures Run(s, events).requests == 0
    decreases |events|
  {
    if events != [] {
      var first := Step(s, events[0]);
      assert HasRequestedLocation(first.state) && first.requests == 0;
      RequestedStaysRequested(first.state, events[1..]);
    }
  }

  /** However often the effect runs and whatever the platform answers, an
      opened dialog asks for the position at most once; in particular a
      refused or unsupported request is never repeated automatically. */
  lemma {:induction false} AtMostOneRequest(events: seq<DialogEvent>)
    ensures Run(Opened, events).requests <= 1
    decreases |events|
  {
    if events != [] {
      var first := Step(Opened, events[0]);
      if HasRequestedLocation(first.state) {
        RequestedStaysRequested(first.state, events[1..]);
      } else {
        assert first.requests == 0 && first.state == Opened;
        AtMostOneRequest(events[1..]);
      }
    }
  }

  /** Every state reachable from an opened dialog is consistent. */
  lemma {:induction false} RunStaysConsistent(s: DialogState, events: seq<DialogEvent>)
    requires Consistent(s)
    ensures Consistent(Run(s, events).state)
    decreases |events|
  {
    if events != [] {
      var first := Step(s, events[0]);
      RunStaysConsistent(first.state, events[1..]);
    }
  }

  /** In a consistent dialog the spinner and the hospital entries never show
      together. */
  lemma LoaderOrEntries(s: DialogState, hospitals: Option<seq<Facility>>)
    requires Consistent(s)
    ensures !(s.isLocating && ShowsHospitalEntries(s, hospitals))
  {
  }
}
