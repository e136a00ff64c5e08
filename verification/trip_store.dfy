/**
 The passenger-side trip request store: the destination text and coordinates,
 two option toggles and a loading flag around a mocked trip request.
 */
module TripStore {
  import opened Common

  /** A place with its address text. */
  datatype Location = Location(latitude: real, longitude: real, address: string)

  /** The request handed to `requestTrip`; the store only logs it. */
  datatype TripRequest = TripRequest(destination: Location, femaleDriverOnly: bool, protectionModeEnabled: bool)

  /** The store's data; `destinationCoords == None` stands for `null`. */
  datatype State = State(
    destination: string,
    destinationCoords: Option<Coordinate>,
    femaleDriverOnly: bool,
    protectionMode: bool,
    isLoading: bool)

  /** No destination chosen yet, both safety options on, nothing loading. */
  function Init(): (s: State)
    ensures |s.destination| == 0 && s.destinationCoords.None?
    ensures s.femaleDriverOnly && s.protectionMode && !s.isLoading
  {
    State("", None, true, true, false)
  }

  /** `setDestination`: changes the text only. */
  function SetDestination(s: State, destination: string): (r: State)
    ensures r.destination == destination
    ensures r.(destination := s.destination) == s
  {
    s.(destination := destination)
  }

  /** `setDestinationCoords`: the coordinates become present and equal to `coords`. */
  function SetDestinationCoords(s: State, coords: Coordinate): (r: State)
    ensures r.destinationCoords == Some(coords)
    ensures r.(destinationCoords := s.destinationCoords) == s
  {
    s.(destinationCoords := Some(coords))
  }

  /** `toggleFemaleDriverOnly`. */
  function ToggleFemaleDriverOnly(s: State): (r: State)
    ensures r.femaleDriverOnly != s.femaleDriverOnly
    ensures r.(femaleDriverOnly := s.femaleDriverOnly) == s
  {
    s.(femaleDriverOnly := !s.femaleDriverOnly)
  }

  /** `toggleProtectionMode`. */
  function ToggleProtectionMode(s: State): (r: State)
    ensures r.protectionMode != s.protectionMode
    ensures r.(protectionMode := s.protectionMode) == s
  {
    s.(protectionMode := !s.protectionMode)
  }

  /** Each toggle is an involution, and the two toggles commute. */
  lemma TogglesAreInvolutions(s: State)
    ensures ToggleFemaleDriverOnly(ToggleFemaleDriverOnly(s)) == s
    ensures ToggleProtectionMode(ToggleProtectionMode(s)) == s
    ensures ToggleFemaleDriverOnly(ToggleProtectionMode(s)) == ToggleProtectionMode(ToggleFemaleDriverOnly(s))
  {
  }

  /** Picking an address and then its coordinates: the last text wins and the
      two setters do not interfere. */
  lemma SettersLastWriteWins(s: State, a: string, b: string, c: Coordinate)
    ensures SetDestination(SetDestination(s, a), b) == SetDestination(s, b)
    ensures SetDestinationCoords(SetDestination(s, a), c) == SetDestination(SetDestinationCoords(s, c), a)
  {
  }

  /** First half of `requestTrip`: raise the loading flag before the delay. */
  function RequestTripStart(s: State, request: TripRequest): (r: State)
    ensures r.isLoading
    ensures r.(isLoading := s.isLoading) == s
  {
    s.(isLoading := true)
  }

  /** Second half of `requestTrip`, after the delay: lower the flag and resolve
      to `true`. There is no failure path. */
  function RequestTripFinish(s: State): (r: (State, bool))
    ensures r.1
    ensures !r.0.isLoading
    ensures r.0.(isLoading := s.isLoading) == s
  {
    (s.(isLoading := false), true)
  }

  /** A whole request leaves the options and destination as they were: the
      request's own option values are not written back into the store. */
  lemma RequestTripRoundTrip(s: State, request: TripRequest)
    ensures RequestTripFinish(RequestTripStart(s, request)) == (s.(isLoading := false), true)
    ensures !s.isLoading ==> RequestTripFinish(RequestTripStart(s, request)).0 == s
  {
  }
}
