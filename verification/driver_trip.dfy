/**
 The driver trip screen's use of the call store. For one call id the screen
 shows buttons that depend on the store's trip status, and each button runs
 one store action. The intended forward path
   Pending -> Heading -> InProgress -> Completed
 is stated here as its own relation. `SetTripStatus` stays unrestricted; the
 path only holds for the buttons the screen actually offers.
 */
module DriverTrip {
  import opened Common
  import opened MatchCallStore

  /** The four buttons of the driver trip screen. */
  datatype Action = Reject | Accept | StartTrip | CompleteTrip

  /** One step along the intended forward path of the driver trip status. */
  predicate Forward(from: TripStatus, to: TripStatus) {
    || (from == Pending && to == Heading)
    || (from == Heading && to == InProgress)
    || (from == InProgress && to == Completed)
  }

  /** Position along the forward path. */
  function Rank(t: TripStatus): nat {
    match t
    case Pending => 0
    case Heading => 1
    case InProgress => 2
    case Completed => 3
  }

  /** The buttons shown for `callId`. Nothing is shown while the lookup fails
      (the screen shows a spinner), and nothing once the trip is completed. */
  function Offered(s: State, callId: string): (acts: set<Action>)
    ensures acts != {} ==> HasId(s.calls, callId)
    ensures s.tripStatus == Completed ==> acts == {}
    ensures Reject in acts || Accept in acts ==> s.tripStatus == Pending
    ensures StartTrip in acts ==> s.tripStatus == Heading
    ensures CompleteTrip in acts ==> s.tripStatus == InProgress
    ensures HasId(s.calls, callId) && s.tripStatus != Completed ==> exists a :: a in acts && a != Reject
    ensures HasId(s.calls, callId) && s.tripStatus == Pending ==> Reject in acts && Accept in acts
  {
    if GetCallById(s, callId).None? then {}
    else
      match s.tripStatus
      case Pending => {Reject, Accept}
      case Heading => {StartTrip}
      case InProgress => {CompleteTrip}
      case Completed => {}
  }

  /** The store action each button handler runs. */
  function Perform(s: State, callId: string, a: Action): (r: State)
    ensures a == Reject ==> GetCallById(r, callId).None? && r.tripStatus == s.tripStatus
    ensures a == Accept ==> r.matchedCallId == Some(callId) && r.tripStatus == Heading
    ensures a == StartTrip ==> r.tripStatus == InProgress && r.matchedCallId == s.matchedCallId
    ensures a == CompleteTrip ==> r.tripStatus == Completed && r.matchedCallId == s.matchedCallId
    ensures a != Reject ==> r.calls == s.calls
    ensures a == Reject ==> r.matchedCallId == s.matchedCallId && r.calls == Without(s.calls, callId)
    ensures r.loading == s.loading
  {
    match a
    case Reject => RejectCall(s, callId)
    case Accept => AcceptCall(s, callId)
    case StartTrip => SetTripStatus(s, InProgress)
    case CompleteTrip => SetTripStatus(s, Completed)
  }

  /** Every offered button either keeps the status (reject) or takes exactly
      one forward step; the `Idle` invariant survives it, and after a reject the
      screen offers nothing more for that call. */
  lemma OfferedStep(s: State, callId: string, a: Action)
    requires a in Offered(s, callId)
    ensures var r := Perform(s, callId, a);
      && (r.tripStatus == s.tripStatus || Forward(s.tripStatus, r.tripStatus))
      && (Idle(s) ==> Idle(r))
      && (a == Reject ==> Offered(r, callId) == {})
  {
  }

  /** A driver session: each click names the call whose trip screen is open.
      The buttons depend on the store-wide status, not on which call is
      matched, so after accepting one call the driver may start the trip from
      another call's screen. Clicks on buttons that are not shown are ignored. */
  function Run(s: State, clicks: seq<(string, Action)>): State
    decreases |clicks|
  {
    if |clicks| == 0 then s
    else
      var (callId, a) := clicks[0];
      var next := if a in Offered(s, callId) then Perform(s, callId, a) else s;
      Run(next, clicks[1..])
  }

  /** Through the buttons of any calls' screens, the status never moves
      backwards along the path and the `Idle` invariant is kept. */
  lemma {:induction false} RunMovesForward(s: State, clicks: seq<(string, Action)>)
    ensures Rank(Run(s, clicks).tripStatus) >= Rank(s.tripStatus)
    ensures Idle(s) ==> Idle(Run(s, clicks))
    decreases |clicks|
  {
    if |clicks| > 0 {
      var (callId, a) := clicks[0];
      var next := if a in Offered(s, callId) then Perform(s, callId, a) else s;
      if a in Offered(s, callId) {
        OfferedStep(s, callId, a);
      }
      RunMovesForward(next, clicks[1..]);
    }
  }

  /** The happy path: accept, start, complete, with the call in the list. */
  lemma HappyPath(s: State, callId: string)
    requires HasId(s.calls, callId) && s.tripStatus == Pending
    ensures var r := Run(s, [(callId, Accept), (callId, StartTrip), (callId, CompleteTrip)]);
      r.tripStatus == Completed && r.matchedCallId == Some(callId) && r.calls == s.calls
  {
    var s1 := AcceptCall(s, callId);
    var s2 := SetTripStatus(s1, InProgress);
    assert Run(s, [(callId, Accept), (callId, StartTrip), (callId, CompleteTrip)])
        == Run(s1, [(callId, StartTrip), (callId, CompleteTrip)]);
    assert Run(s1, [(callId, StartTrip), (callId, CompleteTrip)]) == Run(s2, [(callId, CompleteTrip)]);
    assert Run(s2, [(callId, CompleteTrip)]) == Run(SetTripStatus(s2, Completed), []);
  }

  /** The status is store-wide: once one call is accepted, another listed
      call's screen offers to start the trip, although that call is not the
      matched one. */
  lemma StartFromAnotherCallsScreen(s: State, accepted: string, other: string)
    requires other != accepted && HasId(s.calls, accepted) && HasId(s.calls, other)
    requires s.tripStatus == Pending
    ensures var r := Run(s, [(accepted, Accept), (other, StartTrip)]);
      r.tripStatus == InProgress && r.matchedCallId == Some(accepted)
  {
    var s1 := AcceptCall(s, accepted);
    assert Run(s, [(accepted, Accept), (other, StartTrip)]) == Run(s1, [(other, StartTrip)]);
    assert Run(s1, [(other, StartTrip)]) == Run(SetTripStatus(s1, InProgress), []);
  }

  /** The complete button also opens the completion screen, which resets the
      match as soon as it is shown. The completed call is never removed from
      the list, so from then on the trip screen offers it again as a new call. */
  lemma CompletionScreenReopensCall(s: State, callId: string)
    requires CompleteTrip in Offered(s, callId)
    ensures var r := ResetMatch(Perform(s, callId, CompleteTrip));
      && r.tripStatus == Pending && !HasMatchedCall(r)
      && r.calls == s.calls
      && Offered(r, callId) == {Reject, Accept}
  {
  }
}
