/**
 The driver-side call store: the list of pending call requests, a loading
 flag, the id of the one accepted call and the driver's trip status.
 Every store action is a pure function from the current state to the next.
 */
module MatchCallStore {
  import opened Common

  /** The driver's trip status: the four values the driver trip screen distinguishes. */
  datatype TripStatus = Pending | Heading | InProgress | Completed

  /** A pending ride request as the driver sees it, with origin and destination coordinates. */
  datatype CallRequest = CallRequest(
    id: string,
    passengerName: string,
    passengerGender: Gender,
    passengerRating: real,
    origin: string,
    destination: string,
    estimatedFare: string,
    distance: string,
    requestTime: string,
    originCoords: Coordinate,
    destinationCoords: Coordinate)

  /** The store's data; `matchedCallId == None` stands for `null`. */
  datatype State = State(
    calls: seq<CallRequest>,
    loading: bool,
    matchedCallId: Option<string>,
    tripStatus: TripStatus)

  /** True iff some call in `calls` carries the identifier `id`. */
  predicate HasId(calls: seq<CallRequest>, id: string) {
    exists i :: 0 <= i < |calls| && calls[i].id == id
  }

  /** The identifiers of `calls`, in order. */
  function Ids(calls: seq<CallRequest>): (ids: seq<string>)
    ensures |ids| == |calls|
    ensures forall i :: 0 <= i < |calls| ==> ids[i] == calls[i].id
  {
    if |calls| == 0 then [] else [calls[0].id] + Ids(calls[1..])
  }

  /** The session invariant every store action except `SetTripStatus` keeps:
      without an accepted call the trip status is back at `Pending`. */
  predicate Idle(s: State) {
    s.matchedCallId.None? ==> s.tripStatus == Pending
  }

  function Init(): (s: State)
    ensures forall id :: GetCallById(s, id).None?
    ensures !s.loading && !HasMatchedCall(s) && s.tripStatus == Pending
    ensures Idle(s)
  {
    State([], false, None, Pending)
  }

  /** `calls.find(call => call.id === id)`: the first call with that id, if any. */
  function Find(calls: seq<CallRequest>, id: string): (r: Option<CallRequest>)
    ensures r.None? <==> !HasId(calls, id)
    ensures r.Some? ==> r.value in calls && r.value.id == id
    decreases |calls|
  {
    if |calls| == 0 then None
    else if calls[0].id == id then Some(calls[0])
    else
      var r := Find(calls[1..], id);
      assert r.None? ==> forall i :: 1 <= i < |calls| ==> calls[1..][i - 1] == calls[i];
      r
  }

  /** `find` returns the FIRST call with the id: any earlier call has a different id. */
  lemma {:induction false} FindReturnsFirst(calls: seq<CallRequest>, id: string, i: nat)
    requires i < |calls| && calls[i].id == id
    requires forall j :: 0 <= j < i ==> calls[j].id != id
    ensures Find(calls, id) == Some(calls[i])
    decreases i
  {
    if i > 0 {
      FindReturnsFirst(calls[1..], id, i - 1);
    }
  }

  function GetCallById(s: State, id: string): (r: Option<CallRequest>)
    ensures r.None? <==> !HasId(s.calls, id)
    ensures r.Some? ==> r.value in s.calls && r.value.id == id
  {
    Find(s.calls, id)
  }

  /** `calls.filter(call => call.id !== id)`. The list never grows, no call with
      `id` survives, and the survivors are exactly the other calls. */
  function Without(calls: seq<CallRequest>, id: string): (r: seq<CallRequest>)
    ensures |r| <= |calls|
    ensures !HasId(r, id)
    ensures forall c :: c in r <==> c in calls && c.id != id
    decreases |calls|
  {
    if |calls| == 0 then []
    else
      var rest := Without(calls[1..], id);
      assert calls == [calls[0]] + calls[1..];
      if calls[0].id == id then rest
      else
        assert forall i :: 1 <= i < |[calls[0]] + rest| ==> ([calls[0]] + rest)[i] == rest[i - 1];
        [calls[0]] + rest
  }

  /** Every call without the id survives exactly as often as it occurred. */
  lemma {:induction false} WithoutCounts(calls: seq<CallRequest>, id: string)
    ensures forall c :: multiset(Without(calls, id))[c] == if c.id == id then 0 else multiset(calls)[c]
    decreases |calls|
  {
    if |calls| > 0 {
      WithoutCounts(calls[1..], id);
      assert calls == [calls[0]] + calls[1..];
      assert multiset(calls) == multiset{calls[0]} + multiset(calls[1..]);
    }
  }

  /** Filtering distributes over concatenation, so the calls that survive keep
      their original relative order. */
  lemma {:induction false} WithoutConcat(a: seq<CallRequest>, b: seq<CallRequest>, id: string)
    ensures Without(a + b, id) == Without(a, id) + Without(b, id)
    decreases |a|
  {
    if |a| == 0 {
      assert a + b == b;
    } else {
      assert (a + b)[1..] == a[1..] + b;
      WithoutConcat(a[1..], b, id);
    }
  }

  /** Removing an id no call carries changes nothing. */
  lemma {:induction false} WithoutAbsent(calls: seq<CallRequest>, id: string)
    requires !HasId(calls, id)
    ensures Without(calls, id) == calls
    decreases |calls|
  {
    if |calls| > 0 {
      assert calls[0].id != id;
      assert forall i :: 0 <= i < |calls[1..]| ==> calls[1..][i] == calls[i + 1];
      WithoutAbsent(calls[1..], id);
      assert calls == [calls[0]] + calls[1..];
    }
  }

  /** Removing an id twice is the same as removing it once. */
  lemma {:induction false} WithoutIdempotent(calls: seq<CallRequest>, id: string)
    ensures Without(Without(calls, id), id) == Without(calls, id)
  {
    WithoutAbsent(Without(calls, id), id);
  }

  /** Removing one id leaves the lookup of every other id untouched. */
  lemma {:induction false} FindWithoutOther(calls: seq<CallRequest>, id: string, other: string)
    requires other != id
    ensures Find(Without(calls, id), other) == Find(calls, other)
    decreases |calls|
  {
    if |calls| > 0 {
      FindWithoutOther(calls[1..], id, other);
      if calls[0].id != id {
        assert ([calls[0]] + Without(calls[1..], id))[1..] == Without(calls[1..], id);
      }
    }
  }

  /** `setCalls`: replaces the list wholesale. */
  function SetCalls(s: State, calls: seq<CallRequest>): (r: State)
    ensures r.calls == calls
    ensures r.(calls := s.calls) == s
  {
    s.(calls := calls)
  }

  /** `acceptCall`: records the id as the accepted call and heads to the pickup.
      The id is not checked against the list. */
  function AcceptCall(s: State, id: string): (r: State)
    ensures r.matchedCallId == Some(id) && r.tripStatus == Heading
    ensures HasMatchedCall(r) && Idle(r)
    ensures r.calls == s.calls && r.loading == s.loading
    ensures forall x :: GetCallById(r, x) == GetCallById(s, x)
  {
    s.(matchedCallId := Some(id), tripStatus := Heading)
  }

  /** `rejectCall`: drops every call with the id; the match is untouched. */
  function RejectCall(s: State, id: string): (r: State)
    ensures r.calls == Without(s.calls, id)
    ensures |r.calls| <= |s.calls|
    ensures GetCallById(r, id).None?
    ensures forall x :: x != id ==> GetCallById(r, x) == GetCallById(s, x)
    ensures r.loading == s.loading
    ensures r.matchedCallId == s.matchedCallId && r.tripStatus == s.tripStatus
    ensures HasMatchedCall(r) == HasMatchedCall(s) && (Idle(s) ==> Idle(r))
  {
    var r := s.(calls := Without(s.calls, id));
    forall x | x != id ensures GetCallById(r, x) == GetCallById(s, x) {
      FindWithoutOther(s.calls, id, x);
    }
    r
  }

  /** `completeCall`: drops the call and ends the session. */
  function CompleteCall(s: State, id: string): (r: State)
    ensures r == ResetMatch(RejectCall(s, id))
    ensures GetCallById(r, id).None?
    ensures !HasMatchedCall(r) && r.tripStatus == Pending && Idle(r)
    ensures r.loading == s.loading
  {
    s.(calls := Without(s.calls, id), matchedCallId := None, tripStatus := Pending)
  }

  /** `setTripStatus`: unrestricted; it may leave the `Idle` invariant broken. */
  function SetTripStatus(s: State, status: TripStatus): (r: State)
    ensures r.tripStatus == status
    ensures r.(tripStatus := s.tripStatus) == s
  {
    s.(tripStatus := status)
  }

  /** `resetMatch`: forgets the accepted call and returns to `Pending`. */
  function ResetMatch(s: State): (r: State)
    ensures !HasMatchedCall(r) && r.tripStatus == Pending && Idle(r)
    ensures r.calls == s.calls && r.loading == s.loading
  {
    s.(matchedCallId := None, tripStatus := Pending)
  }

  /** Resetting twice is the same as resetting once. */
  lemma ResetMatchIdempotent(s: State)
    ensures ResetMatch(ResetMatch(s)) == ResetMatch(s)
  {
  }

  /** `hasMatchedCall`. */
  predicate HasMatchedCall(s: State) {
    s.matchedCallId.Some?
  }

  /** `hasMatchedCall` over the store's actions: true after any accept, false
      after a reset or a completion, and untouched by the other actions. */
  lemma HasMatchedCallLifecycle(s: State, id: string, status: TripStatus, calls: seq<CallRequest>)
    ensures HasMatchedCall(AcceptCall(s, id))
    ensures !HasMatchedCall(ResetMatch(s)) && !HasMatchedCall(CompleteCall(s, id))
    ensures HasMatchedCall(RejectCall(s, id)) == HasMatchedCall(s)
    ensures HasMatchedCall(SetTripStatus(s, status)) == HasMatchedCall(s)
    ensures HasMatchedCall(SetCalls(s, calls)) == HasMatchedCall(s)
    ensures HasMatchedCall(FetchCallsStart(s)) == HasMatchedCall(s)
    ensures HasMatchedCall(FetchCallsFinish(s)) == HasMatchedCall(s)
  {
  }

  /** Accepting and then resetting leaves the state as a plain reset would. */
  lemma AcceptThenReset(s: State, id: string)
    ensures ResetMatch(AcceptCall(s, id)) == ResetMatch(s)
  {
  }

  /** `setTripStatus` alone can break `Idle`. */
  lemma SetTripStatusBreaksIdle()
    ensures Idle(Init()) && !Idle(SetTripStatus(Init(), Heading))
  {
  }

  /** The fixed list `fetchCalls` installs. */
  const MockCalls: seq<CallRequest> := [
    CallRequest("call-001", "김승객", Male, 4.8, "강남역 2번 출구", "역삼동 르네상스호텔",
      "₩15,000", "3.5km", "방금 전", Coordinate(37.5001, 127.0271), Coordinate(37.5068, 127.0407)),
    CallRequest("call-002", "이여성", Female, 4.5, "신논현역", "양재역",
      "₩18,000", "5.2km", "1분 전", Coordinate(37.5044, 127.0253), Coordinate(37.4841, 127.0344)),
    CallRequest("call-003", "박고객", Male, 4.2, "삼성역 1번 출구", "코엑스몰",
      "₩10,000", "1.8km", "2분 전", Coordinate(37.5089, 127.0635), Coordinate(37.5118, 127.0592)),
    CallRequest("call-004", "정승객", Female, 4.9, "압구정로데오역", "청담동",
      "₩14,000", "3.2km", "3분 전", Coordinate(37.5274, 127.0388), Coordinate(37.5222, 127.0518))
  ]

  /** First half of `fetchCalls`: raise the loading flag before the delay. */
  function FetchCallsStart(s: State): (r: State)
    ensures r.loading
    ensures r.(loading := s.loading) == s
  {
    s.(loading := true)
  }

  /** Second half of `fetchCalls`, after the delay: install the mock list,
      discarding whatever list the store held, and lower the flag. */
  function FetchCallsFinish(s: State): (r: State)
    ensures !r.loading
    ensures Ids(r.calls) == ["call-001", "call-002", "call-003", "call-004"]
    ensures r.matchedCallId == s.matchedCallId && r.tripStatus == s.tripStatus
  {
    s.(calls := MockCalls, loading := false)
  }

  /** The fetched list does not depend on the list held before: no merge. */
  lemma FetchReplaces(s: State, t: State)
    ensures FetchCallsFinish(s).calls == FetchCallsFinish(t).calls
  {
  }

  /** After a fetch, `call-001` is found and `call-005` is not. */
  lemma FetchedLookups(s: State)
    ensures GetCallById(FetchCallsFinish(s), "call-001") == Some(MockCalls[0])
    ensures GetCallById(FetchCallsFinish(s), "call-005").None?
  {
    var r := FetchCallsFinish(s);
    FindReturnsFirst(r.calls, "call-001", 0);
    var ids := Ids(r.calls);
    assert forall i :: 0 <= i < |r.calls| ==> r.calls[i].id == ids[i];
  }
}
