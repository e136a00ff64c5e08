# safe-drive client stores, modelled in Dafny

The safe-drive app is a ride-hailing front end for a women-safety designated-driver
service. It keeps all of its non-visual state in three small client-side stores.
Each store is a record plus synchronous transition functions. This project models
each store as an immutable Dafny datatype, with one pure function per store
action. It proves the stores' invariants, frame conditions, idempotence and
involution properties.

- `common.dfy` (module `Common`): `Option` for nullable values, `Gender`, `Coordinate`.
- `match_call_store.dfy` (module `MatchCallStore`): the driver's call store.
  It holds the pending call list, a loading flag, the accepted call id and the driver trip status.
- `driver_trip.dfy` (module `DriverTrip`): the driver trip screen's buttons over that store.
  It also defines the intended forward path `Pending -> Heading -> InProgress -> Completed` as a relation of its own.
- `matching_store.dfy` (module `MatchingStore`): the passenger's matching store.
  It holds `isMatched` and the matched driver, with the invariant `isMatched <==> matchedDriver != null`.
- `trip_store.dfy` (module `TripStore`): the passenger's trip request store.
  It holds the destination, the two option toggles and the request loading flag.

A zustand `set` merges a partial record into the state. Here that is a datatype
update `s.(field := v)`. An `async` action with a timer delay is split into two
functions: one for the part before the delay and one for the part after it.
Other actions may run between the two halves.

The driver store imports its trip-status type from `src/types/trip`, which is not
part of this model. It is modelled as the four values the driver trip screen
switches on (`src/activities/driver/DriverTripActivity.tsx:99-107`).
`SetTripStatus` accepts any of the four values. The forward path holds only for
the buttons the screen offers (`DriverTrip.OfferedStep`, `DriverTrip.RunMovesForward`).

Facts about the code that the model keeps:
- `setMatchedDriver` stores the record as given, including its `accepted` flag (`src/store/matchingStore.ts:27-28`).
- `DriverInfo` has no female-specific rating field (`src/store/matchingStore.ts:4-11`).
- `completeCall` sets the status to `pending` (`src/stores/matchCallStore.ts:160-167`).
  The status `completed` is set only by the driver trip screen's complete button, through `setTripStatus` (`src/activities/driver/DriverTripActivity.tsx:65-66`).
- The matching store has no accept or reject action. Accepting a driver is the screen handler
  `setMatchedDriver({...d, accepted: true})`, and rejecting is `resetMatching()`.
  They are modelled as `MatchingStore.AcceptMatch` and `MatchingStore.ResetMatching`.

## Model

| member | source | states |
|---|---|---|
| MatchCallStore.Init | src/stores/matchCallStore.ts:42-47 | initially no id is found, nothing is loading, no call is matched, the status is pending, and the `Idle` invariant holds |
| MatchCallStore.Find | src/stores/matchCallStore.ts:52-54 | `find` returns nothing exactly when no call has the id; otherwise it returns a call from the list with that id |
| MatchCallStore.FindReturnsFirst | src/stores/matchCallStore.ts:52-54 | if `calls[i]` has the id and no earlier call has it, `find` returns `calls[i]` |
| MatchCallStore.GetCallById | src/stores/matchCallStore.ts:52-54 | lookup is absent iff no held call carries the id; a present result is a held call with that id |
| MatchCallStore.Without | src/stores/matchCallStore.ts:157 | filtering never grows the list and leaves no call with the id; a call survives exactly when it was listed and has another id |
| MatchCallStore.WithoutCounts | src/stores/matchCallStore.ts:157 | every call with another id survives exactly as many times as it was listed, and calls with the id are gone |
| MatchCallStore.WithoutConcat | src/stores/matchCallStore.ts:157 | filtering distributes over concatenation, so the surviving calls keep their original order |
| MatchCallStore.WithoutAbsent | src/stores/matchCallStore.ts:157 | filtering out an id that no call carries leaves the list unchanged |
| MatchCallStore.WithoutIdempotent | src/stores/matchCallStore.ts:157 | filtering the same id twice gives the same list as filtering it once |
| MatchCallStore.FindWithoutOther | src/stores/matchCallStore.ts:154-159 | removing one id does not change the lookup result for any other id |
| MatchCallStore.SetCalls | src/stores/matchCallStore.ts:50 | the list is replaced by the given one and nothing else changes |
| MatchCallStore.AcceptCall | src/stores/matchCallStore.ts:146-152 | the id becomes the matched call and the status becomes heading, even for an id not in the list; the list, the loading flag and every lookup are unchanged |
| MatchCallStore.RejectCall | src/stores/matchCallStore.ts:154-159 | the list becomes the filtered list, so every call with the id goes and the rest keep their order and multiplicity; the list does not grow; the id becomes unfindable and every other id's lookup is unchanged; the match and status are untouched; `Idle` is kept |
| MatchCallStore.CompleteCall | src/stores/matchCallStore.ts:160-167 | completing is rejecting followed by a reset: the id becomes unfindable, no call is matched, the status is pending, and the loading flag is kept |
| MatchCallStore.SetTripStatus | src/stores/matchCallStore.ts:169-171 | any status is accepted; only the status changes |
| MatchCallStore.SetTripStatusBreaksIdle | src/stores/matchCallStore.ts:169-171 | from the initial state, setting status heading without an accepted call breaks `Idle` |
| MatchCallStore.ResetMatch | src/stores/matchCallStore.ts:173-178 | afterwards no call is matched and the status is pending; the list and the loading flag are kept |
| MatchCallStore.ResetMatchIdempotent | src/stores/matchCallStore.ts:173-178 | resetting twice equals resetting once |
| MatchCallStore.HasMatchedCallLifecycle | src/stores/matchCallStore.ts:180-182 | `hasMatchedCall` is true after any accept and false after a reset or a completion; reject, `setTripStatus`, `setCalls` and both halves of the fetch leave it as it was |
| MatchCallStore.AcceptThenReset | src/stores/matchCallStore.ts:146-178 | a reset after an accept erases every trace of the accept |
| MatchCallStore.FetchCallsStart | src/stores/matchCallStore.ts:57 | fetching raises the loading flag and changes nothing else |
| MatchCallStore.FetchCallsFinish | src/stores/matchCallStore.ts:63-142 | on completion the flag is lowered and the list is exactly the calls `call-001` to `call-004`; the match and status are kept |
| MatchCallStore.FetchReplaces | src/stores/matchCallStore.ts:142 | the fetched list does not depend on the list held before, so nothing is merged |
| MatchCallStore.FetchedLookups | src/stores/matchCallStore.ts:63-142 | after a fetch, `call-001` is found as the first mock call and `call-005` is absent |
| DriverTrip.Offered | src/activities/driver/DriverTripActivity.tsx:114-155 | no button is shown unless the call is found, and none after completion; reject and accept are both shown while pending and only then; start is shown only while heading and complete only while in progress; a found, uncompleted call always has a button that moves on |
| DriverTrip.Perform | src/activities/driver/DriverTripActivity.tsx:46-72 | reject filters the call out of the list, so every other call survives in order, and keeps the match and status; accept matches this call and heads out; start moves to in-progress; complete moves to completed; accept, start and complete keep the list |
| DriverTrip.OfferedStep | src/activities/driver/DriverTripActivity.tsx:46-155 | every shown button keeps the status or takes one forward step, and keeps `Idle`; after a reject no button is shown |
| DriverTrip.RunMovesForward | src/activities/driver/DriverTripActivity.tsx:114-155 | over any sequence of clicks on any calls' trip screens, the status never moves back along the forward path and `Idle` is kept |
| DriverTrip.StartFromAnotherCallsScreen | src/activities/driver/DriverTripActivity.tsx:114-155 | the buttons follow the store-wide status, so after accepting one call the trip can be started from another listed call's screen while the first call stays matched |
| DriverTrip.HappyPath | src/activities/driver/DriverTripActivity.tsx:54-72 | from pending, with the call listed, accept then start then complete ends completed with this call matched and the list unchanged |
| DriverTrip.CompletionScreenReopensCall | src/activities/driver/DriverTripCompletedActivity.tsx:22-24 | the completion screen's reset after the complete button returns the status to pending with no matched call; the completed call stays in the list, so the trip screen offers accept and reject for it again |
| MatchingStore.Init | src/store/matchingStore.ts:24-25 | initially nothing is matched, no driver is held, the invariant holds and matching is not completed |
| MatchingStore.SetIsMatched | src/store/matchingStore.ts:26 | only the flag changes; the held driver stays |
| MatchingStore.SetIsMatchedBreaksConsistency | src/store/matchingStore.ts:26 | setting the flag on the consistent initial state breaks the invariant |
| MatchingStore.SetMatchedDriver | src/store/matchingStore.ts:27-28 | the driver is stored as given and the flag is set exactly when a driver is given, so the invariant is re-established from any state |
| MatchingStore.ResetMatching | src/store/matchingStore.ts:29 | both fields are cleared, the invariant holds and matching is not completed |
| MatchingStore.ResetMatchingIdempotent | src/store/matchingStore.ts:29 | resetting twice equals resetting once, and a reset state equals the initial state |
| MatchingStore.AcceptMatch | src/activities/passenger/trip/components/MatchedPendingComponent.tsx:15-22 | with a driver held, accepting keeps the flag true and completes matching; only `accepted` changes on the driver; without a driver nothing changes; the invariant is kept |
| MatchingStore.ProposeMockDriver | src/activities/passenger/TripActivity.tsx:85-102 | the mock match fires only with nothing matched; it then holds the canned driver, not yet accepted, with matching incomplete; the invariant is kept |
| MatchingStore.ProposeThenAccept | src/activities/passenger/TripActivity.tsx:34 | a proposed driver that is not yet accepted leaves matching incomplete; the accept pattern then completes it and changes only `accepted` |
| MatchingStore.SessionKeepsConsistency | src/store/matchingStore.ts:26-29 | any sequence of store operations without `setIsMatched` keeps the invariant |
| MatchingStore.SessionRepairs | src/store/matchingStore.ts:27-29 | a sequence starting with `setMatchedDriver` or `resetMatching` and without `setIsMatched` ends consistent from any state |
| TripStore.Init | src/store/tripStore.ts:20-38 | initially the destination is empty and has no coordinates, both safety options are on, and nothing is loading |
| TripStore.SetDestination | src/store/tripStore.ts:21 | only the destination text changes |
| TripStore.SetDestinationCoords | src/store/tripStore.ts:25 | the coordinates become present and equal to the argument; nothing else changes |
| TripStore.ToggleFemaleDriverOnly | src/store/tripStore.ts:29-30 | only the female-driver option flips |
| TripStore.ToggleProtectionMode | src/store/tripStore.ts:34-35 | only the protection-mode option flips |
| TripStore.TogglesAreInvolutions | src/store/tripStore.ts:29-35 | each toggle applied twice is the identity, and the two toggles commute |
| TripStore.SettersLastWriteWins | src/store/tripStore.ts:21-25 | the last destination text wins, and setting text and coordinates commute |
| TripStore.RequestTripStart | src/store/tripStore.ts:41-42 | requesting raises the loading flag and changes nothing else |
| TripStore.RequestTripFinish | src/store/tripStore.ts:46-50 | on completion the flag is lowered and the result is always true; nothing else changes |
| TripStore.RequestTripRoundTrip | src/store/tripStore.ts:41-52 | a whole request only lowers the loading flag; the request's own option values never reach the store |

## Left out

- The timer delays of `fetchCalls` (500 ms) and `requestTrip` (1000 ms) are left out. Each action is split into the part before the delay and the part after it.
- The `console.log` of the trip request is left out, because it is output only.
- The navigation in the screen handlers (`push`/`pop`) and the spinner shown while a call lookup fails are left out.
  One navigation step does change store state. The complete button's `push` (`src/activities/driver/DriverTripActivity.tsx:68`) opens the completion screen, which calls `resetMatch` when it mounts.
  So in the app, `completed` is immediately followed by `pending` with no matched call.
  No screen calls `completeCall`, so the completed call stays in the list.
  The model states this reset as a separate step (`DriverTrip.CompletionScreenReopensCall`).
- DriverTrip.HappyPath: its end state is the state just before the completion screen's reset, not the state the app settles in.
- The passenger trip screen's status (`matching`, `matchedPending`, `waiting`, `ongoing`) is left out. It is local screen state advanced by `setTimeout`, route-animation callbacks and React effects.
  Only its effect on the matching store is modelled (`MatchingStore.ProposeMockDriver`).
- Distance, duration and fare estimates, distance formatting, route easing and star rendering are left out: they are floating-point arithmetic and markup.
- Geolocation, the map SDK and its geocoder, sharing and the clipboard are left out: they are browser and third-party I/O.
- `matchDriver` in the driver service is left out: it is asynchronous and fails at random.
- `acceptDriver`, `rejectDriver` and `setFemaleDriverOnly` are not modelled: screens call them, but no store defines them.
- Coordinates and ratings are Dafny `real`s that the model never computes with. Text fields are `string`s.
