/**
 The passenger-side matching store: whether a driver has been matched and the
 matched driver's record. The intended invariant is that the flag and the
 record agree (`Consistent`); every action keeps it except `SetIsMatched`.
 */
module MatchingStore {
  import opened Common

  /** The matched driver as the passenger sees it. */
  datatype DriverInfo = DriverInfo(
    id: string,
    name: string,
    gender: Gender,
    rating: real,
    estimatedArrival: string,
    accepted: bool)

  /** The store's data; `matchedDriver == None` stands for `null`. */
  datatype State = State(isMatched: bool, matchedDriver: Option<DriverInfo>)

  /** The flag says "matched" exactly when a driver record is held. */
  predicate Consistent(s: State) {
    s.isMatched <==> s.matchedDriver.Some?
  }

  /** The passenger trip screen's "matching completed": matched, and the held
      driver has been accepted. A missing record reads as not completed. */
  predicate MatchingCompleted(s: State) {
    s.isMatched && s.matchedDriver.Some? && s.matchedDriver.value.accepted
  }

  function Init(): (s: State)
    ensures Consistent(s) && !s.isMatched && s.matchedDriver.None?
    ensures !MatchingCompleted(s)
  {
    State(false, None)
  }

  /** `setIsMatched`: overwrites the flag only. */
  function SetIsMatched(s: State, isMatched: bool): (r: State)
    ensures r.isMatched == isMatched && r.matchedDriver == s.matchedDriver
  {
    s.(isMatched := isMatched)
  }

  /** `setIsMatched` can break the invariant: flag set, no driver held. */
  lemma SetIsMatchedBreaksConsistency()
    ensures Consistent(Init()) && !Consistent(SetIsMatched(Init(), true))
  {
  }

  /** `setMatchedDriver`: stores the record as given (including its `accepted`
      flag) and derives the flag from it, from whatever state. */
  function SetMatchedDriver(s: State, driver: Option<DriverInfo>): (r: State)
    ensures Consistent(r)
    ensures r.matchedDriver == driver
    ensures r.isMatched <==> driver.Some?
  {
    State(driver.Some?, driver)
  }

  /** `resetMatching`: forgets the match entirely. */
  function ResetMatching(s: State): (r: State)
    ensures Consistent(r) && !r.isMatched && r.matchedDriver.None?
    ensures !MatchingCompleted(r)
  {
    State(false, None)
  }

  lemma ResetMatchingIdempotent(s: State)
    ensures ResetMatching(ResetMatching(s)) == ResetMatching(s)
    ensures ResetMatching(s) == Init()
  {
  }

  /** The accept handler: if a driver is held, store it again with `accepted`
      set; otherwise nothing happens. */
  function AcceptMatch(s: State): (r: State)
    ensures s.matchedDriver.None? ==> r == s
    ensures s.matchedDriver.Some? ==>
      && r.isMatched
      && r.matchedDriver.Some? && r.matchedDriver.value.accepted
      && r.matchedDriver.value.(accepted := false) == s.matchedDriver.value.(accepted := false)
      && MatchingCompleted(r)
    ensures Consistent(s) ==> Consistent(r)
  {
    match s.matchedDriver
    case None => s
    case Some(d) => SetMatchedDriver(s, Some(d.(accepted := true)))
  }

  /** The canned driver the passenger trip screen proposes after its delay. */
  const MockDriver: DriverInfo := DriverInfo("driver-123", "김여성", Female, 4.8, "5분 후", false)

  /** The passenger trip screen's mock match: it fires only while nothing is
      matched and no driver is held, and proposes a driver not yet accepted. */
  function ProposeMockDriver(s: State): (r: State)
    ensures !s.isMatched && s.matchedDriver.None? ==>
      r.isMatched && r.matchedDriver == Some(MockDriver) && !MatchingCompleted(r)
    ensures s.isMatched || s.matchedDriver.Some? ==> r == s
    ensures Consistent(s) ==> Consistent(r)
  {
    if !s.isMatched && s.matchedDriver.None? then SetMatchedDriver(s, Some(MockDriver)) else s
  }

  /** Proposing a driver not yet accepted leaves matching incomplete; accepting
      it completes matching and touches nothing but `accepted`. */
  lemma ProposeThenAccept(s: State, d: DriverInfo)
    requires !d.accepted
    ensures !MatchingCompleted(SetMatchedDriver(s, Some(d)))
    ensures var r := AcceptMatch(SetMatchedDriver(s, Some(d)));
      MatchingCompleted(r) && r.matchedDriver == Some(d.(accepted := true))
  {
  }

  /** The store operations as a passenger session may issue them. */
  datatype Op = SetFlag(flag: bool) | SetDriver(driver: Option<DriverInfo>) | Reset | Accept | Propose

  function Apply(s: State, op: Op): State {
    match op
    case SetFlag(b) => SetIsMatched(s, b)
    case SetDriver(d) => SetMatchedDriver(s, d)
    case Reset => ResetMatching(s)
    case Accept => AcceptMatch(s)
    case Propose => ProposeMockDriver(s)
  }

  function ApplyAll(s: State, ops: seq<Op>): State
    decreases |ops|
  {
    if |ops| == 0 then s else ApplyAll(Apply(s, ops[0]), ops[1..])
  }

  /** Any session that never calls `setIsMatched` keeps the invariant. */
  lemma {:induction false} SessionKeepsConsistency(s: State, ops: seq<Op>)
    requires Consistent(s)
    requires forall i :: 0 <= i < |ops| ==> !ops[i].SetFlag?
    ensures Consistent(ApplyAll(s, ops))
    decreases |ops|
  {
    if |ops| > 0 {
      SessionKeepsConsistency(Apply(s, ops[0]), ops[1..]);
    }
  }

  /** A session that starts with `setMatchedDriver` or `resetMatching` ends
      consistent from any state, however broken. */
  lemma {:induction false} SessionRepairs(s: State, ops: seq<Op>)
    requires |ops| > 0 && (ops[0].SetDriver? || ops[0].Reset?)
    requires forall i :: 1 <= i < |ops| ==> !ops[i].SetFlag?
    ensures Consistent(ApplyAll(s, ops))
  {
    SessionKeepsConsistency(Apply(s, ops[0]), ops[1..]);
  }
}
