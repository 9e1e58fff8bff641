/**
  The soft token quota over one month of interleaved requests
  (saas_os/control_plane/inference/accounting.py: `check_soft_token_quota`,
  `recorded_tokens`; service.py: the order of the check, the attempts and the
  settlement). The check reads the ledger; nothing reserves what it admits. A
  flight is an admitted request with what it may still record. `InferenceQuota`
  shows that the calls of `InferenceRuns` are runs of this machine.
 */
module Quota {
  import opened Common
  import opened Machines
  import opened Eligibility
  import opened InferenceLedger
  import opened Accounting

  datatype Month = Month(since: int, until: int)

  datatype Flight = Flight(request: nat, remaining: int)

  /** `overlap`: what other admitted requests could still record when the newest
      one was admitted. `excess`: what has since been recorded beyond what the
      recording request was projected to use. */
  datatype State = State(ledger: Ledger, flights: seq<Flight>, overlap: int, excess: int)

  datatype Action =
    | Check(request: nat, inputBytes: nat, maxOutputTokens: int)
    | Insert(request: nat, number: nat, destination: Candidate, at: int)
    | Settle(row: nat, settlement: Settlement, at: int)
    | Sweep(olderThan: int, at: int)
    | Leave(request: nat)

  function Used(m: Month, l: Ledger): (r: int)
  {
    RecordedTokens(l.rows, m.since, m.until)
  }

  /** What all flights together may still record. */
  function Pending(flights: seq<Flight>): (r: int)
  {
    if flights == [] then 0 else Pending(flights[..|flights| - 1]) + flights[|flights| - 1].remaining
  }

  /** What a request may still record. */
  function Remaining(flights: seq<Flight>, request: nat): (r: int)
  {
    if flights == [] then 0
    else
      var last := flights[|flights| - 1];
      if last.request == request then last.remaining else Remaining(flights[..|flights| - 1], request)
  }

  function Landed(flights: seq<Flight>, request: nat): (r: seq<Flight>)
  {
    if flights == [] then []
    else
      var init, last := flights[..|flights| - 1], flights[|flights| - 1];
      if last.request == request then init + [last.(remaining := 0)] else Landed(init, request) + [last]
  }

  function CheckStep(limit: nat, m: Month, s: State, request: nat, inputBytes: nat, maxOutputTokens: int): (r: State)
  {
    if CheckQuota(Some(Whole(limit)), false, Some(Used(m, s.ledger)), inputBytes, maxOutputTokens).Some? then s
    else
      s.(flights := s.flights + [Flight(request, Projection(inputBytes, maxOutputTokens))],
         overlap := Pending(s.flights), excess := 0)
  }

  /** A settlement that carries usage is the request's last. */
  function SettleStep(m: Month, s: State, row: nat, settlement: Settlement, at: int): (r: State)
  {
    if row >= |s.ledger.rows| || settlement.state == Started then s
    else
      var ledger := Settled(s.ledger, row, settlement, at);
      if s.ledger.rows[row].state != Started || (settlement.inputTokens.None? && settlement.outputTokens.None?) then
        s.(ledger := ledger)
      else
        var request := s.ledger.rows[row].request;
        var recorded := Used(m, ledger) - Used(m, s.ledger);
        State(ledger, Landed(s.flights, request), s.overlap,
              s.excess + Max(0, recorded - Remaining(s.flights, request)))
  }

  /** A request that ended without recording usage. */
  function LeaveStep(s: State, request: nat): (r: State)
  {
    if Remaining(s.flights, request) <= 0 then s else s.(flights := Landed(s.flights, request))
  }

  function Step(limit: nat, m: Month, s: State, a: Action): (r: State)
  {
    match a
    case Check(request, bytes, maxOutput) => CheckStep(limit, m, s, request, bytes, maxOutput)
    case Insert(request, number, destination,
                at) => s.(ledger := Inserted(s.ledger, NewAttempt(request, number, destination, at)))
    case Settle(row, settlement, at) => SettleStep(m, s, row, settlement, at)
    case Sweep(olderThan, at) => s.(ledger := Swept(s.ledger, olderThan, at))
    case Leave(request) => LeaveStep(s, request)
  }

  function Steps(limit: nat, m: Month): (r: (State, Action) -> State)
  {
    (s: State, a: Action) => Step(limit, m, s, a)
  }

  /** The month begins with this ledger, possibly above a lowered limit. */
  function Opening(limit: nat, m: Month, l: Ledger): (r: State)
  {
    State(l, [], 0, Max(0, Used(m, l) - limit))
  }

  // --- flights ----------------------------------------------------------------------------------

  lemma FlightsSnoc(flights: seq<Flight>, f: Flight, request: nat)
    ensures Pending(flights + [f]) == Pending(flights) + f.remaining
    ensures Remaining(flights + [f], request) == if request == f.request then f.remaining
            else Remaining(flights, request)
  {
    assert (flights + [f])[..|flights|] == flights;
  }

  lemma {:induction false} PendingLanded(flights: seq<Flight>, request: nat)
    ensures Pending(Landed(flights, request)) == Pending(flights) - Remaining(flights, request)
  {
    if flights != [] {
      var init, last := flights[..|flights| - 1], flights[|flights| - 1];
      if last.request == request {
        FlightsSnoc(init, last.(remaining := 0), request);
      } else {
        PendingLanded(init, request);
        FlightsSnoc(Landed(init, request), last, request);
      }
    }
  }

  lemma {:induction false} RemainingLanded(flights: seq<Flight>, request: nat, other: nat)
    ensures Remaining(Landed(flights, request), other) == if other == request then 0 else Remaining(flights, other)
  {
    if flights != [] {
      var init, last := flights[..|flights| - 1], flights[|flights| - 1];
      if last.request == request {
        FlightsSnoc(init, last.(remaining := 0), other);
      } else {
        RemainingLanded(init, request, other);
        FlightsSnoc(Landed(init, request), last, other);
      }
    }
  }

  lemma {:induction false} LandedKeepsRequests(flights: seq<Flight>, request: nat)
    ensures |Landed(flights, request)| == |flights|
    ensures forall k :: 0 <= k < |flights| ==> Landed(flights, request)[k].request == flights[k].request
  {
    if flights != [] {
      LandedKeepsRequests(flights[..|flights| - 1], request);
    }
  }

  lemma {:induction false} LandedNonNegative(flights: seq<Flight>, request: nat)
    requires forall k :: 0 <= k < |flights| ==> flights[k].remaining >= 0
    ensures |Landed(flights, request)| == |flights|
    ensures forall k :: 0 <= k < |flights| ==> Landed(flights, request)[k].remaining >= 0
  {
    if flights != [] {
      LandedNonNegative(flights[..|flights| - 1], request);
    }
  }

  lemma {:induction false} SweepKeepsTokens(rows: seq<Attempt>, swept: seq<Attempt>, olderThan: int, at: int,
                                            since: int, until: int)
    requires |swept| == |rows| && forall i :: 0 <= i < |rows| ==> swept[i] == Abandon(rows[i], olderThan, at)
    ensures RecordedTokens(swept, since, until) == RecordedTokens(rows, since, until)
  {
    if rows != [] {
      SweepKeepsTokens(rows[..|rows| - 1], swept[..|rows| - 1], olderThan, at, since, until);
    }
  }

  lemma InsertKeepsTokens(m: Month, l: Ledger, flight: nat, number: nat, destination: Candidate, at: int)
    ensures Used(m, Inserted(l, NewAttempt(flight, number, destination, at))) == Used(m, l)
  {
    var row := NewAttempt(flight, number, destination, at);
    assert (l.rows + [row])[..|l.rows|] == l.rows;
  }

  // --- the bound --------------------------------------------------------------------------------

  ghost predicate Unrecorded(l: Ledger)
  {
    forall i :: 0 <= i < |l.rows| && l.rows[i].state == Started ==>
        l.rows[i].inputTokens.None? && l.rows[i].outputTokens.None?
  }

  ghost predicate Inv(limit: nat, m: Month, s: State)
  {
    Unrecorded(s.ledger) && s.excess >= 0 && Used(m, s.ledger) + Pending(s.flights) <= limit + s.overlap + s.excess
  }

  lemma CheckKeepsInv(limit: nat, m: Month, s: State, request: nat, inputBytes: nat, maxOutputTokens: int)
    requires Inv(limit, m, s)
    ensures Inv(limit, m, CheckStep(limit, m, s, request, inputBytes, maxOutputTokens))
  {
    FlightsSnoc(s.flights, Flight(request, Projection(inputBytes, maxOutputTokens)), request);
  }

  lemma SettleKeepsInv(limit: nat, m: Month, s: State, row: nat, settlement: Settlement, at: int)
    requires Inv(limit, m, s)
    ensures Inv(limit, m, SettleStep(m, s, row, settlement, at))
  {
    if row < |s.ledger.rows| && s.ledger.rows[row].state == Started {
      SettleAddsItsTokens(s.ledger.rows, row, settlement, at, m.since, m.until);
      PendingLanded(s.flights, s.ledger.rows[row].request);
    }
  }

  lemma SweepKeepsInv(limit: nat, m: Month, s: State, olderThan: int, at: int)
    requires Inv(limit, m, s)
    ensures Inv(limit, m, s.(ledger := Swept(s.ledger, olderThan, at)))
  {
    SweepKeepsTokens(s.ledger.rows, Swept(s.ledger, olderThan, at).rows, olderThan, at, m.since, m.until);
  }

  lemma StepKeepsInv(limit: nat, m: Month, s: State, a: Action)
    requires Inv(limit, m, s)
    ensures Inv(limit, m, Step(limit, m, s, a))
  {
    match a {
      case Check(request, bytes, maxOutput) => CheckKeepsInv(limit, m, s, request, bytes, maxOutput);
      case Insert(request, number, destination, at) => InsertKeepsTokens(m, s.ledger, request, number, destination, at);
      case Settle(row, settlement, at) => SettleKeepsInv(limit, m, s, row, settlement, at);
      case Sweep(olderThan, at) => SweepKeepsInv(limit, m, s, olderThan, at);
      case Leave(request) => PendingLanded(s.flights, request);
    }
  }

  /** For every interleaving of checks, attempts, settlements and sweeps, what is
      recorded plus what admitted requests may still record stays within the
      limit, what overlapped the newest admission, and what was recorded beyond
      its projection. */
  lemma {:induction false} RecordedPlusPendingIsBounded(limit: nat, m: Month, l: Ledger, actions: seq<Action>)
    requires Unrecorded(l)
    ensures Inv(limit, m, Run(Steps(limit, m), Opening(limit, m, l), actions))
  {
    if actions != [] {
      RecordedPlusPendingIsBounded(limit, m, l, actions[..|actions| - 1]);
      StepKeepsInv(limit, m, Run(Steps(limit, m), Opening(limit, m, l), actions[..|actions| - 1]),
                   actions[|actions| - 1]);
    }
  }

  ghost predicate WithinProjections(limit: nat, m: Month, l: Ledger, actions: seq<Action>)
  {
    forall n :: 0 <= n <= |actions| ==> Run(Steps(limit, m), Opening(limit, m, l), actions[..n]).excess == 0
  }

  lemma {:induction false} PendingIsNonNegative(flights: seq<Flight>)
    requires forall k :: 0 <= k < |flights| ==> flights[k].remaining >= 0
    ensures Pending(flights) >= 0
  {
    if flights != [] {
      PendingIsNonNegative(flights[..|flights| - 1]);
    }
  }

  predicate AsksForOutput(a: Action)
  {
    a.Check? ==> a.maxOutputTokens >= 0
  }

  ghost predicate NonNegative(s: State)
  {
    forall k :: 0 <= k < |s.flights| ==> s.flights[k].remaining >= 0
  }

  lemma StepKeepsNonNegative(limit: nat, m: Month, s: State, a: Action)
    requires NonNegative(s) && AsksForOutput(a)
    ensures NonNegative(Step(limit, m, s, a))
  {
    match a {
      case Settle(row, settlement, at) =>
        if row < |s.ledger.rows| {
          LandedNonNegative(s.flights, s.ledger.rows[row].request);
        }
      case Leave(request) => LandedNonNegative(s.flights, request);
      case _ =>
    }
  }

  lemma {:induction false} FlightsAreNonNegative(limit: nat, m: Month, s: State, actions: seq<Action>)
    requires NonNegative(s) && forall n :: 0 <= n < |actions| ==> AsksForOutput(actions[n])
    ensures NonNegative(Run(Steps(limit, m), s, actions))
  {
    if actions != [] {
      var n := |actions| - 1;
      FlightsAreNonNegative(limit, m, s, actions[..n]);
      assert AsksForOutput(actions[n]);
      StepKeepsNonNegative(limit, m, Run(Steps(limit, m), s, actions[..n]), actions[n]);
    }
  }

  /** If no request records more than its projection, the month's total exceeds
      the limit by at most what the other admitted, unsettled requests could
      record when the newest was admitted. */
  lemma OvershootIsOverlap(limit: nat, m: Month, l: Ledger, actions: seq<Action>)
    requires Unrecorded(l) && WithinProjections(limit, m, l, actions)
    requires forall n :: 0 <= n < |actions| ==> AsksForOutput(actions[n])
    ensures var s := Run(Steps(limit, m), Opening(limit, m, l), actions); Used(m, s.ledger) <= limit + s.overlap
  {
    RecordedPlusPendingIsBounded(limit, m, l, actions);
    FlightsAreNonNegative(limit, m, Opening(limit, m, l), actions);
    PendingIsNonNegative(Run(Steps(limit, m), Opening(limit, m, l), actions).flights);
    assert actions[..|actions|] == actions;
  }

  /** Nobody is admitted while another admitted request may still record. */
  ghost predicate Serial(limit: nat, m: Month, l: Ledger, actions: seq<Action>)
  {
    forall n :: 0 <= n < |actions| && actions[n].Check? ==>
        Pending(Run(Steps(limit, m), Opening(limit, m, l), actions[..n]).flights) == 0
  }

  lemma OverlapStep(limit: nat, m: Month, s: State, a: Action)
    requires s.overlap == 0 && (a.Check? ==> Pending(s.flights) == 0)
    ensures Step(limit, m, s, a).overlap == 0
  {
  }

  lemma PrefixRun(limit: nat, m: Month, start: State, actions: seq<Action>, n: nat) returns (s: State)
    requires 0 < n <= |actions|
    ensures s == Run(Steps(limit, m), start, actions[..n - 1])
    ensures Run(Steps(limit, m), start, actions[..n]) == Step(limit, m, s, actions[n - 1])
  {
    assert actions[..n] == actions[..n - 1] + [actions[n - 1]];
    RunSnoc(Steps(limit, m), start, actions[..n - 1], actions[n - 1]);
    s := Run(Steps(limit, m), start, actions[..n - 1]);
  }

  lemma {:induction false} SerialHasNoOverlap(limit: nat, m: Month, l: Ledger, actions: seq<Action>, n: nat)
    requires Serial(limit, m, l, actions) && n <= |actions|
    ensures Run(Steps(limit, m), Opening(limit, m, l), actions[..n]).overlap == 0
  {
    if n > 0 {
      SerialHasNoOverlap(limit, m, l, actions, n - 1);
      var s := PrefixRun(limit, m, Opening(limit, m, l), actions, n);
      OverlapStep(limit, m, s, actions[n - 1]);
    }
  }

  /** Without overlap the month's total never exceeds the limit. */
  lemma SerialNeverExceeds(limit: nat, m: Month, l: Ledger, actions: seq<Action>)
    requires Unrecorded(l) && WithinProjections(limit, m, l, actions) && Serial(limit, m, l, actions)
    requires forall n :: 0 <= n < |actions| ==> AsksForOutput(actions[n])
    ensures Used(m, Run(Steps(limit, m), Opening(limit, m, l), actions).ledger) <= limit
  {
    OvershootIsOverlap(limit, m, l, actions);
    SerialHasNoOverlap(limit, m, l, actions, |actions|);
    assert actions[..|actions|] == actions;
  }

  // --- the bound is reached -----------------------------------------------------------------------

  function Checks(n: nat, maxOutput: nat): (r: seq<Action>)
  {
    if n == 0 then [] else Checks(n - 1, maxOutput) + [Check(n - 1, 0, maxOutput)]
  }

  function Full(p: int): (r: Settlement)
  {
    Settlement(Succeeded, false, true, Some(1), Some(p - 1), ProviderReported)
  }

  /** Flights 0 to n-1 each send once and record their whole projection. */
  function Landings(n: nat, p: int, destination: Candidate, at: int): (r: seq<Action>)
  {
    if n == 0 then []
    else Landings(n - 1, p, destination, at) + [Insert(n - 1, 1, destination, at)] + [Settle(n - 1, Full(p), at)]
  }

  /** `n` equal flights over an empty ledger. */
  ghost predicate Airborne(s: State, n: nat, p: int)
  {
    && s.ledger == Ledger([], []) && s.excess == 0
    && (forall k: nat :: Remaining(s.flights, k) == if k < n then p else 0)
    && Pending(s.flights) == n * p && (n > 0 ==> s.overlap == (n - 1) * p)
  }

  lemma OneMore(n: nat, p: int)
    ensures (n + 1) * p == n * p + p
  {
  }

  lemma OneCheck(maxOutput: nat, m: Month, s: State, n: nat)
    requires Airborne(s, n, 1 + maxOutput)
    ensures Airborne(Step(1 + maxOutput, m, s, Check(n, 0, maxOutput)), n + 1, 1 + maxOutput)
  {
    var s' := Step(1 + maxOutput, m, s, Check(n, 0, maxOutput));
    assert s'.flights == s.flights + [Flight(n, 1 + maxOutput)];
    OneMore(n, 1 + maxOutput);
    forall k: nat
      ensures Remaining(s'.flights, k) == (if k < n + 1 then 1 + maxOutput else 0)
      ensures Pending(s'.flights) == Pending(s.flights) + 1 + maxOutput
    {
      FlightsSnoc(s.flights, Flight(n, 1 + maxOutput), k);
    }
  }

  lemma {:induction false} ChecksAdmit(maxOutput: nat, m: Month, n: nat)
    ensures Airborne(Run(Steps(1 + maxOutput, m), Opening(1 + maxOutput, m, Ledger([], [])), Checks(n, maxOutput)), n,
                     1 + maxOutput)
  {
    if n > 0 {
      ChecksAdmit(maxOutput, m, n - 1);
      var start := Opening(1 + maxOutput, m, Ledger([], []));
      RunSnoc(Steps(1 + maxOutput, m), start, Checks(n - 1, maxOutput), Check(n - 1, 0, maxOutput));
      OneCheck(maxOutput, m, Run(Steps(1 + maxOutput, m), start, Checks(n - 1, maxOutput)), n - 1);
    }
  }

  lemma OneLanding(limit: nat, m: Month, s: State, k: nat, p: int, destination: Candidate, at: int)
    requires m.since <= at < m.until && |s.ledger.rows| == k && Remaining(s.flights, k) == p >= 1
    ensures var s' := Step(limit, m, Step(limit, m, s, Insert(k, 1, destination, at)), Settle(k, Full(p), at));
            && |s'.ledger.rows| == k + 1 && Used(m, s'.ledger) == Used(m, s.ledger) + p
            && s'.flights == Landed(s.flights, k) && s'.overlap == s.overlap && s'.excess == s.excess
  {
    InsertKeepsTokens(m, s.ledger, k, 1, destination, at);
    var begun := Step(limit, m, s, Insert(k, 1, destination, at));
    SettleAddsItsTokens(begun.ledger.rows, k, Full(p), at, m.since, m.until);
  }

  /** The first `n` of `total` equal flights have recorded their projection. */
  ghost predicate Down(m: Month, s: State, total: nat, n: nat, p: int, overlap: int)
  {
    && |s.ledger.rows| == n && Used(m, s.ledger) == n * p
    && (forall k: nat :: n <= k < total ==> Remaining(s.flights, k) == p)
    && s.overlap == overlap && s.excess == 0
  }

  lemma OneMoreDown(limit: nat, m: Month, s: State, total: nat, k: nat, p: int, overlap: int, destination: Candidate,
                    at: int)
    requires m.since <= at < m.until && k < total && p >= 1 && Down(m, s, total, k, p, overlap)
    ensures Down(m, Step(limit, m, Step(limit, m, s, Insert(k, 1, destination, at)), Settle(k, Full(p), at)), total,
                 k + 1, p, overlap)
  {
    OneLanding(limit, m, s, k, p, destination, at);
    OneMore(k, p);
    forall j: nat | k + 1 <= j < total
      ensures Remaining(Landed(s.flights, k), j) == p
    {
      RemainingLanded(s.flights, k, j);
    }
  }

  lemma {:induction false} LandingsRecord(limit: nat, m: Month, s: State, total: nat, n: nat, p: int,
                                          destination: Candidate, at: int)
    requires m.since <= at < m.until && n <= total && p >= 1 && Airborne(s, total, p)
    ensures Down(m, Run(Steps(limit, m), s, Landings(n, p, destination, at)), total, n, p, s.overlap)
  {
    if n > 0 {
      LandingsRecord(limit, m, s, total, n - 1, p, destination, at);
      var before := Landings(n - 1, p, destination, at);
      RunSnoc(Steps(limit, m), s, before, Insert(n - 1, 1, destination, at));
      RunSnoc(Steps(limit, m), s, before + [Insert(n - 1, 1, destination, at)], Settle(n - 1, Full(p), at));
      OneMoreDown(limit, m, Run(Steps(limit, m), s, before), total, n - 1, p, s.overlap, destination, at);
    }
  }

  /** Any number of requests that pass the check before any of them settles
      record exactly the limit plus the overlap, each within its projection. */
  lemma OverlapIsReached(maxOutput: nat, m: Month, n: nat, destination: Candidate) returns (actions: seq<Action>)
    requires m.since < m.until && n > 0
    ensures var limit := 1 + maxOutput;
            var s := Run(Steps(limit, m), Opening(limit, m, Ledger([], [])), actions);
            Used(m, s.ledger) == limit + s.overlap && s.overlap == (n - 1) * limit && s.excess == 0
  {
    var limit := 1 + maxOutput;
    var start := Opening(limit, m, Ledger([], []));
    ChecksAdmit(maxOutput, m, n);
    LandingsRecord(limit, m, Run(Steps(limit, m), start, Checks(n, maxOutput)), n, n, limit, destination, m.since);
    actions := Checks(n, maxOutput) + Landings(n, limit, destination, m.since);
    RunConcat(Steps(limit, m), start, Checks(n, maxOutput), Landings(n, limit, destination, m.since));
    OneMore(n - 1, limit);
  }
}
