/**
  The token quota on the interleaved calls themselves
  (saas_os/control_plane/inference/service.py: the quota check between
  `_resolve` and `_attempt_all`; accounting.py: `check_soft_token_quota`).
  Beside every run of `InferenceRuns` in which a call is admitted only past its
  quota check, a run of `Quota` sees the same ledger and the same pending calls.
 */
module InferenceQuota {
  import opened Common
  import opened Machines
  import opened Traces
  import opened Eligibility
  import opened InferenceLedger
  import opened InferenceRuns
  import opened Accounting
  import Quota

  /** What a call was projected to use. */
  function ProjectionOf(call: Call): (r: int)
  {
    Projection(call.inputBytes, call.ask.maxOutputTokens)
  }

  /** Admitted and not ended. */
  predicate Flying(ctl: Ctl)
  {
    !ctl.Arrived? && !ctl.ClockRead? && !ctl.Admitting? && !ctl.Returned? && !ctl.Raised?
  }

  predicate Over(w: World, c: nat)
  {
    c in w.calls && (w.calls[c].ctl.Returned? || w.calls[c].ctl.Raised?)
  }

  /** What a call may still record. */
  function Expected(w: World, c: nat): (r: int)
  {
    if c in w.calls && Flying(w.calls[c].ctl) then ProjectionOf(w.calls[c]) else 0
  }

  /** What all calls in flight together may still record. */
  ghost function InFlight(w: World): (r: int)
  {
    SumOver((c: nat) => Expected(w, c), w.calls.Keys)
  }

  // --- the quota machine's view of a step -----------------------------------------------------------

  function BeginView(w: World, c: nat, authorized: bool, s: Snapshot, result: WriteResult): (r: Option<Quota.Action>)
  {
    if c !in w.calls || !w.calls[c].ctl.Cleared? || w.calls[c].ctl.index >= |w.calls[c].candidates| then None
    else
      var call := w.calls[c];
      var checked := Recheck(call.candidates[call.ctl.index], authorized, s, call.ask, call.caps);
      if checked.Err? || result.NotCommitted? then None else Some(Quota.Insert(c, call.number, checked.value, w.now))
  }

  function SettleView(w: World, c: nat, result: WriteResult): (r: Option<Quota.Action>)
  {
    if !CanSettle(w, c) || result.NotCommitted? then None
    else
      var sent := NewestSend(w.calls[c]);
      Some(Quota.Settle(sent.row, SettlementOf(sent.response.value, w.calls[c].inputBytes), w.now))
  }

  function View(w: World, a: Action): (r: Option<Quota.Action>)
  {
    match a
    case Resolve(c, authorized, _) =>
      if c in w.calls && w.calls[c].ctl.ClockRead?
        && authorized then Some(Quota.Sweep(w.calls[c].abandonBefore, w.now)) else None
    case Admit(c, admitted) =>
      if c in w.calls && w.calls[c].ctl.Admitting? && admitted
      then Some(Quota.Check(c, w.calls[c].inputBytes, w.calls[c].ask.maxOutputTokens)) else None
    case Begin(c, authorized, s, result) => BeginView(w, c, authorized, s, result)
    case Settle(c, result, _) => SettleView(w, c, result)
    case _ => None
  }

  function Seen(limit: nat, m: Quota.Month, q: Quota.State, a: Option<Quota.Action>): (r: Quota.State)
  {
    if a.Some? then Quota.Step(limit, m, q, a.value) else q
  }

  /** A call that ends leaves. */
  function Shadow(conf: int, limit: nat, m: Quota.Month, w: World, q: Quota.State, a: Action): (r: Quota.State)
  {
    var q1 := Seen(limit, m, q, View(w, a));
    if !a.Tick? && !Over(w, a.call)
      && Over(Step(conf, w, a), a.call) then Quota.Step(limit, m, q1, Quota.Leave(a.call)) else q1
  }

  /** A call is admitted only past its quota check, and asks for some output. */
  predicate Governed(limit: nat, m: Quota.Month, w: World, a: Action)
  {
    && (a.Arrive? ==> a.ask.maxOutputTokens >= 0)
    && (a.Admit? && a.admitted && a.call in w.calls && w.calls[a.call].ctl.Admitting? ==>
          var call := w.calls[a.call];
          CheckQuota(Some(Whole(limit)), false, Some(Quota.Used(m, w.ledger)), call.inputBytes,
                     call.ask.maxOutputTokens).None?)
  }

  // --- both see the same -------------------------------------------------------------------------------

  ghost predicate Linked(w: World, q: Quota.State)
  {
    q.ledger == w.ledger && forall c: nat :: Quota.Remaining(q.flights, c) == Expected(w, c)
  }

  predicate AsksOutput(w: World, c: nat)
  {
    c in w.calls ==> w.calls[c].ask.maxOutputTokens >= 0
  }

  /** Before a call that may just have ended leaves. */
  ghost predicate NearlyLinked(w': World, q: Quota.State, c: nat, ends: bool)
  {
    && q.ledger == w'.ledger
    && (forall d: nat :: d != c ==> Quota.Remaining(q.flights, d) == Expected(w', d))
    && (if ends then Quota.Remaining(q.flights, c) >= 0
        && Over(w', c) else Quota.Remaining(q.flights, c) == Expected(w', c))
  }

  lemma Leaves(limit: nat, m: Quota.Month, w': World, q: Quota.State, c: nat, ends: bool)
    requires NearlyLinked(w', q, c, ends)
    ensures Linked(w', if ends then Quota.Step(limit, m, q, Quota.Leave(c)) else q)
  {
    if ends {
      forall d: nat
        ensures Quota.Remaining(Quota.Landed(q.flights, c), d) == if d == c then 0 else Quota.Remaining(q.flights, d)
      {
        Quota.RemainingLanded(q.flights, c, d);
      }
    }
  }

  /** A step of call `c` changes no other record and no call's terms. */
  ghost predicate OnlyCall(w: World, w': World, c: nat)
  {
    && (forall d: nat :: d != c ==> (d in w'.calls <==> d in w.calls) && (d in w.calls ==> w'.calls[d] == w.calls[d]))
    && (c in w.calls ==>
          c in w'.calls && w'.calls[c].ask == w.calls[c].ask && w'.calls[c].inputBytes == w.calls[c].inputBytes)
  }

  lemma OwnStepKeepsTerms(conf: int, now: int, call: Call, a: Action)
    ensures var call' := OwnStep(conf, now, call, a); call'.ask == call.ask && call'.inputBytes == call.inputBytes
  {
  }

  lemma ArriveOrSettleIsOfOneCall(conf: int, w: World, a: Action)
    requires a.Arrive? || a.Settle?
    ensures OnlyCall(w, Step(conf, w, a), a.call)
  {
  }

  lemma ResolveOrBeginIsOfOneCall(conf: int, w: World, a: Action)
    requires a.Resolve? || a.Begin?
    ensures OnlyCall(w, Step(conf, w, a), a.call)
  {
  }

  lemma StepIsOfOneCall(conf: int, w: World, a: Action)
    requires !a.Tick?
    ensures OnlyCall(w, Step(conf, w, a), a.call)
  {
    if a.Arrive? || a.Settle? {
      ArriveOrSettleIsOfOneCall(conf, w, a);
    } else if a.Resolve? || a.Begin? {
      ResolveOrBeginIsOfOneCall(conf, w, a);
    } else if a.call in w.calls {
      OwnStepKeepsTerms(conf, w.now, w.calls[a.call], a);
    }
  }

  /** Same ledger, same flights: the call flies on, or has just ended, or was
      not flying. */
  lemma UnseenStep(w: World, w': World, q: Quota.State, c: nat)
    requires Linked(w, q) && OnlyCall(w, w', c) && w'.ledger == w.ledger && AsksOutput(w, c)
    requires Over(w, c) ==> Over(w', c)
    requires c in w'.calls && Flying(w'.calls[c].ctl) ==> c in w.calls && Flying(w.calls[c].ctl)
    requires c in w.calls && Flying(w.calls[c].ctl) && !Over(w', c) ==> Flying(w'.calls[c].ctl)
    ensures NearlyLinked(w', q, c, !Over(w, c) && Over(w', c))
  {
    assert Quota.Remaining(q.flights, c) == Expected(w, c);
  }

  /** The steps the quota machine does not see. */
  lemma UnseenSteps(conf: int, w: World, a: Action)
    requires !a.Tick? && View(w, a).None?
    requires a.Admit? && a.call in w.calls && w.calls[a.call].ctl.Admitting? ==> !a.admitted
    ensures var w' := Step(conf, w, a);
            && w'.ledger == w.ledger && (Over(w, a.call) ==> Over(w', a.call))
            && (a.call in w'.calls && Flying(w'.calls[a.call].ctl) ==> a.call in w.calls && Flying(w.calls[a.call].ctl))
            && (a.call in w.calls && Flying(w.calls[a.call].ctl) && !Over(w', a.call) ==> Flying(w'.calls[a.call].ctl))
  {
  }

  lemma ResolveLinks(conf: int, limit: nat, m: Quota.Month, w: World, q: Quota.State, a: Action)
    requires Linked(w, q) && a.Resolve? && View(w, a).Some?
    ensures var w' := Step(conf, w, a);
            NearlyLinked(w', Seen(limit, m, q, View(w, a)), a.call, !Over(w, a.call) && Over(w', a.call))
  {
    StepIsOfOneCall(conf, w, a);
    assert Quota.Remaining(q.flights, a.call) == Expected(w, a.call) == 0;
  }

  lemma AdmitLinks(conf: int, limit: nat, m: Quota.Month, w: World, q: Quota.State, a: Action)
    requires Linked(w, q) && a.Admit? && View(w, a).Some? && Governed(limit, m, w, a)
    ensures var w' := Step(conf, w, a);
            NearlyLinked(w', Seen(limit, m, q, View(w, a)), a.call, !Over(w, a.call) && Over(w', a.call))
  {
    StepIsOfOneCall(conf, w, a);
    var w', f := Step(conf, w, a), Quota.Flight(a.call, ProjectionOf(w.calls[a.call]));
    forall d: nat
      ensures Quota.Remaining(q.flights + [f], d) == if d == a.call then f.remaining else Expected(w, d)
    {
      Quota.FlightsSnoc(q.flights, f, d);
    }
  }

  lemma BeginLinks(conf: int, limit: nat, m: Quota.Month, w: World, q: Quota.State, a: Action)
    requires Linked(w, q) && a.Begin? && View(w, a).Some? && AsksOutput(w, a.call)
    ensures var w' := Step(conf, w, a);
            NearlyLinked(w', Seen(limit, m, q, View(w, a)), a.call, !Over(w, a.call) && Over(w', a.call))
  {
    StepIsOfOneCall(conf, w, a);
    assert Quota.Remaining(q.flights, a.call) == Expected(w, a.call);
  }

  /** Usage is recorded exactly by an answer, and an answer ends the call. */
  lemma AnswersCarryUsage(response: Response, inputBytes: nat, deadline: int, now: int, i: nat, k: nat, settled: bool,
                          backoff: nat)
    ensures var s := SettlementOf(response, inputBytes);
            var ctl := Course(deadline, now, i, k, response, settled, backoff);
            && (s.inputTokens.None? && s.outputTokens.None? <==> !response.Answer?)
            && (response.Answer? ==> ctl.Returned? || ctl.Raised?)
            && (Flying(ctl) || ctl.Returned? || ctl.Raised?)
  {
  }

  lemma SettleLinks(conf: int, limit: nat, m: Quota.Month, w: World, q: Quota.State, a: Action)
    requires Linked(w, q) && a.Settle? && View(w, a).Some? && AsksOutput(w, a.call)
    requires w.ledger.rows[NewestSend(w.calls[a.call]).row].request == a.call
    ensures var w' := Step(conf, w, a);
            NearlyLinked(w', Seen(limit, m, q, View(w, a)), a.call, !Over(w, a.call) && Over(w', a.call))
  {
    var c, call := a.call, w.calls[a.call];
    var response := NewestSend(call).response.value;
    StepIsOfOneCall(conf, w, a);
    SettlingShape(w, c, a.result, a.backoff);
    AnswersCarryUsage(response, call.inputBytes, call.deadline, w.now, call.ctl.index, call.ctl.retry,
                      a.result.Acknowledged?, a.backoff);
    forall d: nat
      ensures Quota.Remaining(Quota.Landed(q.flights, c), d) == if d == c then 0 else Expected(w, d)
    {
      Quota.RemainingLanded(q.flights, c, d);
    }
  }

  /** A step the quota machine sees. */
  lemma SeenStepLinks(conf: int, limit: nat, m: Quota.Month, w: World, q: Quota.State, a: Action)
    requires Safe(conf)(w) && Linked(w, q) && Governed(limit, m, w, a) && !a.Tick? && AsksOutput(w, a.call)
             && View(w, a).Some?
    ensures var w' := Step(conf, w, a);
            NearlyLinked(w', Seen(limit, m, q, View(w, a)), a.call, !Over(w, a.call) && Over(w', a.call))
  {
    if a.Resolve? {
      ResolveLinks(conf, limit, m, w, q, a);
    } else if a.Admit? {
      AdmitLinks(conf, limit, m, w, q, a);
    } else if a.Begin? {
      BeginLinks(conf, limit, m, w, q, a);
    } else {
      NewestRowIsOwn(conf, w, a.call);
      SettleLinks(conf, limit, m, w, q, a);
    }
  }

  lemma NewestRowIsOwn(conf: int, w: World, c: nat)
    requires Safe(conf)(w) && CanSettle(w, c)
    ensures w.ledger.rows[NewestSend(w.calls[c]).row].request == c
  {
    assert CallInv(conf, w, c);
  }

  lemma StepLinks(conf: int, limit: nat, m: Quota.Month, w: World, q: Quota.State, a: Action)
    requires Safe(conf)(w) && Linked(w, q) && Governed(limit, m, w, a) && !a.Tick? && AsksOutput(w, a.call)
    ensures Linked(Step(conf, w, a), Shadow(conf, limit, m, w, q, a))
  {
    var w', c := Step(conf, w, a), a.call;
    if View(w, a).None? {
      StepIsOfOneCall(conf, w, a);
      UnseenSteps(conf, w, a);
      UnseenStep(w, w', q, c);
    } else {
      SeenStepLinks(conf, limit, m, w, q, a);
    }
    Leaves(limit, m, w', Seen(limit, m, q, View(w, a)), c, !Over(w, c) && Over(w', c));
  }

  // --- one flight a call --------------------------------------------------------------------------------

  predicate PastAdmission(w: World, c: nat)
  {
    c in w.calls && !w.calls[c].ctl.Arrived? && !w.calls[c].ctl.ClockRead? && !w.calls[c].ctl.Admitting?
  }

  /** Every flight is of a call past its admission, no two of one call. */
  ghost predicate OneFlightEach(w: World, flights: seq<Quota.Flight>)
  {
    && (forall i :: 0 <= i < |flights| ==> PastAdmission(w, flights[i].request))
    && (forall i, j :: 0 <= i < j < |flights| ==> flights[i].request != flights[j].request)
  }

  lemma OwnStepGoesOn(conf: int, now: int, call: Call, a: Action)
    requires !call.ctl.Arrived? && !call.ctl.ClockRead? && !call.ctl.Admitting?
    ensures var ctl := OwnStep(conf, now, call, a).ctl; !ctl.Arrived? && !ctl.ClockRead? && !ctl.Admitting?
  {
  }

  lemma SharedStepGoesOn(conf: int, w: World, a: Action)
    requires (a.Arrive? || a.Settle? || a.Resolve? || a.Begin?) && PastAdmission(w, a.call)
    ensures PastAdmission(Step(conf, w, a), a.call)
  {
  }

  lemma NobodyReturnsToAdmission(conf: int, w: World, a: Action, c: nat)
    requires PastAdmission(w, c)
    ensures PastAdmission(Step(conf, w, a), c)
  {
    if !a.Tick? {
      StepIsOfOneCall(conf, w, a);
      if a.Arrive? || a.Settle? || a.Resolve? || a.Begin? {
        if c == a.call {
          SharedStepGoesOn(conf, w, a);
        }
      } else if c == a.call {
        OwnStepGoesOn(conf, w.now, w.calls[c], a);
      }
    }
  }

  /** A step of the quota machine leaves the flights, lands one or adds one. */
  lemma StepFlights(limit: nat, m: Quota.Month, q: Quota.State, a: Quota.Action) returns (landing: nat)
    ensures var q' := Quota.Step(limit, m, q, a);
            || q'.flights == q.flights
            || q'.flights == Quota.Landed(q.flights, landing)
            || (a.Check? && q'.flights == q.flights + [Quota.Flight(a.request, Projection(a.inputBytes,
                                                                                          a.maxOutputTokens))])
  {
    landing := if a.Settle? && a.row < |q.ledger.rows| then q.ledger.rows[a.row].request
    else if a.Leave? then a.request else 0;
  }

  lemma OnlyAdmissionChecks(w: World, a: Action)
    requires View(w, a).Some? && View(w, a).value.Check?
    ensures a.Admit? && a.call in w.calls && w.calls[a.call].ctl.Admitting? && a.admitted
    ensures View(w, a).value == Quota.Check(a.call, w.calls[a.call].inputBytes, w.calls[a.call].ask.maxOutputTokens)
  {
  }

  lemma LandingKeepsOneEach(w: World, flights: seq<Quota.Flight>, c: nat)
    requires OneFlightEach(w, flights)
    ensures OneFlightEach(w, Quota.Landed(flights, c))
  {
    Quota.LandedKeepsRequests(flights, c);
  }

  lemma AdmissionKeepsOneEach(conf: int, w: World, flights: seq<Quota.Flight>, a: Action)
    requires OneFlightEach(w, flights) && a.Admit? && a.call in w.calls && w.calls[a.call].ctl.Admitting? && a.admitted
    ensures OneFlightEach(Step(conf, w, a), flights + [Quota.Flight(a.call, ProjectionOf(w.calls[a.call]))])
  {
    StepKeepsOneEach(conf, w, flights, a);
  }

  lemma StepKeepsOneEach(conf: int, w: World, flights: seq<Quota.Flight>, a: Action)
    requires OneFlightEach(w, flights)
    ensures OneFlightEach(Step(conf, w, a), flights)
  {
    forall i | 0 <= i < |flights|
      ensures PastAdmission(Step(conf, w, a), flights[i].request)
    {
      NobodyReturnsToAdmission(conf, w, a, flights[i].request);
    }
  }

  lemma SeenKeepsOneEach(conf: int, limit: nat, m: Quota.Month, w: World, q: Quota.State, a: Action)
    requires OneFlightEach(w, q.flights)
    ensures OneFlightEach(Step(conf, w, a), Seen(limit, m, q, View(w, a)).flights)
  {
    StepKeepsOneEach(conf, w, q.flights, a);
    if View(w, a).Some? {
      var landing := StepFlights(limit, m, q, View(w, a).value);
      LandingKeepsOneEach(Step(conf, w, a), q.flights, landing);
      if View(w, a).value.Check? {
        OnlyAdmissionChecks(w, a);
        AdmissionKeepsOneEach(conf, w, q.flights, a);
      }
    }
  }

  lemma ShadowKeepsOneEach(conf: int, limit: nat, m: Quota.Month, w: World, q: Quota.State, a: Action)
    requires OneFlightEach(w, q.flights)
    ensures OneFlightEach(Step(conf, w, a), Shadow(conf, limit, m, w, q, a).flights)
  {
    SeenKeepsOneEach(conf, limit, m, w, q, a);
    if !a.Tick? {
      LandingKeepsOneEach(Step(conf, w, a), Seen(limit, m, q, View(w, a)).flights, a.call);
    }
  }

  /** Flights of distinct requests sum to what the requests may record. */
  lemma {:induction false} PendingIsSum(flights: seq<Quota.Flight>, f: nat -> int, cs: set<nat>)
    requires forall i :: 0 <= i < |flights| ==> flights[i].request in cs
    requires forall i, j :: 0 <= i < j < |flights| ==> flights[i].request != flights[j].request
    requires forall c :: c in cs ==> f(c) == Quota.Remaining(flights, c)
    ensures Quota.Pending(flights) == SumOver(f, cs)
  {
    if flights == [] {
      SumOfZeros(f, cs);
    } else {
      var init, last := flights[..|flights| - 1], flights[|flights| - 1];
      SumWithout(f, cs, last.request);
      PendingIsSum(init, f, cs - {last.request});
    }
  }

  /** What the shadow counts as pending is what the calls may still record. */
  lemma PendingIsInFlight(w: World, q: Quota.State)
    requires Linked(w, q) && OneFlightEach(w, q.flights)
    ensures Quota.Pending(q.flights) == InFlight(w)
  {
    PendingIsSum(q.flights, (c: nat) => Expected(w, c), w.calls.Keys);
  }

  // --- governed runs ------------------------------------------------------------------------------------

  datatype Pair = Pair(world: World, quota: Quota.State)

  /** What a settlement reports stays within what its call was projected to use. */
  predicate Modest(w: World, a: Action)
  {
    a.Settle? && CanSettle(w, a.call) ==>
      var call := w.calls[a.call];
      var s := SettlementOf(NewestSend(call).response.value, call.inputBytes);
      (if s.inputTokens.Some? then s.inputTokens.value else 0)
        + (if s.outputTokens.Some? then s.outputTokens.value else 0)
      <= ProjectionOf(call)
  }

  function After(conf: int, limit: nat, m: Quota.Month, p: Pair, a: Action): (r: Pair)
  {
    Pair(Step(conf, p.world, a), Shadow(conf, limit, m, p.world, p.quota, a))
  }

  /** `modest`: and no answer reports more than its call was projected to use. */
  predicate Allowed(limit: nat, m: Quota.Month, modest: bool, w: World, a: Action)
  {
    Governed(limit, m, w, a) && (modest ==> Modest(w, a))
  }

  predicate Admits(w: World, a: Action)
  {
    a.Admit? && a.call in w.calls && w.calls[a.call].ctl.Admitting? && a.admitted
  }

  ghost predicate IsGovernedStep(conf: int, limit: nat, m: Quota.Month, modest: bool, p: Pair, p': Pair)
  {
    exists a :: Allowed(limit, m, modest, p.world, a) && p' == After(conf, limit, m, p, a)
  }

  ghost function GovernedMoves(conf: int, limit: nat, m: Quota.Month, modest: bool): (r: (Pair, Pair) -> bool)
  {
    (p: Pair, p': Pair) => IsGovernedStep(conf, limit, m, modest, p, p')
  }

  function Opening(limit: nat, m: Quota.Month, now: int): (r: Pair)
  {
    Pair(Start(now), Quota.Opening(limit, m, Ledger([], [])))
  }

  /** Some governed interleaving leads to `p`. */
  ghost predicate GovernedReach(conf: int, limit: nat, m: Quota.Month, modest: bool, now: int, p: Pair)
  {
    Reaches(GovernedMoves(conf, limit, m, modest), Opening(limit, m, now), p)
  }

  /** `q` is reached by a run of the quota machine. */
  ghost predicate IsQuotaRun(limit: nat, m: Quota.Month, q: Quota.State)
  {
    exists actions :: Run(Quota.Steps(limit, m), Quota.Opening(limit, m, Ledger([], [])), actions) == q
                      && forall n :: 0 <= n < |actions| ==> Quota.AsksForOutput(actions[n])
  }

  lemma QuotaRunGoesOn(limit: nat, m: Quota.Month, q: Quota.State, a: Quota.Action)
    requires IsQuotaRun(limit, m, q) && Quota.AsksForOutput(a)
    ensures IsQuotaRun(limit, m, Quota.Step(limit, m, q, a))
  {
    var start := Quota.Opening(limit, m, Ledger([], []));
    var actions :| Run(Quota.Steps(limit, m), start, actions) == q && forall n :: 0 <= n < |actions| ==>
        Quota.AsksForOutput(actions[n]);
    RunSnoc(Quota.Steps(limit, m), start, actions, a);
    assert Run(Quota.Steps(limit, m), start, actions + [a]) == Quota.Step(limit, m, q, a);
  }

  lemma ShadowIsAQuotaRun(conf: int, limit: nat, m: Quota.Month, w: World, q: Quota.State, a: Action)
    requires IsQuotaRun(limit, m, q) && (!a.Tick? ==> AsksOutput(w, a.call))
    ensures IsQuotaRun(limit, m, Shadow(conf, limit, m, w, q, a))
  {
    var q1 := Seen(limit, m, q, View(w, a));
    if View(w, a).Some? {
      QuotaRunGoesOn(limit, m, q, View(w, a).value);
    }
    if !a.Tick? {
      QuotaRunGoesOn(limit, m, q1, Quota.Leave(a.call));
    }
  }

  ghost predicate AllAskOutput(w: World)
  {
    forall c :: c in w.calls ==> AsksOutput(w, c)
  }

  lemma StepAsksOutput(conf: int, limit: nat, m: Quota.Month, w: World, a: Action)
    requires AllAskOutput(w) && Governed(limit, m, w, a)
    ensures AllAskOutput(Step(conf, w, a))
  {
    if !a.Tick? {
      StepIsOfOneCall(conf, w, a);
      var w' := Step(conf, w, a);
      forall c | c in w'.calls
        ensures AsksOutput(w', c)
      {
        assert c in w.calls ==> AsksOutput(w, c);
        if c !in w.calls {
          assert c == a.call;
          NewCallAsks(conf, w, a);
        }
      }
    }
  }

  lemma NewCallAsks(conf: int, w: World, a: Action)
    requires !a.Tick? && a.call !in w.calls && a.call in Step(conf, w, a).calls
    ensures a.Arrive? && Step(conf, w, a).calls[a.call].ask == a.ask
  {
  }

  ghost predicate PairInv(conf: int, limit: nat, m: Quota.Month, now: int, p: Pair)
  {
    && Safe(conf)(p.world) && Leads(conf, Start(now), p.world)
    && AllAskOutput(p.world) && Linked(p.world, p.quota) && IsQuotaRun(limit, m, p.quota)
    && OneFlightEach(p.world, p.quota.flights)
  }

  lemma GovernedStepKeepsPair(conf: int, limit: nat, m: Quota.Month, now: int, p: Pair, a: Action)
    requires PairInv(conf, limit, m, now, p) && Governed(limit, m, p.world, a)
    ensures PairInv(conf, limit, m, now, After(conf, limit, m, p, a))
  {
    StepKeepsInv(conf, p.world, a);
    LeadsOneStep(conf, Start(now), p.world, a);
    StepAsksOutput(conf, limit, m, p.world, a);
    assert !a.Tick? ==> AsksOutput(p.world, a.call);
    ShadowIsAQuotaRun(conf, limit, m, p.world, p.quota, a);
    ShadowKeepsOneEach(conf, limit, m, p.world, p.quota, a);
    if !a.Tick? {
      StepLinks(conf, limit, m, p.world, p.quota, a);
    } else {
      TickLinks(conf, p.world, p.quota, a);
    }
  }

  lemma TickLinks(conf: int, w: World, q: Quota.State, a: Action)
    requires Linked(w, q) && a.Tick?
    ensures Linked(Step(conf, w, a), q)
  {
    forall c: nat
      ensures Expected(Step(conf, w, a), c) == Expected(w, c)
    {
    }
  }

  lemma OpeningPair(conf: int, limit: nat, m: Quota.Month, now: int)
    ensures PairInv(conf, limit, m, now, Opening(limit, m, now))
  {
    ReachesItself(Moves(conf), Start(now));
    assert Reachable(conf, Start(now));
    ReachableKeepsInv(conf, Start(now));
    var none: seq<Quota.Action> := [];
    assert Run(Quota.Steps(limit, m), Quota.Opening(limit, m, Ledger([], [])), none) == Opening(limit, m, now).quota;
  }

  lemma {:induction false} RemainingOfEach(flights: seq<Quota.Flight>, k: nat)
    requires k < |flights| && forall i, j :: 0 <= i < j < |flights| ==> flights[i].request != flights[j].request
    ensures Quota.Remaining(flights, flights[k].request) == flights[k].remaining
  {
    if k < |flights| - 1 {
      RemainingOfEach(flights[..|flights| - 1], k);
    }
  }

  /** Every governed interleaving of inference calls is an interleaving of the
      calls, and beside it a run of the quota machine sees the same ledger; its
      flights are of distinct calls past their admission, each with what that
      call may still record, and no other call may record anything. */
  lemma GovernedRunsAreQuotaRuns(conf: int, limit: nat, m: Quota.Month, modest: bool, now: int, p: Pair)
    requires GovernedReach(conf, limit, m, modest, now, p)
    ensures Leads(conf, Start(now), p.world) && Linked(p.world, p.quota) && IsQuotaRun(limit, m, p.quota)
    ensures OneFlightEach(p.world, p.quota.flights) && Quota.Pending(p.quota.flights) == InFlight(p.world)
    ensures forall k :: 0 <= k < |p.quota.flights| ==>
              p.quota.flights[k].remaining == Expected(p.world, p.quota.flights[k].request)
  {
    GovernedPairInv(conf, limit, m, modest, now, p);
    PendingIsInFlight(p.world, p.quota);
    forall k | 0 <= k < |p.quota.flights|
      ensures p.quota.flights[k].remaining == Expected(p.world, p.quota.flights[k].request)
    {
      RemainingOfEach(p.quota.flights, k);
    }
  }

  lemma GovernedPairInv(conf: int, limit: nat, m: Quota.Month, modest: bool, now: int, p: Pair)
    requires GovernedReach(conf, limit, m, modest, now, p)
    ensures PairInv(conf, limit, m, now, p)
  {
    var inv := (x: Pair) => PairInv(conf, limit, m, now, x);
    var moves := GovernedMoves(conf, limit, m, modest);
    OpeningPair(conf, limit, m, now);
    forall x, y | inv(x) && moves(x, y)
      ensures inv(y)
    {
      var a :| Allowed(limit, m, modest, x.world, a) && y == After(conf, limit, m, x, a);
      GovernedStepKeepsPair(conf, limit, m, now, x, a);
    }
    StaysTrue(moves, Opening(limit, m, now), p, inv);
  }

  lemma QuotaRunIsBounded(limit: nat, m: Quota.Month, q: Quota.State)
    requires IsQuotaRun(limit, m, q)
    ensures Quota.Inv(limit, m, q) && Quota.Pending(q.flights) >= 0
  {
    var l := Ledger([], []);
    var actions :| Run(Quota.Steps(limit, m), Quota.Opening(limit, m, l), actions) == q
                   && forall n :: 0 <= n < |actions| ==> Quota.AsksForOutput(actions[n]);
    Quota.RecordedPlusPendingIsBounded(limit, m, l, actions);
    Quota.FlightsAreNonNegative(limit, m, Quota.Opening(limit, m, l), actions);
    Quota.PendingIsNonNegative(q.flights);
  }

  // --- what the overlap is, and the bound ----------------------------------------------------------------

  /** An admission remembers what the calls in flight may still record; no other
      step changes the overlap. */
  lemma OverlapIsSetAtAdmission(conf: int, limit: nat, m: Quota.Month, modest: bool, now: int, p: Pair, a: Action)
    requires GovernedReach(conf, limit, m, modest, now, p) && Governed(limit, m, p.world, a)
    ensures After(conf, limit, m, p, a).quota.overlap
         == if Admits(p.world, a) then InFlight(p.world) else p.quota.overlap
  {
    GovernedPairInv(conf, limit, m, modest, now, p);
    ShadowOverlap(conf, limit, m, p.world, p.quota, a);
    PendingIsInFlight(p.world, p.quota);
  }

  lemma ShadowOverlap(conf: int, limit: nat, m: Quota.Month, w: World, q: Quota.State, a: Action)
    requires Linked(w, q) && Governed(limit, m, w, a)
    ensures Shadow(conf, limit, m, w, q, a).overlap == if Admits(w, a) then Quota.Pending(q.flights) else q.overlap
  {
  }

  lemma ModestSettlement(m: Quota.Month, q: Quota.State, row: nat, s: Settlement, at: int, projection: int)
    requires Quota.Unrecorded(q.ledger) && row < |q.ledger.rows|
    requires Quota.Remaining(q.flights, q.ledger.rows[row].request) == projection >= 0
    requires (if s.inputTokens.Some? then s.inputTokens.value else 0)
             + (if s.outputTokens.Some? then s.outputTokens.value else 0)
             <= projection
    ensures Quota.SettleStep(m, q, row, s, at).excess == q.excess
  {
    if q.ledger.rows[row].state == Started {
      SettleAddsItsTokens(q.ledger.rows, row, s, at, m.since, m.until);
    }
  }

  /** Only a settlement adds to the excess. */
  lemma ShadowExcess(conf: int, limit: nat, m: Quota.Month, w: World, q: Quota.State, a: Action)
    requires q.excess == 0
    ensures Shadow(conf, limit, m, w, q, a).excess == if a.Settle?
            then Seen(limit, m, q, SettleView(w, a.call, a.result)).excess else 0
  {
  }

  lemma ModestSettleStep(conf: int, limit: nat, m: Quota.Month, w: World, q: Quota.State, c: nat, result: WriteResult)
    requires Safe(conf)(w) && Linked(w, q) && Quota.Unrecorded(q.ledger) && AsksOutput(w, c) && q.excess == 0
    requires CanSettle(w, c) && !result.NotCommitted? && Modest(w, Settle(c, result, 0))
    ensures Seen(limit, m, q, SettleView(w, c, result)).excess == 0
  {
    var call := w.calls[c];
    NewestRowIsOwn(conf, w, c);
    assert Quota.Remaining(q.flights, c) == Expected(w, c) == ProjectionOf(call);
    ModestSettlement(m, q, NewestSend(call).row, SettlementOf(NewestSend(call).response.value, call.inputBytes),
                     w.now, ProjectionOf(call));
  }

  lemma ModestStepAddsNoExcess(conf: int, limit: nat, m: Quota.Month, now: int, p: Pair, a: Action)
    requires PairInv(conf, limit, m, now, p) && Modest(p.world, a) && p.quota.excess == 0
    ensures Shadow(conf, limit, m, p.world, p.quota, a).excess == 0
  {
    ShadowExcess(conf, limit, m, p.world, p.quota, a);
    if a.Settle? && CanSettle(p.world, a.call) && !a.result.NotCommitted? {
      QuotaRunIsBounded(limit, m, p.quota);
      assert AsksOutput(p.world, a.call);
      ModestSettleStep(conf, limit, m, p.world, p.quota, a.call, a.result);
    }
  }

  /** On every governed interleaving: what the month has recorded, plus what the
      calls in flight may still record, stays within the limit, the overlap at
      the newest admission, and what was recorded beyond its projection. */
  lemma LedgerStaysWithinQuota(conf: int, limit: nat, m: Quota.Month, modest: bool, now: int, p: Pair)
    requires GovernedReach(conf, limit, m, modest, now, p)
    ensures Quota.Used(m, p.world.ledger) + InFlight(p.world) <= limit + p.quota.overlap + p.quota.excess
    ensures InFlight(p.world) >= 0
  {
    GovernedPairInv(conf, limit, m, modest, now, p);
    PendingIsInFlight(p.world, p.quota);
    QuotaRunIsBounded(limit, m, p.quota);
  }

  /** With modest answers nothing is recorded beyond its projection. */
  lemma ModestRunsHaveNoExcess(conf: int, limit: nat, m: Quota.Month, now: int, p: Pair)
    requires GovernedReach(conf, limit, m, true, now, p)
    ensures p.quota.excess == 0
  {
    var modest := (x: Pair) => PairInv(conf, limit, m, now, x) && x.quota.excess == 0;
    var moves := GovernedMoves(conf, limit, m, true);
    OpeningPair(conf, limit, m, now);
    forall x, y | modest(x) && moves(x, y)
      ensures modest(y)
    {
      var a :| Allowed(limit, m, true, x.world, a) && y == After(conf, limit, m, x, a);
      GovernedStepKeepsPair(conf, limit, m, now, x, a);
      ModestStepAddsNoExcess(conf, limit, m, now, x, a);
    }
    StaysTrue(moves, Opening(limit, m, now), p, modest);
  }

  // --- the newest admission ---------------------------------------------------------------------------

  ghost predicate IsQuietStep(conf: int, limit: nat, m: Quota.Month, modest: bool, p: Pair, p': Pair)
  {
    exists a :: Allowed(limit, m, modest, p.world, a) && !Admits(p.world, a) && p' == After(conf, limit, m, p, a)
  }

  ghost function QuietMoves(conf: int, limit: nat, m: Quota.Month, modest: bool): (r: (Pair, Pair) -> bool)
  {
    (p: Pair, p': Pair) => IsQuietStep(conf, limit, m, modest, p, p')
  }

  /** `p0` is reached, `a` admits a call there, and nobody is admitted from then
      until `p`. */
  ghost predicate AdmittedLast(conf: int, limit: nat, m: Quota.Month, modest: bool, now: int, p0: Pair, a: Action,
                               p: Pair)
  {
    && GovernedReach(conf, limit, m, modest, now, p0) && Allowed(limit, m, modest, p0.world, a) && Admits(p0.world, a)
    && Reaches(QuietMoves(conf, limit, m, modest), After(conf, limit, m, p0, a), p)
  }

  /** The overlap is what the calls in flight could record at the newest admission. */
  ghost predicate OverlapIsOfNewest(conf: int, limit: nat, m: Quota.Month, modest: bool, now: int, p: Pair)
  {
    || p.quota.overlap == 0
    || exists p0, a :: AdmittedLast(conf, limit, m, modest, now, p0, a, p) && p.quota.overlap == InFlight(p0.world)
  }

  lemma QuietStepKeepsNewest(conf: int, limit: nat, m: Quota.Month, modest: bool, now: int, p0: Pair, b: Action,
                             p: Pair, a: Action)
    requires AdmittedLast(conf, limit, m, modest, now, p0, b, p)
    requires Allowed(limit, m, modest, p.world, a) && !Admits(p.world, a)
    ensures AdmittedLast(conf, limit, m, modest, now, p0, b, After(conf, limit, m, p, a))
  {
    var quiet := QuietMoves(conf, limit, m, modest);
    assert IsQuietStep(conf, limit, m, modest, p, After(conf, limit, m, p, a));
    ReachesNext(quiet, After(conf, limit, m, p0, b), p, After(conf, limit, m, p, a));
  }

  lemma StepKeepsNewest(conf: int, limit: nat, m: Quota.Month, modest: bool, now: int, p: Pair, a: Action)
    requires GovernedReach(conf, limit, m, modest, now, p) && OverlapIsOfNewest(conf, limit, m, modest, now, p)
    requires Allowed(limit, m, modest, p.world, a)
    ensures OverlapIsOfNewest(conf, limit, m, modest, now, After(conf, limit, m, p, a))
  {
    var p' := After(conf, limit, m, p, a);
    OverlapIsSetAtAdmission(conf, limit, m, modest, now, p, a);
    if Admits(p.world, a) {
      ReachesItself(QuietMoves(conf, limit, m, modest), p');
      assert AdmittedLast(conf, limit, m, modest, now, p, a, p');
    } else if p.quota.overlap != 0 {
      var p0, b :| AdmittedLast(conf, limit, m, modest, now, p0, b, p) && p.quota.overlap == InFlight(p0.world);
      QuietStepKeepsNewest(conf, limit, m, modest, now, p0, b, p, a);
    }
  }

  lemma NewestAlongGovernedRuns(conf: int, limit: nat, m: Quota.Month, modest: bool, now: int, p: Pair)
    requires GovernedReach(conf, limit, m, modest, now, p)
    ensures OverlapIsOfNewest(conf, limit, m, modest, now, p)
  {
    var start, moves := Opening(limit, m, now), GovernedMoves(conf, limit, m, modest);
    var newest := (x: Pair) =>
      GovernedReach(conf, limit, m, modest, now, x) && OverlapIsOfNewest(conf, limit, m, modest, now, x);
    ReachesItself(moves, start);
    OpeningHasNoOverlap(limit, m, now);
    forall x, y | newest(x) && moves(x, y)
      ensures newest(y)
    {
      var a :| Allowed(limit, m, modest, x.world, a) && y == After(conf, limit, m, x, a);
      StepKeepsNewest(conf, limit, m, modest, now, x, a);
      ReachesNext(moves, start, x, y);
    }
    StaysTrue(moves, start, p, newest);
  }

  lemma OpeningHasNoOverlap(limit: nat, m: Quota.Month, now: int)
    ensures Opening(limit, m, now).quota.overlap == 0
  {
  }

  /** If no answer reports more than its call was projected to use, the ledger
      exceeds the limit by at most what the calls in flight could still record
      when the newest call was admitted. */
  lemma ModestCallsOvershootByOverlap(conf: int, limit: nat, m: Quota.Month, now: int, p: Pair)
    requires GovernedReach(conf, limit, m, true, now, p)
    ensures var used := Quota.Used(m, p.world.ledger);
            || used <= limit
            || exists p0, a :: AdmittedLast(conf, limit, m, true, now, p0, a, p) && used <= limit + InFlight(p0.world)
  {
    LedgerStaysWithinQuota(conf, limit, m, true, now, p);
    ModestRunsHaveNoExcess(conf, limit, m, now, p);
    NewestAlongGovernedRuns(conf, limit, m, true, now, p);
  }
}
