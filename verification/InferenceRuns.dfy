/**
  Every interleaving of any number of inference calls in one tenant
  (saas_os/control_plane/inference/service.py: the step order of
  `run_inference`, `_resolve`, `_begin_attempt`, `_attempt_all`, `_settle`).

  A call is a small program; each of its steps is one await or one committed
  transaction. Configuration, grants and trust entries may be anything at
  each step: a step that reads them carries what it read. One clock, whole
  milliseconds; a call that never acts again was killed.
 */
module InferenceRuns {
  import opened Common
  import opened Traces
  import opened Eligibility
  import opened InferenceLedger

  datatype Category =
    | InvalidRequest | UnsupportedFeature | ProviderAuth | RateLimited | ProviderQuotaExhausted
    | ProviderOverloaded | ProviderError | TransientPreAcceptance | Timeout | EndpointSecurity
    | ResponseTooLarge | MalformedResponse

  predicate Retryable(c: Category)
  {
    c.RateLimited? || c.ProviderOverloaded? || c.TransientPreAcceptance? || c.ProviderError?
  }

  predicate NeverFallback(c: Category)
  {
    c.ProviderAuth? || c.EndpointSecurity? || c.InvalidRequest? || c.ResponseTooLarge? || c.MalformedResponse?
      || c.Timeout?
  }

  const MAX_RETRIES := 2
  const ABANDON_MARGIN := 300_000

  /** How the adapter's exchange ended. */
  datatype Response =
    | Answer(input: Option<int>, output: Option<int>, textBytes: nat)
    | Failure(category: Category, possiblyAccepted: bool, retryAfter: Option<int>)
    | ConfigurationFault
    | AdapterBug
    | Cancelled

  /** The only outcome after which the call may send again. */
  predicate MayContinue(r: Response)
  {
    r.Failure? && !r.possiblyAccepted && !NeverFallback(r.category)
  }

  datatype Error =
    | NotAuthorized | Refused(refusal: Refusal) | NotAdmitted | DestinationNoLongerEligible | DestinationChanged
    | AttemptNotRecorded | CircuitOpen | ProtocolUnsupported | CredentialUnavailable | DeadlineExpired
    | NoDestinationSucceeded | SettlementFailed | Internal | CallCancelled
    | Provider(category: Category, possiblyAccepted: bool)

  datatype Ctl =
    | Arrived
    | ClockRead
    | Admitting
    | AtCandidate(index: nat)
    | AtAttempt(index: nat, retry: nat)
    | Cleared(index: nat, retry: nat)
    | Sending(index: nat, retry: nat)
    | Awaiting(index: nat, retry: nat)
    | Settling(index: nat, retry: nat)
    | Sleeping(index: nat, retry: nat, until: int)
    | Returned
    | Raised(error: Error)

  /** One request that left for a provider. */
  datatype Sent = Sent(row: nat, number: nat, destination: Candidate, at: int, response: Option<Response>)

  datatype Call = Call(
    arrivedAt: int,
    deadline: int,
    ask: Ask,
    caps: AdapterCapabilities,
    inputBytes: nat,
    abandonBefore: int,
    candidates: seq<Candidate>,
    ctl: Ctl,
    number: nat,
    clearedAt: int,
    lastError: Option<Error>,
    rows: seq<nat>,
    sends: seq<Sent>)

  /** What the transaction that inserted a row had read. */
  datatype Evidence = Evidence(clearedAt: int, authorized: bool, snapshot: Snapshot)

  datatype World = World(now: int, ledger: Ledger, evidence: seq<Evidence>, calls: map<nat, Call>)

  datatype Credential = Available | Missing | Unreadable

  datatype Action =
    | Tick(ms: nat)
    | Arrive(call: nat, total: int, ask: Ask, caps: AdapterCapabilities, inputBytes: nat)
    | ReadClock(call: nat)
    | Resolve(call: nat, authorized: bool, snapshot: Snapshot)
    | Admit(call: nat, admitted: bool)
    | TryCandidate(call: nat, circuitOpen: bool, hasAdapter: bool, credential: Credential)
    | CheckDeadline(call: nat)
    | Begin(call: nat, authorized: bool, snapshot: Snapshot, result: WriteResult)
    | Send(call: nat)
    | Respond(call: nat, response: Response)
    | Settle(call: nat, result: WriteResult, backoff: nat)
    | Wake(call: nat)

  // --- steps -----------------------------------------------------------------------

  function SetCall(w: World, c: nat, call: Call): (r: World)
  {
    w.(calls := w.calls[c := call])
  }

  function Fail(w: World, c: nat, e: Error): (r: World)
    requires c in w.calls
  {
    SetCall(w, c, w.calls[c].(ctl := Raised(e)))
  }

  function OrElse(last: Option<Error>, e: Error): (r: Error)
  {
    if last.Some? then last.value else e
  }

  function NewCall(now: int, total: int, ask: Ask, caps: AdapterCapabilities, bytes: nat): (r: Call)
  {
    Call(now, now + total, ask, caps, bytes, 0, [], Arrived, 0, 0, None, [], [])
  }

  function ArriveStep(conf: int, w: World, c: nat, total: int, ask: Ask, caps: AdapterCapabilities,
                      bytes: nat): (r: World)
  {
    if c in w.calls || !(0 < total <= conf) then w
    else SetCall(w, c, NewCall(w.now, total, ask, caps, bytes))
  }

  /** Measured from the installation's deadline, never the request's own. */
  function ReadClockCall(conf: int, now: int, call: Call): (r: Call)
  {
    if call.ctl.Arrived? then call.(ctl := ClockRead, abandonBefore := now - (conf + ABANDON_MARGIN)) else call
  }

  /** `_resolve`: authorize and sweep in one transaction, then evaluate. */
  function ResolveStep(w: World, c: nat, authorized: bool, s: Snapshot): (r: World)
  {
    if c !in w.calls || !w.calls[c].ctl.ClockRead? then w
    else if !authorized then Fail(w, c, NotAuthorized)
    else
      var call := w.calls[c];
      var swept := w.(ledger := Swept(w.ledger, call.abandonBefore, w.now));
      var found := Evaluated(s, call.ask, call.caps);
      if found.Err? then Fail(swept, c, Error.Refused(found.error))
      else SetCall(swept, c, call.(candidates := found.value, ctl := Admitting))
  }

  /** Entitlement, token quota and concurrency slot, between `_resolve` and the
      attempts. */
  function AdmitCall(call: Call, admitted: bool): (r: Call)
  {
    if !call.ctl.Admitting? then call
    else call.(ctl := if admitted then AtCandidate(0) else Raised(NotAdmitted))
  }

  function TryCandidateCall(call: Call, circuitOpen: bool, hasAdapter: bool, credential: Credential): (r: Call)
  {
    if !call.ctl.AtCandidate? then call
    else
      var i := call.ctl.index;
      if i >= |call.candidates| then call.(ctl := Raised(OrElse(call.lastError, NoDestinationSucceeded)))
      else if circuitOpen then call.(lastError := Some(CircuitOpen), ctl := AtCandidate(i + 1))
      else if !hasAdapter then call.(lastError := Some(ProtocolUnsupported), ctl := AtCandidate(i + 1))
      else if !credential.Available? then call.(ctl := Raised(CredentialUnavailable))
      else call.(ctl := AtAttempt(i, 0))
  }

  function CheckDeadlineCall(call: Call, now: int): (r: Call)
  {
    if !call.ctl.AtAttempt? then call
    else
      var i, k := call.ctl.index, call.ctl.retry;
      if k > MAX_RETRIES then call.(ctl := AtCandidate(i + 1))
      else if now >= call.deadline then call.(ctl := Raised(OrElse(call.lastError, DeadlineExpired)))
      else call.(ctl := Cleared(i, k), number := call.number + 1, clearedAt := now)
  }

  function SendCall(call: Call, now: int): (r: Call)
  {
    if !call.ctl.Sending? || call.rows == [] || call.ctl.index >= |call.candidates| then call
    else
      var i, k := call.ctl.index, call.ctl.retry;
      var row := call.rows[|call.rows| - 1];
      call.(ctl := Awaiting(i, k), sends := call.sends + [Sent(row, call.number, call.candidates[i], now, None)])
  }

  function RespondCall(call: Call, response: Response): (r: Call)
  {
    if !call.ctl.Awaiting? || call.sends == [] then call
    else
      var last := |call.sends| - 1;
      call.(ctl := Settling(call.ctl.index, call.ctl.retry),
            sends := call.sends[last := call.sends[last].(response := Some(response))])
  }

  function WakeCall(call: Call, now: int): (r: Call)
  {
    if !call.ctl.Sleeping? || now < call.ctl.until then call
    else call.(ctl := AtAttempt(call.ctl.index, call.ctl.retry + 1))
  }

  function FindModel(cs: seq<Candidate>, modelRef: nat): (r: Option<Candidate>)
  {
    if cs == [] then None
    else if cs[0].modelRef == modelRef then Some(cs[0])
    else FindModel(cs[1..], modelRef)
  }

  lemma {:induction false} FindModelFinds(cs: seq<Candidate>, modelRef: nat)
    ensures var r := FindModel(cs, modelRef);
            && (r.Some? ==> r.value in cs && r.value.modelRef == modelRef)
            && (r.None? ==> forall c :: c in cs ==> c.modelRef != modelRef)
  {
    if cs != [] {
      FindModelFinds(cs[1..], modelRef);
    }
  }

  /** The fields an attempt is refused over when they changed since resolution. */
  predicate SameDestination(a: Candidate, b: Candidate)
  {
    a.providerVersion == b.providerVersion && a.baseUrl == b.baseUrl
    && a.credentialRef == b.credentialRef && a.trusted == b.trusted
  }

  /** `_begin_attempt` before it writes: the destination on fresh configuration. */
  function Recheck(chosen: Candidate, authorized: bool, s: Snapshot, ask: Ask,
                   caps: AdapterCapabilities): (r: Result<Candidate, Error>)
  {
    if !authorized then Err(NotAuthorized)
    else
      var fresh' := Evaluated(s, ask, caps);
      if fresh'.Err? then Err(Error.Refused(fresh'.error))
      else
        var current := FindModel(fresh'.value, chosen.modelRef);
        if current.None? then Err(DestinationNoLongerEligible)
        else if !SameDestination(current.value, chosen) then Err(DestinationChanged)
        else Ok(current.value)
  }

  /** A new row, what its transaction had read, and its call's record. */
  function WithRow(w: World, c: nat, row: Attempt, e: Evidence, call: Call): (r: World)
  {
    SetCall(w.(ledger := Inserted(w.ledger, row), evidence := w.evidence + [e]), c, call)
  }

  function BegunCall(call: Call, id: nat, i: nat, k: nat, result: WriteResult): (r: Call)
  {
    call.(rows := call.rows + [id], ctl := if result.Acknowledged? then Sending(i, k) else Raised(AttemptNotRecorded))
  }

  /** The write at the end of `_begin_attempt`, and what the caller makes of it. */
  function CommitStep(w: World, c: nat, i: nat, k: nat, checked: Result<Candidate, Error>, e: Evidence,
                      result: WriteResult): (r: World)
    requires c in w.calls
  {
    if checked.Err? then Fail(w, c, checked.error)
    else if result.NotCommitted? then Fail(w, c, AttemptNotRecorded)
    else
      WithRow(w, c, NewAttempt(c, w.calls[c].number, checked.value, w.now), e,
              BegunCall(w.calls[c], |w.ledger.rows|, i, k, result))
  }

  function BeginStep(w: World, c: nat, authorized: bool, s: Snapshot, result: WriteResult): (r: World)
  {
    if c !in w.calls || !w.calls[c].ctl.Cleared? || w.calls[c].ctl.index >= |w.calls[c].candidates| then w
    else
      var call := w.calls[c];
      CommitStep(w, c, call.ctl.index, call.ctl.retry,
                 Recheck(call.candidates[call.ctl.index], authorized, s, call.ask, call.caps),
                 Evidence(call.clearedAt, authorized, s), result)
  }

  function SettlementOf(response: Response, inputBytes: nat): (r: Settlement)
    ensures r.state != Started && r.state != Abandoned
    ensures r.state == Succeeded <==> response.Answer?
  {
    match response
    case Answer(input, output, textBytes) => UsageSettlement(input, output, inputBytes, textBytes)
    case Failure(_, possiblyAccepted, _) => Settlement(Failed, possiblyAccepted, false, None, None, Unknown)
    case ConfigurationFault => Settlement(Failed, false, false, None, None, Unknown)
    case AdapterBug => Settlement(Failed, true, false, None, None, Unknown)
    case Cancelled => Settlement(Interrupted, true, false, None, None, Unknown)
  }

  /** Where the call goes after a provider failure whose settlement committed. */
  function FailureCourse(deadline: int, now: int, i: nat, k: nat, f: Response, backoff: nat): (r: Ctl)
    requires f.Failure?
  {
    var delay := if f.retryAfter.Some? then Max(backoff, f.retryAfter.value) else backoff;
    if f.possiblyAccepted || NeverFallback(f.category) then Raised(Provider(f.category, f.possiblyAccepted))
    else if !Retryable(f.category) then AtCandidate(i + 1)
    else if k >= MAX_RETRIES then AtAttempt(i, k + 1)
    else if delay >= Max(0, deadline - now) then AtCandidate(i + 1)
    else Sleeping(i, k, now + delay)
  }

  function Course(deadline: int, now: int, i: nat, k: nat, response: Response, settled: bool, backoff: nat): (r: Ctl)
  {
    match response
    case Answer(_, _, _) => if settled then Returned else Raised(SettlementFailed)
    case Failure(_, _, _) => if settled then FailureCourse(deadline, now, i, k, response, backoff)
      else Raised(SettlementFailed)
    case ConfigurationFault => Raised(Internal)
    case AdapterBug => Raised(Internal)
    case Cancelled => Raised(CallCancelled)
  }

  function LastError(last: Option<Error>, response: Response, settled: bool): (r: Option<Error>)
  {
    if response.Failure? && settled then Some(Provider(response.category, response.possiblyAccepted)) else last
  }

  function AfterSettlement(call: Call, now: int, i: nat, k: nat, response: Response, settled: bool,
                           backoff: nat): (r: Call)
  {
    call.(ctl := Course(call.deadline, now, i, k, response, settled, backoff),
          lastError := LastError(call.lastError, response, settled))
  }

  predicate CanSettle(w: World, c: nat)
  {
    && c in w.calls && w.calls[c].ctl.Settling? && w.calls[c].sends != []
    && var s := w.calls[c].sends[|w.calls[c].sends| - 1];
       s.response.Some? && s.row < |w.ledger.rows|
  }

  /** A settled row and its call's record. */
  function WithSettlement(w: World, c: nat, id: nat, s: Settlement, call: Call): (r: World)
    requires id < |w.ledger.rows|
  {
    SetCall(w.(ledger := Settled(w.ledger, id, s, w.now)), c, call)
  }

  function NewestSend(call: Call): (r: Sent)
    requires call.sends != []
  {
    call.sends[|call.sends| - 1]
  }

  function SettledCall(call: Call, now: int, settled: bool, backoff: nat): (r: Call)
    requires call.ctl.Settling? && call.sends != [] && NewestSend(call).response.Some?
  {
    AfterSettlement(call, now, call.ctl.index, call.ctl.retry, NewestSend(call).response.value, settled, backoff)
  }

  function SettleStep(w: World, c: nat, result: WriteResult, backoff: nat): (r: World)
  {
    if !CanSettle(w, c) then w
    else
      var call := w.calls[c];
      var after := SettledCall(call, w.now, result.Acknowledged?, backoff);
      if result.NotCommitted? then SetCall(w, c, after)
      else
        WithSettlement(w, c, NewestSend(call).row, SettlementOf(NewestSend(call).response.value, call.inputBytes),
                       after)
  }

  /** What the settling step does to the ledger and the call. */
  lemma SettlingShape(w: World, c: nat, result: WriteResult, backoff: nat)
    requires CanSettle(w, c)
    ensures var w' := SettleStep(w, c, result, backoff);
            var call, sent := w.calls[c], NewestSend(w.calls[c]);
            && w'.ledger == (if result.NotCommitted? then w.ledger
                             else Settled(w.ledger, sent.row, SettlementOf(sent.response.value, call.inputBytes),
                                          w.now))
            && w'.calls == w.calls[c := SettledCall(call, w.now, result.Acknowledged?, backoff)] && w'.now == w.now
  {
  }

  /** The steps that touch nothing but the call's own record. */
  function OwnStep(conf: int, now: int, call: Call, a: Action): (r: Call)
  {
    match a
    case ReadClock(_) => ReadClockCall(conf, now, call)
    case Admit(_, admitted) => AdmitCall(call, admitted)
    case TryCandidate(_, circuitOpen, hasAdapter, credential) => TryCandidateCall(call, circuitOpen, hasAdapter,
                                                                                  credential)
    case CheckDeadline(_) => CheckDeadlineCall(call, now)
    case Send(_) => SendCall(call, now)
    case Respond(_, response) => RespondCall(call, response)
    case Wake(_) => WakeCall(call, now)
    case _ => call
  }

  /** `conf`: the installation's configured total deadline. */
  function Step(conf: int, w: World, a: Action): (r: World)
  {
    match a
    case Tick(ms) => w.(now := w.now + ms)
    case Arrive(c, total, ask, caps, bytes) => ArriveStep(conf, w, c, total, ask, caps, bytes)
    case Resolve(c, authorized, s) => ResolveStep(w, c, authorized, s)
    case Begin(c, authorized, s, result) => BeginStep(w, c, authorized, s, result)
    case Settle(c, result, backoff) => SettleStep(w, c, result, backoff)
    case _ => if a.call in w.calls then SetCall(w, a.call, OwnStep(conf, w.now, w.calls[a.call], a)) else w
  }

  function Start(now: int): (r: World)
  {
    World(now, Ledger([], []), [], map[])
  }

  ghost predicate IsStep(conf: int, w: World, w': World)
  {
    exists a :: w' == Step(conf, w, a)
  }

  ghost function Moves(conf: int): (r: (World, World) -> bool)
  {
    (w: World, w': World) => IsStep(conf, w, w')
  }

  /** Some interleaving leads from `w` to `w'`. */
  ghost predicate Leads(conf: int, w: World, w': World)
  {
    Reaches(Moves(conf), w, w')
  }

  /** Some interleaving leads to `w` from a tenant without calls. */
  ghost predicate Reachable(conf: int, w: World)
  {
    exists now :: Leads(conf, Start(now), w)
  }

  lemma LeadsOneStep(conf: int, w: World, v: World, a: Action)
    requires Leads(conf, w, v)
    ensures Leads(conf, w, Step(conf, v, a))
  {
    assert IsStep(conf, v, Step(conf, v, a));
    ReachesNext(Moves(conf), w, v, Step(conf, v, a));
  }

  // --- what every step keeps ------------------------------------------------------------

  /** The call may still send: everything it sent was refused unprocessed. */
  predicate Progressing(ctl: Ctl)
  {
    !ctl.Settling? && !ctl.Awaiting? && !ctl.Returned? && !ctl.Raised?
  }

  /** A committed row waits for its settlement. */
  predicate Unsettled(ctl: Ctl)
  {
    ctl.Sending? || ctl.Awaiting? || ctl.Settling?
  }

  /** The newest row may be unfinished. */
  predicate RowOpen(ctl: Ctl)
  {
    Unsettled(ctl) || ctl.Raised?
  }

  /** The loop counters bound the attempt number. */
  predicate NumberInv(call: Call)
  {
    var n := |call.candidates|;
    match call.ctl
    case Arrived => call.number == 0
    case ClockRead => call.number == 0
    case Admitting => call.number == 0
    case AtCandidate(i) => i <= n && call.number <= 3 * i
    case AtAttempt(i, k) => i < n && k <= 3 && call.number <= 3 * i + k
    case Cleared(i, k) => i < n && k <= 2 && 1 <= call.number <= 3 * i + k + 1
    case Sending(i, k) => i < n && k <= 2 && call.number <= 3 * i + k + 1
    case Awaiting(i, k) => i < n && k <= 2 && call.number <= 3 * i + k + 1
    case Settling(i, k) => i < n && k <= 2 && call.number <= 3 * i + k + 1
    case Sleeping(i, k, _) => i < n && k <= 1 && call.number <= 3 * i + k + 1
    case Returned => call.number <= 3 * n
    case Raised(_) => call.number <= 3 * n
  }

  /** Attempts are numbered as they are begun. */
  predicate CountsInv(call: Call)
  {
    && (call.ctl.Cleared? ==> call.number == |call.rows| + 1)
    && (!call.ctl.Cleared? && !call.ctl.Raised? ==> call.number == |call.rows|)
    && (call.ctl.Raised? ==> |call.rows| <= call.number <= |call.rows| + 1)
    && (Unsettled(call.ctl) || call.ctl.Returned? ==> call.rows != [])
    && |call.sends| <= |call.rows|
    && (call.ctl.Sending? ==> |call.sends| == |call.rows| - 1)
    && (!call.ctl.Sending? && !call.ctl.Raised? ==> |call.sends| == |call.rows|)
  }

  ghost predicate SendsInv(call: Call)
  {
    var n := |call.sends|;
    && n <= |call.rows|
    && (forall k :: 0 <= k < n ==> call.sends[k].row == call.rows[k] && call.sends[k].number == k + 1)
    && (forall k :: 0 <= k < n - 1 ==> call.sends[k].response.Some? && MayContinue(call.sends[k].response.value))
    && (n > 0 ==>
          var last := call.sends[n - 1].response;
          && (Progressing(call.ctl) ==> last.Some? && MayContinue(last.value))
          && (call.ctl.Awaiting? ==> last.None?)
          && (call.ctl.Settling? ==> last.Some?)
          && (call.ctl.Returned? ==> last.Some? && last.value.Answer?))
  }

  predicate TimesInv(conf: int, now: int, call: Call)
  {
    && call.arrivedAt <= now && call.arrivedAt < call.deadline <= call.arrivedAt + conf
    && (!call.ctl.Arrived? ==> call.abandonBefore <= now - (conf + ABANDON_MARGIN))
    && (call.ctl.Cleared? ==> call.clearedAt < call.deadline && call.clearedAt <= now)
    && (call.ctl.Sleeping? ==> call.ctl.until < call.deadline)
  }

  /** What can be said of a call without looking at the ledger. */
  ghost predicate LocalInv(conf: int, now: int, call: Call)
  {
    NumberInv(call) && CountsInv(call) && SendsInv(call) && TimesInv(conf, now, call)
  }

  /** The request's rows are exactly `rows`, numbered from 1; only the newest
      may be unfinished, and only while `open`. */
  ghost predicate RowsInv(c: nat, rows: seq<nat>, open: bool, l: Ledger)
  {
    && (forall k :: 0 <= k < |rows| ==>
          rows[k] < |l.rows| && l.rows[rows[k]].request == c && l.rows[rows[k]].number == k + 1)
    && (forall id :: 0 <= id < |l.rows| && l.rows[id].request == c ==> id in rows)
    && (forall k :: 0 <= k < |rows| && l.rows[rows[k]].state == Started ==> k == |rows| - 1 && open)
  }

  /** The row was committed with a destination that fresh configuration allowed. */
  ghost predicate RowEvidence(w: World, id: nat)
    requires id < |w.ledger.rows| == |w.evidence|
  {
    var row := w.ledger.rows[id];
    && row.request in w.calls
    && var call := w.calls[row.request];
       var e := w.evidence[id];
       && e.authorized && e.clearedAt < call.deadline && e.clearedAt <= row.startedAt
       && call.arrivedAt <= row.startedAt <= w.now
       && Evaluated(e.snapshot, call.ask, call.caps).Ok?
       && row.destination in Evaluated(e.snapshot, call.ask, call.caps).value
       && (row.state == Abandoned ==>
             row.finishedAt.Some? && call.deadline + ABANDON_MARGIN < row.finishedAt.value <= w.now)
  }

  predicate SentAsRecorded(row: Attempt, destination: Candidate)
  {
    row.destination.modelRef == destination.modelRef && SameDestination(row.destination, destination)
  }

  ghost predicate SendEvidence(l: Ledger, now: int, s: Sent)
  {
    s.row < |l.rows| && l.rows[s.row].startedAt <= s.at <= now && SentAsRecorded(l.rows[s.row], s.destination)
  }

  /** Between commit and send the chosen destination is still the row's. */
  ghost predicate SendingEvidence(l: Ledger, call: Call)
  {
    call.ctl.Sending? && call.ctl.index < |call.candidates| && call.rows != [] ==>
      var id := call.rows[|call.rows| - 1];
      id < |l.rows| ==> SentAsRecorded(l.rows[id], call.candidates[call.ctl.index])
  }

  ghost predicate EvidenceInv(l: Ledger, now: int, call: Call)
  {
    && SendingEvidence(l, call)
    && forall k :: 0 <= k < |call.sends| ==> SendEvidence(l, now, call.sends[k])
  }

  /** The newest row waits for its settlement unless a sweep took it; output is
      returned only over a settled or swept row. */
  ghost predicate NewestRowInv(l: Ledger, call: Call)
  {
    call.rows != [] && call.rows[|call.rows| - 1] < |l.rows| ==>
      var state := l.rows[call.rows[|call.rows| - 1]].state;
      && (Unsettled(call.ctl) ==> state == Started || state == Abandoned)
      && (call.ctl.Returned? ==> state == Succeeded || state == Abandoned)
  }

  /** A call's record `call` of request `c` beside the ledger `l`. */
  ghost predicate RecordInv(conf: int, now: int, l: Ledger, c: nat, call: Call)
  {
    && NewestRowInv(l, call)
    && LocalInv(conf, now, call)
    && RowsInv(c, call.rows, RowOpen(call.ctl), l)
    && EvidenceInv(l, now, call)
  }

  ghost predicate CallInv(conf: int, w: World, c: nat)
    requires c in w.calls
  {
    RecordInv(conf, w.now, w.ledger, c, w.calls[c])
  }

  ghost predicate Inv(conf: int, w: World)
  {
    && Consistent(w.ledger)
    && |w.evidence| == |w.ledger.rows|
    && (forall id :: 0 <= id < |w.ledger.rows| ==> RowEvidence(w, id))
    && (forall c :: c in w.calls ==> CallInv(conf, w, c))
  }

  /** `Inv` as a value: a run's invariant. */
  ghost function Safe(conf: int): (r: World -> bool)
  {
    (w: World) => Inv(conf, w)
  }

  // --- frames --------------------------------------------------------------------------------

  /** What no step changes of a call. */
  predicate SameTerms(a: Call, b: Call)
  {
    a.arrivedAt == b.arrivedAt && a.deadline == b.deadline && a.ask == b.ask && a.caps == b.caps
  }

  /** A step of call `c` (-1: of the clock, or a sweep) as the other calls see it. */
  ghost predicate SeenFromOutside(w: World, w': World, c: int)
  {
    && w.now <= w'.now
    && Evolves(w.ledger, w'.ledger)
    && (forall id :: |w.ledger.rows| <= id < |w'.ledger.rows| ==> w'.ledger.rows[id].request == c)
    && (forall id :: 0 <= id < |w.ledger.rows| && w'.ledger.rows[id] != w.ledger.rows[id] ==>
          w'.ledger.rows[id].request == c || w'.ledger.rows[id].state == Abandoned)
    && w.evidence <= w'.evidence
    && w.calls.Keys <= w'.calls.Keys
    && (forall d :: d in w.calls && d != c ==> w'.calls[d] == w.calls[d])
    && (forall d :: d in w.calls && d == c ==> SameTerms(w.calls[d], w'.calls[d]))
  }

  lemma RowsFrame(l: Ledger, l': Ledger, c: nat, rows: seq<nat>, open: bool)
    requires Evolves(l, l') && RowsInv(c, rows, open, l)
    requires forall id :: |l.rows| <= id < |l'.rows| ==> l'.rows[id].request != c
    ensures RowsInv(c, rows, open, l')
  {
    forall k | 0 <= k < |rows| && l'.rows[rows[k]].state == Started
      ensures k == |rows| - 1 && open
    {
      assert l.rows[rows[k]].state == Started;
    }
  }

  lemma EvidenceFrame(l: Ledger, l': Ledger, now: int, now': int, call: Call)
    requires Evolves(l, l') && now <= now' && EvidenceInv(l, now, call)
    requires call.ctl.Sending? && call.rows != [] ==> call.rows[|call.rows| - 1] < |l.rows|
    ensures EvidenceInv(l', now', call)
  {
    forall k | 0 <= k < |call.sends|
      ensures SendEvidence(l', now', call.sends[k])
    {
      assert SendEvidence(l, now, call.sends[k]);
    }
  }

  lemma NewestRowFrame(l: Ledger, l': Ledger, c: int, d: nat, call: Call)
    requires Evolves(l, l') && d != c && NewestRowInv(l, call)
    requires call.rows != [] ==>
               call.rows[|call.rows| - 1] < |l.rows| && l.rows[call.rows[|call.rows| - 1]].request == d
    requires forall id :: 0 <= id < |l.rows| && l'.rows[id] != l.rows[id] ==>
               l'.rows[id].request == c || l'.rows[id].state == Abandoned
    ensures NewestRowInv(l', call)
  {
  }

  lemma LocalFrame(conf: int, now: int, now': int, call: Call)
    requires LocalInv(conf, now, call) && now <= now'
    ensures LocalInv(conf, now', call)
  {
  }

  lemma OtherCallKeepsInv(conf: int, w: World, w': World, c: int, d: nat)
    requires SeenFromOutside(w, w', c) && d in w.calls && d != c && CallInv(conf, w, d)
    ensures CallInv(conf, w', d)
  {
    var call := w.calls[d];
    assert w'.calls[d] == call;
    LocalFrame(conf, w.now, w'.now, call);
    RowsFrame(w.ledger, w'.ledger, d, call.rows, RowOpen(call.ctl));
    NewestRowFrame(w.ledger, w'.ledger, c, d, call);
    EvidenceFrame(w.ledger, w'.ledger, w.now, w'.now, call);
  }

  /** Lifts a step of one call to the whole tenant. */
  lemma StepOfOneCall(conf: int, w: World, w': World, c: int)
    requires Safe(conf)(w) && SeenFromOutside(w, w', c)
    requires Consistent(w'.ledger) && |w'.evidence| == |w'.ledger.rows|
    requires forall id :: 0 <= id < |w'.ledger.rows| && (id >= |w.ledger.rows|
                                                         || w'.ledger.rows[id] != w.ledger.rows[id]) ==>
               (id < |w.ledger.rows| && w'.ledger.rows[id].state != Abandoned) || RowEvidence(w', id)
    requires forall d :: d in w'.calls && d !in w.calls ==> d == c
    requires forall d :: d in w'.calls && d == c ==> CallInv(conf, w', d)
    ensures Safe(conf)(w')
  {
    forall id | 0 <= id < |w'.ledger.rows|
      ensures RowEvidence(w', id)
    {
      if id < |w.ledger.rows| {
        assert RowEvidence(w, id);
        assert w'.evidence[id] == w.evidence[id];
      }
    }
    forall d | d in w'.calls
      ensures CallInv(conf, w', d)
    {
      if d != c {
        OtherCallKeepsInv(conf, w, w', c, d);
      }
    }
  }

  // --- one lemma per step ------------------------------------------------------------------------

  lemma TickKeepsInv(conf: int, w: World, ms: nat)
    requires Safe(conf)(w)
    ensures Safe(conf)(Step(conf, w, Tick(ms)))
  {
    StepOfOneCall(conf, w, Step(conf, w, Tick(ms)), -1);
  }

  lemma NewCallInv(conf: int, w: World, c: nat, total: int, ask: Ask, caps: AdapterCapabilities, bytes: nat)
    requires Safe(conf)(w) && c !in w.calls && 0 < total <= conf
    ensures CallInv(conf, ArriveStep(conf, w, c, total, ask, caps, bytes), c)
  {
    forall id | 0 <= id < |w.ledger.rows|
      ensures w.ledger.rows[id].request != c
    {
      assert RowEvidence(w, id);
    }
  }

  lemma ArriveKeepsInv(conf: int, w: World, c: nat, total: int, ask: Ask, caps: AdapterCapabilities, bytes: nat)
    requires Safe(conf)(w)
    ensures Safe(conf)(ArriveStep(conf, w, c, total, ask, caps, bytes))
  {
    if c !in w.calls && 0 < total <= conf {
      NewCallInv(conf, w, c, total, ask, caps, bytes);
      StepOfOneCall(conf, w, ArriveStep(conf, w, c, total, ask, caps, bytes), c);
    }
  }

  /** A step that rewrites one call's record and nothing else. */
  lemma ReplaceCallKeepsInv(conf: int, w: World, c: nat, call: Call)
    requires Safe(conf)(w) && c in w.calls && SameTerms(w.calls[c], call)
    requires RecordInv(conf, w.now, w.ledger, c, call)
    ensures Safe(conf)(SetCall(w, c, call))
  {
    var w' := SetCall(w, c, call);
    assert SeenFromOutside(w, w', c);
    StepOfOneCall(conf, w, w', c);
  }

  lemma OwnStepKeepsNumber(conf: int, now: int, call: Call, a: Action)
    requires NumberInv(call) && CountsInv(call)
    ensures NumberInv(OwnStep(conf, now, call, a)) && CountsInv(OwnStep(conf, now, call, a))
  {
  }

  lemma SendKeepsSends(call: Call, now: int)
    requires SendsInv(call) && CountsInv(call)
    ensures SendsInv(SendCall(call, now))
  {
  }

  lemma RespondKeepsSends(call: Call, response: Response)
    requires SendsInv(call) && CountsInv(call)
    ensures SendsInv(RespondCall(call, response))
  {
  }

  lemma OwnStepKeepsSends(conf: int, now: int, call: Call, a: Action)
    requires SendsInv(call) && CountsInv(call)
    ensures SendsInv(OwnStep(conf, now, call, a))
  {
    if a.Send? {
      SendKeepsSends(call, now);
    } else if a.Respond? {
      RespondKeepsSends(call, a.response);
    } else {
      assert OwnStep(conf, now, call, a).sends == call.sends;
    }
  }

  /** A call's own bookkeeping keeps what concerns it alone. */
  lemma OwnStepKeepsLocal(conf: int, now: int, call: Call, a: Action)
    requires LocalInv(conf, now, call)
    ensures LocalInv(conf, now, OwnStep(conf, now, call, a))
  {
    OwnStepKeepsNumber(conf, now, call, a);
    OwnStepKeepsSends(conf, now, call, a);
  }

  lemma OwnStepShape(conf: int, now: int, call: Call, a: Action)
    ensures SameTerms(call, OwnStep(conf, now, call, a)) && OwnStep(conf, now, call, a).rows == call.rows
    ensures RowOpen(call.ctl) ==> RowOpen(OwnStep(conf, now, call, a).ctl)
    ensures Unsettled(OwnStep(conf, now, call, a).ctl) ==> Unsettled(call.ctl)
    ensures OwnStep(conf, now, call, a).ctl.Returned? ==> call.ctl.Returned?
  {
  }

  lemma OwnStepKeepsEvidence(conf: int, l: Ledger, now: int, call: Call, a: Action)
    requires CountsInv(call) && EvidenceInv(l, now, call)
    requires forall k :: 0 <= k < |call.rows| ==> call.rows[k] < |l.rows| && l.rows[call.rows[k]].startedAt <= now
    ensures EvidenceInv(l, now, OwnStep(conf, now, call, a))
  {
    var call' := OwnStep(conf, now, call, a);
    forall k | 0 <= k < |call'.sends|
      ensures SendEvidence(l, now, call'.sends[k])
    {
      if k < |call.sends| {
        assert SendEvidence(l, now, call.sends[k]);
      }
    }
  }

  lemma RowsAreStarted(conf: int, w: World, c: nat)
    requires Safe(conf)(w) && c in w.calls
    ensures forall k :: 0 <= k < |w.calls[c].rows| ==>
              w.calls[c].rows[k] < |w.ledger.rows| && w.ledger.rows[w.calls[c].rows[k]].startedAt <= w.now
  {
    assert CallInv(conf, w, c);
    forall k | 0 <= k < |w.calls[c].rows|
      ensures w.calls[c].rows[k] < |w.ledger.rows| && w.ledger.rows[w.calls[c].rows[k]].startedAt <= w.now
    {
      assert RowEvidence(w, w.calls[c].rows[k]);
    }
  }

  lemma OwnStepKeepsInv(conf: int, w: World, c: nat, a: Action)
    requires Safe(conf)(w) && c in w.calls
    ensures Safe(conf)(SetCall(w, c, OwnStep(conf, w.now, w.calls[c], a)))
  {
    var call := w.calls[c];
    var call' := OwnStep(conf, w.now, call, a);
    assert CallInv(conf, w, c);
    OwnStepKeepsLocal(conf, w.now, call, a);
    OwnStepShape(conf, w.now, call, a);
    RowsAreStarted(conf, w, c);
    OwnStepKeepsEvidence(conf, w.ledger, w.now, call, a);
    assert RowsInv(c, call'.rows, RowOpen(call'.ctl), w.ledger);
    ReplaceCallKeepsInv(conf, w, c, call');
  }

  lemma RaisedKeepsLocal(conf: int, now: int, call: Call, e: Error)
    requires LocalInv(conf, now, call) && (call.ctl.ClockRead? || call.ctl.Cleared?)
    ensures LocalInv(conf, now, call.(ctl := Raised(e)))
  {
  }

  lemma RaisedKeepsRecord(conf: int, now: int, l: Ledger, c: nat, call: Call, e: Error)
    requires RecordInv(conf, now, l, c, call) && (call.ctl.ClockRead? || call.ctl.Cleared?)
    ensures RecordInv(conf, now, l, c, call.(ctl := Raised(e)))
  {
    RaisedKeepsLocal(conf, now, call, e);
  }

  /** Ending a call with an error keeps everything. */
  lemma FailKeepsInv(conf: int, w: World, c: nat, e: Error)
    requires Safe(conf)(w) && c in w.calls
    requires var ctl := w.calls[c].ctl; ctl.ClockRead? || ctl.Cleared?
    ensures Safe(conf)(Fail(w, c, e))
  {
    assert CallInv(conf, w, c);
    RaisedKeepsRecord(conf, w.now, w.ledger, c, w.calls[c], e);
    ReplaceCallKeepsInv(conf, w, c, w.calls[c].(ctl := Raised(e)));
  }

  lemma InsertKeepsRows(l: Ledger, c: nat, rows: seq<nat>, row: Attempt)
    requires RowsInv(c, rows, false, l) && row.request == c && row.number == |rows| + 1
    ensures RowsInv(c, rows + [|l.rows|], true, Inserted(l, row))
  {
    var l', rows' := Inserted(l, row), rows + [|l.rows|];
    assert rows'[|rows|] == |l.rows|;
    forall id | 0 <= id < |l'.rows| && l'.rows[id].request == c
      ensures id in rows'
    {
      if id < |l.rows| {
        assert id in rows;
      }
    }
    forall k | 0 <= k < |rows|
      ensures l'.rows[rows'[k]].state != Started
    {
      assert rows'[k] == rows[k];
    }
  }

  lemma BegunKeepsLocal(conf: int, now: int, call: Call, id: nat, ctl: Ctl)
    requires LocalInv(conf, now, call) && call.ctl.Cleared?
    requires ctl == Sending(call.ctl.index, call.ctl.retry) || ctl.Raised?
    ensures LocalInv(conf, now, call.(rows := call.rows + [id], ctl := ctl))
  {
  }

  lemma InsertSeen(w: World, c: nat, row: Attempt, e: Evidence, call: Call)
    requires c in w.calls && SameTerms(w.calls[c], call) && row.request == c
    ensures SeenFromOutside(w, WithRow(w, c, row, e, call), c)
  {
  }

  /** What a transaction read before it committed `row`. */
  ghost predicate Justifies(e: Evidence, call: Call, now: int, row: Attempt)
  {
    && e.authorized && e.clearedAt < call.deadline && e.clearedAt <= now && call.arrivedAt <= now
    && Evaluated(e.snapshot, call.ask, call.caps).Ok?
       && row.destination in Evaluated(e.snapshot, call.ask, call.caps).value
  }

  lemma InsertEvidence(w: World, c: nat, row: Attempt, e: Evidence, call: Call)
    requires |w.evidence| == |w.ledger.rows|
    requires row == NewAttempt(c, row.number, row.destination, w.now) && Justifies(e, call, w.now, row)
    ensures RowEvidence(WithRow(w, c, row, e, call), |w.ledger.rows|)
  {
  }

  /** Committing a new row together with its evidence and its call's record. */
  lemma InsertKeepsInv(conf: int, w: World, c: nat, row: Attempt, e: Evidence, call: Call)
    requires Safe(conf)(w) && c in w.calls && SameTerms(w.calls[c], call)
    requires row == NewAttempt(c, row.number, row.destination, w.now) && Justifies(e, call, w.now, row)
    requires RecordInv(conf, w.now, Inserted(w.ledger, row), c, call)
    ensures Safe(conf)(WithRow(w, c, row, e, call))
  {
    var w' := WithRow(w, c, row, e, call);
    InsertConserves(w.ledger, c, row.number, row.destination, w.now);
    InsertSeen(w, c, row, e, call);
    InsertEvidence(w, c, row, e, call);
    StepOfOneCall(conf, w, w', c);
  }

  lemma RecheckJustifies(chosen: Candidate, authorized: bool, s: Snapshot, call: Call, now: int, row: Attempt)
    requires Recheck(chosen, authorized, s, call.ask, call.caps) == Ok(row.destination)
    requires call.clearedAt < call.deadline && call.clearedAt <= now && call.arrivedAt <= now
    ensures Justifies(Evidence(call.clearedAt, authorized, s), call, now, row)
    ensures SentAsRecorded(row, chosen)
  {
    FindModelFinds(Evaluated(s, call.ask, call.caps).value, chosen.modelRef);
  }

  /** The call's own part, once its row is committed. */
  lemma BegunKeepsCall(conf: int, now: int, l: Ledger, c: nat, call: Call, row: Attempt, result: WriteResult)
    requires RecordInv(conf, now, l, c, call) && call.ctl.Cleared? && call.ctl.index < |call.candidates|
    requires row == NewAttempt(c, call.number, row.destination, now)
             && SentAsRecorded(row, call.candidates[call.ctl.index])
    ensures var call' := BegunCall(call, |l.rows|, call.ctl.index, call.ctl.retry, result);
            SameTerms(call, call') && RecordInv(conf, now, Inserted(l, row), c, call')
  {
    var call' := BegunCall(call, |l.rows|, call.ctl.index, call.ctl.retry, result);
    InsertKeepsRows(l, c, call.rows, row);
    BegunKeepsLocal(conf, now, call, |l.rows|, call'.ctl);
    BegunKeepsEvidence(l, now, call, row, result);
  }

  lemma BegunKeepsEvidence(l: Ledger, now: int, call: Call, row: Attempt, result: WriteResult)
    requires EvidenceInv(l, now, call) && call.ctl.Cleared? && call.ctl.index < |call.candidates|
    requires row.state == Started && SentAsRecorded(row, call.candidates[call.ctl.index])
    ensures var call' := BegunCall(call, |l.rows|, call.ctl.index, call.ctl.retry, result);
            EvidenceInv(Inserted(l, row), now, call') && NewestRowInv(Inserted(l, row), call')
  {
    EvidenceFrame(l, Inserted(l, row), now, now, call);
  }

  lemma CommitKeepsInv(conf: int, w: World, c: nat, current: Candidate, e: Evidence, result: WriteResult)
    requires Safe(conf)(w) && c in w.calls && w.calls[c].ctl.Cleared? && w.calls[c].ctl.index < |w.calls[c].candidates|
    requires Justifies(e, w.calls[c], w.now, NewAttempt(c, w.calls[c].number, current, w.now))
    requires SentAsRecorded(NewAttempt(c, w.calls[c].number, current, w.now),
                            w.calls[c].candidates[w.calls[c].ctl.index])
    requires !result.NotCommitted?
    ensures Safe(conf)(CommitStep(w, c, w.calls[c].ctl.index, w.calls[c].ctl.retry, Ok(current), e, result))
  {
    assert CallInv(conf, w, c);
    var call := w.calls[c];
    var row := NewAttempt(c, call.number, current, w.now);
    BegunKeepsCall(conf, w.now, w.ledger, c, call, row, result);
    InsertKeepsInv(conf, w, c, row, e, BegunCall(call, |w.ledger.rows|, call.ctl.index, call.ctl.retry, result));
  }

  lemma ClearedInTime(conf: int, w: World, c: nat)
    requires Safe(conf)(w) && c in w.calls && w.calls[c].ctl.Cleared?
    ensures var call := w.calls[c]; call.clearedAt < call.deadline && call.clearedAt <= w.now && call.arrivedAt <= w.now
  {
    assert CallInv(conf, w, c);
  }

  lemma BeginKeepsInv(conf: int, w: World, c: nat, authorized: bool, s: Snapshot, result: WriteResult)
    requires Safe(conf)(w)
    ensures Safe(conf)(BeginStep(w, c, authorized, s, result))
  {
    if c in w.calls && w.calls[c].ctl.Cleared? && w.calls[c].ctl.index < |w.calls[c].candidates| {
      ClearedInTime(conf, w, c);
      var call := w.calls[c];
      var checked := Recheck(call.candidates[call.ctl.index], authorized, s, call.ask, call.caps);
      if checked.Err? {
        FailKeepsInv(conf, w, c, checked.error);
      } else if result.NotCommitted? {
        FailKeepsInv(conf, w, c, AttemptNotRecorded);
      } else {
        RecheckJustifies(call.candidates[call.ctl.index], authorized, s, call, w.now,
                         NewAttempt(c, call.number, checked.value, w.now));
        CommitKeepsInv(conf, w, c, checked.value, Evidence(call.clearedAt, authorized, s), result);
      }
    }
  }

  /** A sweep abandons nothing of a call that is still within its margin. */
  lemma SweepKeepsInv(conf: int, w: World, olderThan: int)
    requires Safe(conf)(w) && olderThan <= w.now - (conf + ABANDON_MARGIN)
    ensures Safe(conf)(w.(ledger := Swept(w.ledger, olderThan, w.now)))
  {
    var w' := w.(ledger := Swept(w.ledger, olderThan, w.now));
    SweepConserves(w.ledger, olderThan, w.now);
    assert Evolves(w.ledger, w'.ledger);
    forall id | 0 <= id < |w'.ledger.rows|
      ensures RowEvidence(w', id)
    {
      assert RowEvidence(w, id);
      assert CallInv(conf, w, w.ledger.rows[id].request);
    }
    StepOfOneCall(conf, w, w', -1);
  }

  lemma ResolvedKeepsLocal(conf: int, now: int, call: Call, found: seq<Candidate>)
    requires LocalInv(conf, now, call) && call.ctl.ClockRead?
    ensures LocalInv(conf, now, call.(candidates := found, ctl := Admitting))
  {
  }

  lemma ResolveKeepsInv(conf: int, w: World, c: nat, authorized: bool, s: Snapshot)
    requires Safe(conf)(w)
    ensures Safe(conf)(ResolveStep(w, c, authorized, s))
  {
    if c in w.calls && w.calls[c].ctl.ClockRead? {
      var call := w.calls[c];
      assert CallInv(conf, w, c);
      if !authorized {
        FailKeepsInv(conf, w, c, NotAuthorized);
      } else {
        var swept := w.(ledger := Swept(w.ledger, call.abandonBefore, w.now));
        SweepKeepsInv(conf, w, call.abandonBefore);
        var found := Evaluated(s, call.ask, call.caps);
        if found.Err? {
          FailKeepsInv(conf, swept, c, Error.Refused(found.error));
        } else {
          assert CallInv(conf, swept, c);
          ResolvedKeepsLocal(conf, w.now, call, found.value);
          ReplaceCallKeepsInv(conf, swept, c, call.(candidates := found.value, ctl := Admitting));
        }
      }
    }
  }

  lemma AfterSettlementKeepsLocal(conf: int, now: int, call: Call, settled: bool, backoff: nat)
    requires LocalInv(conf, now, call) && call.ctl.Settling? && call.sends != []
    requires call.sends[|call.sends| - 1].response.Some?
    ensures var response := call.sends[|call.sends| - 1].response.value;
            var call' := AfterSettlement(call, now, call.ctl.index, call.ctl.retry, response, settled, backoff);
            && LocalInv(conf, now, call') && SameTerms(call, call')
            && call'.rows == call.rows && call'.sends == call.sends
            && !Unsettled(call'.ctl)
            && (call'.ctl.Returned? ==> response.Answer?)
            && (!settled ==> RowOpen(call'.ctl) && !call'.ctl.Returned?)
  {
  }

  lemma SettleKeepsRows(l: Ledger, c: nat, rows: seq<nat>, s: Settlement, at: int)
    requires RowsInv(c, rows, true, l) && rows != [] && s.state != Started
    ensures RowsInv(c, rows, false, Settled(l, rows[|rows| - 1], s, at))
  {
    var id := rows[|rows| - 1];
    var l' := Settled(l, id, s, at);
    forall k | 0 <= k < |rows|
      ensures l'.rows[rows[k]].state != Started
    {
      assert l.rows[rows[k]].state == Started ==> k == |rows| - 1;
    }
  }

  lemma SettledShape(l: Ledger, id: nat, s: Settlement, at: int)
    requires id < |l.rows| && s.state != Started && s.state != Abandoned
    ensures var l' := Settled(l, id, s, at);
            && Evolves(l, l') && |l'.rows| == |l.rows|
            && (forall k :: 0 <= k < |l.rows| && k != id ==> l'.rows[k] == l.rows[k])
            && l'.rows[id].state == (if l.rows[id].state == Started then s.state else l.rows[id].state)
  {
  }

  lemma SettlementSeen(w: World, c: nat, id: nat, s: Settlement, call: Call)
    requires c in w.calls && SameTerms(w.calls[c], call)
    requires id < |w.ledger.rows| && w.ledger.rows[id].request == c && s.state != Started && s.state != Abandoned
    ensures SeenFromOutside(w, WithSettlement(w, c, id, s, call), c)
    ensures forall k :: 0 <= k < |w.ledger.rows| && WithSettlement(w, c, id, s,
                                                                   call).ledger.rows[k] != w.ledger.rows[k] ==>
              WithSettlement(w, c, id, s, call).ledger.rows[k].state != Abandoned
  {
    SettledShape(w.ledger, id, s, w.now);
  }

  /** What settling does to the newest row, which the call still waits for. */
  lemma SettledNewestRow(l: Ledger, call: Call, id: nat, s: Settlement, now: int, call': Call)
    requires call.rows != [] && id == call.rows[|call.rows| - 1] < |l.rows| && call'.rows == call.rows
             && !Unsettled(call'.ctl)
    requires NewestRowInv(l, call) && call.ctl.Settling? && s.state != Started
    requires call'.ctl.Returned? ==> s.state == Succeeded
    ensures NewestRowInv(Settled(l, id, s, now), call')
  {
  }

  lemma SettledEvidence(l: Ledger, now: int, call: Call, id: nat, s: Settlement, call': Call)
    requires EvidenceInv(l, now, call) && call.ctl.Settling? && id < |l.rows|
    requires call'.sends == call.sends && !call'.ctl.Sending? && s.state != Started && s.state != Abandoned
    ensures EvidenceInv(Settled(l, id, s, now), now, call')
  {
    SettledShape(l, id, s, now);
    EvidenceFrame(l, Settled(l, id, s, now), now, now, call);
    forall k | 0 <= k < |call'.sends|
      ensures SendEvidence(Settled(l, id, s, now), now, call'.sends[k])
    {
      assert call'.sends[k] == call.sends[k];
    }
  }

  /** The call's own part, once its newest row is settled. */
  lemma SettledKeepsCall(conf: int, now: int, l: Ledger, c: nat, call: Call, settled: bool, backoff: nat)
    requires RecordInv(conf, now, l, c, call) && call.ctl.Settling? && call.sends != []
             && NewestSend(call).response.Some?
    ensures var id := NewestSend(call).row;
            var s := SettlementOf(NewestSend(call).response.value, call.inputBytes);
            var call' := SettledCall(call, now, settled, backoff);
            && id < |l.rows| && l.rows[id].request == c && SameTerms(call, call')
            && RecordInv(conf, now, Settled(l, id, s, now), c, call')
  {
    var s := SettlementOf(NewestSend(call).response.value, call.inputBytes);
    var id := NewestRow(conf, now, l, c, call);
    var call' := SettledCall(call, now, settled, backoff);
    AfterSettlementKeepsLocal(conf, now, call, settled, backoff);
    SettledRows(l, c, call, call', id, s, now);
    SettledEvidence(l, now, call, id, s, call');
    SettledNewestRow(l, call, id, s, now, call');
  }

  lemma SettledRows(l: Ledger, c: nat, call: Call, call': Call, id: nat, s: Settlement, now: int)
    requires call.rows != [] && id == call.rows[|call.rows| - 1] && s.state != Started && call'.rows == call.rows
    requires RowsInv(c, call.rows, true, l)
    ensures id < |l.rows| && RowsInv(c, call'.rows, RowOpen(call'.ctl), Settled(l, id, s, now))
  {
    SettleKeepsRows(l, c, call.rows, s, now);
  }

  lemma NewestRow(conf: int, now: int, l: Ledger, c: nat, call: Call) returns (id: nat)
    requires RecordInv(conf, now, l, c, call) && call.ctl.Settling? && call.sends != []
    ensures id == NewestSend(call).row && call.rows != [] && id == call.rows[|call.rows| - 1]
    ensures id < |l.rows| && l.rows[id].request == c
  {
    id := NewestSend(call).row;
  }

  /** Its own part when the settlement did not commit. */
  lemma UnsettledKeepsCall(conf: int, now: int, l: Ledger, c: nat, call: Call, backoff: nat)
    requires RecordInv(conf, now, l, c, call) && call.ctl.Settling? && call.sends != []
             && NewestSend(call).response.Some?
    ensures var call' := SettledCall(call, now, false, backoff);
            SameTerms(call, call') && RecordInv(conf, now, l, c, call')
  {
    AfterSettlementKeepsLocal(conf, now, call, false, backoff);
  }

  lemma CommittedSettlementKeepsInv(conf: int, w: World, c: nat, settled: bool, backoff: nat)
    requires Safe(conf)(w) && CanSettle(w, c)
    ensures var sent := NewestSend(w.calls[c]);
            Safe(conf)(WithSettlement(w, c, sent.row, SettlementOf(sent.response.value, w.calls[c].inputBytes),
                                     SettledCall(w.calls[c], w.now, settled, backoff)))
  {
    assert CallInv(conf, w, c);
    var call := w.calls[c];
    var id, s := NewestSend(call).row, SettlementOf(NewestSend(call).response.value, call.inputBytes);
    var call' := SettledCall(call, w.now, settled, backoff);
    SettledKeepsCall(conf, w.now, w.ledger, c, call, settled, backoff);
    SettleConserves(w.ledger, id, s, w.now);
    SettlementSeen(w, c, id, s, call');
    StepOfOneCall(conf, w, WithSettlement(w, c, id, s, call'), c);
  }

  lemma SettleKeepsInv(conf: int, w: World, c: nat, result: WriteResult, backoff: nat)
    requires Safe(conf)(w)
    ensures Safe(conf)(SettleStep(w, c, result, backoff))
  {
    if CanSettle(w, c) {
      if result.NotCommitted? {
        assert CallInv(conf, w, c);
        UnsettledKeepsCall(conf, w.now, w.ledger, c, w.calls[c], backoff);
        ReplaceCallKeepsInv(conf, w, c, SettledCall(w.calls[c], w.now, false, backoff));
      } else {
        CommittedSettlementKeepsInv(conf, w, c, result.Acknowledged?, backoff);
      }
    }
  }

  lemma SettleActionKeepsInv(conf: int, w: World, c: nat, result: WriteResult, backoff: nat)
    requires Safe(conf)(w)
    ensures Safe(conf)(Step(conf, w, Settle(c, result, backoff)))
  {
    SettleKeepsInv(conf, w, c, result, backoff);
  }

  lemma OwnActionKeepsInv(conf: int, w: World, a: Action)
    requires Safe(conf)(w) && !a.Tick? && !a.Arrive? && !a.Resolve? && !a.Begin? && !a.Settle?
    ensures Safe(conf)(Step(conf, w, a))
  {
    if a.call in w.calls {
      OwnStepKeepsInv(conf, w, a.call, a);
    }
  }

  lemma StepKeepsInv(conf: int, w: World, a: Action)
    requires Safe(conf)(w)
    ensures Safe(conf)(Step(conf, w, a))
  {
    match a {
      case Tick(ms) => TickKeepsInv(conf, w, ms);
      case Arrive(c, total, ask, caps, bytes) => ArriveKeepsInv(conf, w, c, total, ask, caps, bytes);
      case Resolve(c, authorized, s) => ResolveKeepsInv(conf, w, c, authorized, s);
      case Begin(c, authorized, s, result) => BeginKeepsInv(conf, w, c, authorized, s, result);
      case Settle(c, result, backoff) => SettleActionKeepsInv(conf, w, c, result, backoff);
      case _ => OwnActionKeepsInv(conf, w, a);
    }
  }

  /** Every interleaving keeps it. */
  lemma ReachableKeepsInv(conf: int, w: World)
    requires Reachable(conf, w)
    ensures Inv(conf, w)
  {
    var now :| Leads(conf, Start(now), w);
    forall v, v' | Safe(conf)(v) && Moves(conf)(v, v')
      ensures Safe(conf)(v')
    {
      var a :| v' == Step(conf, v, a);
      StepKeepsInv(conf, v, a);
    }
    StaysTrue(Moves(conf), Start(now), w, Safe(conf));
  }
}
