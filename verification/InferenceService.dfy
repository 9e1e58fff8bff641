/**
  `_attempt_all`, `_begin_attempt` and the settlement of one attempt as the
  program they are: nested loops over candidates and retries that update the
  stored ledger, the attempt number and the last error. The environment
  (circuit, adapters, secrets, clock, configuration, provider, database) is a
  parameter. The loops are proved to do what the interleaved machine of
  `InferenceRuns` does when this call alone is scheduled.
 */
module InferenceService {
  import opened Common
  import opened Traces
  import opened Eligibility
  import opened InferenceLedger
  import opened InferenceRuns

  datatype CandidateEnv = CandidateEnv(circuitOpen: bool, hasAdapter: bool, credential: Credential)

  datatype AttemptEnv = AttemptEnv(
    checkDelay: nat, beginDelay: nat, authorized: bool, snapshot: Snapshot, begin: WriteResult,
    sendDelay: nat, answerDelay: nat, response: Response, settleDelay: nat, settle: WriteResult,
    backoff: nat, oversleep: nat)

  /** By candidate index and by attempt number. */
  datatype Env = Env(candidates: nat -> CandidateEnv, attempts: nat -> AttemptEnv)

  datatype Output = Output(attempts: nat, destination: Candidate, usage: Settlement)

  datatype Turn = Turn(delay: nat, action: Action)

  /** What a call does next, by where it stands. */
  function NextTurn(env: Env, c: nat, call: Call, now: int): (r: Turn)
  {
    match call.ctl
    case AtCandidate(i) =>
      var e := env.candidates(i);
      Turn(0, TryCandidate(c, e.circuitOpen, e.hasAdapter, e.credential))
    case AtAttempt(_, k) => Turn(if k > MAX_RETRIES then 0 else env.attempts(call.number + 1).checkDelay,
                                 CheckDeadline(c))
    case Cleared(_, _) =>
      var e := env.attempts(call.number);
      Turn(e.beginDelay, Begin(c, e.authorized, e.snapshot, e.begin))
    case Sending(_, _) => Turn(env.attempts(call.number).sendDelay, Send(c))
    case Awaiting(_, _) => Turn(env.attempts(call.number).answerDelay, Respond(c, env.attempts(call.number).response))
    case Settling(_, _) =>
      var e := env.attempts(call.number);
      Turn(e.settleDelay, Settle(c, e.settle, e.backoff))
    case Sleeping(_, _, until) =>
      Turn((if now < until then until - now else 0) + env.attempts(call.number).oversleep, Wake(c))
    case _ => Turn(0, Tick(0))
  }

  function Next(conf: int, env: Env, c: nat, w: World): (r: World)
  {
    if c !in w.calls then w
    else
      var t := NextTurn(env, c, w.calls[c], w.now);
      Step(conf, Step(conf, w, Tick(t.delay)), t.action)
  }

  ghost predicate IsTurn(conf: int, env: Env, c: nat, w: World, w': World)
  {
    w' == Next(conf, env, c, w)
  }

  /** The call alone is scheduled, again and again. */
  ghost function Alone(conf: int, env: Env, c: nat): (r: (World, World) -> bool)
  {
    (w: World, w': World) => IsTurn(conf, env, c, w, w')
  }

  ghost predicate Drives(conf: int, env: Env, c: nat, w: World, w': World)
  {
    Reaches(Alone(conf, env, c), w, w')
  }

  lemma OneTurn(conf: int, env: Env, c: nat, w: World)
    ensures Drives(conf, env, c, w, Next(conf, env, c, w))
  {
    assert IsTurn(conf, env, c, w, Next(conf, env, c, w));
    ReachesOne(Alone(conf, env, c), w, Next(conf, env, c, w));
  }

  lemma NoTurn(conf: int, env: Env, c: nat, w: World)
    ensures Drives(conf, env, c, w, w)
  {
    ReachesItself(Alone(conf, env, c), w);
  }

  lemma MoreTurns(conf: int, env: Env, c: nat, w: World, v: World, v': World)
    requires Drives(conf, env, c, w, v) && Drives(conf, env, c, v, v')
    ensures Drives(conf, env, c, w, v')
  {
    ReachesOn(Alone(conf, env, c), w, v, v');
  }

  lemma TurnLeads(conf: int, env: Env, c: nat, w: World, v: World)
    requires Leads(conf, w, v)
    ensures Leads(conf, w, Next(conf, env, c, v))
  {
    if c in v.calls {
      var turn := NextTurn(env, c, v.calls[c], v.now);
      LeadsOneStep(conf, w, v, Tick(turn.delay));
      LeadsOneStep(conf, w, Step(conf, v, Tick(turn.delay)), turn.action);
    }
  }

  /** What the scheduled call does is an interleaving of the machine, so every
      theorem about reachable states is about the program below. */
  lemma DrivenIsReachable(conf: int, env: Env, c: nat, w: World, w': World)
    requires Drives(conf, env, c, w, w')
    ensures Leads(conf, w, w')
  {
    var leads := (v: World) => Leads(conf, w, v);
    ReachesItself(Moves(conf), w);
    forall v, v' | leads(v) && Alone(conf, env, c)(v, v')
      ensures leads(v')
    {
      TurnLeads(conf, env, c, w, v);
    }
    StaysTrue(Alone(conf, env, c), w, w', leads);
  }

  predicate Ended(w: World, c: nat)
  {
    c in w.calls && (w.calls[c].ctl.Returned? || w.calls[c].ctl.Raised?)
  }

  lemma EndedRests(conf: int, env: Env, c: nat, w: World)
    requires Ended(w, c)
    ensures Next(conf, env, c, w) == w
  {
  }

  /** There is one way a call can end in one environment. */
  lemma OutcomeIsUnique(conf: int, env: Env, c: nat, w: World, a: World, b: World)
    requires Drives(conf, env, c, w, a) && Drives(conf, env, c, w, b) && Ended(a, c) && Ended(b, c)
    ensures a == b
  {
    var ended := (v: World) => Ended(v, c);
    forall v, v' | ended(v) && Alone(conf, env, c)(v, v')
      ensures v' == v
    {
      EndedRests(conf, env, c, v);
    }
    OneEnd(Alone(conf, env, c), w, a, b, ended);
  }

  /** What the caller of `run_inference` gets. */
  function ResultOf(call: Call): (r: Result<Output, Error>)
    requires call.ctl.Raised? || (call.ctl.Returned? && call.sends != [] && call.sends[|call.sends| - 1].response.Some?)
  {
    match call.ctl
    case Raised(e) => Err(e)
    case Returned =>
      var last := call.sends[|call.sends| - 1];
      Ok(Output(call.number, last.destination, SettlementOf(last.response.value, call.inputBytes)))
  }

  /** A row exactly when the re-check passed and the write committed; an id only
      when the commit was acknowledged. */
  ghost predicate Committed(l: Ledger, l': Ledger, request: nat, number: nat, at: int,
                            checked: Result<Candidate, Error>, begin: WriteResult, r: Result<nat, Error>)
  {
    match checked
    case Err(error) => l' == l && r == Err(error)
    case Ok(destination) =>
      if begin.NotCommitted? then l' == l && r == Err(AttemptNotRecorded)
      else
        && l' == Inserted(l, NewAttempt(request, number, destination, at))
        && r == if begin.Acknowledged? then Ok(|l.rows|) else Err(AttemptNotRecorded)
  }

  /** `_begin_attempt`: re-evaluate on what is configured now, then commit. */
  method BeginAttempt(ledger: TenantLedger, request: nat, number: nat, chosen: Candidate, ask: Ask,
                      caps: AdapterCapabilities,
                      env: AttemptEnv, now: int) returns (r: Result<nat, Error>)
    modifies ledger
    ensures var checked := Recheck(chosen, env.authorized, env.snapshot, ask, caps);
            Committed(old(ledger.Value()), ledger.Value(), request, number, now, checked, env.begin, r)
  {
    if !env.authorized {
      return Err(NotAuthorized);
    }
    var current := Evaluate(env.snapshot, ask, caps);
    if current.Err? {
      return Err(Error.Refused(current.error));
    }
    var found := FindModel(current.value, chosen.modelRef);
    if found.None? {
      return Err(DestinationNoLongerEligible);
    }
    var destination := found.value;
    if destination.providerVersion != chosen.providerVersion || destination.baseUrl != chosen.baseUrl
       || destination.credentialRef != chosen.credentialRef || destination.trusted != chosen.trusted {
      return Err(DestinationChanged);
    }
    if env.begin.NotCommitted? {
      return Err(AttemptNotRecorded);
    }
    var id := ledger.InsertStarted(request, number, destination, now);
    if env.begin.CommittedThenFailed? {
      return Err(AttemptNotRecorded);
    }
    return Ok(id);
  }

  /** `_settle` behind its caller's handler: whether the write was acknowledged. */
  method SettleAttempt(ledger: TenantLedger, id: nat, s: Settlement, result: WriteResult, now: int)
      returns (settled: bool)
    requires id < |ledger.rows|
    modifies ledger
    ensures ledger.Value() == if result.NotCommitted? then old(ledger.Value())
            else Settled(old(ledger.Value()), id, s, now)
    ensures settled == result.Acknowledged?
  {
    if !result.NotCommitted? {
      ledger.Settle(id, s, now);
    }
    return result.Acknowledged?;
  }

  // --- the turns, one at a time ------------------------------------------------------------------

  /** The call as the loops know it. */
  predicate Stands(w: World, c: nat, terms: Call, ctl: Ctl, number: nat, last: Option<Error>, now: int)
  {
    && c in w.calls && w.now == now
    && var call := w.calls[c];
       && call.ctl == ctl && call.number == number && call.lastError == last
       && call.candidates == terms.candidates && call.deadline == terms.deadline && call.ask == terms.ask
       && call.caps == terms.caps && call.inputBytes == terms.inputBytes
  }

  lemma CandidateTurn(conf: int, env: Env, c: nat, w: World, terms: Call, i: nat, number: nat, last: Option<Error>,
                      now: int)
      returns (w': World)
    requires Stands(w, c, terms, AtCandidate(i), number, last, now) && i < |terms.candidates|
    ensures Drives(conf, env, c, w, w') && w'.ledger == w.ledger
    ensures var e := env.candidates(i);
            && (e.circuitOpen ==> Stands(w', c, terms, AtCandidate(i + 1), number, Some(CircuitOpen), now))
            && (!e.circuitOpen && !e.hasAdapter ==>
                  Stands(w', c, terms, AtCandidate(i + 1), number, Some(ProtocolUnsupported), now))
            && (!e.circuitOpen && e.hasAdapter && !e.credential.Available? ==>
                  Stands(w', c, terms, Raised(CredentialUnavailable), number, last, now))
            && (!e.circuitOpen && e.hasAdapter && e.credential.Available? ==>
                  Stands(w', c, terms, AtAttempt(i, 0), number, last, now))
  {
    w' := Next(conf, env, c, w);
    OneTurn(conf, env, c, w);
  }

  lemma LastCandidateTurn(conf: int, env: Env, c: nat, w: World, terms: Call, i: nat, number: nat, last: Option<Error>,
                          now: int)
      returns (w': World)
    requires Stands(w, c, terms, AtCandidate(i), number, last, now) && i >= |terms.candidates|
    ensures Drives(conf, env, c, w, w') && w'.ledger == w.ledger
    ensures Stands(w', c, terms, Raised(OrElse(last, NoDestinationSucceeded)), number, last, now)
  {
    w' := Next(conf, env, c, w);
    OneTurn(conf, env, c, w);
  }

  lemma DeadlineTurn(conf: int, env: Env, c: nat, w: World, terms: Call, i: nat, k: nat, number: nat,
                     last: Option<Error>, now: int)
      returns (w': World)
    requires Stands(w, c, terms, AtAttempt(i, k), number, last, now)
    ensures Drives(conf, env, c, w, w') && w'.ledger == w.ledger
    ensures var later := now + env.attempts(number + 1).checkDelay;
            && (k > MAX_RETRIES ==> Stands(w', c, terms, AtCandidate(i + 1), number, last, now))
            && (k <= MAX_RETRIES && later >= terms.deadline ==>
                  Stands(w', c, terms, Raised(OrElse(last, DeadlineExpired)), number, last, later))
            && (k <= MAX_RETRIES && later < terms.deadline ==>
                  Stands(w', c, terms, Cleared(i, k), number + 1, last, later))
  {
    w' := Next(conf, env, c, w);
    OneTurn(conf, env, c, w);
  }

  /** `_begin_attempt`'s three ends, for any re-check. */
  ghost predicate Begun(w: World, w': World, c: nat, terms: Call, i: nat, k: nat, number: nat, last: Option<Error>,
                        at: int,
                        checked: Result<Candidate, Error>, begin: WriteResult)
  {
    match checked
    case Err(error) => w'.ledger == w.ledger && Stands(w', c, terms, Raised(error), number, last, at)
    case Ok(destination) =>
      if begin.NotCommitted? then w'.ledger == w.ledger
        && Stands(w', c, terms, Raised(AttemptNotRecorded), number, last, at)
      else
        && w'.ledger == Inserted(w.ledger, NewAttempt(c, number, destination, at))
        && Stands(w', c, terms, if begin.Acknowledged? then Sending(i, k) else Raised(AttemptNotRecorded), number,
                  last, at)
        && w'.calls[c].rows != [] && w'.calls[c].rows[|w'.calls[c].rows| - 1] == |w.ledger.rows|
  }

  lemma CommitStands(w: World, c: nat, terms: Call, i: nat, k: nat, number: nat, last: Option<Error>,
                     checked: Result<Candidate, Error>, e: Evidence, begin: WriteResult)
    requires Stands(w, c, terms, Cleared(i, k), number, last, w.now)
    ensures Begun(w, CommitStep(w, c, i, k, checked, e, begin), c, terms, i, k, number, last, w.now, checked, begin)
  {
  }

  lemma BeginTurnIs(conf: int, env: Env, c: nat, w: World) returns (w': World)
    requires c in w.calls && w.calls[c].ctl.Cleared? && w.calls[c].ctl.index < |w.calls[c].candidates|
    ensures Drives(conf, env, c, w, w')
    ensures var call := w.calls[c];
            var e := env.attempts(call.number);
            w' == CommitStep(w.(now := w.now + e.beginDelay), c, call.ctl.index, call.ctl.retry,
                             Recheck(call.candidates[call.ctl.index], e.authorized, e.snapshot, call.ask, call.caps),
                             Evidence(call.clearedAt, e.authorized, e.snapshot), e.begin)
  {
    w' := Next(conf, env, c, w);
    OneTurn(conf, env, c, w);
  }

  lemma BeginTurn(conf: int, env: Env, c: nat, w: World, terms: Call, i: nat, k: nat, number: nat, last: Option<Error>,
                  now: int)
      returns (w': World)
    requires Stands(w, c, terms, Cleared(i, k), number, last, now) && i < |terms.candidates|
    ensures Drives(conf, env, c, w, w')
    ensures var e := env.attempts(number);
            Begun(w, w', c, terms, i, k, number, last, now + e.beginDelay,
                  Recheck(terms.candidates[i], e.authorized, e.snapshot, terms.ask, terms.caps), e.begin)
  {
    var e := env.attempts(number);
    w' := BeginTurnIs(conf, env, c, w);
    CommitStands(w.(now := now + e.beginDelay), c, terms, i, k, number, last,
                 Recheck(terms.candidates[i], e.authorized, e.snapshot, terms.ask, terms.caps),
                 Evidence(w.calls[c].clearedAt, e.authorized, e.snapshot), e.begin);
  }

  /** The newest send, with its answer. */
  predicate Answered(w: World, c: nat, row: nat, destination: Candidate, response: Response)
    requires c in w.calls
  {
    && w.calls[c].sends != []
    && var s := w.calls[c].sends[|w.calls[c].sends| - 1];
       s.row == row && s.destination == destination && s.response == Some(response)
  }

  /** The exchange: send, then the provider's answer. */
  lemma ExchangeTurns(conf: int, env: Env, c: nat, w: World, terms: Call, i: nat, k: nat, number: nat,
                      last: Option<Error>, now: int)
      returns (w': World)
    requires Stands(w, c, terms, Sending(i, k), number, last, now) && i < |terms.candidates| && w.calls[c].rows != []
    ensures Drives(conf, env, c, w, w') && w'.ledger == w.ledger
    ensures var e := env.attempts(number);
            && Stands(w', c, terms, Settling(i, k), number, last, now + e.sendDelay + e.answerDelay)
            && Answered(w', c, w.calls[c].rows[|w.calls[c].rows| - 1], terms.candidates[i], e.response)
  {
    var w1 := Next(conf, env, c, w);
    assert Stands(w1, c, terms, Awaiting(i, k), number, last, now + env.attempts(number).sendDelay);
    w' := Next(conf, env, c, w1);
    OneTurn(conf, env, c, w);
    OneTurn(conf, env, c, w1);
    MoreTurns(conf, env, c, w, w1, w');
  }

  lemma AfterSettlementStands(w: World, w': World, c: nat, terms: Call, i: nat, k: nat, number: nat,
                              last: Option<Error>,
                              before: int, now: int, response: Response, settled: bool, backoff: nat)
    requires Stands(w, c, terms, Settling(i, k), number, last, before) && w.calls[c].sends != []
    requires c in w'.calls && w'.now == now
             && w'.calls[c] == AfterSettlement(w.calls[c], now, i, k, response, settled, backoff)
    ensures Stands(w', c, terms, Course(terms.deadline, now, i, k, response, settled, backoff), number,
                   LastError(last, response, settled), now)
    ensures w'.calls[c].sends == w.calls[c].sends
  {
  }

  /** The ledger, the newest send and the call's place after a settlement. */
  ghost predicate SettledBeside(l: Ledger, w': World, c: nat, terms: Call, i: nat, k: nat, number: nat,
                                last: Option<Error>, now: int,
                                id: nat, e: AttemptEnv)
    requires id < |l.rows| && i < |terms.candidates|
  {
    && w'.ledger == (if e.settle.NotCommitted? then l
                     else Settled(l, id, SettlementOf(e.response, terms.inputBytes), now))
    && Stands(w', c, terms, Course(terms.deadline, now, i, k, e.response, e.settle.Acknowledged?, e.backoff), number,
              LastError(last, e.response, e.settle.Acknowledged?), now)
    && w'.calls[c].sends != []
    && var s := w'.calls[c].sends[|w'.calls[c].sends| - 1];
       s.destination == terms.candidates[i] && s.response == Some(e.response)
  }

  lemma SettleTurnSteps(conf: int, env: Env, c: nat, w: World, e: AttemptEnv)
    requires CanSettle(w, c) && e == env.attempts(w.calls[c].number)
    ensures Next(conf, env, c, w) == SettleStep(w.(now := w.now + e.settleDelay), c, e.settle, e.backoff)
  {
  }

  lemma SettleTurnIs(conf: int, env: Env, c: nat, w: World, e: AttemptEnv) returns (w': World)
    requires CanSettle(w, c) && e == env.attempts(w.calls[c].number)
             && NewestSend(w.calls[c]).response == Some(e.response)
    ensures Drives(conf, env, c, w, w')
    ensures var call := w.calls[c];
            var later := w.now + e.settleDelay;
            && w'.ledger == (if e.settle.NotCommitted? then w.ledger
                             else Settled(w.ledger, NewestSend(call).row, SettlementOf(e.response, call.inputBytes),
                                          later))
            && c in w'.calls && w'.now == later
            && w'.calls[c] == AfterSettlement(call, later, call.ctl.index, call.ctl.retry, e.response,
                                              e.settle.Acknowledged?, e.backoff)
  {
    OneTurn(conf, env, c, w);
    SettleTurnSteps(conf, env, c, w, e);
    SettlingShape(w.(now := w.now + e.settleDelay), c, e.settle, e.backoff);
    w' := SettleStep(w.(now := w.now + e.settleDelay), c, e.settle, e.backoff);
  }

  lemma SettleTurn(conf: int, env: Env, c: nat, w: World, terms: Call, i: nat, k: nat, number: nat,
                   last: Option<Error>, now: int, id: nat, l: Ledger, later: int)
      returns (w': World)
    requires Stands(w, c, terms, Settling(i, k), number, last, now) && i < |terms.candidates|
    requires w.ledger == l && later == now + env.attempts(number).settleDelay
    requires id < |l.rows| && Answered(w, c, id, terms.candidates[i], env.attempts(number).response)
    ensures Drives(conf, env, c, w, w')
    ensures SettledBeside(l, w', c, terms, i, k, number, last, later, id, env.attempts(number))
  {
    var e := env.attempts(number);
    w' := SettleTurnIs(conf, env, c, w, e);
    AfterSettlementStands(w, w', c, terms, i, k, number, last, now, w'.now, e.response, e.settle.Acknowledged?,
                          e.backoff);
  }

  lemma WakeTurn(conf: int, env: Env, c: nat, w: World, terms: Call, i: nat, k: nat, until: int, number: nat,
                 last: Option<Error>, now: int)
      returns (w': World)
    requires Stands(w, c, terms, Sleeping(i, k, until), number, last, now) && now <= until
    ensures Drives(conf, env, c, w, w') && w'.ledger == w.ledger
    ensures Stands(w', c, terms, AtAttempt(i, k + 1), number, last, until + env.attempts(number).oversleep)
  {
    w' := Next(conf, env, c, w);
    OneTurn(conf, env, c, w);
  }

  // --- the loops ---------------------------------------------------------------------------------

  datatype Verdict = Done(result: Result<Output, Error>) | NextCandidate | NextRetry

  /** The machine's call is where the loops are. */
  ghost predicate Reached(w: World, c: nat, terms: Call, i: nat, k: nat, v: Verdict, number: nat, last: Option<Error>,
                          now: int)
  {
    match v
    case Done(result) =>
      && Ended(w, c)
      && (w.calls[c].ctl.Returned? ==>
            w.calls[c].sends != [] && w.calls[c].sends[|w.calls[c].sends| - 1].response.Some?)
      && ResultOf(w.calls[c]) == result
    case NextCandidate => Stands(w, c, terms, AtCandidate(i + 1), number, last, now)
    case NextRetry => Stands(w, c, terms, AtAttempt(i, k + 1), number, last, now)
  }

  /** The choice after a provider failure whose settlement committed. */
  method AfterProviderFailure(deadline: int, f: Response, k: nat, backoff: nat, now: int, ghost i: nat)
      returns (v: Verdict, until: int)
    requires f.Failure?
    ensures var ctl := FailureCourse(deadline, now, i, k, f, backoff);
            match v
            case Done(result) => result == Err(Provider(f.category, f.possiblyAccepted)) && ctl == Raised(result.error)
            case NextCandidate => ctl == AtCandidate(i + 1)
            case NextRetry =>
              if k < MAX_RETRIES then now <= until && ctl == Sleeping(i, k, until) else ctl == AtAttempt(i, k + 1)
  {
    until := now;
    if f.possiblyAccepted || NeverFallback(f.category) {
      v := Done(Err(Provider(f.category, f.possiblyAccepted)));
    } else if !Retryable(f.category) {
      v := NextCandidate;
    } else if k < MAX_RETRIES {
      var delay: int := backoff;
      if f.retryAfter.Some? {
        delay := Max(delay, f.retryAfter.value);
      }
      if delay >= Max(0, deadline - now) {
        v := NextCandidate;
      } else {
        v, until := NextRetry, now + delay;
      }
    } else {
      v := NextRetry;
    }
  }

  function PlainResult(response: Response, settled: bool, output: Output): (r: Result<Output, Error>)
  {
    match response
    case Cancelled => Err(CallCancelled)
    case ConfigurationFault => Err(Internal)
    case AdapterBug => Err(Internal)
    case Answer(_, _, _) => if settled then Ok(output) else Err(SettlementFailed)
    case Failure(_, _, _) => Err(SettlementFailed)
  }

  lemma EndsHere(l: Ledger, w': World, c: nat, terms: Call, i: nat, k: nat, number: nat, last: Option<Error>, now: int,
                 id: nat, e: AttemptEnv)
    requires id < |l.rows| && i < |terms.candidates| && SettledBeside(l, w', c, terms, i, k, number, last, now, id, e)
    requires !e.response.Failure? || !e.settle.Acknowledged?
    ensures var output := Output(number, terms.candidates[i], SettlementOf(e.response, terms.inputBytes));
            Reached(w', c, terms, i, k, Done(PlainResult(e.response, e.settle.Acknowledged?, output)), number, last,
                    now)
  {
  }

  lemma FailureStands(l: Ledger, w': World, c: nat, terms: Call, i: nat, k: nat, number: nat, last: Option<Error>,
                      now: int, id: nat, e: AttemptEnv)
    requires id < |l.rows| && i < |terms.candidates| && SettledBeside(l, w', c, terms, i, k, number, last, now, id, e)
    requires e.response.Failure? && e.settle.Acknowledged?
    ensures Stands(w', c, terms, FailureCourse(terms.deadline, now, i, k, e.response, e.backoff), number,
                   Some(Provider(e.response.category, e.response.possiblyAccepted)), now)
  {
  }

  /** What follows a committed `started` row: exchange, settlement, and the
      choice between returning, raising, retrying and falling back. */
  method FinishAttempt(ledger: TenantLedger, terms: Call, env: Env, c: nat, i: nat, k: nat, number: nat, id: nat,
                       lastBefore: Option<Error>, before: int, ghost conf: int, ghost w: World)
      returns (v: Verdict, last: Option<Error>, now: int, ghost w': World)
    requires Stands(w, c, terms, Sending(i, k), number, lastBefore, before) && i < |terms.candidates|
    requires w.calls[c].rows != [] && w.calls[c].rows[|w.calls[c].rows| - 1] == id
    requires w.ledger == ledger.Value() && id < |ledger.rows|
    modifies ledger
    ensures Drives(conf, env, c, w, w') && w'.ledger == ledger.Value()
    ensures Reached(w', c, terms, i, k, v, number, last, now)
  {
    var e := env.attempts(number);
    ghost var w1 := ExchangeTurns(conf, env, c, w, terms, i, k, number, lastBefore, before);
    w' := SettleTurn(conf, env, c, w1, terms, i, k, number, lastBefore, before + e.sendDelay + e.answerDelay, id,
                     w.ledger,
                     before + e.sendDelay + e.answerDelay + e.settleDelay);
    MoreTurns(conf, env, c, w, w1, w');
    last, now := lastBefore, before + e.sendDelay + e.answerDelay + e.settleDelay;
    var settled := SettleAttempt(ledger, id, SettlementOf(e.response, terms.inputBytes), e.settle, now);
    if !e.response.Failure? || !settled {
      EndsHere(w.ledger, w', c, terms, i, k, number, last, now, id, e);
      v := Done(PlainResult(e.response, settled,
                            Output(number, terms.candidates[i], SettlementOf(e.response, terms.inputBytes))));
      return;
    }
    FailureStands(w.ledger, w', c, terms, i, k, number, last, now, id, e);
    last := Some(Provider(e.response.category, e.response.possiblyAccepted));
    var until;
    v, until := AfterProviderFailure(terms.deadline, e.response, k, e.backoff, now, i);
    if v.NextRetry? && k < MAX_RETRIES {
      ghost var asleep := w';
      w' := WakeTurn(conf, env, c, asleep, terms, i, k, until, number, last, now);
      MoreTurns(conf, env, c, w, asleep, w');
      now := until + e.oversleep;
    }
  }

  ghost predicate BeganBeside(w': World, l: Ledger, c: nat, terms: Call, i: nat, k: nat, number: nat,
                              last: Option<Error>, now: int,
                              r: Result<nat, Error>)
  {
    match r
    case Err(error) => Stands(w', c, terms, Raised(error), number, last, now)
    case Ok(id) =>
      && Stands(w', c, terms, Sending(i, k), number, last, now)
      && w'.calls[c].rows != [] && w'.calls[c].rows[|w'.calls[c].rows| - 1] == id && id < |l.rows|
  }

  lemma BothBegin(w: World, w': World, l': Ledger, c: nat, terms: Call, i: nat, k: nat, number: nat,
                  last: Option<Error>, at: int,
                  checked: Result<Candidate, Error>, begin: WriteResult, r: Result<nat, Error>)
    requires Begun(w, w', c, terms, i, k, number, last, at, checked, begin)
    requires Committed(w.ledger, l', c, number, at, checked, begin, r)
    ensures w'.ledger == l' && BeganBeside(w', l', c, terms, i, k, number, last, at, r)
  {
  }

  /** The begun attempt, beside the machine's. */
  method BeginOnce(ledger: TenantLedger, terms: Call, env: Env, c: nat, i: nat, k: nat, number: nat,
                   ghost last: Option<Error>, before: int, ghost conf: int, ghost w: World)
      returns (r: Result<nat, Error>, now: int, ghost w': World)
    requires w.ledger == ledger.Value() && Stands(w, c, terms, Cleared(i, k), number, last, before)
             && i < |terms.candidates|
    modifies ledger
    ensures Drives(conf, env, c, w, w') && w'.ledger == ledger.Value()
    ensures BeganBeside(w', ledger.Value(), c, terms, i, k, number, last, now, r)
  {
    w' := BeginTurn(conf, env, c, w, terms, i, k, number, last, before);
    now := before + env.attempts(number).beginDelay;
    r := BeginAttempt(ledger, c, number, terms.candidates[i], terms.ask, terms.caps, env.attempts(number), now);
    ghost var e := env.attempts(number);
    ghost var checked := Recheck(terms.candidates[i], e.authorized, e.snapshot, terms.ask, terms.caps);
    BothBegin(w, w', ledger.Value(), c, terms, i, k, number, last, now, checked, e.begin, r);
  }

  /** One pass of the retry loop. */
  method TryOnce(ledger: TenantLedger, terms: Call, env: Env, c: nat, i: nat, k: nat, numberBefore: nat,
                 lastBefore: Option<Error>, before: int, ghost conf: int, ghost w: World)
      returns (v: Verdict, number: nat, last: Option<Error>, now: int, ghost w': World)
    requires w.ledger == ledger.Value() && Stands(w, c, terms, AtAttempt(i, k), numberBefore, lastBefore, before)
    requires i < |terms.candidates| && k <= MAX_RETRIES
    modifies ledger
    ensures Drives(conf, env, c, w, w') && w'.ledger == ledger.Value()
    ensures Reached(w', c, terms, i, k, v, number, last, now)
  {
    number, last := numberBefore, lastBefore;
    w' := DeadlineTurn(conf, env, c, w, terms, i, k, number, last, before);
    now := before + env.attempts(number + 1).checkDelay;
    if now >= terms.deadline {
      v := Done(Err(OrElse(last, DeadlineExpired)));
      return;
    }
    number := number + 1;
    ghost var cleared := w';
    var begun;
    begun, now, w' := BeginOnce(ledger, terms, env, c, i, k, number, last, now, conf, cleared);
    MoreTurns(conf, env, c, w, cleared, w');
    if begun.Err? {
      v := Done(Err(begun.error));
      return;
    }
    ghost var sending := w';
    v, last, now, w' := FinishAttempt(ledger, terms, env, c, i, k, number, begun.value, last, now, conf, sending);
    MoreTurns(conf, env, c, w, sending, w');
  }

  /** The retry loop at one candidate. */
  method RetryCandidate(ledger: TenantLedger, terms: Call, env: Env, c: nat, i: nat, numberBefore: nat,
                        lastBefore: Option<Error>, before: int, ghost conf: int, ghost w: World)
      returns (v: Verdict, number: nat, last: Option<Error>, now: int, ghost w': World)
    requires w.ledger == ledger.Value() && Stands(w, c, terms, AtAttempt(i, 0), numberBefore, lastBefore, before)
    requires i < |terms.candidates|
    modifies ledger
    ensures Drives(conf, env, c, w, w') && w'.ledger == ledger.Value()
    ensures !v.NextRetry? && Reached(w', c, terms, i, 0, v, number, last, now)
  {
    number, last, now, w' := numberBefore, lastBefore, before, w;
    NoTurn(conf, env, c, w);
    var retry := 0;
    ghost var at;
    while retry <= MAX_RETRIES
      invariant 0 <= retry <= MAX_RETRIES + 1
      invariant Drives(conf, env, c, w, w') && w'.ledger == ledger.Value()
      invariant Stands(w', c, terms, AtAttempt(i, retry), number, last, now)
    {
      at := w';
      v, number, last, now, w' := TryOnce(ledger, terms, env, c, i, retry, number, last, now, conf, at);
      MoreTurns(conf, env, c, w, at, w');
      if !v.NextRetry? {
        return;
      }
      retry := retry + 1;
    }
    at := w';
    w' := DeadlineTurn(conf, env, c, at, terms, i, retry, number, last, now);
    MoreTurns(conf, env, c, w, at, w');
    v := NextCandidate;
  }

  /** One pass of the candidate loop: the checks before anything is begun,
      then the retries. */
  method TryCandidateAt(ledger: TenantLedger, terms: Call, env: Env, c: nat, i: nat, numberBefore: nat,
                        lastBefore: Option<Error>, before: int, ghost conf: int, ghost w: World)
      returns (v: Verdict, number: nat, last: Option<Error>, now: int, ghost w': World)
    requires w.ledger == ledger.Value() && Stands(w, c, terms, AtCandidate(i), numberBefore, lastBefore, before)
    requires i < |terms.candidates|
    modifies ledger
    ensures Drives(conf, env, c, w, w') && w'.ledger == ledger.Value()
    ensures !v.NextRetry? && Reached(w', c, terms, i, 0, v, number, last, now)
  {
    number, last, now := numberBefore, lastBefore, before;
    w' := CandidateTurn(conf, env, c, w, terms, i, number, last, now);
    var e := env.candidates(i);
    if e.circuitOpen {
      last, v := Some(CircuitOpen), NextCandidate;
      return;
    }
    if !e.hasAdapter {
      last, v := Some(ProtocolUnsupported), NextCandidate;
      return;
    }
    if !e.credential.Available? {
      v := Done(Err(CredentialUnavailable));
      return;
    }
    ghost var chosen := w';
    v, number, last, now, w' := RetryCandidate(ledger, terms, env, c, i, number, last, now, conf, chosen);
    MoreTurns(conf, env, c, w, chosen, w');
  }

  /** `_attempt_all`. Scheduling the machine's call from the same place with the
      same environment leaves this ledger and this result; by `OutcomeIsUnique`
      no other. */
  method AttemptAll(ledger: TenantLedger, terms: Call, env: Env, c: nat, start: int, ghost conf: int, ghost w: World)
      returns (r: Result<Output, Error>, ghost w': World)
    requires w.ledger == ledger.Value() && Stands(w, c, terms, AtCandidate(0), 0, None, start)
    modifies ledger
    ensures Drives(conf, env, c, w, w') && w'.ledger == ledger.Value()
    ensures Reached(w', c, terms, 0, 0, Done(r), 0, None, 0)
  {
    var number, last, now, i := 0, None, start, 0;
    w' := w;
    NoTurn(conf, env, c, w);
    ghost var at;
    while i < |terms.candidates|
      invariant 0 <= i <= |terms.candidates|
      invariant Drives(conf, env, c, w, w') && w'.ledger == ledger.Value()
      invariant Stands(w', c, terms, AtCandidate(i), number, last, now)
    {
      at := w';
      var v: Verdict;
      v, number, last, now, w' := TryCandidateAt(ledger, terms, env, c, i, number, last, now, conf, at);
      MoreTurns(conf, env, c, w, at, w');
      if v.Done? {
        r := v.result;
        return;
      }
      i := i + 1;
    }
    at := w';
    w' := LastCandidateTurn(conf, env, c, at, terms, i, number, last, now);
    MoreTurns(conf, env, c, w, at, w');
    r := Err(OrElse(last, NoDestinationSucceeded));
  }
}
