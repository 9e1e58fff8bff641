/**
  Every run of one outbox event: dispatch cycles, executions of the run job
  (duplicated, retried by the queue, crashed at any point), outcome writes
  whose acknowledgement may be lost, operator replays and tenant closure, in
  any order (saas_os/api/outbox_dispatcher.py over the transitions of
  OutboxStore). An execution that never acts again has crashed.
 */
module OutboxRuns {
  import opened Common
  import opened Machines
  import opened OutboxExceptions
  import opened OutboxStore

  /** How a consumer's run ended. `NotStarted`: it raised `ExternalEffectNotStartedError`. */
  datatype Outcome = Returned | NotStarted | Raised(exc: Exc) | OutOfTime(exc: Exc)

  datatype Phase = Running | Writing(op: Op, tries: nat) | Ended

  datatype Exec = Exec(token: Token, starter: Starter, phase: Phase, outcome: Option<Outcome>)

  /** An outcome write that changed the event. `atLeastOnce`: it sent a marked
      claim back as an at-least-once delivery. */
  datatype Entry = Entry(exec: nat, token: Token, atLeastOnce: bool)

  datatype World = World(
    row: Row,
    open: bool,
    issued: Token,
    execs: map<nat, Exec>,
    marked: set<nat>,
    sent: set<nat>,
    records: seq<Entry>,
    notSentRetries: nat,
    atLeastOnceRetries: nat,
    replays: nat,
    lateReleases: nat,
    window: Option<nat>,
    lateRetries: nat)

  datatype Action =
    | Claim(at: int)
    | Release(token: Token, at: int)
    | Begin(exec: nat, token: Token, at: int, known: bool)
    | Enter(exec: nat, at: int, result: WriteResult)
    | Send(exec: nat)
    | BlockFails(exec: nat, exc: Exc)
    | Finish(exec: nat, outcome: Outcome)
    | Write(exec: nat, at: int, delay: nat, result: WriteResult)
    | Replay(at: int)
    | Close

  const OUTCOME_WRITE_TRIES := 3

  /** `_run_outbox_event` after the consumer: what to write and how often to try. */
  function Decide(outcome: Outcome, starter: Starter): (r: Phase)
  {
    if outcome.NotStarted? || starter.refused then Ended
    else match outcome
      case Returned => Writing(CompleteOp, 1)
      case OutOfTime(_) => Writing(FailOp(true, None), OUTCOME_WRITE_TRIES)
      case Raised(exc) => Writing(ClassifyFailure(exc, starter), OUTCOME_WRITE_TRIES)
      case NotStarted => Ended
  }

  // --- steps ----------------------------------------------------------------------

  function ClaimStep(cfg: Config, w: World, at: int): (r: World)
  {
    if w.open then w.(row := Claimed(w.row, cfg, at, w.issued), issued := w.issued + 1) else w
  }

  function ReleaseStep(cfg: Config, w: World, t: Token, at: int): (r: World)
  {
    w.(row := Released(w.row, cfg, t, at),
       lateReleases := w.lateReleases + if Owned(w.row, t) && MarkedBy(w.row, t) then 1 else 0)
  }

  /** A retry that starts after the idempotency window its consumer declared. */
  predicate PastWindow(w: World, at: int)
  {
    w.row.attempts > 1 && w.window.Some? && at >= w.row.createdAt + w.window.value
  }

  function BeginStep(cfg: Config, w: World, e: nat, t: Token, at: int, known: bool): (r: World)
  {
    if e in w.execs || t >= w.issued then w
    else if Begins(w.row, t, at, w.open) then
      w.(row := Begun(w.row, cfg, t, at, w.open),
         execs := w.execs[e := Exec(t, Starter(false, false, None),
                                    if known then Running else Writing(FailOp(true, None), 1), None)],
         lateRetries := w.lateRetries + if PastWindow(w, at) then 1 else 0)
    else w.(row := Begun(w.row, cfg, t, at, w.open))
  }

  predicate IsRunning(w: World, e: nat)
  {
    e in w.execs && w.execs[e].phase.Running?
  }

  /** The marker's UPDATE may fail, or commit and lose its acknowledgement: then
      the execution knows of neither a marker nor a refusal. */
  function EnterStep(cfg: Config, w: World, e: nat, at: int, result: WriteResult): (r: World)
  {
    if !IsRunning(w, e) || w.execs[e].starter.started || !cfg.markers || result.NotCommitted? then w
    else
      var x := w.execs[e];
      var written := Markable(w.row, cfg, x.token, at);
      var stored := w.(row := Marked(w.row, cfg, x.token, at));
      if !result.Acknowledged? then stored
      else if written then
        stored.(execs := w.execs[e := x.(starter := x.starter.(started := true))], marked := w.marked + {e})
      else
        stored.(execs := w.execs[e := x.(starter := x.starter.(refused := true))])
  }

  function SendStep(cfg: Config, w: World, e: nat): (r: World)
  {
    if IsRunning(w, e) && (w.execs[e].starter.started || !cfg.markers) then w.(sent := w.sent + {e}) else w
  }

  function BlockFailsStep(w: World, e: nat, exc: Exc): (r: World)
  {
    if !IsRunning(w, e) then w
    else
      var x := w.execs[e];
      w.(execs := w.execs[e := x.(starter := x.starter.(block := Some(exc)))])
  }

  function FinishStep(w: World, e: nat, outcome: Outcome): (r: World)
  {
    if !IsRunning(w, e) then w
    else
      var x := w.execs[e];
      w.(execs := w.execs[e := x.(phase := Decide(outcome, x.starter), outcome := Some(outcome))])
  }

  function AfterTry(op: Op, tries: nat, result: WriteResult): (r: Phase)
  {
    if result.Acknowledged? || tries <= 1 then Ended else Writing(op, tries - 1)
  }

  function WriteStep(cfg: Config, w: World, e: nat, at: int, delay: nat, result: WriteResult): (r: World)
  {
    if e !in w.execs || !w.execs[e].phase.Writing? then w
    else
      var x := w.execs[e];
      var op := x.phase.op;
      var tried := w.(execs := w.execs[e := x.(phase := AfterTry(op, x.phase.tries, result))]);
      if result.NotCommitted? || !Owned(w.row, x.token) then tried
      else
        var row := Recorded(w.row, cfg, x.token, at, op, delay);
        var credited := MarkedBy(w.row, x.token) && row.status == Pending;
        tried.(row := row,
               records := w.records + [Entry(e, x.token, credited && op.AmbiguousOp?)],
               notSentRetries := w.notSentRetries + if credited && op.ConfirmOp? then 1 else 0,
               atLeastOnceRetries := w.atLeastOnceRetries + if credited && op.AmbiguousOp? then 1 else 0,
               window := if op.AmbiguousOp? && op.outcome.policy.Within? && !MarkedBy(w.row, x.token)
                         then Some(op.outcome.policy.period) else w.window)
  }

  function ReplayStep(w: World, at: int): (r: World)
  {
    w.(row := Replayed(w.row, at, w.open),
       replays := w.replays + if w.open && w.row.status == DeadLettered then 1 else 0)
  }

  function Step(cfg: Config, w: World, a: Action): (r: World)
  {
    match a
    case Claim(at) => ClaimStep(cfg, w, at)
    case Release(t, at) => ReleaseStep(cfg, w, t, at)
    case Begin(e, t, at, known) => BeginStep(cfg, w, e, t, at, known)
    case Enter(e, at, result) => EnterStep(cfg, w, e, at, result)
    case Send(e) => SendStep(cfg, w, e)
    case BlockFails(e, exc) => BlockFailsStep(w, e, exc)
    case Finish(e, outcome) => FinishStep(w, e, outcome)
    case Write(e, at, delay, result) => WriteStep(cfg, w, e, at, delay, result)
    case Replay(at) => ReplayStep(w, at)
    case Close => w.(open := false)
  }

  function Steps(cfg: Config): (r: (World, Action) -> World)
  {
    (w: World, a: Action) => Step(cfg, w, a)
  }

  function Start(at: int): (r: World)
  {
    World(Row(Pending, 0, None, None, at, None, at), true, 0, map[], {}, {}, [], 0, 0, 0, 0, None, 0)
  }

  // --- what every step keeps ---------------------------------------------------------

  /** Retries that the store credited, replays, and claims given back after a marker. */
  function Allowances(w: World): (r: nat)
  {
    w.notSentRetries + w.atLeastOnceRetries + w.replays + w.lateReleases
  }

  /** A current or future claim may still commit a marker. */
  predicate MayMark(w: World)
  {
    && w.row.status == Pending
    && (w.row.claim.Some? || w.open)
    && !(w.row.claim.Some? && MarkedBy(w.row, w.row.claim.value))
  }

  ghost predicate TokensInv(w: World)
  {
    && (w.row.claim.Some? ==> w.row.claim.value < w.issued && forall r :: r in w.records ==>
          r.token != w.row.claim.value)
    && (w.row.marker.Some? ==> w.row.marker.value < w.issued)
    && (forall e :: e in w.execs ==> w.execs[e].token < w.issued)
    && (forall r :: r in w.records ==> r.token < w.issued)
    && (forall i, j :: 0 <= i < j < |w.records| ==> w.records[i].token != w.records[j].token)
    && (w.row.status != Pending ==> w.row.claim.None?)
  }

  ghost predicate AttemptsInv(cfg: Config, w: World)
  {
    && w.row.attempts <= cfg.maxAttempts
    && (w.row.claim.Some? ==> w.row.attempts >= 1)
  }

  ghost predicate MarkersInv(w: World)
  {
    && w.sent <= w.marked
    && (forall e :: e in w.marked <==> e in w.execs && w.execs[e].starter.started)
    && |w.marked| <= 1 + Allowances(w)
    && (MayMark(w) ==> |w.marked| <= Allowances(w))
  }

  ghost predicate OutcomesInv(w: World)
  {
    && (forall e :: e in w.execs && w.execs[e].phase.Writing? ==>
          !w.execs[e].starter.refused && 1 <= w.execs[e].phase.tries <= OUTCOME_WRITE_TRIES)
    && (forall r :: r in w.records ==>
          && r.exec in w.execs && w.execs[r.exec].token == r.token
          && !w.execs[r.exec].starter.refused && !w.execs[r.exec].phase.Running?)
  }

  ghost predicate WindowInv(w: World)
  {
    && (w.window.Some? ==> w.row.retryUntil == Some(StoredDeadline(w.row.createdAt + w.window.value)))
    && w.lateRetries == 0
  }

  ghost predicate Inv(cfg: Config, w: World)
  {
    && TokensInv(w)
    && AttemptsInv(cfg, w)
    && (cfg.markers ==> MarkersInv(w))
    && OutcomesInv(w)
    && WindowInv(w)
  }

  /** `Inv` as a value. */
  ghost function Safe(cfg: Config): (r: World -> bool)
  {
    (w: World) => Inv(cfg, w)
  }

  lemma RecordAddsEntry(w: World, e: Entry)
    requires TokensInv(w) && w.row.claim == Some(e.token)
    ensures var s := w.records + [e]; forall i, j :: 0 <= i < j < |s| ==> s[i].token != s[j].token
  {
    var s := w.records + [e];
    forall i, j | 0 <= i < j < |s|
      ensures s[i].token != s[j].token
    {
      assert w.records[i] in w.records;
    }
  }

  /** The write of `e` changes the event. */
  predicate WriteCounts(w: World, e: nat, result: WriteResult)
  {
    e in w.execs && w.execs[e].phase.Writing? && !result.NotCommitted? && Owned(w.row, w.execs[e].token)
  }

  /** What an owner's outcome write does to the row, whichever it is. */
  lemma RecordedShape(row: Row, cfg: Config, t: Token, at: int, op: Op, delay: nat)
    requires Owned(row, t)
    ensures var r := Recorded(row, cfg, t, at, op, delay);
            && r.claim.None? && r.attempts == row.attempts && r.createdAt == row.createdAt
            && (r.marker.None? || r.marker == row.marker)
            && (r.retryUntil == (if op.AmbiguousOp? && op.outcome.policy.Within? && !MarkedBy(row, t)
                                 then Some(StoredDeadline(row.createdAt + op.outcome.policy.period))
                                   else row.retryUntil))
    ensures Recorded(row, cfg, t, at, op, delay).status == Pending && MarkedBy(row, t) ==>
              op.ConfirmOp? || op.AmbiguousOp?
  {
  }

  lemma WriteKeepsTokens(cfg: Config, w: World, e: nat, at: int, delay: nat, result: WriteResult)
    requires TokensInv(w) && WriteCounts(w, e, result)
    ensures TokensInv(WriteStep(cfg, w, e, at, delay, result))
  {
    var x := w.execs[e];
    var w' := WriteStep(cfg, w, e, at, delay, result);
    RecordAddsEntry(w, w'.records[|w.records|]);
    RecordedShape(w.row, cfg, x.token, at, x.phase.op, delay);
  }

  lemma WriteKeepsMarkers(cfg: Config, w: World, e: nat, at: int, delay: nat, result: WriteResult)
    requires MarkersInv(w) && WriteCounts(w, e, result)
    ensures MarkersInv(WriteStep(cfg, w, e, at, delay, result))
  {
    var x := w.execs[e];
    RecordedShape(w.row, cfg, x.token, at, x.phase.op, delay);
  }

  lemma WriteKeepsOutcomes(cfg: Config, w: World, e: nat, at: int, delay: nat, result: WriteResult)
    requires OutcomesInv(w) && WriteCounts(w, e, result)
    ensures OutcomesInv(WriteStep(cfg, w, e, at, delay, result))
  {
    var w' := WriteStep(cfg, w, e, at, delay, result);
    assert w'.execs.Keys == w.execs.Keys;
    forall r | r in w'.records
      ensures r in w.records || (r.exec == e && r.token == w.execs[e].token)
    {
    }
  }

  lemma WriteKeepsInv(cfg: Config, w: World, e: nat, at: int, delay: nat, result: WriteResult)
    requires Safe(cfg)(w)
    ensures Safe(cfg)(WriteStep(cfg, w, e, at, delay, result))
  {
    if WriteCounts(w, e, result) {
      WriteKeepsTokens(cfg, w, e, at, delay, result);
      if cfg.markers {
        WriteKeepsMarkers(cfg, w, e, at, delay, result);
      }
      WriteKeepsOutcomes(cfg, w, e, at, delay, result);
      RecordedShape(w.row, cfg, w.execs[e].token, at, w.execs[e].phase.op, delay);
    }
  }

  lemma MarkerIsNew(cfg: Config, w: World, e: nat, at: int)
    requires MarkersInv(w) && IsRunning(w, e) && !w.execs[e].starter.started
             && Markable(w.row, cfg, w.execs[e].token, at)
    ensures MayMark(w) && e !in w.marked && |w.marked + {e}| == |w.marked| + 1
  {
  }

  lemma MarkerKeepsTokens(cfg: Config, w: World, e: nat, at: int, result: WriteResult)
    requires TokensInv(w) && AttemptsInv(cfg, w) && WindowInv(w)
    ensures var w' := EnterStep(cfg, w, e, at, result); TokensInv(w') && AttemptsInv(cfg, w') && WindowInv(w')
  {
  }

  lemma MarkerKeepsOutcomes(cfg: Config, w: World, e: nat, at: int, result: WriteResult)
    requires OutcomesInv(w)
    ensures OutcomesInv(EnterStep(cfg, w, e, at, result))
  {
  }

  lemma MarkerKeepsMarkers(cfg: Config, w: World, e: nat, at: int, result: WriteResult)
    requires cfg.markers && MarkersInv(w)
    ensures MarkersInv(EnterStep(cfg, w, e, at, result))
  {
    if IsRunning(w, e) && !w.execs[e].starter.started && Markable(w.row, cfg, w.execs[e].token, at) {
      MarkerIsNew(cfg, w, e, at);
    }
  }

  lemma EnterKeepsInv(cfg: Config, w: World, e: nat, at: int, result: WriteResult)
    requires Safe(cfg)(w)
    ensures Safe(cfg)(EnterStep(cfg, w, e, at, result))
  {
    MarkerKeepsTokens(cfg, w, e, at, result);
    MarkerKeepsOutcomes(cfg, w, e, at, result);
    if cfg.markers {
      MarkerKeepsMarkers(cfg, w, e, at, result);
    }
  }

  lemma ClaimKeepsInv(cfg: Config, w: World, at: int)
    requires Safe(cfg)(w)
    ensures Safe(cfg)(ClaimStep(cfg, w, at))
  {
  }

  lemma ReleaseKeepsInv(cfg: Config, w: World, t: Token, at: int)
    requires Safe(cfg)(w)
    ensures Safe(cfg)(ReleaseStep(cfg, w, t, at))
  {
  }

  lemma BeginKeepsTokens(cfg: Config, w: World, e: nat, t: Token, at: int, known: bool)
    requires TokensInv(w) && AttemptsInv(cfg, w)
    ensures var w' := BeginStep(cfg, w, e, t, at, known); TokensInv(w') && AttemptsInv(cfg, w')
  {
  }

  lemma BeginKeepsMarkers(cfg: Config, w: World, e: nat, t: Token, at: int, known: bool)
    requires MarkersInv(w)
    ensures MarkersInv(BeginStep(cfg, w, e, t, at, known))
  {
  }

  lemma BeginKeepsOutcomes(cfg: Config, w: World, e: nat, t: Token, at: int, known: bool)
    requires OutcomesInv(w) && WindowInv(w)
    ensures var w' := BeginStep(cfg, w, e, t, at, known); OutcomesInv(w') && WindowInv(w')
  {
  }

  lemma BeginKeepsInv(cfg: Config, w: World, e: nat, t: Token, at: int, known: bool)
    requires Safe(cfg)(w)
    ensures Safe(cfg)(BeginStep(cfg, w, e, t, at, known))
  {
    BeginKeepsTokens(cfg, w, e, t, at, known);
    BeginKeepsOutcomes(cfg, w, e, t, at, known);
    if cfg.markers {
      BeginKeepsMarkers(cfg, w, e, t, at, known);
    }
  }

  lemma SendKeepsInv(cfg: Config, w: World, e: nat)
    requires Safe(cfg)(w)
    ensures Safe(cfg)(SendStep(cfg, w, e))
  {
  }

  lemma BlockFailsKeepsInv(cfg: Config, w: World, e: nat, exc: Exc)
    requires Safe(cfg)(w)
    ensures Safe(cfg)(BlockFailsStep(w, e, exc))
  {
  }

  lemma FinishKeepsInv(cfg: Config, w: World, e: nat, outcome: Outcome)
    requires Safe(cfg)(w)
    ensures Safe(cfg)(FinishStep(w, e, outcome))
  {
  }

  lemma StepKeepsInv(cfg: Config, w: World, a: Action)
    requires Safe(cfg)(w)
    ensures Safe(cfg)(Step(cfg, w, a))
  {
    match a {
      case Claim(at) => ClaimKeepsInv(cfg, w, at);
      case Release(t, at) => ReleaseKeepsInv(cfg, w, t, at);
      case Begin(e, t, at, known) => BeginKeepsInv(cfg, w, e, t, at, known);
      case Enter(e, at, result) => EnterKeepsInv(cfg, w, e, at, result);
      case Send(e) => SendKeepsInv(cfg, w, e);
      case BlockFails(e, exc) => BlockFailsKeepsInv(cfg, w, e, exc);
      case Finish(e, outcome) => FinishKeepsInv(cfg, w, e, outcome);
      case Write(e, at, delay, result) => WriteKeepsInv(cfg, w, e, at, delay, result);
      case Replay(_) =>
      case Close =>
    }
  }

  lemma {:induction false} RunKeepsInv(cfg: Config, at: int, actions: seq<Action>)
    ensures Inv(cfg, Run(Steps(cfg), Start(at), actions))
  {
    if actions != [] {
      RunKeepsInv(cfg, at, actions[..|actions| - 1]);
      StepKeepsInv(cfg, Run(Steps(cfg), Start(at), actions[..|actions| - 1]), actions[|actions| - 1]);
    }
  }

  // --- main results ---------------------------------------------------------------------

  lemma SubsetCardinality<T>(a: set<T>, b: set<T>)
    requires a <= b
    ensures |a| <= |b|
  {
    if a != {} {
      var x :| x in a;
      SubsetCardinality(a - {x}, b - {x});
    }
  }

  /** With markers on, the external effects started for one event are at most
      one, plus the retries the store credited, plus the operator's replays,
      plus the claims released after their marker. */
  lemma EffectsAreBounded(cfg: Config, at: int, actions: seq<Action>)
    requires cfg.markers
    ensures var w := Run(Steps(cfg), Start(at), actions);
            |w.sent| <= 1 + w.notSentRetries + w.atLeastOnceRetries + w.replays + w.lateReleases
  {
    RunKeepsInv(cfg, at, actions);
    var w := Run(Steps(cfg), Start(at), actions);
    SubsetCardinality(w.sent, w.marked);
  }

  /** The guard of the one branch that takes a marker back uncredited: no claim
      is released while it carries its marker. */
  ghost predicate NoLateRelease(cfg: Config, at: int, actions: seq<Action>)
  {
    forall i :: 0 <= i < |actions| && actions[i].Release? ==>
      var row := Run(Steps(cfg), Start(at), actions[..i]).row;
      !(Owned(row, actions[i].token) && MarkedBy(row, actions[i].token))
  }

  lemma StepCountsLateReleases(cfg: Config, w: World, a: Action)
    ensures Step(cfg, w, a).lateReleases
         == w.lateReleases + if a.Release? && Owned(w.row, a.token) && MarkedBy(w.row, a.token) then 1 else 0
  {
  }

  lemma {:induction false} LateReleasesAreCounted(cfg: Config, at: int, actions: seq<Action>)
    ensures Run(Steps(cfg), Start(at), actions).lateReleases == 0 <==> NoLateRelease(cfg, at, actions)
  {
    if actions != [] {
      var n := |actions| - 1;
      var before := actions[..n];
      assert forall i :: 0 <= i < n ==> before[..i] == actions[..i] && before[i] == actions[i];
      LateReleasesAreCounted(cfg, at, before);
      StepCountsLateReleases(cfg, Run(Steps(cfg), Start(at), before), actions[n]);
      assert NoLateRelease(cfg, at, actions) ==> NoLateRelease(cfg, at, before);
    }
  }

  /** The documented bound: every run in which no claim is released while it
      carries its marker. */
  lemma EffectsAreBoundedByCredits(cfg: Config, at: int, actions: seq<Action>)
    requires cfg.markers && NoLateRelease(cfg, at, actions)
    ensures var w := Run(Steps(cfg), Start(at), actions);
            |w.sent| <= 1 + w.notSentRetries + w.atLeastOnceRetries + w.replays
  {
    EffectsAreBounded(cfg, at, actions);
    LateReleasesAreCounted(cfg, at, actions);
  }

  /** A failed hand-off means that the job does not run: a claim is given back
      only while no execution holds its token. */
  ghost predicate HandOffsAreHonest(cfg: Config, at: int, actions: seq<Action>)
  {
    forall i :: 0 <= i < |actions| && actions[i].Release? ==>
      var w := Run(Steps(cfg), Start(at), actions[..i]);
      forall e :: e in w.execs ==> w.execs[e].token != actions[i].token
  }

  /** The current claim's marker was written by an execution of that claim. */
  ghost predicate MarkerHasExec(w: World)
  {
    w.row.claim.Some? && MarkedBy(w.row, w.row.claim.value) ==>
      exists e :: e in w.execs && w.execs[e].token == w.row.claim.value
  }

  lemma ExecsStay(cfg: Config, w: World, a: Action, e: nat)
    requires e in w.execs
    ensures e in Step(cfg, w, a).execs && Step(cfg, w, a).execs[e].token == w.execs[e].token
  {
  }

  /** Only an entry marks a claim, and it marks its own. */
  lemma OnlyEnterMarks(cfg: Config, w: World, a: Action)
    requires TokensInv(w)
    requires var row := Step(cfg, w, a).row; row.claim.Some? && MarkedBy(row, row.claim.value)
    ensures var row := Step(cfg, w, a).row;
            || (w.row.claim == row.claim && w.row.marker == row.marker)
            || (a.Enter? && IsRunning(w, a.exec) && w.execs[a.exec].token == row.claim.value)
  {
  }

  lemma StepKeepsMarkerExec(cfg: Config, w: World, a: Action)
    requires Safe(cfg)(w) && MarkerHasExec(w)
    ensures MarkerHasExec(Step(cfg, w, a))
  {
    var row := Step(cfg, w, a).row;
    if row.claim.Some? && MarkedBy(row, row.claim.value) {
      OnlyEnterMarks(cfg, w, a);
      if w.row.claim == row.claim && w.row.marker == row.marker {
        var e :| e in w.execs && w.execs[e].token == w.row.claim.value;
        ExecsStay(cfg, w, a, e);
      } else {
        ExecsStay(cfg, w, a, a.exec);
      }
    }
  }

  /** Honest hand-offs are enough for it. */
  lemma {:induction false} HonestHandOffsAreNeverLate(cfg: Config, at: int, actions: seq<Action>)
    requires HandOffsAreHonest(cfg, at, actions)
    ensures MarkerHasExec(Run(Steps(cfg), Start(at), actions))
    ensures NoLateRelease(cfg, at, actions)
  {
    if actions != [] {
      var n := |actions| - 1;
      var before := actions[..n];
      assert forall i :: 0 <= i < n ==> before[..i] == actions[..i] && before[i] == actions[i];
      HonestHandOffsAreNeverLate(cfg, at, before);
      RunKeepsInv(cfg, at, before);
      StepKeepsMarkerExec(cfg, Run(Steps(cfg), Start(at), before), actions[n]);
      forall i | 0 <= i < |actions| && actions[i].Release?
        ensures var row := Run(Steps(cfg), Start(at), actions[..i]).row;
                !(Owned(row, actions[i].token) && MarkedBy(row, actions[i].token))
      {
        assert i < n ==> before[i].Release?;
      }
    }
  }

  /** What the store credited: the documented allowance. */
  function Credits(w: World): (r: nat)
  {
    w.notSentRetries + w.atLeastOnceRetries + w.replays
  }

  /** The guard is needed: from any reachable state that has used its allowance,
      releasing the marked claim lets one more effect start than the documented
      bound allows -- while the tenant is open and no idempotency window has
      ended when the next attempt is due. */
  lemma LateReleaseBreaksTheBound(cfg: Config, at: int, before: seq<Action>, t: Token, now: int)
      returns (rest: seq<Action>)
    requires cfg.markers && cfg.lease > 2
    requires var w := Run(Steps(cfg), Start(at), before);
             && w.open && Owned(w.row, t) && MarkedBy(w.row, t) && |w.sent| == 1 + Credits(w)
             && (w.row.retryUntil.None? || w.row.attempts == 1 || now + cfg.enqueueRetry < w.row.retryUntil.value)
    ensures var w := Run(Steps(cfg), Start(at), before + [Release(t, now)] + rest); |w.sent| > 1 + Credits(w)
  {
    RunKeepsInv(cfg, at, before);
    var w := Run(Steps(cfg), Start(at), before);
    var w1 := Step(cfg, w, Release(t, now));
    RunSnoc(Steps(cfg), Start(at), before, Release(t, now));
    var e := FreshExec(w1.execs.Keys);
    assert e !in w1.sent;
    var w2;
    w2, rest := RunOneEffect(cfg, w1, e, now + cfg.enqueueRetry);
    RunConcat(Steps(cfg), Start(at), before + [Release(t, now)], rest);
  }

  lemma FreshExec(used: set<nat>) returns (e: nat)
    ensures e !in used && forall x :: x in used ==> x < e
  {
    if used == {} {
      e := 0;
    } else {
      var x :| x in used;
      var f := FreshExec(used - {x});
      e := if f <= x then x + 1 else f;
      forall y | y in used
        ensures y < e
      {
        assert y == x || y in used - {x};
      }
    }
  }

  /** And the count of late releases is the exact price: the queue accepts the
      job, the hand-off still raises, the job marks and sends, then the claim is
      given back -- marker, attempt and all -- and the next claim sends again;
      any number of times, for any configuration. */
  lemma LateReleasesRepeatTheEffect(cfg: Config, n: nat) returns (actions: seq<Action>)
    requires cfg.markers && cfg.lease > 2 && cfg.maxAttempts >= 1
    ensures var w := Run(Steps(cfg), Start(0), actions);
            w.lateReleases == n && |w.sent| == n + 1 && Credits(w) == 0
  {
    var before := ReleasedRounds(cfg, n);
    var w := Run(Steps(cfg), Start(0), before);
    var w', last := RunOneEffect(cfg, w, n, Gap(cfg, n));
    actions := before + last;
    RunConcat(Steps(cfg), Start(0), before, last);
    assert w'.sent == w.sent + {n} && n !in w.sent;
  }

  /** When round `n` begins: after the retry delay of the release before it. */
  function Gap(cfg: Config, n: nat): (r: nat)
  {
    n * (cfg.enqueueRetry + 4)
  }

  /** After `n` rounds the row is as it was at first, but for its next attempt. */
  ghost predicate AfterRounds(cfg: Config, w: World, n: nat)
  {
    && w.open && w.issued == n && w.lateReleases == n && |w.sent| == n && w.window.None?
    && w.row.(nextAttempt := 0) == Start(0).row && w.row.nextAttempt <= Gap(cfg, n)
    && (forall e :: e in w.execs ==> e < n) && (forall e :: e in w.sent ==> e < n)
    && Credits(w) == 0
  }

  lemma OneMoreRound(cfg: Config, w: World, k: nat) returns (round: seq<Action>)
    requires cfg.markers && cfg.lease > 2 && cfg.maxAttempts >= 1 && AfterRounds(cfg, w, k)
    ensures AfterRounds(cfg, Run(Steps(cfg), w, round), k + 1)
  {
    var w', effect := RunOneEffect(cfg, w, k, Gap(cfg, k));
    RunSnoc(Steps(cfg), w, effect, Release(k, Gap(cfg, k) + 3));
    round := effect + [Release(k, Gap(cfg, k) + 3)];
    ReleaseEndsRound(cfg, w, w', k);
  }

  lemma ReleaseEndsRound(cfg: Config, w: World, w': World, k: nat)
    requires AfterRounds(cfg, w, k)
    requires w'.open && w'.sent == w.sent + {k} && w'.issued == k + 1 && w'.window.None?
    requires w'.execs == w.execs[k := Exec(k, Starter(false, true, None), Running, None)]
    requires w'.row == w.row.(attempts := 1, claim := Some(k), marker := Some(k), nextAttempt := w'.row.nextAttempt)
    requires Credits(w') == 0 && w'.lateReleases == k
    ensures AfterRounds(cfg, Step(cfg, w', Release(k, Gap(cfg, k) + 3)), k + 1)
  {
    assert Gap(cfg, k + 1) == Gap(cfg, k) + cfg.enqueueRetry + 4;
    assert k !in w.sent;
  }

  lemma {:induction false} ReleasedRounds(cfg: Config, n: nat) returns (actions: seq<Action>)
    requires cfg.markers && cfg.lease > 2 && cfg.maxAttempts >= 1
    ensures AfterRounds(cfg, Run(Steps(cfg), Start(0), actions), n)
  {
    actions := [];
    if n > 0 {
      var before := ReleasedRounds(cfg, n - 1);
      var round := OneMoreRound(cfg, Run(Steps(cfg), Start(0), before), n - 1);
      RunConcat(Steps(cfg), Start(0), before, round);
      actions := before + round;
    }
  }

  /** One claim, one execution, its marker and its effect. */
  lemma RunOneEffect(cfg: Config, w: World, e: nat, at: int) returns (w': World, actions: seq<Action>)
    requires cfg.markers && cfg.lease > 2 && w.open && e !in w.execs
    requires Due(w.row, at) && w.row.claim.None? && w.row.marker.None? && w.row.attempts < cfg.maxAttempts
    requires w.row.retryUntil.None? || w.row.attempts == 0 || at < w.row.retryUntil.value
    ensures w' == Run(Steps(cfg), w, actions)
    ensures w'.open && w'.sent == w.sent + {e} && w'.issued == w.issued + 1 && w'.window == w.window
    ensures w'.execs == w.execs[e := Exec(w.issued, Starter(false, true, None), Running, None)]
    ensures w'.row == w.row.(attempts := w.row.attempts + 1, claim := Some(w.issued), marker := Some(w.issued),
                             nextAttempt := at + 2 + cfg.lease)
    ensures Credits(w') == Credits(w) && w'.lateReleases == w.lateReleases && w'.records == w.records
  {
    var t := w.issued;
    var begin, enter := Begin(e, t, at, true), Enter(e, at + 2, Acknowledged);
    var w1 := Step(cfg, w, Claim(at));
    var w2 := Step(cfg, w1, begin);
    var w3 := Step(cfg, w2, enter);
    w' := Step(cfg, w3, Send(e));
    actions := [] + [Claim(at)] + [begin] + [enter] + [Send(e)];
    RunSnoc(Steps(cfg), w, [], Claim(at));
    RunSnoc(Steps(cfg), w, [] + [Claim(at)], begin);
    RunSnoc(Steps(cfg), w, [] + [Claim(at)] + [begin], enter);
    RunSnoc(Steps(cfg), w, [] + [Claim(at)] + [begin] + [enter], Send(e));
  }

  /** Over every run: one claim decides the event at most once, however often
      its job is duplicated or its write repeated; an execution whose marker
      was refused records nothing; a failure is tried at most three times; no
      attempt beyond the budget is claimed; and no retry starts after the
      idempotency window its consumer declared. */
  lemma OutcomesAreRecordedOnce(cfg: Config, at: int, actions: seq<Action>, i: nat, j: nat)
    requires i < j < |Run(Steps(cfg), Start(at), actions).records|
    ensures var w := Run(Steps(cfg), Start(at), actions);
            && w.records[i].token != w.records[j].token
            && w.records[i].exec != w.records[j].exec
  {
    RunKeepsInv(cfg, at, actions);
    var w := Run(Steps(cfg), Start(at), actions);
    assert w.records[i] in w.records && w.records[j] in w.records;
  }

  lemma RefusedRecordsNothing(cfg: Config, at: int, actions: seq<Action>, e: nat)
    requires e in Run(Steps(cfg), Start(at), actions).execs
    requires Run(Steps(cfg), Start(at), actions).execs[e].starter.refused
    ensures forall r :: r in Run(Steps(cfg), Start(at), actions).records ==> r.exec != e
    ensures !Run(Steps(cfg), Start(at), actions).execs[e].phase.Writing?
  {
    RunKeepsInv(cfg, at, actions);
  }

  lemma RetriesStayInBounds(cfg: Config, at: int, actions: seq<Action>)
    ensures var w := Run(Steps(cfg), Start(at), actions);
            w.row.attempts <= cfg.maxAttempts && w.lateRetries == 0
  {
    RunKeepsInv(cfg, at, actions);
  }

  // --- what an at-least-once credit rests on -----------------------------------------------

  /** What an execution writes is what its consumer's end led to. */
  predicate Caused(x: Exec)
  {
    && (x.phase.Running? ==> x.outcome.None?)
    && (x.phase.Writing? ==>
          if x.outcome.None? then x.phase.op.FailOp?
          else Decide(x.outcome.value, x.starter).Writing? && Decide(x.outcome.value, x.starter).op == x.phase.op)
  }

  predicate DecidedAtLeastOnce(x: Exec)
  {
    && x.outcome.Some? && !x.phase.Running?
    && var d := Decide(x.outcome.value, x.starter);
       d.Writing? && d.op.AmbiguousOp? && d.op.outcome.policy.AtLeastOnce?
  }

  ghost predicate CausesInv(w: World)
  {
    && (forall e :: e in w.execs ==> Caused(w.execs[e]))
    && (forall r :: r in w.records && r.atLeastOnce ==> r.exec in w.execs && DecidedAtLeastOnce(w.execs[r.exec]))
  }

  /** Outside the write step, records stay and decided executions stay as they are. */
  lemma DecidedStay(cfg: Config, w: World, a: Action, e: nat)
    requires !a.Write? && e in w.execs && !w.execs[e].phase.Running?
    ensures e in Step(cfg, w, a).execs && Step(cfg, w, a).execs[e] == w.execs[e]
  {
  }

  lemma OthersAreCaused(cfg: Config, w: World, a: Action, e: nat)
    requires CausesInv(w) && !a.Write? && e in Step(cfg, w, a).execs
    ensures Caused(Step(cfg, w, a).execs[e])
  {
    if e in w.execs {
      assert Caused(w.execs[e]);
    }
  }

  lemma RecordsStay(cfg: Config, w: World, a: Action)
    requires !a.Write?
    ensures Step(cfg, w, a).records == w.records
  {
  }

  lemma OtherStepsKeepCauses(cfg: Config, w: World, a: Action)
    requires CausesInv(w) && !a.Write?
    ensures CausesInv(Step(cfg, w, a))
  {
    RecordsStay(cfg, w, a);
    forall e | e in Step(cfg, w, a).execs
      ensures Caused(Step(cfg, w, a).execs[e])
    {
      OthersAreCaused(cfg, w, a, e);
    }
    forall r | r in w.records && r.atLeastOnce
      ensures r.exec in Step(cfg, w, a).execs && DecidedAtLeastOnce(Step(cfg, w, a).execs[r.exec])
    {
      DecidedStay(cfg, w, a, r.exec);
    }
  }

  lemma WriteKeepsCauses(cfg: Config, w: World, e: nat, at: int, delay: nat, result: WriteResult)
    requires CausesInv(w)
    ensures CausesInv(WriteStep(cfg, w, e, at, delay, result))
  {
    if e in w.execs && w.execs[e].phase.Writing? {
      var x := w.execs[e];
      assert Caused(x);
      if WriteCounts(w, e, result) {
        WriteCredits(cfg, w, e, at, delay, result);
      }
    }
  }

  lemma WriteCredits(cfg: Config, w: World, e: nat, at: int, delay: nat, result: WriteResult)
    requires WriteCounts(w, e, result)
    ensures var w' := WriteStep(cfg, w, e, at, delay, result);
            var op := w.execs[e].phase.op;
            && |w'.records| == |w.records| + 1 && w'.records[..|w.records|] == w.records
            && var r := w'.records[|w.records|];
               r.exec == e && (r.atLeastOnce ==> op.AmbiguousOp? && op.outcome.policy.AtLeastOnce?)
  {
  }

  lemma {:induction false} RunKeepsCauses(cfg: Config, at: int, actions: seq<Action>)
    ensures CausesInv(Run(Steps(cfg), Start(at), actions))
  {
    if actions != [] {
      var n := |actions| - 1;
      RunKeepsCauses(cfg, at, actions[..n]);
      var w, a := Run(Steps(cfg), Start(at), actions[..n]), actions[n];
      if a.Write? {
        WriteKeepsCauses(cfg, w, a.exec, a.at, a.delay, a.result);
      } else {
        OtherStepsKeepCauses(cfg, w, a);
      }
    }
  }

  /** Over every run: an at-least-once credit recorded by the execution that
      wrote the marker rests on an exception whose every leaf declares it, and
      so does every leaf of a block exception that shares one with it. */
  lemma CreditedByTheMarkerDeclares(cfg: Config, at: int, actions: seq<Action>, r: Entry)
    requires r in Run(Steps(cfg), Start(at), actions).records && r.atLeastOnce
    requires r.exec in Run(Steps(cfg), Start(at), actions).execs
             && Run(Steps(cfg), Start(at), actions).execs[r.exec].starter.started
    ensures var x := Run(Steps(cfg), Start(at), actions).execs[r.exec];
            && x.outcome.Some? && x.outcome.value.Raised?
            && EveryLeafAtLeastOnce(x.outcome.value.exc)
            && BlockGroupDeclaresOnlyAtLeastOnce(x.outcome.value.exc, x.starter.block)
  {
    RunKeepsCauses(cfg, at, actions);
    assert DecidedAtLeastOnce(Run(Steps(cfg), Start(at), actions).execs[r.exec]);
  }

  /** It must be that execution: a duplicate of the same claim that never
      entered the block raises a mixed group, and the marked claim is sent back
      as at-least-once although one leaf declared nothing. */
  lemma DuplicateCreditsMixedGroup(cfg: Config, declared: Leaf, other: Leaf, name: string)
      returns (actions: seq<Action>)
    requires cfg.markers && cfg.lease > 2 && cfg.maxAttempts >= 2
    requires DeclaresAtLeastOnce(declared) && !BareTimeout(declared)
    requires other.traits.ambiguous.None? && !BareTimeout(other)
    ensures var w := Run(Steps(cfg), Start(0), actions);
            && w.sent == {0} && w.row.status == Pending && w.row.marker.None? && w.atLeastOnceRetries == 1
            && w.records == [Entry(1, 0, true)] && 1 in w.execs
            && w.execs[1].outcome == Some(Raised(Group(name, [One(declared), One(other)])))
            && !EveryLeafAtLeastOnce(Group(name, [One(declared), One(other)]))
  {
    var e := Group(name, [One(declared), One(other)]);
    UnmarkedMixedGroupIsPassedOn(declared, other, name);
    var w, effect := RunOneEffect(cfg, Start(0), 0, 0);
    var begin, finish, write := Begin(1, 0, 3, true), Finish(1, Raised(e)), Write(1, 4, 0, Acknowledged);
    RunSnoc(Steps(cfg), Start(0), effect, begin);
    RunSnoc(Steps(cfg), Start(0), effect + [begin], finish);
    RunSnoc(Steps(cfg), Start(0), effect + [begin] + [finish], write);
    actions := effect + [begin] + [finish] + [write];
    var w1 := Step(cfg, w, begin);
    assert IsRunning(w1, 1) && w1.execs[1].starter == Starter(false, false, None) && MarkedBy(w1.row, 0)
           && Owned(w1.row, 0);
    var w2 := Step(cfg, w1, finish);
    assert w2.execs[1].phase == Writing(ClassifyFailure(e, Starter(false, false, None)), OUTCOME_WRITE_TRIES);
  }
}
