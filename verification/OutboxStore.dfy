/**
  The durable state of one outbox event and its transitions
  (saas_os/core/outbox/dispatch.py, saas_os/core/outbox/replay.py).

  The functions give each transition on values; the class below performs it
  on the stored columns, statement by statement, and is proved to do the same.
  Times are microseconds of the database clock.
 */
module OutboxStore {
  import opened Common
  import opened OutboxExceptions

  type Token = nat

  datatype Status = Pending | Published | DeadLettered

  datatype Row = Row(
    status: Status,
    attempts: nat,
    claim: Option<Token>,
    marker: Option<Token>,
    nextAttempt: int,
    retryUntil: Option<int>,
    createdAt: int)

  datatype Config = Config(maxAttempts: nat, lease: nat, enqueueRetry: nat, hintMax: nat, markers: bool)

  const SECOND := 1_000_000

  /** The idempotent-retry deadline as stored: whole seconds, truncated. */
  function StoredDeadline(deadline: int): (r: int)
    ensures r <= deadline < r + SECOND
  {
    deadline - deadline % SECOND
  }

  function HintDelay(hint: Option<int>, cfg: Config): (r: nat)
  {
    if hint.None? || hint.value <= 0 then 0 else Min(hint.value, cfg.hintMax)
  }

  predicate Owned(row: Row, t: Token)
  {
    row.status == Pending && row.claim == Some(t)
  }

  predicate MarkedBy(row: Row, t: Token)
  {
    row.marker == Some(t)
  }

  function DeadLetter(row: Row): (r: Row)
  {
    row.(status := DeadLettered, claim := None)
  }

  function Retry(row: Row, at: int, delay: nat): (r: Row)
  {
    row.(claim := None, marker := None, nextAttempt := at + delay)
  }

  predicate Due(row: Row, at: int)
  {
    row.status == Pending && row.nextAttempt <= at
  }

  /** `claim_due_events` on this row; `newToken` is the token it would hand out. */
  function Claimed(row: Row, cfg: Config, at: int, newToken: Token): (r: Row)
  {
    if !Due(row, at) then row
    else if row.claim.Some? && MarkedBy(row, row.claim.value) then DeadLetter(row)
    else if row.attempts >= cfg.maxAttempts then DeadLetter(row)
    else row.(attempts := row.attempts + 1, claim := Some(newToken), nextAttempt := at + cfg.lease)
  }

  /** Whether `begin_event_execution` hands the event to its consumer. */
  predicate Begins(row: Row, t: Token, at: int, open: bool)
  {
    open && Owned(row, t) && !(row.attempts > 1 && row.retryUntil.Some? && at >= row.retryUntil.value)
  }

  function Begun(row: Row, cfg: Config, t: Token, at: int, open: bool): (r: Row)
  {
    if !Owned(row, t) then row
    else if !open then row.(claim := None)
    else if !Begins(row, t, at, open) then DeadLetter(row)
    else row.(nextAttempt := at + cfg.lease)
  }

  function Completed(row: Row, t: Token): (r: Row)
  {
    if Owned(row, t) then row.(status := Published, claim := None, marker := None) else row
  }

  function OrdinaryFailure(row: Row, cfg: Config, at: int, terminal: bool, hint: Option<int>, delay: nat): (r: Row)
  {
    if terminal || row.attempts >= cfg.maxAttempts then DeadLetter(row)
    else Retry(row, at, Max(delay, HintDelay(hint, cfg)))
  }

  function Failed(row: Row, cfg: Config, t: Token, at: int, terminal: bool, hint: Option<int>, delay: nat): (r: Row)
  {
    if !Owned(row, t) then row
    else if MarkedBy(row, t) then DeadLetter(row)
    else OrdinaryFailure(row, cfg, at, terminal, hint, delay)
  }

  function ConfirmedNotSent(row: Row, cfg: Config, t: Token, at: int, error: Exc, block: Option<Exc>,
                            hint: Option<int>, delay: nat): (r: Row)
  {
    if !Owned(row, t) then row
    else if MarkedBy(row, t) && error.One? && error.leaf.traits.permanent then DeadLetter(row)
    else if MarkedBy(row, t) && !AttestedNotSent(error, block) then DeadLetter(row)
    else OrdinaryFailure(row, cfg, at, false, hint, delay)
  }

  function AmbiguousRecorded(row: Row, cfg: Config, t: Token, at: int, policy: RetryPolicy, delay: nat): (r: Row)
  {
    if !Owned(row, t) then row
    else if MarkedBy(row, t) && !policy.AtLeastOnce? then DeadLetter(row)
    else match policy
      case AtLeastOnce =>
        if row.attempts < cfg.maxAttempts then Retry(row, at, delay) else DeadLetter(row)
      case Within(period) =>
        var deadline := row.createdAt + period;
        var tagged := row.(retryUntil := Some(StoredDeadline(deadline)));
        if row.attempts < cfg.maxAttempts && at + delay < deadline then Retry(tagged, at, delay) else DeadLetter(tagged)
      case NoPolicy => DeadLetter(row)
  }

  function Released(row: Row, cfg: Config, t: Token, at: int): (r: Row)
  {
    if Owned(row, t) then
      row.(attempts := Max(row.attempts - 1, 0), claim := None, marker := None, nextAttempt := at + cfg.enqueueRetry)
    else row
  }

  /** The one row the marker's conditional UPDATE matches. */
  predicate Markable(row: Row, cfg: Config, t: Token, at: int)
  {
    cfg.markers && Owned(row, t) && row.nextAttempt > at && !MarkedBy(row, t)
  }

  function Marked(row: Row, cfg: Config, t: Token, at: int): (r: Row)
  {
    if Markable(row, cfg, t, at) then row.(marker := Some(t), nextAttempt := at + cfg.lease) else row
  }

  function Replayed(row: Row, at: int, open: bool): (r: Row)
  {
    if open && row.status == DeadLettered then
      row.(status := Pending, attempts := 0, nextAttempt := at, claim := None, marker := None)
    else row
  }

  /** The write an outcome leads to. */
  function Recorded(row: Row, cfg: Config, t: Token, at: int, op: Op, delay: nat): (r: Row)
  {
    match op
    case CompleteOp => Completed(row, t)
    case FailOp(terminal, hint) => Failed(row, cfg, t, at, terminal, hint, delay)
    case ConfirmOp(error, block, hint) => ConfirmedNotSent(row, cfg, t, at, error, block, hint, delay)
    case AmbiguousOp(outcome) => AmbiguousRecorded(row, cfg, t, at, outcome.policy, delay)
  }

  // --- what a claim proves ---------------------------------------------------------

  /** Every outcome write of an owner ends its claim, so a second write with the
      same token -- after a lost acknowledgement, say -- changes nothing; a
      write by anyone else never changes anything. */
  lemma RecordedOnce(row: Row, cfg: Config, t: Token, at: int, op: Op, delay: nat, at': int, op': Op, delay': nat)
    ensures !Owned(row, t) ==> Recorded(row, cfg, t, at, op, delay) == row
    ensures Owned(row, t) ==> Recorded(row, cfg, t, at, op, delay).claim == None
    ensures var once := Recorded(row, cfg, t, at, op, delay);
            Recorded(once, cfg, t, at', op', delay') == once
  {
  }

  /** A marked attempt becomes pending again for two reasons only: an attested
      "not sent", or a declared at-least-once delivery; attempts must remain. */
  lemma MarkedRetryIsCredited(row: Row, cfg: Config, t: Token, at: int, op: Op, delay: nat)
    requires Owned(row, t) && MarkedBy(row, t)
    ensures Recorded(row, cfg, t, at, op, delay).status == Pending
            <==>
            && row.attempts < cfg.maxAttempts
            && (|| (op.ConfirmOp? && AttestedNotSent(op.error, op.block)
                    && !(op.error.One? && op.error.leaf.traits.permanent))
                || (op.AmbiguousOp? && op.outcome.policy.AtLeastOnce?))
    ensures Recorded(row, cfg, t, at, op, delay).status == DeadLettered ==>
            MarkedBy(Recorded(row, cfg, t, at, op, delay), t)
  {
  }

  // --- the stored event --------------------------------------------------------------

  class OutboxEvent {
    var status: Status
    var attempts: nat
    var claimToken: Option<Token>
    var externalStartedClaim: Option<Token>
    var nextAttemptAt: int
    var retryDeadline: Option<int>
    const createdAt: int

    ghost function Value(): (r: Row)
      reads this
    {
      Row(status, attempts, claimToken, externalStartedClaim, nextAttemptAt, retryDeadline, createdAt)
    }

    constructor (at: int)
      ensures Value() == Row(Pending, 0, None, None, at, None, at)
    {
      status, attempts, claimToken, externalStartedClaim := Pending, 0, None, None;
      nextAttemptAt, retryDeadline, createdAt := at, None, at;
    }

    method MarkDeadLettered()
      modifies this
      ensures Value() == DeadLetter(old(Value()))
    {
      status := DeadLettered;
      claimToken := None;
    }

    method Reschedule(at: int, delay: nat)
      modifies this
      ensures Value() == Retry(old(Value()), at, delay)
    {
      claimToken := None;
      externalStartedClaim := None;
      nextAttemptAt := at + delay;
    }

    method ClaimIfDue(cfg: Config, at: int, newToken: Token) returns (claimed: bool)
      modifies this
      ensures Value() == Claimed(old(Value()), cfg, at, newToken)
      ensures claimed <==> old(Due(Value(), at)) && claimToken.Some?
      ensures claimed ==> claimToken == Some(newToken)
    {
      if status != Pending || nextAttemptAt > at {
        return false;
      }
      var leaseLost := claimToken.Some?;
      if leaseLost && externalStartedClaim == claimToken {
        MarkDeadLettered();
        return false;
      }
      if attempts >= cfg.maxAttempts {
        MarkDeadLettered();
        return false;
      }
      attempts := attempts + 1;
      claimToken := Some(newToken);
      nextAttemptAt := at + cfg.lease;
      return true;
    }

    method BeginExecution(cfg: Config, t: Token, at: int, open: bool) returns (runs: bool)
      modifies this
      ensures Value() == Begun(old(Value()), cfg, t, at, open)
      ensures runs == old(Begins(Value(), t, at, open))
    {
      var current := status == Pending && claimToken == Some(t);
      if !open {
        if current {
          claimToken := None;
        }
        return false;
      }
      if !current {
        return false;
      }
      if attempts > 1 && retryDeadline.Some? && at >= retryDeadline.value {
        MarkDeadLettered();
        return false;
      }
      nextAttemptAt := at + cfg.lease;
      return true;
    }

    method Complete(t: Token) returns (done: bool)
      modifies this
      ensures Value() == Completed(old(Value()), t)
      ensures done == old(Owned(Value(), t))
    {
      if status != Pending || claimToken != Some(t) {
        return false;
      }
      status := Published;
      claimToken := None;
      externalStartedClaim := None;
      return true;
    }

    method RetryOrDeadLetter(cfg: Config, at: int, terminal: bool, hint: Option<int>, delay: nat)
      modifies this
      ensures Value() == OrdinaryFailure(old(Value()), cfg, at, terminal, hint, delay)
    {
      if terminal || attempts >= cfg.maxAttempts {
        MarkDeadLettered();
      } else {
        var wait := delay;
        if hint.Some? {
          wait := Max(wait, HintDelay(hint, cfg));
        }
        Reschedule(at, wait);
      }
    }

    method Fail(cfg: Config, t: Token, at: int, terminal: bool, hint: Option<int>, delay: nat)
      modifies this
      ensures Value() == Failed(old(Value()), cfg, t, at, terminal, hint, delay)
    {
      if status != Pending || claimToken != Some(t) {
        return;
      }
      if externalStartedClaim == Some(t) {
        MarkDeadLettered();
        return;
      }
      RetryOrDeadLetter(cfg, at, terminal, hint, delay);
    }

    method RecordConfirmedNotSent(cfg: Config, t: Token, at: int, error: Exc, block: Option<Exc>, hint: Option<int>,
                                  delay: nat)
      modifies this
      ensures Value() == ConfirmedNotSent(old(Value()), cfg, t, at, error, block, hint, delay)
    {
      if status != Pending || claimToken != Some(t) {
        return;
      }
      if externalStartedClaim == Some(t) {
        if error.One? && error.leaf.traits.permanent {
          MarkDeadLettered();
          return;
        }
        if !AttestedNotSent(error, block) {
          MarkDeadLettered();
          return;
        }
      }
      RetryOrDeadLetter(cfg, at, false, hint, delay);
    }

    method RecordAmbiguous(cfg: Config, t: Token, at: int, policy: RetryPolicy, delay: nat)
      modifies this
      ensures Value() == AmbiguousRecorded(old(Value()), cfg, t, at, policy, delay)
    {
      if status != Pending || claimToken != Some(t) {
        return;
      }
      if externalStartedClaim == Some(t) && !policy.AtLeastOnce? {
        MarkDeadLettered();
        return;
      }
      var attemptsLeft := attempts < cfg.maxAttempts;
      if policy.AtLeastOnce? {
        if attemptsLeft {
          Reschedule(at, delay);
        } else {
          MarkDeadLettered();
        }
        return;
      }
      if policy.Within? {
        var deadline := createdAt + policy.period;
        retryDeadline := Some(StoredDeadline(deadline));
        if attemptsLeft && at + delay < deadline {
          Reschedule(at, delay);
          return;
        }
      }
      MarkDeadLettered();
    }

    method ReleaseClaim(cfg: Config, t: Token, at: int) returns (released: bool)
      modifies this
      ensures Value() == Released(old(Value()), cfg, t, at)
      ensures released == old(Owned(Value(), t))
    {
      if status != Pending || claimToken != Some(t) {
        return false;
      }
      attempts := if attempts > 0 then attempts - 1 else 0;
      Reschedule(at, cfg.enqueueRetry);
      return true;
    }

    /** `refused` stands for `ExternalEffectNotStartedError`. */
    method MarkStarted(cfg: Config, t: Token, at: int) returns (written: bool, refused: bool)
      modifies this
      ensures Value() == Marked(old(Value()), cfg, t, at)
      ensures written == old(Markable(Value(), cfg, t, at))
      ensures refused == (cfg.markers && !written)
    {
      if !cfg.markers {
        return false, false;
      }
      if status == Pending && claimToken == Some(t) && nextAttemptAt > at && externalStartedClaim != Some(t) {
        externalStartedClaim := Some(t);
        nextAttemptAt := at + cfg.lease;
        return true, false;
      }
      return false, true;
    }

    method Replay(at: int, open: bool)
      modifies this
      ensures Value() == Replayed(old(Value()), at, open)
    {
      if open && status == DeadLettered {
        status := Pending;
        attempts := 0;
        nextAttemptAt := at;
        claimToken := None;
        externalStartedClaim := None;
      }
    }

    method Record(cfg: Config, t: Token, at: int, op: Op, delay: nat)
      modifies this
      ensures Value() == Recorded(old(Value()), cfg, t, at, op, delay)
    {
      match op {
        case CompleteOp =>
          var _ := Complete(t);
        case FailOp(terminal, hint) =>
          Fail(cfg, t, at, terminal, hint, delay);
        case ConfirmOp(error, block, hint) =>
          RecordConfirmedNotSent(cfg, t, at, error, block, hint, delay);
        case AmbiguousOp(outcome) =>
          RecordAmbiguous(cfg, t, at, outcome.policy, delay);
      }
    }
  }
}
