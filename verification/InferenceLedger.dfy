/**
  A tenant's attempt ledger and the usage events mirrored from it
  (saas_os/control_plane/inference/service.py: `_begin_attempt`, `_settle`,
  `_abandon_stale`, `_usage_settlement`; accounting.py: `recorded_tokens`).
  Each function is one committed transaction; the class performs it on the
  stored rows.
 */
module InferenceLedger {
  import opened Common
  import opened Eligibility

  datatype AttemptState = Started | Succeeded | Failed | Interrupted | Abandoned

  datatype Provenance = ProviderReported | Estimated | Unknown

  datatype Attempt = Attempt(
    request: nat,
    number: nat,
    destination: Candidate,
    startedAt: int,
    state: AttemptState,
    finishedAt: Option<int>,
    possiblyAccepted: bool,
    outputDelivered: bool,
    inputTokens: Option<int>,
    outputTokens: Option<int>,
    provenance: Provenance)

  datatype Settlement = Settlement(
    state: AttemptState,
    possiblyAccepted: bool,
    outputDelivered: bool,
    inputTokens: Option<int>,
    outputTokens: Option<int>,
    provenance: Provenance)

  datatype Metric = InputTokens | OutputTokens

  datatype UsageEvent = UsageEvent(metric: Metric, quantity: int)

  datatype Ledger = Ledger(rows: seq<Attempt>, usage: seq<UsageEvent>)

  function NewAttempt(request: nat, number: nat, destination: Candidate, at: int): (r: Attempt)
  {
    Attempt(request, number, destination, at, Started, None, false, false, None, None, Unknown)
  }

  function Finish(row: Attempt, s: Settlement, at: int): (r: Attempt)
  {
    row.(state := s.state, possiblyAccepted := s.possiblyAccepted, outputDelivered := s.outputDelivered,
         finishedAt := Some(at), inputTokens := s.inputTokens, outputTokens := s.outputTokens,
           provenance := s.provenance)
  }

  function Mirrored(s: Settlement): (r: seq<UsageEvent>)
  {
    if s.provenance != ProviderReported then []
    else (if s.inputTokens.Some? then [UsageEvent(InputTokens, s.inputTokens.value)] else [])
         + (if s.outputTokens.Some? then [UsageEvent(OutputTokens, s.outputTokens.value)] else [])
  }

  function Settled(l: Ledger, id: nat, s: Settlement, at: int): (r: Ledger)
    requires id < |l.rows|
  {
    if l.rows[id].state != Started then l
    else Ledger(l.rows[id := Finish(l.rows[id], s, at)], l.usage + Mirrored(s))
  }

  function Abandon(row: Attempt, olderThan: int, at: int): (r: Attempt)
  {
    if row.state == Started && row.startedAt < olderThan then
      row.(state := Abandoned, finishedAt := Some(at), possiblyAccepted := true, provenance := Unknown)
    else row
  }

  function Swept(l: Ledger, olderThan: int, at: int): (r: Ledger)
  {
    l.(rows := seq(|l.rows|, i requires 0 <= i < |l.rows| => Abandon(l.rows[i], olderThan, at)))
  }

  function Inserted(l: Ledger, row: Attempt): (r: Ledger)
  {
    l.(rows := l.rows + [row])
  }

  // --- usage of a successful answer ----------------------------------------------------

  function Estimate(bytes: nat): (r: nat)
  {
    var quarters := (bytes + 3) / 4;
    if quarters < 1 then 1 else quarters
  }

  function UsageSettlement(input: Option<int>, output: Option<int>, inputBytes: nat, textBytes: nat): (r: Settlement)
  {
    if input.Some? || output.Some? then Settlement(Succeeded, false, true, input, output, ProviderReported)
    else Settlement(Succeeded, false, true, Some(Estimate(inputBytes)), Some(Estimate(textBytes)), Estimated)
  }

  // --- conservation: the mirror equals the ledger --------------------------------------------

  function UsageTotal(usage: seq<UsageEvent>, m: Metric): (r: int)
  {
    if usage == [] then 0
    else UsageTotal(usage[..|usage| - 1], m) + if usage[|usage| - 1].metric == m then usage[|usage| - 1].quantity else 0
  }

  function Tokens(row: Attempt, m: Metric): (r: Option<int>)
  {
    match m
    case InputTokens => row.inputTokens
    case OutputTokens => row.outputTokens
  }

  /** The column's sum over the rows whose usage the provider reported. */
  function ReportedColumn(rows: seq<Attempt>, m: Metric): (r: int)
  {
    if rows == [] then 0
    else ReportedColumn(rows[..|rows| - 1], m)
         + if rows[|rows| - 1].provenance == ProviderReported && Tokens(rows[|rows| - 1], m).Some?
           then Tokens(rows[|rows| - 1], m).value else 0
  }

  /** The monthly figure of the token quota, over rows started in `[since, until)`. */
  function RecordedTokens(rows: seq<Attempt>, since: int, until: int): (r: int)
  {
    if rows == [] then 0
    else
      var row := rows[|rows| - 1];
      RecordedTokens(rows[..|rows| - 1], since, until)
      + if since <= row.startedAt < until
        then (if row.inputTokens.Some? then row.inputTokens.value else 0)
             + (if row.outputTokens.Some? then row.outputTokens.value else 0)
        else 0
  }

  /** A started row carries no usage yet; each metric's mirror equals its column. */
  ghost predicate Consistent(l: Ledger)
  {
    && (forall i :: 0 <= i < |l.rows| && l.rows[i].state == Started ==>
          l.rows[i].provenance == Unknown && l.rows[i].inputTokens.None? && l.rows[i].outputTokens.None?)
    && (forall m :: UsageTotal(l.usage, m) == ReportedColumn(l.rows, m))
  }

  lemma {:induction false} UsageTotalConcat(xs: seq<UsageEvent>, ys: seq<UsageEvent>, m: Metric)
    ensures UsageTotal(xs + ys, m) == UsageTotal(xs, m) + UsageTotal(ys, m)
  {
    if ys == [] {
      assert xs + ys == xs;
    } else {
      assert (xs + ys)[..|xs + ys| - 1] == xs + ys[..|ys| - 1];
      UsageTotalConcat(xs, ys[..|ys| - 1], m);
    }
  }

  function Share(row: Attempt, m: Metric): (r: int)
  {
    if row.provenance == ProviderReported && Tokens(row, m).Some? then Tokens(row, m).value else 0
  }

  lemma {:induction false} ColumnUpdate(rows: seq<Attempt>, id: nat, row: Attempt, m: Metric)
    requires id < |rows|
    ensures ReportedColumn(rows[id := row], m) == ReportedColumn(rows, m) - Share(rows[id], m) + Share(row, m)
  {
    var n := |rows| - 1;
    if id == n {
      assert rows[id := row][..n] == rows[..n];
    } else {
      assert rows[id := row][..n] == rows[..n][id := row];
      ColumnUpdate(rows[..n], id, row, m);
    }
  }

  lemma MirroredShare(row: Attempt, s: Settlement, at: int, m: Metric)
    ensures UsageTotal(Mirrored(s), m) == Share(Finish(row, s, at), m)
  {
    var input := if s.inputTokens.Some? then [UsageEvent(InputTokens, s.inputTokens.value)] else [];
    var output := if s.outputTokens.Some? then [UsageEvent(OutputTokens, s.outputTokens.value)] else [];
    if s.provenance == ProviderReported {
      UsageTotalConcat(input, output, m);
    }
  }

  lemma SettleConserves(l: Ledger, id: nat, s: Settlement, at: int)
    requires Consistent(l) && id < |l.rows| && s.state != Started
    ensures Consistent(Settled(l, id, s, at))
  {
    if l.rows[id].state == Started {
      forall m
        ensures UsageTotal(l.usage + Mirrored(s), m) == ReportedColumn(Settled(l, id, s, at).rows, m)
      {
        UsageTotalConcat(l.usage, Mirrored(s), m);
        ColumnUpdate(l.rows, id, Finish(l.rows[id], s, at), m);
        MirroredShare(l.rows[id], s, at, m);
      }
    }
  }

  lemma {:induction false} SweepKeepsColumn(rows: seq<Attempt>, olderThan: int, at: int, m: Metric)
    requires forall i :: 0 <= i < |rows| && rows[i].state == Started ==> rows[i].provenance == Unknown
    ensures ReportedColumn(seq(|rows|, i requires 0 <= i < |rows| => Abandon(rows[i], olderThan, at)), m)
         == ReportedColumn(rows, m)
  {
    if rows != [] {
      var n := |rows| - 1;
      var swept := seq(|rows|, i requires 0 <= i < |rows| => Abandon(rows[i], olderThan, at));
      assert swept[..n] == seq(n, i requires 0 <= i < n => Abandon(rows[..n][i], olderThan, at));
      SweepKeepsColumn(rows[..n], olderThan, at, m);
    }
  }

  lemma SweepConserves(l: Ledger, olderThan: int, at: int)
    requires Consistent(l)
    ensures Consistent(Swept(l, olderThan, at))
  {
    forall m {
      SweepKeepsColumn(l.rows, olderThan, at, m);
    }
  }

  lemma InsertConserves(l: Ledger, request: nat, number: nat, destination: Candidate, at: int)
    requires Consistent(l)
    ensures Consistent(Inserted(l, NewAttempt(request, number, destination, at)))
  {
    var row := NewAttempt(request, number, destination, at);
    assert (l.rows + [row])[..|l.rows|] == l.rows;
  }

  /** Settling a row adds exactly its tokens to the month it started in. */
  lemma {:induction false} SettleAddsItsTokens(rows: seq<Attempt>, id: nat, s: Settlement, at: int, since: int,
                                               until: int)
    requires id < |rows| && rows[id].inputTokens.None? && rows[id].outputTokens.None?
    ensures RecordedTokens(rows[id := Finish(rows[id], s, at)], since, until) == RecordedTokens(rows, since, until)
            + if since <= rows[id].startedAt < until
              then (if s.inputTokens.Some? then s.inputTokens.value else 0)
                   + (if s.outputTokens.Some? then s.outputTokens.value else 0)
              else 0
  {
    var n := |rows| - 1;
    var row := Finish(rows[id], s, at);
    if id == n {
      assert rows[id := row][..n] == rows[..n];
    } else {
      assert rows[id := row][..n] == rows[..n][id := row];
      SettleAddsItsTokens(rows[..n], id, s, at, since, until);
    }
  }

  // --- finality -------------------------------------------------------------------------------

  /** Rows are only added; a row keeps what it was started with, leaves `started`
      at most once and never changes afterwards. */
  ghost predicate Evolves(l: Ledger, l': Ledger)
  {
    && |l.rows| <= |l'.rows|
    && forall i :: 0 <= i < |l.rows| ==>
         && (l.rows[i].state != Started ==> l'.rows[i] == l.rows[i])
         && l'.rows[i].request == l.rows[i].request && l'.rows[i].number == l.rows[i].number
         && l'.rows[i].destination == l.rows[i].destination && l'.rows[i].startedAt == l.rows[i].startedAt
  }

  // --- the stored ledger ------------------------------------------------------------------------

  class TenantLedger {
    var rows: seq<Attempt>
    var usage: seq<UsageEvent>

    ghost function Value(): (r: Ledger)
      reads this
    {
      Ledger(rows, usage)
    }

    constructor ()
      ensures Value() == Ledger([], [])
    {
      rows, usage := [], [];
    }

    method InsertStarted(request: nat, number: nat, destination: Candidate, at: int) returns (id: nat)
      modifies this
      ensures Value() == Inserted(old(Value()), NewAttempt(request, number, destination, at))
      ensures id == |old(rows)|
    {
      id := |rows|;
      rows := rows + [NewAttempt(request, number, destination, at)];
    }

    /** `_settle`: nothing when the row is already settled or abandoned. */
    method Settle(id: nat, s: Settlement, at: int)
      requires id < |rows|
      modifies this
      ensures Value() == Settled(old(Value()), id, s, at)
    {
      var row := rows[id];
      if row.state != Started {
        return;
      }
      rows := rows[id := Finish(row, s, at)];
      if s.provenance == ProviderReported {
        if s.inputTokens.Some? {
          usage := usage + [UsageEvent(InputTokens, s.inputTokens.value)];
        }
        if s.outputTokens.Some? {
          usage := usage + [UsageEvent(OutputTokens, s.outputTokens.value)];
        }
      }
      assert usage == old(usage) + Mirrored(s);
    }

    /** `_abandon_stale`, row by row. */
    method AbandonStale(olderThan: int, at: int)
      modifies this
      ensures Value() == Swept(old(Value()), olderThan, at)
    {
      var i := 0;
      while i < |rows|
        invariant 0 <= i <= |rows| == |old(rows)| && usage == old(usage)
        invariant forall j :: 0 <= j < i ==> rows[j] == Abandon(old(rows)[j], olderThan, at)
        invariant forall j :: i <= j < |rows| ==> rows[j] == old(rows)[j]
      {
        if rows[i].state == Started && rows[i].startedAt < olderThan {
          rows := rows[i := rows[i].(state := Abandoned, finishedAt := Some(at), possiblyAccepted := true,
                                     provenance := Unknown)];
        }
        i := i + 1;
      }
      assert rows == Swept(old(Value()), olderThan, at).rows;
    }
  }
}
