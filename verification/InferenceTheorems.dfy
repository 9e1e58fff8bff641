/**
  What holds of every interleaving of inference calls, stale sweeps, changing
  configuration, failing writes and killed processes in one tenant
  (saas_os/control_plane/inference/service.py). A state is `Reachable` if some
  interleaving leads to it; `Leads` says that one state can follow another.
 */
module InferenceTheorems {
  import opened Common
  import opened Traces
  import opened Eligibility
  import opened InferenceLedger
  import opened InferenceRuns

  // --- the ledger ------------------------------------------------------------------------

  lemma StepEvolves(conf: int, w: World, a: Action)
    ensures Evolves(w.ledger, Step(conf, w, a).ledger)
  {
  }

  /** A row, once committed, keeps what it was started with; once it has left
      `started` nothing that happens later changes it. */
  lemma LedgerIsFinal(conf: int, w: World, w': World)
    requires Leads(conf, w, w')
    ensures Evolves(w.ledger, w'.ledger)
  {
    var evolves := (v: World) => Evolves(w.ledger, v.ledger);
    forall v, v' | evolves(v) && Moves(conf)(v, v')
      ensures evolves(v')
    {
      var a :| v' == Step(conf, v, a);
      StepEvolves(conf, v, a);
    }
    StaysTrue(Moves(conf), w, w', evolves);
  }

  /** Each metric's mirrored usage equals that token column over the rows whose
      usage the provider reported. */
  lemma UsageIsConserved(conf: int, w: World, m: Metric)
    requires Reachable(conf, w)
    ensures UsageTotal(w.ledger.usage, m) == ReportedColumn(w.ledger.rows, m)
  {
    ReachableKeepsInv(conf, w);
  }

  ghost predicate HasAttempt(rows: seq<Attempt>, c: nat, number: int)
  {
    exists id :: 0 <= id < |rows| && rows[id].request == c && rows[id].number == number
  }

  ghost predicate SameAttempt(a: Attempt, b: Attempt)
  {
    a.request == b.request && (a.number == b.number || (a.state == Started && b.state == Started))
  }

  /** The rows of a request are numbered 1 to n without gap or repetition, and
      at most one of them is unfinished. */
  ghost predicate Numbered(rows: seq<Attempt>, c: nat, n: nat)
  {
    && (forall id :: 0 <= id < |rows| && rows[id].request == c ==> 1 <= rows[id].number <= n)
    && (forall k :: 1 <= k <= n ==> HasAttempt(rows, c, k))
    && (forall i, j :: 0 <= i < j < |rows| && rows[i].request == c ==> !SameAttempt(rows[i], rows[j]))
  }

  /** In every reachable state a call has at most three attempts a candidate,
      consecutively numbered, the unfinished one being the newest. */
  lemma AttemptsAreNumbered(conf: int, w: World, c: nat) returns (n: nat)
    requires Reachable(conf, w) && c in w.calls
    ensures n <= 3 * |w.calls[c].candidates| && Numbered(w.ledger.rows, c, n)
    ensures forall id :: 0 <= id < |w.ledger.rows| ==>
              var row := w.ledger.rows[id];
              row.request == c && row.state == Started ==> row.number == n
  {
    ReachableKeepsInv(conf, w);
    assert CallInv(conf, w, c);
    n := |w.calls[c].rows|;
    NumberedByRows(c, w.calls[c].rows, RowOpen(w.calls[c].ctl), w.ledger);
    CountBound(conf, w.now, w.calls[c]);
  }

  lemma CountBound(conf: int, now: int, call: Call)
    requires LocalInv(conf, now, call)
    ensures |call.rows| <= 3 * |call.candidates|
  {
  }

  lemma NumberedByRows(c: nat, ids: seq<nat>, open: bool, l: Ledger)
    requires RowsInv(c, ids, open, l)
    ensures Numbered(l.rows, c, |ids|)
    ensures forall id :: 0 <= id < |l.rows| && l.rows[id].request == c && l.rows[id].state == Started ==>
              l.rows[id].number == |ids|
  {
    forall k | 1 <= k <= |ids|
      ensures HasAttempt(l.rows, c, k)
    {
      assert l.rows[ids[k - 1]].number == k;
    }
    forall id | 0 <= id < |l.rows| && l.rows[id].request == c
      ensures 1 <= l.rows[id].number <= |ids| && ids[l.rows[id].number - 1] == id
      ensures l.rows[id].state == Started ==> l.rows[id].number == |ids|
    {
      var k :| 0 <= k < |ids| && ids[k] == id;
    }
  }

  // --- sending -------------------------------------------------------------------------------

  /** Row `id` was committed for this request and attempt; the transaction that
      committed it had authorized the caller, before the deadline, and found the
      destination eligible with the very version, address, credential and trust
      that the send uses. */
  ghost predicate Evidenced(w: World, c: nat, s: Sent)
    requires c in w.calls
  {
    && s.row < |w.ledger.rows| && s.row < |w.evidence|
    && var row, e, call := w.ledger.rows[s.row], w.evidence[s.row], w.calls[c];
       && row.request == c && row.number == s.number && row.startedAt <= s.at
       && e.authorized && e.clearedAt < call.deadline && e.clearedAt <= row.startedAt
       && Evaluated(e.snapshot, call.ask, call.caps).Ok?
       && row.destination in Evaluated(e.snapshot, call.ask, call.caps).value
       && row.destination.modelRef == s.destination.modelRef
       && SameDestination(row.destination, s.destination)
  }

  lemma EverySendIsEvidenced(conf: int, w: World, c: nat, k: nat)
    requires Reachable(conf, w) && c in w.calls && k < |w.calls[c].sends|
    ensures Evidenced(w, c, w.calls[c].sends[k])
  {
    ReachableKeepsInv(conf, w);
    assert CallInv(conf, w, c);
    assert SendEvidence(w.ledger, w.now, w.calls[c].sends[k]);
    assert RowEvidence(w, w.calls[c].sends[k].row);
  }

  /** The step that sends finds its row already committed: unfinished, or taken
      by a sweep after the call's deadline and margin. */
  lemma SendFollowsItsCommit(conf: int, w: World, a: Action, c: nat)
    requires Reachable(conf, w) && c in w.calls && c in Step(conf, w, a).calls
    requires |w.calls[c].sends| < |Step(conf, w, a).calls[c].sends|
    ensures var n := |w.calls[c].sends|;
            var sends := Step(conf, w, a).calls[c].sends;
            && a == Send(c) && |sends| == n + 1 && sends[n].at == w.now
            && Evidenced(w, c, sends[n])
            && w.ledger.rows[sends[n].row].state in {Started, Abandoned}
            && (w.now <= w.calls[c].deadline + ABANDON_MARGIN ==> w.ledger.rows[sends[n].row].state == Started)
  {
    ReachableKeepsInv(conf, w);
    OnlySendSends(conf, w, a, c);
    SendEvidenced(conf, w, c);
  }

  lemma SendEvidenced(conf: int, w: World, c: nat)
    requires Inv(conf, w) && c in w.calls && |w.calls[c].sends| < |SendCall(w.calls[c], w.now).sends|
    ensures var n := |w.calls[c].sends|;
            var sends := SendCall(w.calls[c], w.now).sends;
            && |sends| == n + 1 && sends[n].at == w.now && Evidenced(w, c, sends[n])
            && w.ledger.rows[sends[n].row].state in {Started, Abandoned}
            && (w.now <= w.calls[c].deadline + ABANDON_MARGIN ==> w.ledger.rows[sends[n].row].state == Started)
  {
    assert CallInv(conf, w, c);
    assert RowEvidence(w, w.calls[c].rows[|w.calls[c].rows| - 1]);
  }

  lemma OnlySendSends(conf: int, w: World, a: Action, c: nat)
    requires c in w.calls && c in Step(conf, w, a).calls
    requires |w.calls[c].sends| < |Step(conf, w, a).calls[c].sends|
    ensures a == Send(c) && Step(conf, w, a).calls[c] == SendCall(w.calls[c], w.now)
  {
  }

  /** Every send but the newest failed unprocessed, outside the categories that
      never fall back: a send that succeeded or may have been accepted is the
      last of its call. */
  lemma SendsAreSequential(conf: int, w: World, c: nat, k: nat)
    requires Reachable(conf, w) && c in w.calls && k < |w.calls[c].sends|
    ensures var sends := w.calls[c].sends;
            && sends[k].number == k + 1
            && (k < |sends| - 1 ==> sends[k].response.Some? && MayContinue(sends[k].response.value))
  {
    ReachableKeepsInv(conf, w);
    assert CallInv(conf, w, c);
  }

  /** Nothing a call sent is rewritten later. */
  ghost predicate SendsExtend(xs: seq<Sent>, ys: seq<Sent>)
  {
    && |xs| <= |ys|
    && forall k :: 0 <= k < |xs| ==>
         xs[k].(response := ys[k].response) == ys[k] && (xs[k].response.Some? ==> ys[k] == xs[k])
  }

  lemma OwnStepExtendsSends(conf: int, now: int, call: Call, a: Action)
    requires SendsInv(call)
    ensures SendsExtend(call.sends, OwnStep(conf, now, call, a).sends)
  {
  }

  lemma OtherStepsKeepSends(conf: int, w: World, a: Action, c: nat)
    requires c in w.calls
    ensures c in Step(conf, w, a).calls
    ensures var sends := Step(conf, w, a).calls[c].sends;
            sends == w.calls[c].sends || (!a.Tick? && a.call == c && sends == OwnStep(conf, w.now, w.calls[c], a).sends)
  {
  }

  lemma StepExtendsSends(conf: int, w: World, a: Action, c: nat)
    requires Safe(conf)(w) && c in w.calls
    ensures c in Step(conf, w, a).calls && SendsExtend(w.calls[c].sends, Step(conf, w, a).calls[c].sends)
  {
    assert CallInv(conf, w, c);
    OtherStepsKeepSends(conf, w, a, c);
    OwnStepExtendsSends(conf, w.now, w.calls[c], a);
  }

  lemma SendsExtendThemselves(xs: seq<Sent>)
    ensures SendsExtend(xs, xs)
  {
  }

  lemma SendsExtendOn(xs: seq<Sent>, ys: seq<Sent>, zs: seq<Sent>)
    requires SendsExtend(xs, ys) && SendsExtend(ys, zs)
    ensures SendsExtend(xs, zs)
  {
  }

  lemma LaterExtendsSends(conf: int, w: World, w': World, c: nat)
    requires Reachable(conf, w) && Leads(conf, w, w') && c in w.calls
    ensures c in w'.calls && SendsExtend(w.calls[c].sends, w'.calls[c].sends)
  {
    ReachableKeepsInv(conf, w);
    var longer := (v: World) => Safe(conf)(v) && c in v.calls && SendsExtend(w.calls[c].sends, v.calls[c].sends);
    forall v, v' | longer(v) && Moves(conf)(v, v')
      ensures longer(v')
    {
      var a :| v' == Step(conf, v, a);
      StepKeepsInv(conf, v, a);
      StepExtendsSends(conf, v, a, c);
      SendsExtendOn(w.calls[c].sends, v.calls[c].sends, v'.calls[c].sends);
    }
    SendsExtendThemselves(w.calls[c].sends);
    assert Safe(conf)(w);
    StaysTrue(Moves(conf), w, w', longer);
  }

  lemma ReachableOn(conf: int, w: World, w': World)
    requires Reachable(conf, w) && Leads(conf, w, w')
    ensures Reachable(conf, w')
  {
    var now :| Leads(conf, Start(now), w);
    ReachesOn(Moves(conf), Start(now), w, w');
    assert Leads(conf, Start(now), w');
  }

  /** However the run goes on, nothing is sent after an answer, a possible
      acceptance, a never-fall-back failure, a fault or a cancellation. */
  lemma AcceptedSendIsTheLast(conf: int, w: World, w': World, c: nat, k: nat)
    requires Reachable(conf, w) && Leads(conf, w, w') && c in w.calls && k < |w.calls[c].sends|
    requires var s := w.calls[c].sends[k]; s.response.Some? && !MayContinue(s.response.value)
    ensures c in w'.calls && |w'.calls[c].sends| == k + 1
  {
    LaterExtendsSends(conf, w, w', c);
    ReachableOn(conf, w, w');
    SendsAreSequential(conf, w', c, k);
  }

  lemma EndedStays(conf: int, w: World, a: Action, c: nat)
    requires c in w.calls && (w.calls[c].ctl.Returned? || w.calls[c].ctl.Raised?)
    ensures c in Step(conf, w, a).calls && Step(conf, w, a).calls[c] == w.calls[c]
  {
  }

  /** A call that returned or raised — in particular over an unsettled attempt —
      never acts again. */
  lemma EndedCallsStay(conf: int, w: World, w': World, c: nat)
    requires Leads(conf, w, w') && c in w.calls && (w.calls[c].ctl.Returned? || w.calls[c].ctl.Raised?)
    ensures c in w'.calls && w'.calls[c] == w.calls[c]
  {
    var same := (v: World) => c in v.calls && v.calls[c] == w.calls[c];
    forall v, v' | same(v) && Moves(conf)(v, v')
      ensures same(v')
    {
      var a :| v' == Step(conf, v, a);
      EndedStays(conf, v, a, c);
    }
    StaysTrue(Moves(conf), w, w', same);
  }

  // --- time --------------------------------------------------------------------------------------

  /** Every attempt was begun before its call's deadline; a row was abandoned
      only after deadline and margin. */
  lemma DeadlinesHold(conf: int, w: World, id: nat)
    requires Reachable(conf, w) && id < |w.ledger.rows|
    ensures var row := w.ledger.rows[id];
            && row.request in w.calls && id < |w.evidence|
            && w.evidence[id].clearedAt < w.calls[row.request].deadline
            && (row.state == Abandoned ==>
                  row.finishedAt.Some?
                    && w.calls[row.request].deadline + ABANDON_MARGIN < row.finishedAt.value <= w.now)
  {
    ReachableKeepsInv(conf, w);
    assert RowEvidence(w, id);
  }

  /** No backoff reaches past the deadline. */
  lemma SleepsEndInTime(conf: int, w: World, c: nat)
    requires Reachable(conf, w) && c in w.calls && w.calls[c].ctl.Sleeping?
    ensures w.calls[c].ctl.until < w.calls[c].deadline
  {
    ReachableKeepsInv(conf, w);
    assert CallInv(conf, w, c);
  }

  lemma UnsweptInTime(conf: int, w: World, c: nat)
    requires Reachable(conf, w) && CanSettle(w, c)
    ensures var row := w.ledger.rows[NewestSend(w.calls[c]).row];
            row.state == Started || (row.state == Abandoned && w.now > w.calls[c].deadline + ABANDON_MARGIN)
  {
    ReachableKeepsInv(conf, w);
    assert CallInv(conf, w, c);
    assert RowEvidence(w, NewestSend(w.calls[c]).row);
  }

  /** An attempt settled within the margin after its call's deadline keeps that
      settlement for ever, whatever the other calls' sweeps do. */
  lemma SettledInTimeStays(conf: int, w: World, c: nat, result: WriteResult, backoff: nat, w': World)
    requires Reachable(conf, w) && CanSettle(w, c) && !result.NotCommitted?
    requires w.now <= w.calls[c].deadline + ABANDON_MARGIN && Leads(conf, SettleStep(w, c, result, backoff), w')
    ensures var s := NewestSend(w.calls[c]);
            && s.row < |w'.ledger.rows|
            && w'.ledger.rows[s.row]
               == Finish(w.ledger.rows[s.row], SettlementOf(s.response.value, w.calls[c].inputBytes), w.now)
  {
    UnsweptInTime(conf, w, c);
    SettlingShape(w, c, result, backoff);
    LedgerIsFinal(conf, SettleStep(w, c, result, backoff), w');
  }

  /** Output is returned over a succeeded row, unless a sweep abandoned the row
      later than deadline and margin. */
  lemma ReturnedOutput(conf: int, w: World, c: nat)
    requires Reachable(conf, w) && c in w.calls && w.calls[c].ctl.Returned?
    ensures var call := w.calls[c];
            && call.sends != [] && NewestSend(call).row < |w.ledger.rows|
            && NewestSend(call).response.Some? && NewestSend(call).response.value.Answer?
            && var row := w.ledger.rows[NewestSend(call).row];
               && row.request == c
               && (row.state == Succeeded
                   || (row.state == Abandoned && row.finishedAt.Some?
                       && call.deadline + ABANDON_MARGIN < row.finishedAt.value))
  {
    ReachableKeepsInv(conf, w);
    assert CallInv(conf, w, c);
    assert RowEvidence(w, NewestSend(w.calls[c]).row);
  }

  /** At the settling step: an answer whose write is acknowledged is returned in
      any case, over a succeeded row exactly when no sweep had taken the row. */
  lemma SucceededUnlessSwept(conf: int, w: World, c: nat, backoff: nat)
    requires Reachable(conf, w) && CanSettle(w, c) && NewestSend(w.calls[c]).response.value.Answer?
    ensures var w' := SettleStep(w, c, Acknowledged, backoff);
            var id := NewestSend(w.calls[c]).row;
            && w'.calls[c].ctl == Returned
            && (w'.ledger.rows[id].state == Succeeded <==> w.ledger.rows[id].state != Abandoned)
            && (w'.ledger.rows[id].state == Abandoned ==> w'.ledger == w.ledger)
  {
    UnsweptInTime(conf, w, c);
    SettlingShape(w, c, Acknowledged, backoff);
  }

  // --- the late settlement that returns output ------------------------------------------------

  ghost predicate Resolved(w: World, now: int, conf: int, ask: Ask, caps: AdapterCapabilities, found: seq<Candidate>)
  {
    && w.now == now && w.calls.Keys == {0} && w.ledger == Ledger([], [])
    && w.calls[0] == Call(now, now + conf, ask, caps, 0, now - (conf + ABANDON_MARGIN), found, AtCandidate(0), 0, 0,
                          None, [], [])
  }

  ghost predicate SentOnce(w: World, now: int, conf: int, d: Candidate)
  {
    && w.now == now && w.calls.Keys == {0}
    && w.ledger == Ledger([NewAttempt(0, 1, d, now)], [])
    && w.calls[0].ctl == Awaiting(0, 0) && w.calls[0].deadline == now + conf
    && w.calls[0].sends == [Sent(0, 1, d, now, None)]
  }

  ghost predicate SweptOnce(w: World, now: int, conf: int)
  {
    && 0 in w.calls && |w.ledger.rows| == 1 && w.ledger.usage == [] && w.ledger.rows[0].state == Abandoned
    && w.ledger.rows[0].finishedAt == Some(now + conf + ABANDON_MARGIN + 1)
    && w.calls[0].ctl == Awaiting(0, 0) && w.calls[0].deadline == now + conf
    && |w.calls[0].sends| == 1 && w.calls[0].sends[0].row == 0
  }

  /** One more step of a run that began in `start`. */
  lemma Go(conf: int, start: World, w: World, a: Action) returns (w': World)
    requires Leads(conf, start, w)
    ensures w' == Step(conf, w, a) && Leads(conf, start, w')
  {
    w' := Step(conf, w, a);
    LeadsOneStep(conf, start, w, a);
  }

  lemma FindFirst(cs: seq<Candidate>)
    requires cs != []
    ensures FindModel(cs, cs[0].modelRef) == Some(cs[0])
  {
  }

  lemma CallArrives(conf: int, now: int, ask: Ask, caps: AdapterCapabilities) returns (w: World)
    requires conf > 0
    ensures Leads(conf, Start(now), w) && w.now == now && w.ledger == Ledger([], [])
    ensures w.calls == map[0 := ReadClockCall(conf, now, NewCall(now, conf, ask, caps, 0))]
  {
    ReachesItself(Moves(conf), Start(now));
    w := Go(conf, Start(now), Start(now), Arrive(0, conf, ask, caps, 0));
    w := Go(conf, Start(now), w, ReadClock(0));
  }

  lemma CallResolves(conf: int, now: int, ask: Ask, caps: AdapterCapabilities, s: Snapshot) returns (w: World)
    requires conf > 0 && Evaluated(s, ask, caps).Ok?
    ensures Leads(conf, Start(now), w) && Resolved(w, now, conf, ask, caps, Evaluated(s, ask, caps).value)
  {
    w := CallArrives(conf, now, ask, caps);
    w := Go(conf, Start(now), w, Resolve(0, true, s));
    w := Go(conf, Start(now), w, Admit(0, true));
  }

  lemma CallBegins(conf: int, start: World, now: int, ask: Ask, caps: AdapterCapabilities, s: Snapshot, w: World)
      returns (w': World)
    requires conf > 0 && Evaluated(s, ask, caps).Ok? && Evaluated(s, ask, caps).value != [] && Leads(conf, start, w)
    requires Resolved(w, now, conf, ask, caps, Evaluated(s, ask, caps).value)
    ensures Leads(conf, start, w') && w'.now == now && w'.calls.Keys == {0}
    ensures var d := Evaluated(s, ask, caps).value[0];
            && w'.ledger == Ledger([NewAttempt(0, 1, d, now)], [])
            && w'.calls[0] == w.calls[0].(ctl := Sending(0, 0), number := 1, clearedAt := now, rows := [0])
  {
    var d := Evaluated(s, ask, caps).value[0];
    FindFirst(Evaluated(s, ask, caps).value);
    assert Recheck(d, true, s, ask, caps) == Ok(d);
    var w1 := Go(conf, start, w, TryCandidate(0, false, true, Available));
    var w2 := Go(conf, start, w1, CheckDeadline(0));
    assert w2.calls[0] == w.calls[0].(ctl := Cleared(0, 0), number := 1, clearedAt := now);
    w' := Go(conf, start, w2, Begin(0, true, s, Acknowledged));
  }

  lemma CallSends(conf: int, start: World, now: int, ask: Ask, caps: AdapterCapabilities, s: Snapshot, w: World)
      returns (w': World)
    requires conf > 0 && Evaluated(s, ask, caps).Ok? && Evaluated(s, ask, caps).value != [] && Leads(conf, start, w)
    requires Resolved(w, now, conf, ask, caps, Evaluated(s, ask, caps).value)
    ensures Leads(conf, start, w') && SentOnce(w', now, conf, Evaluated(s, ask, caps).value[0])
  {
    w' := CallBegins(conf, start, now, ask, caps, s, w);
    w' := Go(conf, start, w', Send(0));
  }

  lemma SecondCallArrives(conf: int, start: World, now: int, ask: Ask, caps: AdapterCapabilities, d: Candidate,
                          w: World)
      returns (w': World)
    requires conf > 0 && SentOnce(w, now, conf, d) && Leads(conf, start, w)
    ensures Leads(conf, start, w') && w'.ledger == w.ledger && w'.now == now + conf + ABANDON_MARGIN + 1
    ensures 0 in w'.calls && w'.calls[0] == w.calls[0]
    ensures 1 in w'.calls && w'.calls[1].ctl == ClockRead && w'.calls[1].abandonBefore == now + 1
  {
    w' := Go(conf, start, w, Tick(conf + ABANDON_MARGIN + 1));
    w' := Go(conf, start, w', Arrive(1, conf, ask, caps, 0));
    w' := Go(conf, start, w', ReadClock(1));
  }

  lemma SecondCallSweeps(conf: int, start: World, now: int, ask: Ask, caps: AdapterCapabilities, s: Snapshot,
                         d: Candidate,
                         w: World) returns (w': World)
    requires conf > 0 && SentOnce(w, now, conf, d) && Leads(conf, start, w)
    ensures Leads(conf, start, w') && SweptOnce(w', now, conf)
  {
    w' := SecondCallArrives(conf, start, now, ask, caps, d, w);
    w' := Go(conf, start, w', Resolve(1, true, s));
  }

  lemma AnswerReturns(conf: int, start: World, now: int, answer: Response, w: World) returns (w': World)
    requires answer.Answer? && SweptOnce(w, now, conf) && Leads(conf, start, w)
    ensures Leads(conf, start, w') && w'.ledger == w.ledger
    ensures 0 in w'.calls && w'.calls[0].ctl == Returned && w'.calls[0].deadline == now + conf
  {
    var w1 := Go(conf, start, w, Respond(0, answer));
    assert w1.calls[0].ctl == Settling(0, 0) && w1.calls[0].sends[0].response == Some(answer);
    w' := Go(conf, start, w1, Settle(0, Acknowledged, 0));
  }

  /** The bound of `ReturnedOutput` is sharp: one millisecond past deadline and
      margin, for any configuration that routes the request at all, the answer
      is returned while its row is abandoned and its usage is recorded nowhere. */
  lemma ReturnedThoughAbandoned(conf: int, now: int, ask: Ask, caps: AdapterCapabilities, s: Snapshot, answer: Response)
      returns (w: World)
    requires conf > 0 && Evaluated(s, ask, caps).Ok? && Evaluated(s, ask, caps).value != [] && answer.Answer?
    ensures Reachable(conf, w) && 0 in w.calls && w.calls[0].ctl == Returned
    ensures |w.ledger.rows| == 1 && w.ledger.rows[0].state == Abandoned && w.ledger.usage == []
    ensures w.ledger.rows[0].finishedAt == Some(w.calls[0].deadline + ABANDON_MARGIN + 1)
  {
    w := CallResolves(conf, now, ask, caps, s);
    w := CallSends(conf, Start(now), now, ask, caps, s, w);
    w := SecondCallSweeps(conf, Start(now), now, ask, caps, s, Evaluated(s, ask, caps).value[0], w);
    w := AnswerReturns(conf, Start(now), now, answer, w);
  }
}
