/**
  What "the event is never lost" comes to (saas_os/api/outbox_dispatcher.py, its
  crash boundaries): whatever has happened to an event of an open tenant, the
  next dispatch ends it or hands it to an operator, an operator can always have
  it published, and it counts as published only after a consumer returned.
 */
module OutboxDelivery {
  import opened Common
  import opened Machines
  import opened OutboxExceptions
  import opened OutboxStore
  import opened OutboxRuns

  // --- a way on, from everywhere --------------------------------------------------------------------

  /** The next claim at `at` may run: the last one left no marker, an attempt is
      left, and no idempotency window has ended. */
  predicate MayRunAgain(row: Row, cfg: Config, at: int)
  {
    && !(row.claim.Some? && MarkedBy(row, row.claim.value))
    && row.attempts < cfg.maxAttempts
    && (row.attempts == 0 || row.retryUntil.None? || at < row.retryUntil.value)
  }

  /** One dispatch: a claim, and one execution that returns. */
  function Dispatch(w: World, e: nat, at: int): (r: seq<Action>)
  {
    [] + [Claim(at)] + [Begin(e, w.issued, at, true)] + [Finish(e, Returned)] + [Write(e, at, 0, Acknowledged)]
  }

  lemma DispatchSteps(cfg: Config, w: World, e: nat, at: int) returns (w1: World, w2: World, w3: World)
    ensures w1 == ClaimStep(cfg, w, at) && w2 == BeginStep(cfg, w1, e, w.issued, at, true)
    ensures w3 == FinishStep(w2, e, Returned)
    ensures Run(Steps(cfg), w, Dispatch(w, e, at)) == WriteStep(cfg, w3, e, at, 0, Acknowledged)
  {
    var claim, begin, finish := Claim(at), Begin(e, w.issued, at, true), Finish(e, Returned);
    w1 := ClaimStep(cfg, w, at);
    w2 := BeginStep(cfg, w1, e, w.issued, at, true);
    w3 := FinishStep(w2, e, Returned);
    RunSnoc(Steps(cfg), w, [], claim);
    RunSnoc(Steps(cfg), w, [] + [claim], begin);
    RunSnoc(Steps(cfg), w, [] + [claim] + [begin], finish);
    RunSnoc(Steps(cfg), w, [] + [claim] + [begin] + [finish], Write(e, at, 0, Acknowledged));
  }

  lemma DispatchPublishes(cfg: Config, w: World, e: nat, at: int)
    requires w.open && Due(w.row, at) && e !in w.execs && MayRunAgain(w.row, cfg, at)
    ensures Run(Steps(cfg), w, Dispatch(w, e, at)).row.status == Published
  {
    var w1, w2, w3 := DispatchSteps(cfg, w, e, at);
    assert Owned(w1.row, w.issued) && Begins(w1.row, w.issued, at, true);
    assert IsRunning(w2, e) && w2.execs[e] == Exec(w.issued, Starter(false, false, None), Running, None);
    assert w3.execs[e].phase == Writing(CompleteOp, 1) && Owned(w3.row, w.issued);
  }

  lemma DispatchDeadLetters(cfg: Config, w: World, e: nat, at: int)
    requires w.open && Due(w.row, at) && e !in w.execs && !MayRunAgain(w.row, cfg, at)
    ensures var w' := Run(Steps(cfg), w, Dispatch(w, e, at));
            w'.row.status == DeadLettered && w'.execs == w.execs && w'.open
  {
    var w1, w2, w3 := DispatchSteps(cfg, w, e, at);
    assert w2.row.status == DeadLettered && w2.execs == w.execs;
  }

  /** From any state of an open tenant with the event pending, whatever crashed
      before: once it is due, a claim and a consumer that returns publish it, if
      and only if it may run again; else it is dead-lettered, not lost. */
  lemma NextDispatchEndsIt(cfg: Config, w: World, e: nat, at: int)
    requires w.open && Due(w.row, at) && e !in w.execs
    ensures var status := Run(Steps(cfg), w, Dispatch(w, e, at)).row.status;
            && (status == Published <==> MayRunAgain(w.row, cfg, at))
            && (status == DeadLettered <==> !MayRunAgain(w.row, cfg, at))
  {
    if MayRunAgain(w.row, cfg, at) {
      DispatchPublishes(cfg, w, e, at);
    } else {
      DispatchDeadLetters(cfg, w, e, at);
    }
  }

  /** A replay makes a dead-lettered event run again. */
  lemma ReplayPublishes(cfg: Config, w: World, e: nat, at: int) returns (rest: seq<Action>)
    requires w.open && w.row.status == DeadLettered && e !in w.execs && cfg.maxAttempts >= 1
    ensures Run(Steps(cfg), w, rest).row.status == Published
  {
    var w1 := Step(cfg, w, Replay(at));
    RunSnoc(Steps(cfg), w, [], Replay(at));
    DispatchPublishes(cfg, w1, e, at);
    rest := [] + [Replay(at)] + Dispatch(w1, e, at);
    RunConcat(Steps(cfg), w, [] + [Replay(at)], Dispatch(w1, e, at));
  }

  /** Never lost: while its tenant is open, every event that is not published
      can still be, at the latest after an operator's replay. */
  lemma NeverLost(cfg: Config, w: World) returns (rest: seq<Action>)
    requires w.open && cfg.maxAttempts >= 1
    ensures Run(Steps(cfg), w, rest).row.status == Published
  {
    var e := FreshExec(w.execs.Keys);
    var at := w.row.nextAttempt;
    rest := [];
    if w.row.status == DeadLettered {
      rest := ReplayPublishes(cfg, w, e, at);
    } else if w.row.status == Pending {
      rest := Dispatch(w, e, at);
      NextDispatchEndsIt(cfg, w, e, at);
      if !MayRunAgain(w.row, cfg, at) {
        DispatchDeadLetters(cfg, w, e, at);
        var replayed := ReplayPublishes(cfg, Run(Steps(cfg), w, rest), e, at);
        RunConcat(Steps(cfg), w, rest, replayed);
        rest := rest + replayed;
      }
    }
  }

  // --- no other way out -----------------------------------------------------------------------------

  /** A published event never changes; a dead-lettered one waits for a replay. */
  lemma EndedRowStays(cfg: Config, w: World, a: Action)
    requires w.row.status != Pending && (w.row.status == Published || !a.Replay?)
    ensures Step(cfg, w, a).row == w.row
  {
  }

  lemma {:induction false} EndedStays(cfg: Config, w: World, actions: seq<Action>)
    requires w.row.status != Pending
    requires w.row.status == Published || forall n :: 0 <= n < |actions| ==> !actions[n].Replay?
    ensures Run(Steps(cfg), w, actions).row == w.row
  {
    if actions != [] {
      var n := |actions| - 1;
      EndedStays(cfg, w, actions[..n]);
      EndedRowStays(cfg, Run(Steps(cfg), w, actions[..n]), actions[n]);
    }
  }

  /** Somebody's recorded outcome is that its consumer returned. */
  ghost predicate Handled(w: World)
  {
    exists r :: r in w.records && r.exec in w.execs && w.execs[r.exec].outcome == Some(Returned)
  }

  lemma OnlyReturningCompletes(x: Exec)
    requires Caused(x) && x.phase.Writing? && x.phase.op.CompleteOp?
    ensures x.outcome == Some(Returned)
  {
  }

  lemma OnlyCompletionPublishes(row: Row, cfg: Config, t: Token, at: int, op: Op, delay: nat)
    requires Owned(row, t)
    ensures Recorded(row, cfg, t, at, op, delay).status == Published <==> op.CompleteOp?
  {
  }

  lemma OnlyWritesPublish(cfg: Config, w: World, a: Action)
    requires !a.Write? && w.row.status != Published
    ensures Step(cfg, w, a).row.status != Published
  {
  }

  lemma WritePublishesHandled(cfg: Config, w: World, e: nat, at: int, delay: nat, result: WriteResult)
    requires CausesInv(w) && w.row.status != Published
    requires WriteStep(cfg, w, e, at, delay, result).row.status == Published
    ensures Handled(WriteStep(cfg, w, e, at, delay, result))
  {
    var w' := WriteStep(cfg, w, e, at, delay, result);
    assert WriteCounts(w, e, result);
    var x := w.execs[e];
    assert Caused(x);
    OnlyCompletionPublishes(w.row, cfg, x.token, at, x.phase.op, delay);
    OnlyReturningCompletes(x);
    WriteCredits(cfg, w, e, at, delay, result);
    assert w'.records[|w.records|] in w'.records && w'.execs[e].outcome == x.outcome;
  }

  lemma HandledStays(cfg: Config, w: World, a: Action)
    requires OutcomesInv(w) && Handled(w)
    ensures Handled(Step(cfg, w, a))
  {
    var r :| r in w.records && r.exec in w.execs && w.execs[r.exec].outcome == Some(Returned);
    RecordedStay(cfg, w, a, r);
  }

  lemma RecordedStay(cfg: Config, w: World, a: Action, r: Entry)
    requires r in w.records && r.exec in w.execs && !w.execs[r.exec].phase.Running?
    ensures var w' := Step(cfg, w, a);
            r in w'.records && r.exec in w'.execs && w'.execs[r.exec].outcome == w.execs[r.exec].outcome
  {
    if !a.Write? {
      DecidedStay(cfg, w, a, r.exec);
      RecordsStay(cfg, w, a);
    }
  }

  /** Over every run: a published event was handled by a consumer that returned. */
  lemma {:induction false} PublishedWasHandled(cfg: Config, at: int, actions: seq<Action>)
    ensures var w := Run(Steps(cfg), Start(at), actions); w.row.status == Published ==> Handled(w)
  {
    if actions != [] {
      var n := |actions| - 1;
      var w, a := Run(Steps(cfg), Start(at), actions[..n]), actions[n];
      PublishedWasHandled(cfg, at, actions[..n]);
      RunKeepsInv(cfg, at, actions[..n]);
      RunKeepsCauses(cfg, at, actions[..n]);
      if w.row.status == Published {
        HandledStays(cfg, w, a);
      } else if a.Write? {
        if WriteStep(cfg, w, a.exec, a.at, a.delay, a.result).row.status == Published {
          WritePublishesHandled(cfg, w, a.exec, a.at, a.delay, a.result);
        }
      } else {
        OnlyWritesPublish(cfg, w, a);
      }
    }
  }
}
