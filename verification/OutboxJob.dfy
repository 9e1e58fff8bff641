/**
  The run job of one claimed event, on the stored event, in the order the code
  performs it (saas_os/api/outbox_dispatcher.py). Each method is proved to be
  some steps of OutboxRuns, so every result there holds of it.
 */
module OutboxJob {
  import opened Common
  import opened Machines
  import opened OutboxExceptions
  import opened OutboxStore
  import opened OutboxRuns

  datatype EntryResult = Proceed | AlreadyStarted | Refused | DatabaseError

  /** One in-process try of an outcome write. */
  datatype Try = Try(at: int, delay: nat, result: WriteResult)

  /** One `external_effect()` entry: when, and what becomes of its marker write. */
  datatype Knock = Knock(at: int, result: WriteResult)

  /** What the consumer of one execution does: its `external_effect()` entries,
      the exception that leaves the block, how it ends. */
  datatype Script = Script(beginAt: int, known: bool, entries: seq<Knock>, block: Option<Exc>, outcome: Outcome)

  class ExternalEffectStarter {
    var refused: bool
    var started: bool
    var blockException: Option<Exc>

    constructor ()
      ensures Value() == Starter(false, false, None)
    {
      refused, started, blockException := false, false, None;
    }

    ghost function Value(): (r: Starter)
      reads this
    {
      Starter(refused, started, blockException)
    }

    /** `__call__`: writes the marker of this claim once and remembers a refusal;
        a database error, even after the commit, is remembered as neither. */
    method Call(event: OutboxEvent, cfg: Config, t: Token, at: int, result: WriteResult) returns (r: EntryResult)
      modifies this, event
      ensures r.AlreadyStarted? <==> old(started)
      ensures r.AlreadyStarted? ==> Value() == old(Value()) && event.Value() == old(event.Value())
      ensures r.DatabaseError? <==> !old(started) && cfg.markers && !result.Acknowledged?
      ensures !r.AlreadyStarted? ==>
                && event.Value() == (if result.NotCommitted? then old(event.Value())
                                     else Marked(old(event.Value()), cfg, t, at))
                && started == (result.Acknowledged? && old(Markable(event.Value(), cfg, t, at)))
                && (r.Refused? <==> cfg.markers && result.Acknowledged? && !started)
                && refused == (old(refused) || r.Refused?)
                && blockException == old(blockException)
    {
      if started {
        return AlreadyStarted;
      }
      if cfg.markers && result.NotCommitted? {
        return DatabaseError;
      }
      var written, rejected := event.MarkStarted(cfg, t, at);
      if cfg.markers && !result.Acknowledged? {
        return DatabaseError;
      }
      if rejected {
        refused := true;
        return Refused;
      }
      started := written;
      return Proceed;
    }
  }

  /** The first try whose write reached the database. */
  function FirstCommit(tries: seq<Try>): (r: Option<Try>)
  {
    if tries == [] then None
    else if !tries[0].result.NotCommitted? then Some(tries[0])
    else FirstCommit(tries[1..])
  }

  lemma {:induction false} FirstCommitSnoc(tries: seq<Try>, t: Try)
    ensures FirstCommit(tries + [t]) ==
            if FirstCommit(tries).Some? then FirstCommit(tries)
            else if t.result.NotCommitted? then None else Some(t)
  {
    if tries != [] {
      assert (tries + [t])[1..] == tries[1..] + [t];
      FirstCommitSnoc(tries[1..], t);
    }
  }

  /** `_write_outcome`: at most three tries, never raises. Whatever mixture of
      lost, late and failed writes happens, the event changes as by the first
      committed write alone. `answers` is what the database does at each try. */
  method WriteOutcome(event: OutboxEvent, cfg: Config, t: Token, op: Op, answers: seq<Try>)
      returns (recorded: bool, tried: nat)
    requires |answers| >= OUTCOME_WRITE_TRIES
    modifies event
    ensures 1 <= tried <= OUTCOME_WRITE_TRIES
    ensures recorded <==> answers[tried - 1].result.Acknowledged?
    ensures forall i :: 0 <= i < tried - 1 ==> !answers[i].result.Acknowledged?
    ensures !recorded ==> tried == OUTCOME_WRITE_TRIES
    ensures var first := FirstCommit(answers[..tried]);
            event.Value() == if first.None? then old(event.Value())
                             else Recorded(old(event.Value()), cfg, t, first.value.at, op, first.value.delay)
  {
    tried := 0;
    recorded := false;
    while tried < OUTCOME_WRITE_TRIES
      invariant tried <= OUTCOME_WRITE_TRIES
      invariant !recorded
      invariant forall i :: 0 <= i < tried ==> !answers[i].result.Acknowledged?
      invariant var first := FirstCommit(answers[..tried]);
                event.Value() == if first.None? then old(event.Value())
                                 else Recorded(old(event.Value()), cfg, t, first.value.at, op, first.value.delay)
    {
      var answer := answers[tried];
      FirstCommitSnoc(answers[..tried], answer);
      assert answers[..tried + 1] == answers[..tried] + [answer];
      ghost var first := FirstCommit(answers[..tried]);
      if !answer.result.NotCommitted? {
        if first.Some? {
          RecordedOnce(old(event.Value()), cfg, t, first.value.at, op, first.value.delay, answer.at, op, answer.delay);
        }
        event.Record(cfg, t, answer.at, op, answer.delay);
      }
      tried := tried + 1;
      if answer.result.Acknowledged? {
        recorded := true;
        return;
      }
    }
  }

  /** The world `w`, with its execution `e` of claim `t` running as `starter` says. */
  ghost predicate Mirrors(w: World, e: nat, t: Token, row: Row, starter: Starter, phase: Phase)
  {
    w.row == row && e in w.execs && w.execs[e].token == t && w.execs[e].starter == starter && w.execs[e].phase == phase
  }

  // --- the job as a list of steps ------------------------------------------------------

  ghost function EntrySteps(e: nat, entries: seq<Knock>): (r: seq<Action>)
  {
    if entries == [] then []
    else
      var last := entries[|entries| - 1];
      EntrySteps(e, entries[..|entries| - 1]) + [Enter(e, last.at, last.result), Send(e)]
  }

  ghost function ConsumerSteps(e: nat, script: Script): (r: seq<Action>)
  {
    EntrySteps(e, script.entries) + (if script.block.Some? then [BlockFails(e, script.block.value)] else [])
  }

  ghost function WritesOf(e: nat, tries: seq<Try>): (r: seq<Action>)
  {
    seq(|tries|, i requires 0 <= i < |tries| => Write(e, tries[i].at, tries[i].delay, tries[i].result))
  }

  /** Everything one job may do; a step that its own progress rules out does nothing. */
  ghost function JobSteps(e: nat, t: Token, script: Script, answers: seq<Try>): (r: seq<Action>)
    requires |answers| >= OUTCOME_WRITE_TRIES
  {
    [Begin(e, t, script.beginAt, script.known)] + ConsumerSteps(e, script) + [Finish(e, script.outcome)]
    + WritesOf(e, answers[..OUTCOME_WRITE_TRIES])
  }

  predicate Concerns(a: Action, e: nat)
  {
    match a
    case Enter(x, _, _) => x == e
    case Send(x) => x == e
    case BlockFails(x, _) => x == e
    case Finish(x, _) => x == e
    case Write(x, _, _, _) => x == e
    case _ => false
  }

  /** An execution that never began, or has ended, does nothing any more. */
  lemma {:induction false} IdleSteps(cfg: Config, w: World, e: nat, steps: seq<Action>)
    requires e !in w.execs || w.execs[e].phase.Ended?
    requires forall a :: a in steps ==> Concerns(a, e)
    ensures Run(Steps(cfg), w, steps) == w
  {
    if steps != [] {
      assert Concerns(steps[|steps| - 1], e);
      IdleSteps(cfg, w, e, steps[..|steps| - 1]);
    }
  }

  /** An execution that only has to write does nothing else. */
  lemma {:induction false} WriterSteps(cfg: Config, w: World, e: nat, steps: seq<Action>)
    requires e in w.execs && w.execs[e].phase.Writing?
    requires forall a :: a in steps ==> Concerns(a, e) && !a.Write?
    ensures Run(Steps(cfg), w, steps) == w
  {
    if steps != [] {
      assert Concerns(steps[|steps| - 1], e);
      WriterSteps(cfg, w, e, steps[..|steps| - 1]);
    }
  }

  lemma {:induction false} EntriesConcern(e: nat, entries: seq<Knock>)
    ensures forall a :: a in EntrySteps(e, entries) ==> Concerns(a, e) && !a.Write?
  {
    if entries != [] {
      EntriesConcern(e, entries[..|entries| - 1]);
    }
  }

  // --- the job ---------------------------------------------------------------------------

  /** One `external_effect()` entry, and the effect if the entry lets it happen. */
  method EnterBlock(event: OutboxEvent, starter: ExternalEffectStarter, cfg: Config, t: Token, knock: Knock,
                    ghost w: World, ghost e: nat) returns (ghost w': World)
    requires Mirrors(w, e, t, event.Value(), starter.Value(), Running)
    modifies event, starter
    ensures w' == Run(Steps(cfg), w, [Enter(e, knock.at, knock.result), Send(e)])
    ensures Mirrors(w', e, t, event.Value(), starter.Value(), Running)
  {
    var _ := starter.Call(event, cfg, t, knock.at, knock.result);
    ghost var enter := Enter(e, knock.at, knock.result);
    RunSnoc(Steps(cfg), w, [], enter);
    RunSnoc(Steps(cfg), w, [enter], Send(e));
    assert [] + [enter] == [enter] && [enter] + [Send(e)] == [enter, Send(e)];
    w' := Step(cfg, Step(cfg, w, enter), Send(e));
  }

  /** The consumer's run: it may enter `external_effect()` any number of times
      and go on whatever each entry answers. */
  method Consume(event: OutboxEvent, starter: ExternalEffectStarter, cfg: Config, t: Token, script: Script,
                 ghost w: World, ghost e: nat) returns (ghost w': World)
    requires Mirrors(w, e, t, event.Value(), starter.Value(), Running)
    modifies event, starter
    ensures w' == Run(Steps(cfg), w, ConsumerSteps(e, script))
    ensures Mirrors(w', e, t, event.Value(), starter.Value(), Running)
  {
    w' := w;
    var i := 0;
    while i < |script.entries|
      invariant 0 <= i <= |script.entries|
      invariant w' == Run(Steps(cfg), w, EntrySteps(e, script.entries[..i]))
      invariant Mirrors(w', e, t, event.Value(), starter.Value(), Running)
    {
      ghost var next := EnterBlock(event, starter, cfg, t, script.entries[i], w', e);
      RunConcat(Steps(cfg), w, EntrySteps(e, script.entries[..i]),
                [Enter(e, script.entries[i].at, script.entries[i].result), Send(e)]);
      assert script.entries[..i + 1][..i] == script.entries[..i];
      w' := next;
      i := i + 1;
    }
    assert script.entries[..i] == script.entries;
    if script.block.Some? {
      starter.blockException := script.block;
      RunSnoc(Steps(cfg), w, EntrySteps(e, script.entries), BlockFails(e, script.block.value));
      w' := Step(cfg, w', BlockFails(e, script.block.value));
    } else {
      assert ConsumerSteps(e, script) == EntrySteps(e, script.entries);
    }
  }

  /** After the consumer: nothing, the completion, or the failure's outcome. */
  method RecordOutcome(event: OutboxEvent, cfg: Config, t: Token, outcome: Outcome, starter: Starter, answers: seq<Try>,
                       ghost w: World, ghost e: nat)
    requires |answers| >= OUTCOME_WRITE_TRIES
    requires Mirrors(w, e, t, event.Value(), starter, Decide(outcome, starter))
    modifies event
    ensures Run(Steps(cfg), w, WritesOf(e, answers[..OUTCOME_WRITE_TRIES])).row == event.Value()
  {
    if outcome.NotStarted? || starter.refused {
      IdleSteps(cfg, w, e, WritesOf(e, answers[..OUTCOME_WRITE_TRIES]));
      return;
    }
    if outcome.Returned? {
      if !answers[0].result.NotCommitted? {
        var _ := event.Complete(t);
      }
      WritesAreDone(cfg, w, e, CompleteOp, answers, 1, 1);
      return;
    }
    var op := if outcome.OutOfTime? then FailOp(true, None) else ClassifyFailure(outcome.exc, starter);
    var _, tried := WriteOutcome(event, cfg, t, op, answers);
    WritesAreDone(cfg, w, e, op, answers, tried, OUTCOME_WRITE_TRIES);
  }

  lemma OneStep(cfg: Config, w: World, a: Action)
    ensures Run(Steps(cfg), w, [a]) == Step(cfg, w, a)
  {
    assert [] + [a] == [a];
    RunSnoc(Steps(cfg), w, [], a);
  }

  lemma JobInParts(cfg: Config, w: World, e: nat, t: Token, script: Script, answers: seq<Try>)
    requires |answers| >= OUTCOME_WRITE_TRIES
    ensures var w1 := Step(cfg, w, Begin(e, t, script.beginAt, script.known));
            var w2 := Run(Steps(cfg), Run(Steps(cfg), w1, ConsumerSteps(e, script)), [Finish(e, script.outcome)]);
            Run(Steps(cfg), w, JobSteps(e, t, script, answers))
              == Run(Steps(cfg), w2, WritesOf(e, answers[..OUTCOME_WRITE_TRIES]))
  {
    var begin, consumer, finish := [Begin(e, t, script.beginAt, script.known)], ConsumerSteps(e, script),
      [Finish(e, script.outcome)];
    OneStep(cfg, w, begin[0]);
    RunConcat(Steps(cfg), w, begin, consumer);
    RunConcat(Steps(cfg), w, begin + consumer, finish);
    RunConcat(Steps(cfg), w, begin + consumer + finish, WritesOf(e, answers[..OUTCOME_WRITE_TRIES]));
  }

  lemma ConsumerConcerns(e: nat, script: Script)
    ensures forall a :: a in ConsumerSteps(e, script) ==> Concerns(a, e) && !a.Write?
  {
    EntriesConcern(e, script.entries);
  }

  /** `_run_outbox_event`: the event ends as the job's steps say. */
  method RunOutboxEvent(event: OutboxEvent, cfg: Config, t: Token, open: bool, script: Script, answers: seq<Try>,
                        ghost w: World, ghost e: nat)
    requires |answers| >= OUTCOME_WRITE_TRIES
    requires w.row == event.Value() && w.open == open && e !in w.execs && t < w.issued
    modifies event
    ensures event.Value() == Run(Steps(cfg), w, JobSteps(e, t, script, answers)).row
  {
    var runs := event.BeginExecution(cfg, t, script.beginAt, open);
    ghost var consumer := ConsumerSteps(e, script);
    ghost var finish := [Finish(e, script.outcome)];
    ghost var writes := WritesOf(e, answers[..OUTCOME_WRITE_TRIES]);
    ghost var w1 := Step(cfg, w, Begin(e, t, script.beginAt, script.known));
    JobInParts(cfg, w, e, t, script, answers);
    ConsumerConcerns(e, script);
    if !runs {
      IdleSteps(cfg, w1, e, consumer);
      IdleSteps(cfg, w1, e, finish);
      IdleSteps(cfg, w1, e, writes);
      return;
    }
    if !script.known {
      if !answers[0].result.NotCommitted? {
        event.Fail(cfg, t, answers[0].at, true, None, answers[0].delay);
      }
      WriterSteps(cfg, w1, e, consumer);
      WriterSteps(cfg, w1, e, finish);
      WritesAreDone(cfg, w1, e, FailOp(true, None), answers, 1, 1);
      return;
    }
    var starter := new ExternalEffectStarter();
    ghost var w2 := Consume(event, starter, cfg, t, script, w1, e);
    OneStep(cfg, w2, finish[0]);
    RecordOutcome(event, cfg, t, script.outcome, Starter(starter.refused, starter.started, starter.blockException),
                  answers, Step(cfg, w2, finish[0]), e);
  }

  /** All write steps, when the first `tried` of them settle the outcome. */
  lemma WritesAreDone(cfg: Config, w: World, e: nat, op: Op, answers: seq<Try>, tried: nat, budget: nat)
    requires |answers| >= OUTCOME_WRITE_TRIES && 1 <= tried <= budget <= OUTCOME_WRITE_TRIES
    requires e in w.execs && w.execs[e].phase == Writing(op, budget)
    requires forall i :: 0 <= i < tried - 1 ==> !answers[i].result.Acknowledged?
    requires tried == budget || answers[tried - 1].result.Acknowledged?
    ensures var first := FirstCommit(answers[..tried]);
            Run(Steps(cfg), w, WritesOf(e, answers[..OUTCOME_WRITE_TRIES])).row ==
            if first.None? then w.row
            else Recorded(w.row, cfg, w.execs[e].token, first.value.at, op, first.value.delay)
  {
    WritesAreTries(cfg, w, e, op, answers[..tried], budget);
    var rest := answers[tried..OUTCOME_WRITE_TRIES];
    assert WritesOf(e, answers[..OUTCOME_WRITE_TRIES]) == WritesOf(e, answers[..tried]) + WritesOf(e, rest);
    RunConcat(Steps(cfg), w, WritesOf(e, answers[..tried]), WritesOf(e, rest));
    IdleSteps(cfg, Run(Steps(cfg), w, WritesOf(e, answers[..tried])), e, WritesOf(e, rest));
  }

  /** Where `tries` writes of one outcome leave row and execution. */
  ghost predicate Wrote(cfg: Config, w: World, w': World, e: nat, op: Op, tries: seq<Try>, budget: nat)
    requires e in w.execs && 1 <= |tries| <= budget
  {
    && e in w'.execs && w'.execs[e].token == w.execs[e].token
    && w'.execs[e].phase == AfterTry(op, budget - (|tries| - 1), tries[|tries| - 1].result)
    && var first := FirstCommit(tries);
       w'.row == if first.None? then w.row
                 else Recorded(w.row, cfg, w.execs[e].token, first.value.at, op, first.value.delay)
  }

  /** One try. */
  lemma OneTry(cfg: Config, w: World, e: nat, op: Op, t: Try, budget: nat)
    requires e in w.execs && w.execs[e].phase == Writing(op, budget) && budget >= 1
    ensures Wrote(cfg, w, WriteStep(cfg, w, e, t.at, t.delay, t.result), e, op, [t], budget)
  {
    RecordedOnce(w.row, cfg, w.execs[e].token, t.at, op, t.delay, t.at, op, t.delay);
  }

  /** One more try, after others that were not acknowledged. */
  lemma OneMoreTry(cfg: Config, w: World, mid: World, e: nat, op: Op, tries: seq<Try>, t: Try, budget: nat)
    requires e in w.execs && 1 <= |tries| < budget && !tries[|tries| - 1].result.Acknowledged?
    requires Wrote(cfg, w, mid, e, op, tries, budget)
    ensures Wrote(cfg, w, WriteStep(cfg, mid, e, t.at, t.delay, t.result), e, op, tries + [t], budget)
  {
    FirstCommitSnoc(tries, t);
    OneTry(cfg, mid, e, op, t, budget - |tries|);
    var first := FirstCommit(tries);
    if first.Some? {
      RecordedOnce(w.row, cfg, w.execs[e].token, first.value.at, op, first.value.delay, t.at, op, t.delay);
    }
  }

  lemma WritesSnoc(cfg: Config, w: World, e: nat, tries: seq<Try>, t: Try)
    ensures Run(Steps(cfg), w, WritesOf(e, tries + [t]))
            == WriteStep(cfg, Run(Steps(cfg), w, WritesOf(e, tries)), e, t.at, t.delay, t.result)
  {
    assert WritesOf(e, tries + [t]) == WritesOf(e, tries) + [Write(e, t.at, t.delay, t.result)];
    RunSnoc(Steps(cfg), w, WritesOf(e, tries), Write(e, t.at, t.delay, t.result));
  }

  /** The tries of one outcome, as write steps, change the row as by their first commit. */
  lemma {:induction false} WritesAreTries(cfg: Config, w: World, e: nat, op: Op, tries: seq<Try>, budget: nat)
    requires e in w.execs && w.execs[e].phase == Writing(op, budget)
    requires 1 <= |tries| <= budget
    requires forall i :: 0 <= i < |tries| - 1 ==> !tries[i].result.Acknowledged?
    ensures Wrote(cfg, w, Run(Steps(cfg), w, WritesOf(e, tries)), e, op, tries, budget)
  {
    var n := |tries| - 1;
    var before, last := tries[..n], tries[n];
    assert tries == before + [last];
    WritesSnoc(cfg, w, e, before, last);
    if n == 0 {
      assert WritesOf(e, before) == [];
      OneTry(cfg, w, e, op, last, budget);
      assert tries == [last];
    } else {
      WritesAreTries(cfg, w, e, op, before, budget);
      OneMoreTry(cfg, w, Run(Steps(cfg), w, WritesOf(e, before)), e, op, before, last, budget);
    }
  }
}
