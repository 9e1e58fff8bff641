/**
  The approval gate (saas_os/control_plane/approvals/service.py, models.py):
  propose, decide, claim by compare-and-swap, execute. A decision reads the row
  in one transaction and writes it unconditionally in another; both are steps
  here, as they are there. Executors and deciders interleave and may die at any
  point.
 */
module Approvals {
  import opened Common
  import opened Machines

  datatype Status = Pending | Approved | Rejected | Executing | Executed

  datatype Row = Row(proposer: nat, action: nat, status: Status, approver: Option<nat>, decidedAt: Option<int>)

  datatype Error = NotFound | NotPending(status: Status) | SelfApproval | CheckViolation | ToolFailed

  type Table = map<nat, Row>

  // --- the transactions -----------------------------------------------------------------------

  /** The first transaction of `approve` and `reject`. */
  function DecisionCheck(rows: Table, id: nat, user: nat, approve: bool): (r: Option<Error>)
  {
    if id !in rows then Some(NotFound)
    else if rows[id].status != Pending then Some(NotPending(rows[id].status))
    else if approve && user == rows[id].proposer then Some(SelfApproval)
    else None
  }

  /** The second: no look at the status; the table's CHECK constraint refuses
      the proposer as approver, of a rejection too. */
  function DecisionWrite(rows: Table, id: nat, user: nat, approve: bool, at: int): (r: Result<Table, Error>)
  {
    if id !in rows then Err(NotFound)
    else if user == rows[id].proposer then Err(CheckViolation)
    else Ok(rows[id := rows[id].(status := if approve then Approved else Rejected, approver := Some(user),
                                 decidedAt := Some(at))])
  }

  /** `_claim_for_execution`: compare and swap. */
  function ClaimWrite(rows: Table, id: nat): (r: Result<Table, Error>)
  {
    if id !in rows then Err(NotFound)
    else if rows[id].status != Approved then Err(NotPending(rows[id].status))
    else Ok(rows[id := rows[id].(status := Executing)])
  }

  /** After the tool: `executed` whatever the row holds, or back to `approved`
      if it is still `executing`. */
  function EndWrite(rows: Table, id: nat, succeeded: bool): (r: Table)
  {
    if id !in rows then rows
    else if succeeded then rows[id := rows[id].(status := Executed)]
    else if rows[id].status == Executing then rows[id := rows[id].(status := Approved)]
    else rows
  }

  // --- interleaved callers ----------------------------------------------------------------------

  datatype Decider = Decider(request: nat, user: nat, approve: bool)

  /** `outcome`: of the tool, once it ended. `approver`: as the claim read it. */
  datatype Executor = Executor(request: nat, actor: nat, approver: Option<nat>, outcome: Option<bool>)

  datatype Completion = Completion(request: nat, actor: nat, approver: Option<nat>)

  datatype World = World(rows: Table, deciders: map<nat, Decider>, executors: map<nat, Executor>,
                         completions: seq<Completion>)

  datatype Action =
    | Propose(id: nat, proposer: nat, action: nat)
    | Check(decider: nat, id: nat, user: nat, approve: bool)
    | Write(decider: nat, at: int)
    | StopDeciding(decider: nat)
    | Claim(executor: nat, id: nat)
    | ToolEnds(executor: nat, succeeded: bool)
    | End(executor: nat)
    | Crash(executor: nat)

  function ProposeStep(w: World, id: nat, proposer: nat, action: nat): (r: World)
  {
    if id in w.rows then w else w.(rows := w.rows[id := Row(proposer, action, Pending, None, None)])
  }

  function CheckStep(w: World, p: nat, id: nat, user: nat, approve: bool): (r: World)
  {
    if p in w.deciders || DecisionCheck(w.rows, id, user, approve).Some? then w
    else w.(deciders := w.deciders[p := Decider(id, user, approve)])
  }

  function WriteStep(w: World, p: nat, at: int): (r: World)
  {
    if p !in w.deciders then w
    else
      var d := w.deciders[p];
      var written := DecisionWrite(w.rows, d.request, d.user, d.approve, at);
      World(if written.Ok? then written.value else w.rows, w.deciders - {p}, w.executors, w.completions)
  }

  function ClaimStep(w: World, e: nat, id: nat): (r: World)
  {
    var claimed := ClaimWrite(w.rows, id);
    if e in w.executors || claimed.Err? then w
    else w.(rows := claimed.value,
            executors := w.executors[e := Executor(id, w.rows[id].proposer, w.rows[id].approver, None)])
  }

  function ToolEndsStep(w: World, e: nat, succeeded: bool): (r: World)
  {
    if e !in w.executors || w.executors[e].outcome.Some? then w
    else
      var x := w.executors[e];
      World(w.rows, w.deciders, w.executors[e := x.(outcome := Some(succeeded))],
            if succeeded then w.completions + [Completion(x.request, x.actor, x.approver)] else w.completions)
  }

  function EndStep(w: World, e: nat): (r: World)
  {
    if e !in w.executors || w.executors[e].outcome.None? then w
    else w.(rows := EndWrite(w.rows, w.executors[e].request, w.executors[e].outcome.value),
            executors := w.executors - {e})
  }

  function Step(w: World, a: Action): (r: World)
  {
    match a
    case Propose(id, proposer, action) => ProposeStep(w, id, proposer, action)
    case Check(p, id, user, approve) => CheckStep(w, p, id, user, approve)
    case Write(p, at) => WriteStep(w, p, at)
    case StopDeciding(p) => w.(deciders := w.deciders - {p})
    case Claim(e, id) => ClaimStep(w, e, id)
    case ToolEnds(e, succeeded) => ToolEndsStep(w, e, succeeded)
    case End(e) => EndStep(w, e)
    case Crash(e) => w.(executors := w.executors - {e})
  }

  const Empty := World(map[], map[], map[], [])

  function Count(cs: seq<Completion>, id: nat): (r: nat)
  {
    if cs == [] then 0 else Count(cs[..|cs| - 1], id) + if cs[|cs| - 1].request == id then 1 else 0
  }

  lemma CountSnoc(cs: seq<Completion>, c: Completion, id: nat)
    ensures Count(cs + [c], id) == Count(cs, id) + if c.request == id then 1 else 0
  {
    assert (cs + [c])[..|cs|] == cs;
  }

  // --- separation of duties, over every run ------------------------------------------------------

  predicate SeparatedBy(rows: Table, id: nat, actor: nat, approver: Option<nat>)
  {
    id in rows && actor == rows[id].proposer && approver.Some? && approver.value != actor
  }

  /** A row's approver is never its proposer, and there is one from approval on. */
  ghost predicate RowsSeparated(w: World)
  {
    forall id :: id in w.rows ==>
      && (w.rows[id].approver.Some? ==> w.rows[id].approver.value != w.rows[id].proposer)
      && (w.rows[id].status in {Approved, Executing, Executed} ==> w.rows[id].approver.Some?)
  }

  ghost predicate Separated(w: World)
  {
    && RowsSeparated(w)
    && (forall e :: e in w.executors ==>
          && SeparatedBy(w.rows, w.executors[e].request, w.executors[e].actor, w.executors[e].approver)
          && w.rows[w.executors[e].request].approver.Some?)
    && (forall k :: 0 <= k < |w.completions| ==>
          SeparatedBy(w.rows, w.completions[k].request, w.completions[k].actor, w.completions[k].approver))
  }

  lemma StepKeepsRowsSeparated(w: World, a: Action)
    requires Separated(w)
    ensures RowsSeparated(Step(w, a))
  {
  }

  /** No step forgets a request, its proposer or that it has an approver. */
  lemma StepKeepsProposers(w: World, a: Action, id: nat)
    requires id in w.rows
    ensures id in Step(w, a).rows && Step(w, a).rows[id].proposer == w.rows[id].proposer
    ensures w.rows[id].approver.Some? ==> Step(w, a).rows[id].approver.Some?
  {
  }

  lemma StepKeepsSeparated(w: World, a: Action)
    requires Separated(w)
    ensures Separated(Step(w, a))
  {
    StepKeepsRowsSeparated(w, a);
    forall id | id in w.rows
      ensures id in Step(w, a).rows && Step(w, a).rows[id].proposer == w.rows[id].proposer
      ensures w.rows[id].approver.Some? ==> Step(w, a).rows[id].approver.Some?
    {
      StepKeepsProposers(w, a, id);
    }
  }

  /** However decisions, executors and crashes interleave, the tool only ever
      runs as the proposer, under an approval by somebody else. */
  lemma {:induction false} AlwaysSeparated(actions: seq<Action>)
    ensures Separated(Run(Step, Empty, actions))
  {
    if actions != [] {
      AlwaysSeparated(actions[..|actions| - 1]);
      StepKeepsSeparated(Run(Step, Empty, actions[..|actions| - 1]), actions[|actions| - 1]);
    }
  }

  // --- which decisions pass their check and fail their write -----------------------------------------

  /** A decision in flight is on a request that exists, and no approval is the proposer's. */
  ghost predicate Checked(w: World)
  {
    forall p :: p in w.deciders ==>
      var d := w.deciders[p];
      d.request in w.rows && (d.approve ==> d.user != w.rows[d.request].proposer)
  }

  lemma StepKeepsChecked(w: World, a: Action)
    requires Checked(w)
    ensures Checked(Step(w, a))
  {
    forall id | id in w.rows
      ensures id in Step(w, a).rows && Step(w, a).rows[id].proposer == w.rows[id].proposer
    {
      StepKeepsProposers(w, a, id);
    }
  }

  /** Over every run: a decision that passed its check is refused at its write if
      and only if it is a rejection by the proposer. */
  lemma {:induction false} RefusedAtTheWrite(actions: seq<Action>, p: nat, at: int)
    requires p in Run(Step, Empty, actions).deciders
    ensures var w := Run(Step, Empty, actions);
            var d := w.deciders[p];
            && d.request in w.rows
            && (DecisionWrite(w.rows, d.request, d.user, d.approve, at).Err?
                <==> !d.approve && d.user == w.rows[d.request].proposer)
  {
    var checked := (w: World) => Checked(w);
    forall w, a | checked(w)
      ensures checked(Step(w, a))
    {
      StepKeepsChecked(w, a);
    }
    RunKeeps(Step, Empty, actions, checked);
  }

  /** Such a rejection does pass its check, for any proposer. */
  lemma ProposerPassesTheCheck(proposer: nat) returns (actions: seq<Action>)
    ensures var w := Run(Step, Empty, actions);
            0 in w.rows && w.rows[0].proposer == proposer
            && 0 in w.deciders && w.deciders[0] == Decider(0, proposer, false)
  {
    actions := [] + [Propose(0, proposer, 0)] + [Check(0, 0, proposer, false)];
    RunSnoc(Step, Empty, [], Propose(0, proposer, 0));
    RunSnoc(Step, Empty, [] + [Propose(0, proposer, 0)], Check(0, 0, proposer, false));
  }

  // --- exclusivity, when no approval overlaps another decision ---------------------------------------

  /** A decision whose write the table would accept. */
  predicate Live(w: World, p: nat, id: nat)
  {
    p in w.deciders && w.deciders[p].request == id && id in w.rows && w.deciders[p].user != w.rows[id].proposer
  }

  /** An approval is between its read and its write beside another decision on
      the same request. */
  ghost predicate Overlap(w: World, id: nat)
  {
    exists p, q :: p != q && Live(w, p, id) && Live(w, q, id) && w.deciders[p].approve
  }

  ghost predicate NeverOverlaps(actions: seq<Action>)
  {
    forall n, id :: 0 <= n <= |actions| ==> !Overlap(Run(Step, Empty, actions[..n]), id)
  }

  /** Decisions in flight see the row as they read it. */
  ghost predicate DecidersInv(w: World)
  {
    && Checked(w)
    && (forall p, id :: Live(w, p, id) ==>
          w.rows[id].status == Pending || (w.rows[id].status == Rejected && !w.deciders[p].approve))
  }

  /** A claim is exclusive and the row says so. */
  ghost predicate ExecutorsInv(w: World)
  {
    && (forall e :: e in w.executors ==>
          w.executors[e].request in w.rows && w.rows[w.executors[e].request].status == Executing)
    && OneClaimEach(w)
  }

  /** No two executors hold the claim of one request. */
  ghost predicate OneClaimEach(w: World)
  {
    forall e, f :: e in w.executors && f in w.executors && w.executors[e].request == w.executors[f].request ==> e == f
  }

  /** How often the tool has completed, by the row's status. */
  predicate RowCounted(w: World, id: nat)
  {
    var n := Count(w.completions, id);
    if id !in w.rows then n == 0
    else match w.rows[id].status
      case Executing => n <= 1
      case Executed => n == 1
      case _ => n == 0
  }

  predicate ExecutorCounted(w: World, e: nat)
  {
    e in w.executors ==>
      Count(w.completions, w.executors[e].request) == if w.executors[e].outcome == Some(true) then 1 else 0
  }

  ghost predicate CompletionsInv(w: World)
  {
    (forall id: nat :: RowCounted(w, id)) && (forall e: nat :: ExecutorCounted(w, e))
  }

  ghost predicate Inv(w: World)
  {
    DecidersInv(w) && ExecutorsInv(w) && CompletionsInv(w)
  }

  /** Rows that nobody executes may be decided: the counts stay. */
  lemma CompletionsFrame(w: World, w': World)
    requires CompletionsInv(w) && w'.completions == w.completions
    requires forall e :: e in w'.executors ==> e in w.executors && w'.executors[e] == w.executors[e]
    requires forall id :: id in w'.rows ==>
               || (id in w.rows && w'.rows[id].status == w.rows[id].status)
               || (w'.rows[id].status in {Pending, Approved, Rejected}
                   && (id !in w.rows || w.rows[id].status in {Pending, Approved, Rejected}))
    requires forall id :: id in w.rows ==> id in w'.rows
    ensures CompletionsInv(w')
  {
    forall i: nat
      ensures RowCounted(w', i)
    {
      assert RowCounted(w, i);
    }
    forall f: nat
      ensures ExecutorCounted(w', f)
    {
      assert ExecutorCounted(w, f);
    }
  }

  lemma WriteKeepsDeciders(w: World, p: nat, at: int)
    requires DecidersInv(w) && forall id :: !Overlap(w, id)
    ensures DecidersInv(WriteStep(w, p, at))
  {
    if p in w.deciders {
      var d := w.deciders[p];
      if d.request in w.rows && d.user != w.rows[d.request].proposer {
        assert Live(w, p, d.request);
        assert !Overlap(w, d.request);
        var w' := WriteStep(w, p, at);
        forall q, id | Live(w', q, id)
          ensures w'.rows[id].status == Pending || (w'.rows[id].status == Rejected && !w'.deciders[q].approve)
        {
          assert Live(w, q, id);
        }
      }
    }
  }

  lemma WriteKeepsInv(w: World, p: nat, at: int)
    requires Inv(w) && forall id :: !Overlap(w, id)
    ensures Inv(WriteStep(w, p, at))
  {
    WriteKeepsDeciders(w, p, at);
    if p in w.deciders {
      assert w.deciders[p].user != w.rows[w.deciders[p].request].proposer ==> Live(w, p, w.deciders[p].request);
    }
    CompletionsFrame(w, WriteStep(w, p, at));
  }

  /** The deciders' part, when no row that is being decided changes. */
  lemma DecidersFrame(w: World, w': World)
    requires DecidersInv(w)
    requires forall p :: p in w'.deciders ==> p in w.deciders && w'.deciders[p] == w.deciders[p]
    requires forall id :: id in w.rows ==> id in w'.rows && w'.rows[id].proposer == w.rows[id].proposer
    requires forall id :: id in w.rows && (w.rows[id].status == Pending || w.rows[id].status == Rejected) ==>
               w'.rows[id] == w.rows[id]
    ensures DecidersInv(w')
  {
    forall p, id | Live(w', p, id)
      ensures w'.rows[id].status == Pending || (w'.rows[id].status == Rejected && !w'.deciders[p].approve)
    {
      assert w.deciders[p].request in w.rows;
      assert Live(w, p, id);
    }
  }

  lemma CheckKeepsInv(w: World, p: nat, id: nat, user: nat, approve: bool)
    requires Inv(w)
    ensures Inv(CheckStep(w, p, id, user, approve))
  {
    var w' := CheckStep(w, p, id, user, approve);
    forall q, i | Live(w', q, i)
      ensures w'.rows[i].status == Pending || (w'.rows[i].status == Rejected && !w'.deciders[q].approve)
    {
      assert w' == w || q == p || Live(w, q, i);
    }
    CompletionsFrame(w, w');
  }

  lemma ToolEndsCounts(w: World, e: nat, id: nat)
    requires e in w.executors && w.executors[e].outcome.None?
    ensures Count(ToolEndsStep(w, e, true).completions, id)
         == Count(w.completions, id) + if w.executors[e].request == id then 1 else 0
  {
    var x := w.executors[e];
    CountSnoc(w.completions, Completion(x.request, x.actor, x.approver), id);
  }

  lemma ToolEndsKeepsCompletions(w: World, e: nat, succeeded: bool)
    requires ExecutorsInv(w) && CompletionsInv(w)
    ensures CompletionsInv(ToolEndsStep(w, e, succeeded))
  {
    var w' := ToolEndsStep(w, e, succeeded);
    forall id: nat
      ensures RowCounted(w', id)
    {
      assert RowCounted(w, id) && ExecutorCounted(w, e);
      if e in w.executors && w.executors[e].outcome.None? && succeeded {
        ToolEndsCounts(w, e, id);
      }
    }
    forall f: nat
      ensures ExecutorCounted(w', f)
    {
      assert ExecutorCounted(w, f);
      if e in w.executors && w.executors[e].outcome.None? && succeeded && f in w.executors {
        ToolEndsCounts(w, e, w.executors[f].request);
      }
    }
  }

  lemma ToolEndsKeepsInv(w: World, e: nat, succeeded: bool)
    requires Inv(w)
    ensures Inv(ToolEndsStep(w, e, succeeded))
  {
    DecidersFrame(w, ToolEndsStep(w, e, succeeded));
    ToolEndsKeepsCompletions(w, e, succeeded);
  }

  lemma ClaimKeepsExecutors(w: World, e: nat, id: nat)
    requires ExecutorsInv(w)
    ensures ExecutorsInv(ClaimStep(w, e, id))
  {
  }

  lemma ClaimKeepsCompletions(w: World, e: nat, id: nat)
    requires CompletionsInv(w)
    ensures CompletionsInv(ClaimStep(w, e, id))
  {
    var w' := ClaimStep(w, e, id);
    forall i: nat
      ensures RowCounted(w', i)
    {
      assert RowCounted(w, i);
    }
    forall f: nat
      ensures ExecutorCounted(w', f)
    {
      assert ExecutorCounted(w, f) && RowCounted(w, id);
    }
  }

  lemma ClaimKeepsInv(w: World, e: nat, id: nat)
    requires Inv(w)
    ensures Inv(ClaimStep(w, e, id))
  {
    DecidersFrame(w, ClaimStep(w, e, id));
    ClaimKeepsExecutors(w, e, id);
    ClaimKeepsCompletions(w, e, id);
  }

  lemma EndKeepsExecutors(w: World, e: nat)
    requires ExecutorsInv(w)
    ensures ExecutorsInv(EndStep(w, e))
  {
  }

  lemma EndKeepsCompletions(w: World, e: nat)
    requires ExecutorsInv(w) && CompletionsInv(w)
    ensures CompletionsInv(EndStep(w, e))
  {
    var w' := EndStep(w, e);
    forall i: nat
      ensures RowCounted(w', i)
    {
      assert RowCounted(w, i) && ExecutorCounted(w, e);
    }
    forall f: nat
      ensures ExecutorCounted(w', f)
    {
      assert ExecutorCounted(w, f);
    }
  }

  lemma EndKeepsInv(w: World, e: nat)
    requires Inv(w)
    ensures Inv(EndStep(w, e))
  {
    DecidersFrame(w, EndStep(w, e));
    EndKeepsExecutors(w, e);
    EndKeepsCompletions(w, e);
  }

  lemma SimpleKeepsInv(w: World, a: Action)
    requires Inv(w) && (a.Propose? || a.StopDeciding? || a.Crash?)
    ensures Inv(Step(w, a))
  {
    DecidersFrame(w, Step(w, a));
    CompletionsFrame(w, Step(w, a));
  }

  lemma StepKeepsInv(w: World, a: Action)
    requires Inv(w) && forall id :: !Overlap(w, id)
    ensures Inv(Step(w, a))
  {
    match a {
      case Check(p, id, user, approve) => CheckKeepsInv(w, p, id, user, approve);
      case Write(p, at) => WriteKeepsInv(w, p, at);
      case Claim(e, id) => ClaimKeepsInv(w, e, id);
      case ToolEnds(e, succeeded) => ToolEndsKeepsInv(w, e, succeeded);
      case End(e) => EndKeepsInv(w, e);
      case _ => SimpleKeepsInv(w, a);
    }
  }

  lemma {:induction false} RunKeepsInv(actions: seq<Action>)
    requires NeverOverlaps(actions)
    ensures Inv(Run(Step, Empty, actions))
  {
    if actions != [] {
      var before := actions[..|actions| - 1];
      forall n, id | 0 <= n <= |before|
        ensures !Overlap(Run(Step, Empty, before[..n]), id)
      {
        assert before[..n] == actions[..n];
      }
      RunKeepsInv(before);
      assert before[..|before|] == before;
      StepKeepsInv(Run(Step, Empty, before), actions[|actions| - 1]);
    }
  }

  /** For any number of executors and any crash points: at most one caller holds
      a claim, the tool completes at most once a request, never for one that is
      pending or rejected, and exactly once for one that is executed. */
  lemma ExecutedAtMostOnce(actions: seq<Action>, id: nat)
    requires NeverOverlaps(actions)
    ensures var w := Run(Step, Empty, actions);
            && Count(w.completions, id) <= 1
            && (id in w.rows && w.rows[id].status == Executed ==> Count(w.completions, id) == 1)
            && (id in w.rows && w.rows[id].status in {Pending, Rejected, Approved} ==> Count(w.completions, id) == 0)
            && OneClaimEach(w)
  {
    RunKeepsInv(actions);
    assert RowCounted(Run(Step, Empty, actions), id);
  }

  predicate Final(s: Status)
  {
    s == Rejected || s == Executed
  }

  lemma StepKeepsFinal(w: World, a: Action, id: nat)
    requires Inv(w) && id in w.rows && Final(w.rows[id].status)
    ensures id in Step(w, a).rows && Step(w, a).rows[id].status == w.rows[id].status
  {
    if a.Write? && a.decider in w.deciders && w.deciders[a.decider].request == id {
      assert w.deciders[a.decider].user != w.rows[id].proposer ==> Live(w, a.decider, id);
    }
  }

  /** `rejected` and `executed` are final. */
  lemma {:induction false} FinalStays(xs: seq<Action>, ys: seq<Action>, id: nat)
    requires NeverOverlaps(xs + ys)
    requires id in Run(Step, Empty, xs).rows && Final(Run(Step, Empty, xs).rows[id].status)
    ensures id in Run(Step, Empty, xs + ys).rows
            && Run(Step, Empty, xs + ys).rows[id].status == Run(Step, Empty, xs).rows[id].status
  {
    if ys == [] {
      assert xs + ys == xs;
    } else {
      var init, last := ys[..|ys| - 1], ys[|ys| - 1];
      assert xs + ys == (xs + init) + [last];
      forall n, i | 0 <= n <= |xs + init|
        ensures !Overlap(Run(Step, Empty, (xs + init)[..n]), i)
      {
        assert (xs + init)[..n] == (xs + ys)[..n];
      }
      FinalStays(xs, init, id);
      RunKeepsInv(xs + init);
      RunSnoc(Step, Empty, xs + init, last);
      StepKeepsFinal(Run(Step, Empty, xs + init), last, id);
    }
  }

  // --- and only then ---------------------------------------------------------------------------------

  /** A live approval's write, a claim and a successful tool run. */
  lemma ApprovedRuns(w: World, p: nat, id: nat, e: nat) returns (actions: seq<Action>)
    requires Live(w, p, id) && w.deciders[p].approve && e !in w.executors
    ensures var w' := Run(Step, w, actions);
            && Count(w'.completions, id) == Count(w.completions, id) + 1
            && w'.deciders == w.deciders - {p} && w'.executors == w.executors
            && id in w'.rows && w'.rows[id].proposer == w.rows[id].proposer && w'.rows[id].status == Executed
  {
    var w1 := Step(w, Write(p, 0));
    var w2 := Step(w1, Claim(e, id));
    assert w2.rows[id].status == Executing && e in w2.executors && w2.executors[e].request == id;
    var w3 := Step(w2, ToolEnds(e, true));
    CountSnoc(w2.completions, Completion(id, w2.executors[e].actor, w2.executors[e].approver), id);
    var w4 := Step(w3, End(e));
    assert w4.executors == w.executors;
    actions := [] + [Write(p, 0)] + [Claim(e, id)] + [ToolEnds(e, true)] + [End(e)];
    RunSnoc(Step, w, [], Write(p, 0));
    RunSnoc(Step, w, [] + [Write(p, 0)], Claim(e, id));
    RunSnoc(Step, w, [] + [Write(p, 0)] + [Claim(e, id)], ToolEnds(e, true));
    RunSnoc(Step, w, [] + [Write(p, 0)] + [Claim(e, id)] + [ToolEnds(e, true)], End(e));
  }

  /** The hypothesis is exact: wherever an approval overlaps another live
      decision, some continuation runs the tool again after `executed`, or runs
      it after `rejected`. */
  lemma OverlapBreaksFinality(w: World, id: nat, e: nat) returns (first: seq<Action>, second: seq<Action>)
    requires Overlap(w, id) && e !in w.executors
    ensures var w1 := Run(Step, w, first);
            var w2 := Run(Step, w, first + second);
            && id in w1.rows && Final(w1.rows[id].status)
            && Count(w2.completions, id) == Count(w1.completions, id) + 1
            && (w1.rows[id].status == Executed ==> Count(w2.completions, id) == Count(w.completions, id) + 2)
  {
    var p, q :| p != q && Live(w, p, id) && Live(w, q, id) && w.deciders[p].approve;
    if w.deciders[q].approve {
      first := ApprovedRuns(w, q, id, e);
    } else {
      first := [] + [Write(q, 0)];
      RunSnoc(Step, w, [], Write(q, 0));
    }
    assert Live(Run(Step, w, first), p, id);
    second := ApprovedRuns(Run(Step, w, first), p, id, e);
    RunConcat(Step, w, first, second);
  }

  /** The overlap is reachable for any proposer and any other user. */
  lemma OverlapHappens(proposer: nat, user: nat) returns (actions: seq<Action>)
    requires user != proposer
    ensures Overlap(Run(Step, Empty, actions), 0)
  {
    var xs := [] + [Propose(0, proposer, 0)];
    RunSnoc(Step, Empty, [], Propose(0, proposer, 0));
    RunSnoc(Step, Empty, xs, Check(0, 0, user, true));
    RunSnoc(Step, Empty, xs + [Check(0, 0, user, true)], Check(1, 0, user, true));
    actions := xs + [Check(0, 0, user, true)] + [Check(1, 0, user, true)];
    var w := Run(Step, Empty, actions);
    assert Live(w, 0, 0) && Live(w, 1, 0);
  }

  // --- a claim that nobody ends ------------------------------------------------------------------------

  predicate IsExecuting(w: World, id: nat)
  {
    id in w.rows && w.rows[id].status == Executing
  }

  /** Somebody executes the request. */
  ghost predicate Held(w: World, id: nat)
  {
    exists e :: e in w.executors && w.executors[e].request == id
  }

  /** At `executing`, executed by nobody, and no decision left to overwrite it. */
  ghost predicate Stranded(w: World, id: nat)
  {
    IsExecuting(w, id) && !Held(w, id) && forall p: nat :: !Live(w, p, id)
  }

  lemma StepKeepsStranded(w: World, a: Action, id: nat)
    requires Stranded(w, id)
    ensures Stranded(Step(w, a), id)
  {
    var w' := Step(w, a);
    if a.Write? && a.decider in w.deciders && w.deciders[a.decider].request == id {
      assert !Live(w, a.decider, id);
    }
    forall p: nat
      ensures !Live(w', p, id)
    {
      assert !Live(w, p, id);
    }
  }

  lemma StrandedStays(w: World, ys: seq<Action>, id: nat)
    requires Stranded(w, id)
    ensures Stranded(Run(Step, w, ys), id)
  {
    var stranded := (v: World) => Stranded(v, id);
    forall v, a | stranded(v)
      ensures stranded(Step(v, a))
    {
      StepKeepsStranded(v, a, id);
    }
    RunKeeps(Step, w, ys, stranded);
  }

  /** Same decisions in flight, same proposers. */
  ghost predicate SameDecisions(w: World, v: World)
  {
    && v.deciders == w.deciders && v.rows.Keys == w.rows.Keys
    && forall i :: i in w.rows ==> v.rows[i].proposer == w.rows[i].proposer
  }

  lemma ExecutorsDecideNothing(w: World, a: Action)
    requires a.ToolEnds? || a.End?
    ensures SameDecisions(w, Step(w, a))
  {
  }

  /** The executor that holds a request ends it: `executed` if its tool has
      succeeded or may, else `approved`. */
  lemma HolderEnds(w: World, id: nat, e: nat) returns (ys: seq<Action>)
    requires IsExecuting(w, id) && e in w.executors && w.executors[e].request == id
    ensures forall n :: 0 <= n < |ys| ==> ys[n].ToolEnds? || ys[n].End?
    ensures var v := Run(Step, w, ys);
            id in v.rows && v.rows[id].status == if w.executors[e].outcome == Some(false) then Approved else Executed
  {
    if w.executors[e].outcome.None? {
      var w1 := Step(w, ToolEnds(e, true));
      RunSnoc(Step, w, [], ToolEnds(e, true));
      RunSnoc(Step, w, [] + [ToolEnds(e, true)], End(e));
      assert w1.rows == w.rows && e in w1.executors && w1.executors[e] == w.executors[e].(outcome := Some(true));
      ys := [] + [ToolEnds(e, true)] + [End(e)];
    } else {
      RunSnoc(Step, w, [], End(e));
      ys := [] + [End(e)];
    }
  }

  /** A row at `executing` stays there along every run if and only if nobody
      executes it and no decision that read it earlier is still to be written. */
  lemma StuckExactly(w: World, id: nat)
    requires IsExecuting(w, id)
    ensures (forall ys :: IsExecuting(Run(Step, w, ys), id)) <==> Stranded(w, id)
  {
    if Stranded(w, id) {
      forall ys
        ensures IsExecuting(Run(Step, w, ys), id)
      {
        StrandedStays(w, ys, id);
      }
    } else if Held(w, id) {
      var e :| e in w.executors && w.executors[e].request == id;
      var ys := HolderEnds(w, id, e);
      assert !IsExecuting(Run(Step, w, ys), id);
    } else {
      var p: nat :| Live(w, p, id);
      RunSnoc(Step, w, [], Write(p, 0));
      assert !IsExecuting(Run(Step, w, [] + [Write(p, 0)]), id);
    }
  }

  /** Without overlapping decisions no decision is left over, so a claim that its
      executor did not live to end is never ended. */
  lemma UnheldIsStranded(xs: seq<Action>, id: nat)
    requires NeverOverlaps(xs) && IsExecuting(Run(Step, Empty, xs), id)
    ensures Stranded(Run(Step, Empty, xs), id) <==> !Held(Run(Step, Empty, xs), id)
  {
    RunKeepsInv(xs);
  }

  lemma SameOverlaps(w: World, v: World, id: nat)
    requires SameDecisions(w, v) && !Overlap(w, id)
    ensures !Overlap(v, id)
  {
    assert forall p: nat :: Live(v, p, id) <==> Live(w, p, id);
  }

  lemma NeverOverlapsSnoc(xs: seq<Action>, a: Action)
    requires NeverOverlaps(xs) && forall id :: !Overlap(Step(Run(Step, Empty, xs), a), id)
    ensures NeverOverlaps(xs + [a]) && Run(Step, Empty, xs + [a]) == Step(Run(Step, Empty, xs), a)
  {
    var ys := xs + [a];
    RunSnoc(Step, Empty, xs, a);
    forall n, id | 0 <= n <= |ys|
      ensures !Overlap(Run(Step, Empty, ys[..n]), id)
    {
      assert if n <= |xs| then ys[..n] == xs[..n] else ys[..n] == ys;
    }
  }

  /** Executors add no overlap. */
  lemma {:induction false} ExecutorsNeverOverlap(xs: seq<Action>, ys: seq<Action>)
    requires NeverOverlaps(xs) && forall n :: 0 <= n < |ys| ==> ys[n].ToolEnds? || ys[n].End?
    ensures NeverOverlaps(xs + ys)
  {
    if ys == [] {
      assert xs + ys == xs;
    } else {
      var init, last := ys[..|ys| - 1], ys[|ys| - 1];
      assert xs + ys == (xs + init) + [last];
      ExecutorsNeverOverlap(xs, init);
      var w := Run(Step, Empty, xs + init);
      assert (xs + init)[..|xs + init|] == xs + init;
      ExecutorsDecideNothing(w, last);
      forall id
        ensures !Overlap(Step(w, last), id)
      {
        SameOverlaps(w, Step(w, last), id);
      }
      NeverOverlapsSnoc(xs + init, last);
    }
  }

  /** Without overlapping decisions: a row at `executing` is ended by some
      continuation, to `executed` or back to `approved`, if and only if somebody
      executes it. */
  lemma ExecutingResolvesExactly(xs: seq<Action>, id: nat)
    requires NeverOverlaps(xs) && IsExecuting(Run(Step, Empty, xs), id)
    ensures Held(Run(Step, Empty, xs), id) <==>
            exists ys :: NeverOverlaps(xs + ys)
                         && var v := Run(Step, Empty, xs + ys);
                            id in v.rows && v.rows[id].status in {Executed, Approved}
  {
    var w := Run(Step, Empty, xs);
    UnheldIsStranded(xs, id);
    if Held(w, id) {
      var e :| e in w.executors && w.executors[e].request == id;
      var ys := HolderEnds(w, id, e);
      ExecutorsNeverOverlap(xs, ys);
      RunConcat(Step, Empty, xs, ys);
    } else {
      forall ys
        ensures IsExecuting(Run(Step, Empty, xs + ys), id)
      {
        StrandedStays(w, ys, id);
        RunConcat(Step, Empty, xs, ys);
      }
    }
  }

  predicate OneDecider(w: World)
  {
    forall p, q :: p in w.deciders && q in w.deciders ==> p == q
  }

  lemma Then(xs: seq<Action>, a: Action) returns (ys: seq<Action>, w: World)
    ensures ys == xs + [a] && w == Run(Step, Empty, ys) == Step(Run(Step, Empty, xs), a)
    ensures NeverOverlaps(xs) && OneDecider(w) ==> NeverOverlaps(ys)
  {
    ys := xs + [a];
    RunSnoc(Step, Empty, xs, a);
    w := Run(Step, Empty, ys);
    if NeverOverlaps(xs) && OneDecider(w) {
      NeverOverlapsSnoc(xs, a);
    }
  }

  lemma LosesClaim(v: World, p: nat, e: nat) returns (w1: World, w2: World, w3: World)
    requires Live(v, p, 0) && v.deciders[p].approve && v.executors == map[]
    ensures w1 == Step(v, Write(p, 0)) && w2 == Step(w1, Claim(e, 0)) && w3 == Step(w2, Crash(e))
    ensures w1.deciders == w2.deciders == w3.deciders == v.deciders - {p}
    ensures IsExecuting(w3, 0) && w3.executors == map[] && w3.rows[0].proposer == v.rows[0].proposer
  {
    w1 := WriteStep(v, p, 0);
    w2 := ClaimStep(w1, e, 0);
    assert w2.rows[0].status == Executing && w2.executors.Keys == {e};
    w3 := Step(w2, Crash(e));
  }

  /** A request that is approved, claimed, and left by its executor. */
  lemma Abandoned(xs: seq<Action>, p: nat, e: nat) returns (ys: seq<Action>, w: World)
    requires var v := Run(Step, Empty, xs); Live(v, p, 0) && v.deciders[p].approve && v.executors == map[]
    ensures w == Run(Step, Empty, ys) && IsExecuting(w, 0) && w.executors == map[]
    ensures var v := Run(Step, Empty, xs);
            w.deciders == v.deciders - {p} && w.rows[0].proposer == v.rows[0].proposer
    ensures NeverOverlaps(xs) && OneDecider(Run(Step, Empty, xs)) ==> NeverOverlaps(ys)
  {
    var w1, w2, w3 := LosesClaim(Run(Step, Empty, xs), p, e);
    ys, w := Then(xs, Write(p, 0));
    ys, w := Then(ys, Claim(e, 0));
    ys, w := Then(ys, Crash(e));
  }

  /** An executor that dies strands its request: for any proposer and any other
      user, with no overlap at all. */
  lemma CrashStrands(proposer: nat, user: nat) returns (actions: seq<Action>)
    requires user != proposer
    ensures NeverOverlaps(actions) && Stranded(Run(Step, Empty, actions), 0)
  {
    var w;
    assert forall id :: !Overlap(Empty, id);
    actions, w := Then([], Propose(0, proposer, 0));
    actions, w := Then(actions, Check(0, 0, user, true));
    assert w.deciders == map[0 := Decider(0, user, true)] && Live(w, 0, 0);
    actions, w := Abandoned(actions, 0, 0);
  }

  /** With an overlap the same row, executed by nobody, is overwritten by the
      decision that was still to be written. */
  lemma LateApprovalFrees(proposer: nat, user: nat) returns (actions: seq<Action>, last: Action)
    requires user != proposer
    ensures var w := Run(Step, Empty, actions); IsExecuting(w, 0) && !Held(w, 0)
    ensures var w := Run(Step, Empty, actions + [last]); 0 in w.rows && w.rows[0].status == Approved
  {
    var w;
    actions, w := Then([], Propose(0, proposer, 0));
    actions, w := Then(actions, Check(0, 0, user, true));
    assert w.deciders == map[0 := Decider(0, user, true)] && w.rows[0].status == Pending;
    actions, w := Then(actions, Check(1, 0, user, true));
    assert w.deciders == map[0 := Decider(0, user, true), 1 := Decider(0, user, true)] && Live(w, 0, 0);
    actions, w := Abandoned(actions, 0, 0);
    last := Write(1, 0);
    assert Live(w, 1, 0);
    RunSnoc(Step, Empty, actions, last);
  }

  // --- the service over the stored table ------------------------------------------------------------

  class ApprovalService {
    var rows: Table

    constructor ()
      ensures rows == map[]
    {
      rows := map[];
    }

    /** A proposal anybody but its proposer may approve, and nobody may execute
        yet; every other request is as it was. */
    method ProposeAction(id: nat, proposer: nat, action: nat)
      requires id !in rows
      modifies this
      ensures rows.Keys == old(rows).Keys + {id} && forall other :: other in old(rows) ==>
                rows[other] == old(rows)[other]
      ensures rows[id].proposer == proposer && rows[id].action == action
      ensures forall user :: DecisionCheck(rows, id, user, true).None? <==> user != proposer
      ensures ClaimWrite(rows, id) == Err(NotPending(Pending))
      ensures rows == ProposeStep(World(old(rows), map[], map[], []), id, proposer, action).rows
    {
      rows := rows[id := Row(proposer, action, Pending, None, None)];
    }

    /** The first transaction of a decision, on whatever the table holds. */
    method CheckDecision(id: nat, user: nat, approve: bool) returns (refused: Option<Error>)
      ensures refused == DecisionCheck(rows, id, user, approve)
    {
      if id !in rows {
        return Some(NotFound);
      }
      var seen := rows[id];
      if seen.status != Pending {
        return Some(NotPending(seen.status));
      }
      if approve && user == seen.proposer {
        return Some(SelfApproval);
      }
      return None;
    }

    /** The second, on whatever the table holds by then. */
    method WriteDecision(id: nat, user: nat, approve: bool, now: int) returns (r: Result<Row, Error>)
      modifies this
      ensures var written := DecisionWrite(old(rows), id, user, approve, now);
              && rows == (if written.Ok? then written.value else old(rows))
              && (r.Ok? <==> written.Ok?) && (r.Err? ==> r.error == written.error)
              && (r.Ok? ==> id in rows && r.value == rows[id])
    {
      if id !in rows {
        return Err(NotFound);
      }
      var row := rows[id].(status := if approve then Approved else Rejected, approver := Some(user),
                           decidedAt := Some(now));
      if user == row.proposer {
        return Err(CheckViolation);
      }
      rows := rows[id := row];
      return Ok(row);
    }

    /** `approve` and `reject` when nothing comes between the two: exactly the
        machine's two steps, and the first refusal if there is one. */
    method Decide(id: nat, user: nat, approve: bool, now: int) returns (r: Result<Row, Error>)
      modifies this
      ensures var w := World(old(rows), map[], map[], []);
              rows == Run(Step, w, [Check(0, id, user, approve), Write(0, now)]).rows
      ensures r.Ok? <==> DecisionCheck(old(rows), id, user, approve).None? && DecisionWrite(old(rows), id, user,
                                                                                            approve, now).Ok?
      ensures r.Ok? ==> id in rows && r.value == rows[id]
      ensures r.Err? ==> rows == old(rows)
      ensures DecisionCheck(old(rows), id, user, approve).Some? ==>
                r == Err(DecisionCheck(old(rows), id, user, approve).value)
    {
      ghost var w := World(rows, map[], map[], []);
      assert [Check(0, id, user, approve), Write(0, now)] == [] + [Check(0, id, user, approve)] + [Write(0, now)];
      RunSnoc(Step, w, [], Check(0, id, user, approve));
      RunSnoc(Step, w, [] + [Check(0, id, user, approve)], Write(0, now));
      var refused := CheckDecision(id, user, approve);
      if refused.Some? {
        return Err(refused.value);
      }
      r := WriteDecision(id, user, approve, now);
    }

    method ClaimForExecution(id: nat) returns (r: Result<Row, Error>)
      modifies this
      ensures r.Ok? <==> ClaimWrite(old(rows), id).Ok?
      ensures rows == if r.Ok? then ClaimWrite(old(rows), id).value else old(rows)
      ensures r.Ok? ==> id in rows && r.value == rows[id]
      ensures r.Err? ==> r.error == ClaimWrite(old(rows), id).error
    {
      if id !in rows {
        return Err(NotFound);
      }
      if rows[id].status != Approved {
        return Err(NotPending(rows[id].status));
      }
      rows := rows[id := rows[id].(status := Executing)];
      return Ok(rows[id]);
    }

    /** What follows the tool, on whatever the table holds by then. */
    method EndExecution(id: nat, toolSucceeded: bool) returns (r: Result<Row, Error>)
      modifies this
      ensures rows == EndWrite(old(rows), id, toolSucceeded)
      ensures r.Ok? <==> toolSucceeded && id in old(rows)
      ensures r.Ok? ==> id in rows && r.value == rows[id] && rows[id].status == Executed
    {
      if !toolSucceeded {
        if id in rows && rows[id].status == Executing {
          rows := rows[id := rows[id].(status := Approved)];
        }
        return Err(ToolFailed);
      }
      if id !in rows {
        return Err(NotFound);
      }
      rows := rows[id := rows[id].(status := Executed)];
      return Ok(rows[id]);
    }

    /** `execute_approved` when nothing comes between: the machine's steps. A
        failing tool leaves the table as it was, so a retry remains possible. */
    method ExecuteApproved(id: nat, toolSucceeds: bool) returns (r: Result<Row, Error>)
      modifies this
      ensures var w := World(old(rows), map[], map[], []);
              rows == Run(Step, w, [Claim(0, id), ToolEnds(0, toolSucceeds), End(0)]).rows
      ensures r.Ok? <==> id in old(rows) && old(rows)[id].status == Approved && toolSucceeds
      ensures r.Ok? ==> id in rows && r.value == rows[id] && rows[id].status == Executed
      ensures r.Err? ==> rows == old(rows)
    {
      ghost var w := World(rows, map[], map[], []);
      assert [Claim(0, id), ToolEnds(0, toolSucceeds), End(0)] == [] + [Claim(0, id)] + [ToolEnds(0, toolSucceeds)]
             + [End(0)];
      RunSnoc(Step, w, [], Claim(0, id));
      RunSnoc(Step, w, [] + [Claim(0, id)], ToolEnds(0, toolSucceeds));
      RunSnoc(Step, w, [] + [Claim(0, id)] + [ToolEnds(0, toolSucceeds)], End(0));
      var claimed := ClaimForExecution(id);
      if claimed.Err? {
        return claimed;
      }
      r := EndExecution(id, toolSucceeds);
      assert !toolSucceeds ==> rows == old(rows);
    }
  }
}
