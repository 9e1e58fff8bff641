/**
  How the outbox dispatcher reads the exception a consumer raised
  (saas_os/api/outbox_dispatcher.py, saas_os/core/outbox/dispatch.py).

  An exception is one object or a group of exceptions, nested to any depth.
  An object has an identity (Python's `id`) and the traits of its class.
 */
module OutboxExceptions {
  import opened Common

  /** What an ambiguous outcome declares about a repeated request. */
  datatype RetryPolicy = NoPolicy | Within(period: nat) | AtLeastOnce

  datatype Ambiguous = Ambiguous(reason: string, phase: string, policy: RetryPolicy)

  datatype Traits = Traits(
    ambiguous: Option<Ambiguous>,
    notSent: bool,
    permanent: bool,
    retryAfter: Option<int>,
    timeout: bool,
    name: string)

  datatype Leaf = Leaf(id: nat, traits: Traits)

  datatype Exc = One(leaf: Leaf) | Group(name: string, members: seq<Exc>)

  const UNCLASSIFIED_PHASE := "unclassified"

  // --- the code ---------------------------------------------------------------

  function Leaves(e: Exc): (r: seq<Leaf>)
    decreases e, 0
  {
    match e
    case One(leaf) => [leaf]
    case Group(_, members) => AllLeaves(members)
  }

  function AllLeaves(es: seq<Exc>): (r: seq<Leaf>)
    decreases es, 1
  {
    if es == [] then [] else Leaves(es[0]) + AllLeaves(es[1..])
  }

  predicate BareTimeout(l: Leaf)
  {
    !l.traits.notSent && l.traits.timeout
  }

  predicate IsUnclassifiedTimeout(e: Exc)
    decreases e, 0
  {
    match e
    case One(leaf) => BareTimeout(leaf)
    case Group(_, members) => AnyUnclassifiedTimeout(members)
  }

  predicate AnyUnclassifiedTimeout(es: seq<Exc>)
    decreases es, 1
  {
    es != [] && (IsUnclassifiedTimeout(es[0]) || AnyUnclassifiedTimeout(es[1..]))
  }

  function AmbiguousMembers(e: Exc): (r: seq<Ambiguous>)
    decreases e, 0
  {
    match e
    case One(leaf) => if leaf.traits.ambiguous.Some? then [leaf.traits.ambiguous.value] else []
    case Group(_, members) => AllAmbiguousMembers(members)
  }

  function AllAmbiguousMembers(es: seq<Exc>): (r: seq<Ambiguous>)
    decreases es, 1
  {
    if es == [] then [] else AmbiguousMembers(es[0]) + AllAmbiguousMembers(es[1..])
  }

  function TypeName(e: Exc): (r: string)
  {
    match e
    case One(leaf) => leaf.traits.name
    case Group(name, _) => name
  }

  function Shortest(members: seq<Ambiguous>): (r: nat)
    requires members != [] && forall m :: m in members ==> m.policy.Within?
    ensures exists m :: m in members && m.policy == Within(r)
    ensures forall m :: m in members ==> r <= m.policy.period
  {
    if |members| == 1 then
      assert members[0] in members;
      members[0].policy.period
    else
      assert members == [members[0]] + members[1..];
      var rest := Shortest(members[1..]);
      if members[0].policy.period <= rest then members[0].policy.period else rest
  }

  /** The most conservative policy of the members (`_ambiguous_outcome`). */
  function CombinedPolicy(members: seq<Ambiguous>): (r: RetryPolicy)
    requires members != []
  {
    if forall m :: m in members ==> m.policy.AtLeastOnce? then AtLeastOnce
    else if forall m :: m in members ==> m.policy.Within? then Within(Shortest(members))
    else NoPolicy
  }

  function AmbiguousOutcome(e: Exc): (r: Option<Ambiguous>)
  {
    if e.One? && e.leaf.traits.ambiguous.Some? then e.leaf.traits.ambiguous
    else if e.One? && (e.leaf.traits.permanent || e.leaf.traits.retryAfter.Some?) then None
    else if IsUnclassifiedTimeout(e) then Some(Ambiguous(TypeName(e), UNCLASSIFIED_PHASE, NoPolicy))
    else
      var members := AmbiguousMembers(e);
      if members == [] then None
      else Some(Ambiguous(members[0].reason, members[0].phase, CombinedPolicy(members)))
  }

  predicate DeclaresAtLeastOnce(l: Leaf)
  {
    l.traits.ambiguous.Some? && l.traits.ambiguous.value.policy.AtLeastOnce?
  }

  predicate EveryLeafAtLeastOnce(e: Exc)
  {
    forall l :: l in Leaves(e) ==> DeclaresAtLeastOnce(l)
  }

  predicate EveryLeafNotSent(e: Exc)
  {
    forall l :: l in Leaves(e) ==> l.traits.notSent
  }

  function Ids(e: Exc): (r: set<nat>)
  {
    set l | l in Leaves(e) :: l.id
  }

  predicate BlockGroupDeclaresOnlyAtLeastOnce(e: Exc, block: Option<Exc>)
  {
    block.None? || Ids(e) * Ids(block.value) == {} || EveryLeafAtLeastOnce(block.value)
  }

  /** `_is_attested_not_sent` of the store. */
  predicate AttestedNotSent(e: Exc, block: Option<Exc>)
  {
    && block.Some?
    && EveryLeafNotSent(e)
    && EveryLeafNotSent(block.value)
    && Ids(e) <= Ids(block.value)
  }

  /** What an execution knows about its own started marker. */
  datatype Starter = Starter(refused: bool, started: bool, block: Option<Exc>)

  /** The store write that records an outcome. */
  datatype Op =
    | CompleteOp
    | FailOp(terminal: bool, hint: Option<int>)
    | ConfirmOp(error: Exc, block: Option<Exc>, hint: Option<int>)
    | AmbiguousOp(outcome: Ambiguous)

  function PassedOn(e: Exc, starter: Starter, a: Ambiguous): (r: Ambiguous)
  {
    if starter.started && a.policy.AtLeastOnce?
       && !(EveryLeafAtLeastOnce(e) && BlockGroupDeclaresOnlyAtLeastOnce(e, starter.block))
    then a.(policy := NoPolicy)
    else a
  }

  function Hint(e: Exc): (r: Option<int>)
  {
    if e.One? then e.leaf.traits.retryAfter else None
  }

  /** `_record_consumer_failure`: the write a failure inside the deadline leads to. */
  function ClassifyFailure(e: Exc, starter: Starter): (r: Op)
  {
    var ambiguous := AmbiguousOutcome(e);
    if ambiguous.Some? then AmbiguousOp(PassedOn(e, starter, ambiguous.value))
    else if e.One? && e.leaf.traits.permanent then FailOp(true, None)
    else if starter.started && EveryLeafNotSent(e) then ConfirmOp(e, starter.block, Hint(e))
    else if e.One? && e.leaf.traits.retryAfter.Some? then FailOp(false, e.leaf.traits.retryAfter)
    else FailOp(false, None)
  }

  // --- a group is read through its leaves only -----------------------------------

  lemma {:induction false} AllLeavesConcat(xs: seq<Exc>, ys: seq<Exc>)
    ensures AllLeaves(xs + ys) == AllLeaves(xs) + AllLeaves(ys)
  {
    if xs == [] {
      assert xs + ys == ys;
    } else {
      assert (xs + ys)[1..] == xs[1..] + ys;
      AllLeavesConcat(xs[1..], ys);
    }
  }

  lemma {:induction false} TimeoutFromLeaves(e: Exc)
    ensures IsUnclassifiedTimeout(e) <==> exists l :: l in Leaves(e) && BareTimeout(l)
    decreases e, 0
  {
    if e.Group? {
      AnyTimeoutFromLeaves(e.members);
    } else {
      assert e.leaf in Leaves(e);
    }
  }

  lemma {:induction false} AnyTimeoutFromLeaves(es: seq<Exc>)
    ensures AnyUnclassifiedTimeout(es) <==> exists l :: l in AllLeaves(es) && BareTimeout(l)
    decreases es, 1
  {
    if es != [] {
      TimeoutFromLeaves(es[0]);
      AnyTimeoutFromLeaves(es[1..]);
    }
  }

  lemma {:induction false} MembersFromLeaves(e: Exc, a: Ambiguous)
    ensures a in AmbiguousMembers(e) <==> exists l :: l in Leaves(e) && l.traits.ambiguous == Some(a)
    decreases e, 0
  {
    if e.Group? {
      AllMembersFromLeaves(e.members, a);
    } else {
      assert e.leaf in Leaves(e);
    }
  }

  lemma {:induction false} AllMembersFromLeaves(es: seq<Exc>, a: Ambiguous)
    ensures a in AllAmbiguousMembers(es) <==> exists l :: l in AllLeaves(es) && l.traits.ambiguous == Some(a)
    decreases es, 1
  {
    if es != [] {
      MembersFromLeaves(es[0], a);
      AllMembersFromLeaves(es[1..], a);
    }
  }

  // --- the policy of a group is the meet of its leaves' policies -------------------

  /** `p` allows no retry that `q` does not. At-least-once delivery and an
      idempotency window are different promises: neither implies the other. */
  predicate NoMorePermissive(p: RetryPolicy, q: RetryPolicy)
  {
    p.NoPolicy? || p == q || (p.Within? && q.Within? && p.period <= q.period)
  }

  ghost predicate BelowEveryLeaf(p: RetryPolicy, leaves: set<Leaf>)
  {
    && (forall l :: l in leaves && l.traits.ambiguous.Some? ==> NoMorePermissive(p, l.traits.ambiguous.value.policy))
    && ((exists l :: l in leaves && BareTimeout(l)) ==> p.NoPolicy?)
  }

  lemma CombinedIsMeet(members: seq<Ambiguous>, p: RetryPolicy)
    requires members != []
    ensures forall m :: m in members ==> NoMorePermissive(CombinedPolicy(members), m.policy)
    ensures (forall m :: m in members ==> NoMorePermissive(p, m.policy)) ==>
              NoMorePermissive(p, CombinedPolicy(members))
  {
    assert members[0] in members;
  }

  /** A group reports an ambiguous outcome exactly when some leaf is ambiguous
      or a bare timeout. Its policy is below every leaf's, and it is the most
      permissive policy that is: nothing but the leaves decides it. */
  lemma GroupOutcomeIsMeet(e: Exc, p: RetryPolicy)
    requires e.Group?
    ensures AmbiguousOutcome(e).Some? <==>
            exists l :: l in Leaves(e) && (BareTimeout(l) || l.traits.ambiguous.Some?)
    ensures AmbiguousOutcome(e).Some? ==>
              && BelowEveryLeaf(AmbiguousOutcome(e).value.policy, ToSet(Leaves(e)))
              && (BelowEveryLeaf(p, ToSet(Leaves(e))) ==> NoMorePermissive(p, AmbiguousOutcome(e).value.policy))
  {
    TimeoutFromLeaves(e);
    forall a {
      MembersFromLeaves(e, a);
    }
    var members := AmbiguousMembers(e);
    if members != [] {
      assert members[0] in members;
      CombinedIsMeet(members, p);
      forall l | l in Leaves(e) && l.traits.ambiguous.Some?
        ensures l.traits.ambiguous.value in members
      {
        MembersFromLeaves(e, l.traits.ambiguous.value);
      }
    } else {
      forall l | l in Leaves(e)
        ensures l.traits.ambiguous.None?
      {
        if l.traits.ambiguous.Some? {
          MembersFromLeaves(e, l.traits.ambiguous.value);
        }
      }
    }
  }

  /** Nesting, order and repetition do not matter, and a larger group is never
      more permissive. */
  lemma GroupOutcomeMonotone(e: Exc, larger: Exc)
    requires e.Group? && larger.Group?
    requires ToSet(Leaves(e)) <= ToSet(Leaves(larger))
    requires AmbiguousOutcome(e).Some?
    ensures AmbiguousOutcome(larger).Some?
    ensures NoMorePermissive(AmbiguousOutcome(larger).value.policy, AmbiguousOutcome(e).value.policy)
  {
    GroupOutcomeIsMeet(e, NoPolicy);
    var l :| l in Leaves(e) && (BareTimeout(l) || l.traits.ambiguous.Some?);
    assert l in ToSet(Leaves(larger));
    GroupOutcomeIsMeet(larger, NoPolicy);
    var p := AmbiguousOutcome(larger).value.policy;
    assert BelowEveryLeaf(p, ToSet(Leaves(larger)));
    assert BelowEveryLeaf(p, ToSet(Leaves(e)));
    GroupOutcomeIsMeet(e, p);
  }

  lemma GroupOutcomeDependsOnLeavesOnly(e: Exc, f: Exc)
    requires e.Group? && f.Group?
    requires ToSet(Leaves(e)) == ToSet(Leaves(f))
    ensures AmbiguousOutcome(e).Some? <==> AmbiguousOutcome(f).Some?
    ensures AmbiguousOutcome(e).Some? ==> AmbiguousOutcome(e).value.policy == AmbiguousOutcome(f).value.policy
  {
    if AmbiguousOutcome(e).Some? {
      GroupOutcomeMonotone(e, f);
    }
    if AmbiguousOutcome(f).Some? {
      GroupOutcomeMonotone(f, e);
    }
  }

  /** `added` inserted before position `i` of the group that `path` leads to. */
  function Inserted(e: Exc, path: seq<nat>, i: nat, added: Exc): (r: Exc)
    requires LeadsToGroup(e, path, i)
    decreases |path|
  {
    if path == [] then e.(members := e.members[..i] + [added] + e.members[i..])
    else e.(members := e.members[path[0] := Inserted(e.members[path[0]], path[1..], i, added)])
  }

  predicate LeadsToGroup(e: Exc, path: seq<nat>, i: nat)
    decreases |path|
  {
    && e.Group?
    && if path == [] then i <= |e.members|
       else path[0] < |e.members| && LeadsToGroup(e.members[path[0]], path[1..], i)
  }

  lemma {:induction false} LeavesReplaced(es: seq<Exc>, k: nat, e: Exc, more: set<Leaf>)
    requires k < |es| && ToSet(Leaves(e)) == ToSet(Leaves(es[k])) + more
    ensures ToSet(AllLeaves(es[k := e])) == ToSet(AllLeaves(es)) + more
  {
    if k == 0 {
      assert es[k := e][1..] == es[1..];
      SetOfConcat(Leaves(e), AllLeaves(es[1..]));
      SetOfConcat(Leaves(es[0]), AllLeaves(es[1..]));
    } else {
      assert es[k := e][1..] == es[1..][k - 1 := e];
      LeavesReplaced(es[1..], k - 1, e, more);
      SetOfConcat(Leaves(es[0]), AllLeaves(es[1..][k - 1 := e]));
      SetOfConcat(Leaves(es[0]), AllLeaves(es[1..]));
    }
  }

  lemma LeavesBetween(before: seq<Exc>, added: Exc, after: seq<Exc>)
    ensures ToSet(AllLeaves(before + [added] + after)) == ToSet(AllLeaves(before + after)) + ToSet(Leaves(added))
  {
    AllLeavesConcat(before, after);
    AllLeavesConcat(before + [added], after);
    AllLeavesConcat(before, [added]);
    assert AllLeaves([added]) == Leaves(added);
    SetOfConcat(AllLeaves(before) + Leaves(added), AllLeaves(after));
    SetOfConcat(AllLeaves(before), Leaves(added));
    SetOfConcat(AllLeaves(before), AllLeaves(after));
  }

  /** Inserting adds the new leaves and nothing else. */
  lemma {:induction false} InsertingAddsLeaves(e: Exc, path: seq<nat>, i: nat, added: Exc)
    requires LeadsToGroup(e, path, i)
    ensures Inserted(e, path, i, added).Group?
    ensures ToSet(Leaves(Inserted(e, path, i, added))) == ToSet(Leaves(e)) + ToSet(Leaves(added))
    decreases |path|
  {
    if path == [] {
      assert e.members == e.members[..i] + e.members[i..];
      LeavesBetween(e.members[..i], added, e.members[i..]);
    } else {
      InsertingAddsLeaves(e.members[path[0]], path[1..], i, added);
      LeavesReplaced(e.members, path[0], Inserted(e.members[path[0]], path[1..], i, added), ToSet(Leaves(added)));
    }
  }

  /** Adding any exception, at any place and depth, to a group that is already
      ambiguous never makes it more permissive. */
  lemma AddingAMemberNeverHelps(e: Exc, path: seq<nat>, i: nat, added: Exc)
    requires LeadsToGroup(e, path, i) && AmbiguousOutcome(e).Some?
    ensures AmbiguousOutcome(Inserted(e, path, i, added)).Some?
    ensures NoMorePermissive(AmbiguousOutcome(Inserted(e, path, i, added)).value.policy,
                             AmbiguousOutcome(e).value.policy)
  {
    InsertingAddsLeaves(e, path, i, added);
    GroupOutcomeMonotone(e, Inserted(e, path, i, added));
  }

  // --- what a marked attempt may be credited with -------------------------------------

  /** After its marker, an execution's failure is passed on as at-least-once
      exactly when every leaf declares it, no group holds a bare timeout, and
      a block exception sharing a leaf with it declares it everywhere too. */
  lemma MarkedAtLeastOnce(e: Exc, starter: Starter)
    requires starter.started && Leaves(e) != []
    ensures (ClassifyFailure(e, starter).AmbiguousOp? && ClassifyFailure(e, starter).outcome.policy.AtLeastOnce?)
            <==>
            (&& (forall l :: l in Leaves(e) ==> DeclaresAtLeastOnce(l))
             && (e.Group? ==> forall l :: l in Leaves(e) ==> !BareTimeout(l))
             && (starter.block.Some?
                 && (exists l, m :: l in Leaves(e) && m in Leaves(starter.block.value) && l.id == m.id)
                 ==> forall l :: l in Leaves(starter.block.value) ==> DeclaresAtLeastOnce(l)))
  {
    if starter.block.Some? {
      assert Ids(e) * Ids(starter.block.value) != {} <==>
        exists l, m :: l in Leaves(e) && m in Leaves(starter.block.value) && l.id == m.id
      by { SharedLeaf(e, starter.block.value); }
    }
    if e.Group? {
      TimeoutFromLeaves(e);
      assert Leaves(e)[0] in Leaves(e);
      GroupOutcomeIsMeet(e, AtLeastOnce);
    } else {
      assert e.leaf in Leaves(e);
    }
  }

  lemma SharedLeaf(e: Exc, f: Exc)
    ensures Ids(e) * Ids(f) != {} <==> exists l, m :: l in Leaves(e) && m in Leaves(f) && l.id == m.id
  {
    if exists l, m :: l in Leaves(e) && m in Leaves(f) && l.id == m.id {
      var l, m :| l in Leaves(e) && m in Leaves(f) && l.id == m.id;
      assert l.id in Ids(e) * Ids(f);
    }
    if Ids(e) * Ids(f) != {} {
      var i :| i in Ids(e) * Ids(f);
      var l :| l in Leaves(e) && l.id == i;
      var m :| m in Leaves(f) && m.id == i;
    }
  }

  /** A "confirmed not sent" statement is asked for only after the marker, and
      never for an exception that any of the other classes claims. */
  lemma ConfirmOnlyAfterMarker(e: Exc, starter: Starter)
    requires ClassifyFailure(e, starter).ConfirmOp?
    ensures starter.started
    ensures forall l :: l in Leaves(e) ==>
              l.traits.notSent && !BareTimeout(l) && (e.Group? ==> l.traits.ambiguous.None?)
  {
    if e.Group? {
      GroupOutcomeIsMeet(e, NoPolicy);
    }
  }

  /** The rule above reads the execution's own marker. An execution of the same
      claim that wrote none passes a mixed group on as at-least-once. */
  lemma UnmarkedMixedGroupIsPassedOn(declared: Leaf, other: Leaf, name: string)
    requires DeclaresAtLeastOnce(declared) && !BareTimeout(declared)
    requires other.traits.ambiguous.None? && !BareTimeout(other)
    ensures var e := Group(name, [One(declared), One(other)]);
            && !EveryLeafAtLeastOnce(e)
            && ClassifyFailure(e, Starter(false, false, None)).AmbiguousOp?
            && ClassifyFailure(e, Starter(false, false, None)).outcome.policy.AtLeastOnce?
  {
    var e := Group(name, [One(declared), One(other)]);
    assert e.members[1..] == [One(other)];
    assert AllLeaves([One(other)]) == [other];
    assert AllLeaves(e.members) == Leaves(One(declared)) + AllLeaves([One(other)]);
    assert Leaves(e) == [declared, other];
    assert other in Leaves(e);
    TimeoutFromLeaves(e);
    assert AllAmbiguousMembers([One(other)]) == [];
    assert AllAmbiguousMembers(e.members) == AmbiguousMembers(One(declared)) + AllAmbiguousMembers([One(other)]);
    assert AmbiguousMembers(e) == [declared.traits.ambiguous.value];
  }
}
