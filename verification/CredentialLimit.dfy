/**
  The failed-credential limit (saas_os/api/dependencies.py: peek, look up,
  count a refusal; saas_os/infra/ratelimit/limiter.py: the fixed-window
  counter). Requests that present one credential interleave; the window may end
  between any two steps; the limiter may be unreachable; a request may die.
 */
module CredentialLimit {
  import opened Common
  import opened Machines

  /** `looked` and `earlier`: refused at the lookup and not yet counted, in this
      window or in an earlier one. `lookups`: refusals looked up in this window.
      `peak`: the most requests past their check at once in this window. */
  datatype State = State(
    count: nat,
    peeked: set<nat>,
    looked: set<nat>,
    earlier: set<nat>,
    lookups: nat,
    uncounted: nat,
    unchecked: nat,
    peak: nat)

  datatype Action =
    | Peek(request: nat, reachable: bool)
    | LookUp(request: nat, valid: bool)
    | Count(request: nat, reachable: bool)
    | Die(request: nat)
    | WindowEnds

  function InFlight(s: State): (r: nat)
  {
    |s.peeked| + |s.looked| + |s.earlier|
  }

  predicate Present(s: State, r: nat)
  {
    r in s.peeked || r in s.looked || r in s.earlier
  }

  function WithPeak(s: State): (r: State)
  {
    s.(peak := Max(s.peak, InFlight(s)))
  }

  /** `_refuse_failing_credential`: fails open. */
  function PeekStep(limit: nat, s: State, r: nat, reachable: bool): (s': State)
  {
    if Present(s, r) || (reachable && s.count >= limit) then s
    else
      var admitted := s.(peeked := s.peeked + {r});
      WithPeak(if reachable then admitted else admitted.(unchecked := s.unchecked + 1))
  }

  function LookUpStep(s: State, r: nat, valid: bool): (s': State)
  {
    if r !in s.peeked then s
    else if valid then s.(peeked := s.peeked - {r})
    else s.(peeked := s.peeked - {r}, looked := s.looked + {r}, lookups := s.lookups + 1)
  }

  /** `_count_credential_failure`. */
  function CountStep(s: State, r: nat, reachable: bool): (s': State)
  {
    if r in s.looked then
      (if reachable then s.(looked := s.looked - {r}, count := s.count + 1)
       else s.(looked := s.looked - {r}, uncounted := s.uncounted + 1))
    else if r in s.earlier then
      s.(earlier := s.earlier - {r}, count := if reachable then s.count + 1 else s.count)
    else s
  }

  function DieStep(s: State, r: nat): (s': State)
  {
    if r in s.looked then s.(looked := s.looked - {r}, uncounted := s.uncounted + 1)
    else s.(peeked := s.peeked - {r}, earlier := s.earlier - {r})
  }

  function WindowEndsStep(s: State): (s': State)
  {
    WithPeak(State(0, s.peeked, {}, s.earlier + s.looked, 0, 0, 0, 0))
  }

  function Step(limit: nat, s: State, a: Action): (s': State)
  {
    match a
    case Peek(r, reachable) => PeekStep(limit, s, r, reachable)
    case LookUp(r, valid) => LookUpStep(s, r, valid)
    case Count(r, reachable) => CountStep(s, r, reachable)
    case Die(r) => DieStep(s, r)
    case WindowEnds => WindowEndsStep(s)
  }

  function Steps(limit: nat): (r: (State, Action) -> State)
  {
    (s: State, a: Action) => Step(limit, s, a)
  }

  const Fresh := State(0, {}, {}, {}, 0, 0, 0, 0)

  // --- the bound ---------------------------------------------------------------------------------

  ghost predicate Inv(limit: nat, s: State)
  {
    && s.peeked !! s.looked && s.peeked !! s.earlier && s.looked !! s.earlier
    && InFlight(s) <= s.peak
    && s.lookups <= |s.looked| + s.count + s.uncounted
    && s.lookups + |s.peeked| <= limit + s.peak - 1 + s.uncounted + s.unchecked
  }

  lemma PeekKeepsInv(limit: nat, s: State, r: nat, reachable: bool)
    requires Inv(limit, s)
    ensures Inv(limit, PeekStep(limit, s, r, reachable))
  {
  }

  lemma LookUpKeepsInv(limit: nat, s: State, r: nat, valid: bool)
    requires Inv(limit, s)
    ensures Inv(limit, LookUpStep(s, r, valid))
  {
  }

  lemma CountKeepsInv(limit: nat, s: State, r: nat, reachable: bool)
    requires Inv(limit, s)
    ensures Inv(limit, CountStep(s, r, reachable))
  {
  }

  lemma DieKeepsInv(limit: nat, s: State, r: nat)
    requires Inv(limit, s)
    ensures Inv(limit, DieStep(s, r))
  {
    assert |s.peeked - {r}| <= |s.peeked| && |s.earlier - {r}| <= |s.earlier|;
  }

  lemma WindowEndsKeepsInv(limit: nat, s: State)
    requires Inv(limit, s) && limit >= 1
    ensures Inv(limit, WindowEndsStep(s))
  {
    assert |s.earlier + s.looked| == |s.earlier| + |s.looked|;
  }

  lemma {:induction false} RunKeepsInv(limit: nat, actions: seq<Action>)
    requires limit >= 1
    ensures Inv(limit, Run(Steps(limit), Fresh, actions))
  {
    if actions != [] {
      RunKeepsInv(limit, actions[..|actions| - 1]);
      var s := Run(Steps(limit), Fresh, actions[..|actions| - 1]);
      match actions[|actions| - 1] {
        case Peek(r, reachable) => PeekKeepsInv(limit, s, r, reachable);
        case LookUp(r, valid) => LookUpKeepsInv(limit, s, r, valid);
        case Count(r, reachable) => CountKeepsInv(limit, s, r, reachable);
        case Die(r) => DieKeepsInv(limit, s, r);
        case WindowEnds => WindowEndsKeepsInv(limit, s);
      }
    }
  }

  /** In every window, however requests interleave and whatever was still in
      flight when it began: a bad credential is looked up at most limit + K - 1
      times, K being the most requests past their check at once, plus one for
      each refusal that could not be counted and each check the limiter did not
      answer. */
  lemma LookupsAreBounded(limit: nat, actions: seq<Action>)
    requires limit >= 1
    ensures var s := Run(Steps(limit), Fresh, actions);
            s.lookups <= limit + s.peak - 1 + s.uncounted + s.unchecked
  {
    RunKeepsInv(limit, actions);
  }

  // --- the bound is reached -----------------------------------------------------------------------

  /** One request after another until the count stands one below the limit. */
  lemma {:induction false} OneAfterAnother(limit: nat, n: nat) returns (actions: seq<Action>)
    requires n < limit
    ensures var s := Run(Steps(limit), Fresh, actions);
            s == State(n, {}, {}, {}, n, 0, 0, if n == 0 then 0 else 1)
  {
    actions := [];
    if n > 0 {
      var before := OneAfterAnother(limit, n - 1);
      var s := Run(Steps(limit), Fresh, before);
      RunSnoc(Steps(limit), Fresh, before, Peek(0, true));
      RunSnoc(Steps(limit), Fresh, before + [Peek(0, true)], LookUp(0, false));
      RunSnoc(Steps(limit), Fresh, before + [Peek(0, true)] + [LookUp(0, false)], Count(0, true));
      actions := before + [Peek(0, true)] + [LookUp(0, false)] + [Count(0, true)];
      assert {0} - {0} == {};
    }
  }

  lemma Then(limit: nat, s: State, before: seq<Action>, a: Action) returns (actions: seq<Action>, s': State)
    ensures s' == Run(Steps(limit), s, actions) && s' == Step(limit, Run(Steps(limit), s, before), a)
  {
    actions := before + [a];
    RunSnoc(Steps(limit), s, before, a);
    s' := Run(Steps(limit), s, actions);
  }

  /** Only the requests past their check differ from `s`. */
  ghost predicate Waiting(s: State, s': State, k: nat)
  {
    && |s'.peeked| == k && (forall i: nat :: i in s'.peeked <==> i < k)
    && s'.looked == {} && s'.earlier == {} && s'.peak == Max(s.peak, k)
    && s'.count == s.count && s'.lookups == s.lookups && s'.uncounted == s.uncounted && s'.unchecked == s.unchecked
  }

  lemma OneMorePeeks(limit: nat, s: State, v: State, k: nat)
    requires s.count < limit && s.peak <= 1 && k > 0 && Waiting(s, v, k - 1)
    ensures Waiting(s, PeekStep(limit, v, k - 1, true), k)
  {
  }

  /** `k` requests all past their check. */
  lemma {:induction false} AllPeek(limit: nat, s: State, k: nat) returns (actions: seq<Action>, s': State)
    requires s.count < limit && s.peeked == {} && s.looked == {} && s.earlier == {} && s.peak <= 1
    ensures s' == Run(Steps(limit), s, actions) && Waiting(s, s', k)
  {
    actions, s' := [], s;
    if k > 0 {
      var before, v := AllPeek(limit, s, k - 1);
      OneMorePeeks(limit, s, v, k);
      actions, s' := Then(limit, s, before, Peek(k - 1, true));
    }
  }

  /** `n` of the `k` waiting requests have looked the credential up. */
  ghost predicate Looking(s: State, s': State, k: nat, n: nat)
  {
    && (forall i: nat :: i in s'.peeked <==> n <= i < k)
    && s'.lookups == s.lookups + n
    && s'.peak == s.peak && s'.uncounted == s.uncounted && s'.unchecked == s.unchecked
  }

  lemma OneMoreLooksUp(s: State, v: State, k: nat, n: nat)
    requires 0 < n <= k && Looking(s, v, k, n - 1)
    ensures Looking(s, LookUpStep(v, n - 1, false), k, n)
  {
  }

  lemma {:induction false} AllLookUp(limit: nat, s: State, k: nat, n: nat) returns (actions: seq<Action>, s': State)
    requires n <= k && forall i: nat :: i in s.peeked <==> i < k
    ensures s' == Run(Steps(limit), s, actions) && Looking(s, s', k, n)
  {
    actions, s' := [], s;
    if n > 0 {
      var before, v := AllLookUp(limit, s, k, n - 1);
      OneMoreLooksUp(s, v, k, n);
      actions, s' := Then(limit, s, before, LookUp(n - 1, false));
    }
  }

  /** For every limit and every K, some window with every step answered reaches
      exactly limit + K - 1 lookups. */
  lemma BoundIsReached(limit: nat, k: nat) returns (actions: seq<Action>)
    requires limit >= 1 && k >= 1
    ensures var s := Run(Steps(limit), Fresh, actions);
            s.lookups == limit + k - 1 && s.peak == k && s.uncounted == 0 && s.unchecked == 0
  {
    var xs := OneAfterAnother(limit, limit - 1);
    var s := Run(Steps(limit), Fresh, xs);
    var ys, waiting := AllPeek(limit, s, k);
    var zs, looking := AllLookUp(limit, waiting, k, k);
    RunConcat(Steps(limit), Fresh, xs, ys);
    RunConcat(Steps(limit), Fresh, xs + ys, zs);
    actions := xs + ys + zs;
  }

  // --- one request ----------------------------------------------------------------------------------

  datatype Answer = TooManyRequests | Unauthorized | Session

  /** The counter of one credential in the current window. */
  class FailureCounter {
    var count: nat
    const limit: nat

    constructor (limit: nat)
      ensures this.limit == limit && count == 0
    {
      this.limit := limit;
      count := 0;
    }

    /** `_refuse_failing_credential`, on whatever the count is; fails open. */
    method RefuseFailingCredential(reachable: bool) returns (refused: bool)
      ensures forall s: State, r: nat :: s.count == count && !Present(s, r) ==>
                (refused <==> r !in PeekStep(limit, s, r, reachable).peeked)
    {
      return reachable && count >= limit;
    }

    /** `_count_credential_failure`, on whatever the count is by then. */
    method CountCredentialFailure(reachable: bool)
      modifies this`count
      ensures forall s: State, r: nat :: s.count == old(count) && r in s.looked ==>
                count == CountStep(s, r, reachable).count
    {
      if reachable {
        count := count + 1;
      }
    }

    /** `_authenticate_session` when nothing comes between its steps: the lookup
        happens exactly when the check admits or cannot be answered; only a
        refusal is counted. */
    method AuthenticateSession(valid: bool, peekReachable: bool, countReachable: bool)
        returns (answer: Answer, lookedUp: bool)
      modifies this`count
      ensures lookedUp <==> !peekReachable || old(count) < limit
      ensures answer == if !lookedUp then TooManyRequests else if valid then Session else Unauthorized
      ensures var s := Run(Steps(limit), Fresh.(count := old(count)),
                           [Peek(0, peekReachable), LookUp(0, valid), Count(0, countReachable)]);
              count == s.count && (lookedUp && !valid <==> s.lookups == 1) && InFlight(s) == 0
    {
      ghost var s := Fresh.(count := count);
      assert [Peek(0, peekReachable), LookUp(0, valid), Count(0, countReachable)]
          == [] + [Peek(0, peekReachable)] + [LookUp(0, valid)] + [Count(0, countReachable)];
      RunSnoc(Steps(limit), s, [], Peek(0, peekReachable));
      RunSnoc(Steps(limit), s, [] + [Peek(0, peekReachable)], LookUp(0, valid));
      RunSnoc(Steps(limit), s, [] + [Peek(0, peekReachable)] + [LookUp(0, valid)], Count(0, countReachable));
      ghost var peeked := Step(limit, s, Peek(0, peekReachable));
      var refused := RefuseFailingCredential(peekReachable);
      assert refused <==> 0 !in PeekStep(limit, s, 0, peekReachable).peeked;
      if refused {
        return TooManyRequests, false;
      }
      if valid {
        return Session, true;
      }
      CountCredentialFailure(countReachable);
      ghost var looked := LookUpStep(peeked, 0, false);
      assert looked.count == old(count) && 0 in looked.looked;
      return Unauthorized, true;
    }
  }
}
