/**
  The two startup checks over every registered route
  (saas_os/api/route_policy.py: `assert_route_policies`,
  `assert_platform_route_rules`). The first files policies under labels in a
  map that keeps the last registration; the second sees only that map.
 */
module RouteChecks {
  import opened Common
  import opened RoutePolicy

  /** A route as the checks judge it. */
  datatype Entry = Entry(at: string, policy: Result<Policy, Violation>) | Foreign(path: string)

  function Judge(r: Route): (e: Entry)
  {
    match r
    case Other(path) => Foreign(path)
    case Api(_, _, dependant) => Entry(LabelOf(r), Resolve(Markers(dependant)))
  }

  function JudgeAll(routes: seq<Route>): (r: seq<Entry>)
    ensures |r| == |routes| && forall i :: 0 <= i < |routes| ==> r[i] == Judge(routes[i])
  {
    seq(|routes|, i requires 0 <= i < |routes| => Judge(routes[i]))
  }

  // --- the first check ----------------------------------------------------------------------------

  datatype Finding =
    | Broken(at: string, violation: Violation) | RegisteredTwice(at: string)
    | DocumentationInProduction(path: string) | NoRoutePolicy(path: string)

  datatype Checked = Checked(policies: map<string, Policy>, findings: seq<Finding>)

  datatype Setting = Setting(documentation: set<string>, production: bool)

  predicate Clashes(earlier: Policy, policy: Policy)
  {
    earlier != policy && (earlier.kind == Platform || policy.kind == Platform)
  }

  /** One pass of the loop. */
  function CheckOne(c: Checked, e: Entry, x: Setting): (c': Checked)
  {
    match e
    case Foreign(path) =>
      if path in x.documentation && !x.production then c
      else c.(findings := c.findings
              + [if path in x.documentation then DocumentationInProduction(path) else NoRoutePolicy(path)])
    case Entry(s, policy) =>
      match policy
      case Err(v) => c.(findings := c.findings + [Broken(s, v)])
      case Ok(p) =>
        Checked(c.policies[s := p],
                if s in c.policies && Clashes(c.policies[s], p) then c.findings + [RegisteredTwice(s)] else c.findings)
  }

  function CheckAll(entries: seq<Entry>, x: Setting): (c: Checked)
  {
    if entries == [] then Checked(map[], [])
    else CheckOne(CheckAll(entries[..|entries| - 1], x), entries[|entries| - 1], x)
  }

  lemma CheckSnoc(entries: seq<Entry>, n: nat, x: Setting)
    requires n < |entries|
    ensures CheckAll(entries[..n + 1], x) == CheckOne(CheckAll(entries[..n], x), entries[n], x)
  {
    assert entries[..n + 1][..n] == entries[..n];
  }

  method AssertRoutePolicies(routes: seq<Route>, x: Setting) returns (r: Result<map<string, Policy>, seq<Finding>>)
    ensures var c := CheckAll(JudgeAll(routes), x);
            r == if c.findings == [] then Ok(c.policies) else Err(c.findings)
  {
    ghost var entries := JudgeAll(routes);
    var findings: seq<Finding> := [];
    var policies: map<string, Policy> := map[];
    for i := 0 to |routes|
      invariant Checked(policies, findings) == CheckAll(entries[..i], x)
    {
      CheckSnoc(entries, i, x);
      var route := routes[i];
      if route.Api? {
        var s := LabelOf(route);
        var policy := Resolve(Markers(route.dependant));
        if policy.Err? {
          findings := findings + [Broken(s, policy.error)];
          continue;
        }
        if s in policies && policies[s] != policy.value
          && (policies[s].kind == Platform || policy.value.kind == Platform) {
          findings := findings + [RegisteredTwice(s)];
        }
        policies := policies[s := policy.value];
        continue;
      }
      if route.path in x.documentation && !x.production {
        continue;
      }
      if route.path in x.documentation {
        findings := findings + [DocumentationInProduction(route.path)];
      } else {
        findings := findings + [NoRoutePolicy(route.path)];
      }
    }
    assert entries[..|routes|] == entries;
    return if findings == [] then Ok(policies) else Err(findings);
  }

  predicate Sound(e: Entry, x: Setting)
  {
    match e
    case Foreign(path) => path in x.documentation && !x.production
    case Entry(_, policy) => policy.Ok?
  }

  /** Two registrations of one label, one of them a platform route, with
      different policies. */
  predicate Conflicting(a: Entry, b: Entry)
  {
    a.Entry? && b.Entry? && a.at == b.at && a.policy.Ok? && b.policy.Ok? && Clashes(a.policy.value, b.policy.value)
  }

  ghost predicate Consistent(entries: seq<Entry>, x: Setting)
  {
    && (forall i :: 0 <= i < |entries| ==> Sound(entries[i], x))
    && (forall i, j :: 0 <= i < j < |entries| ==> !Conflicting(entries[i], entries[j]))
  }

  predicate Filed(e: Entry, s: string)
  {
    e.Entry? && e.at == s && e.policy.Ok?
  }

  /** `i` is the newest registration filed under `s`. */
  ghost predicate Last(entries: seq<Entry>, i: nat, s: string)
  {
    i < |entries| && Filed(entries[i], s) && forall j :: i < j < |entries| ==> !Filed(entries[j], s)
  }

  /** What the map holds under a label is the newest registration's policy. */
  lemma {:induction false} MapKeepsLast(entries: seq<Entry>, x: Setting, s: string) returns (i: nat)
    requires s in CheckAll(entries, x).policies || exists k :: 0 <= k < |entries| && Filed(entries[k], s)
    ensures Last(entries, i, s)
    ensures s in CheckAll(entries, x).policies && CheckAll(entries, x).policies[s] == entries[i].policy.value
  {
    var n := |entries| - 1;
    if Filed(entries[n], s) {
      i := n;
    } else {
      var init := entries[..n];
      if k :| 0 <= k < |entries| && Filed(entries[k], s) {
        assert Filed(init[k], s);
      }
      i := MapKeepsLast(init, x, s);
    }
  }

  lemma PrefixConsistent(entries: seq<Entry>, x: Setting)
    requires entries != []
    ensures var n := |entries| - 1;
            Consistent(entries, x) <==>
            Consistent(entries[..n], x) && Sound(entries[n], x) && forall i :: 0 <= i < n ==>
                !Conflicting(entries[i], entries[n])
  {
    var n := |entries| - 1;
    assert forall i :: 0 <= i < n ==> entries[..n][i] == entries[i];
  }

  /** A clash with any earlier registration is a clash with the newest one. */
  lemma ClashIsSeen(entries: seq<Entry>, x: Setting, i: nat)
    requires i < |entries| - 1 && Consistent(entries[..|entries| - 1], x)
             && Conflicting(entries[i], entries[|entries| - 1])
    ensures CheckAll(entries, x).findings != []
  {
    var n := |entries| - 1;
    var init := entries[..n];
    var s := entries[n].at;
    assert Filed(init[i], s);
    var k := MapKeepsLast(init, x, s);
    assert !Conflicting(init[i], init[k]) && !Conflicting(init[k], init[i]);
  }

  lemma FindingHasCause(entries: seq<Entry>, x: Setting)
    requires entries != [] && CheckAll(entries[..|entries| - 1], x).findings == [] && Sound(entries[|entries| - 1], x)
    requires CheckAll(entries, x).findings != []
    ensures exists i :: 0 <= i < |entries| - 1 && Conflicting(entries[i], entries[|entries| - 1])
  {
    var n := |entries| - 1;
    var i := MapKeepsLast(entries[..n], x, entries[n].at);
    assert Conflicting(entries[i], entries[n]);
  }

  /** Although it only compares a registration with the one before it under the
      same label, the first check accepts exactly the applications in which
      every route is sound and no two registrations conflict. */
  lemma {:induction false} FirstCheckIsExact(entries: seq<Entry>, x: Setting)
    ensures CheckAll(entries, x).findings == [] <==> Consistent(entries, x)
  {
    if entries != [] {
      var n := |entries| - 1;
      FirstCheckIsExact(entries[..n], x);
      PrefixConsistent(entries, x);
      if Consistent(entries[..n], x) && Sound(entries[n], x) {
        if i :| 0 <= i < n && Conflicting(entries[i], entries[n]) {
          ClashIsSeen(entries, x, i);
        } else if CheckAll(entries, x).findings != [] {
          FindingHasCause(entries, x);
        }
      }
    }
  }

  // --- the second, over what the first returned ---------------------------------------------------

  const SAFE_METHODS := {"GET", "HEAD", "OPTIONS"}
  const AUTHORITY_PERMISSION := "platform.authority:manage"

  datatype PlatformFinding = NotEnabled(at: string) | NeedsFreshSession(at: string)

  predicate NeedsFresh(s: string, p: Policy)
  {
    p.kind == Platform && p.detail == AUTHORITY_PERMISSION && !(MethodsOf(s) <= SAFE_METHODS) && !p.freshSession
  }

  /** `assert_platform_route_rules`: every finding, label by label. */
  method AssertPlatformRouteRules(policies: map<string, Policy>, enabled: bool) returns (findings: set<PlatformFinding>)
    ensures forall s :: NotEnabled(s) in findings <==> s in policies && policies[s].kind == Platform && !enabled
    ensures forall s :: NeedsFreshSession(s) in findings <==> s in policies && NeedsFresh(s, policies[s])
  {
    findings := {};
    var rest := policies.Keys;
    while rest != {}
      invariant rest <= policies.Keys
      invariant forall s :: NotEnabled(s) in findings <==>
                  s in policies && s !in rest && policies[s].kind == Platform && !enabled
      invariant forall s :: NeedsFreshSession(s) in findings <==>
                  s in policies && s !in rest && NeedsFresh(s, policies[s])
    {
      var s :| s in rest;
      rest := rest - {s};
      var policy := policies[s];
      if policy.kind != Platform {
        continue;
      }
      if !enabled {
        findings := findings + {NotEnabled(s)};
      }
      if policy.detail == AUTHORITY_PERMISSION && !(MethodsOf(s) <= SAFE_METHODS) && !policy.freshSession {
        findings := findings + {NeedsFreshSession(s)};
      }
    }
  }

  ghost predicate PlatformRulesHold(policies: map<string, Policy>, enabled: bool)
  {
    forall s :: s in policies ==> (policies[s].kind == Platform ==> enabled) && !NeedsFresh(s, policies[s])
  }

  lemma NoFindingMeans(policies: map<string, Policy>, enabled: bool, findings: set<PlatformFinding>)
    requires forall s :: NotEnabled(s) in findings <==> s in policies && policies[s].kind == Platform && !enabled
    requires forall s :: NeedsFreshSession(s) in findings <==> s in policies && NeedsFresh(s, policies[s])
    ensures findings == {} <==> PlatformRulesHold(policies, enabled)
  {
    if PlatformRulesHold(policies, enabled) {
      forall f: PlatformFinding
        ensures f !in findings
      {
        assert f == NotEnabled(f.at) || f == NeedsFreshSession(f.at);
      }
    }
    if findings == {} {
      forall s | s in policies
        ensures (policies[s].kind == Platform ==> enabled) && !NeedsFresh(s, policies[s])
      {
        assert NotEnabled(s) !in findings && NeedsFreshSession(s) !in findings;
      }
    }
  }

  /** Both checks, as the application runs them at startup. */
  method CheckApplication(routes: seq<Route>, x: Setting, enabled: bool) returns (ok: bool)
    ensures ok <==> Consistent(JudgeAll(routes), x) && PlatformRulesHold(CheckAll(JudgeAll(routes), x).policies,
                                                                         enabled)
  {
    FirstCheckIsExact(JudgeAll(routes), x);
    var policies := AssertRoutePolicies(routes, x);
    if policies.Err? {
      return false;
    }
    var findings := AssertPlatformRouteRules(policies.value, enabled);
    NoFindingMeans(policies.value, enabled, findings);
    return findings == {};
  }

  /** A route that changes platform authority. */
  predicate ChangesAuthority(r: Route, p: Policy)
  {
    r.Api? && p.detail == AUTHORITY_PERMISSION && (r.methods == [] || !(ToSet(r.methods) <= SAFE_METHODS))
  }

  lemma UnsafeMethodsShow(r: Route, p: Policy)
    requires WellFormed(r) && ChangesAuthority(r, p)
    ensures !(MethodsOf(LabelOf(r)) <= SAFE_METHODS)
  {
    LabelGivesMethods(r);
    assert "" in {""};
  }

  lemma OnePolicyPerLabel(entries: seq<Entry>, x: Setting, i: nat, j: nat)
    requires Consistent(entries, x) && i < |entries| && j < |entries|
    requires entries[i].Entry? && entries[j].Entry? && entries[i].at == entries[j].at
    requires entries[i].policy.Ok? && entries[i].policy.value.kind == Platform
    ensures entries[j].policy == entries[i].policy
  {
    assert Sound(entries[j], x);
    assert i < j ==> !Conflicting(entries[i], entries[j]);
    assert j < i ==> !Conflicting(entries[j], entries[i]);
  }

  /** If both checks pass, then every registered platform route — those the map
      overwrote too — belongs to an enabled surface, has the policy of every
      registration of its label, and requires a fresh session when it changes
      platform authority. */
  lemma EveryPlatformRouteIsCovered(routes: seq<Route>, x: Setting, enabled: bool, i: nat, p: Policy)
    requires i < |routes| && WellFormed(routes[i])
    requires Consistent(JudgeAll(routes), x) && PlatformRulesHold(CheckAll(JudgeAll(routes), x).policies, enabled)
    requires routes[i].Api? && Judge(routes[i]) == Entry(LabelOf(routes[i]), Ok(p)) && p.kind == Platform
    ensures enabled
    ensures forall j :: 0 <= j < |routes| && routes[j].Api? && LabelOf(routes[j]) == LabelOf(routes[i]) ==>
              Judge(routes[j]) == Judge(routes[i])
    ensures ChangesAuthority(routes[i], p) ==> p.freshSession
  {
    var entries := JudgeAll(routes);
    forall j | 0 <= j < |routes| && routes[j].Api? && LabelOf(routes[j]) == LabelOf(routes[i])
      ensures Judge(routes[j]) == Judge(routes[i])
    {
      OnePolicyPerLabel(entries, x, i, j);
    }
    var s := LabelOf(routes[i]);
    assert Filed(entries[i], s);
    var k := MapKeepsLast(entries, x, s);
    OnePolicyPerLabel(entries, x, i, k);
    if ChangesAuthority(routes[i], p) {
      UnsafeMethodsShow(routes[i], p);
    }
  }

  /** The label rule is needed: any platform route registered first can be hidden
      from the second check by a tenant or public route on the same label. */
  lemma OverwritingHides(s: string, first: Policy, second: Policy)
    requires first.kind == Platform && second.kind != Platform
    ensures var entries := [Entry(s, Ok(first)), Entry(s, Ok(second))];
            && PlatformRulesHold(CheckAll(entries, Setting({}, true)).policies, false)
            && CheckAll(entries, Setting({}, true)).findings == [RegisteredTwice(s)]
  {
    var a, b := Entry(s, Ok(first)), Entry(s, Ok(second));
    var x := Setting({}, true);
    CheckSnoc([a, b], 0, x);
    CheckSnoc([a, b], 1, x);
    assert [a, b][..2] == [a, b] && [a, b][..0] == [];
    assert CheckAll([], x) == Checked(map[], []);
    assert CheckAll([a, b][..1], x) == Checked(map[s := first], []);
    assert CheckAll([a, b], x) == Checked(map[s := second], [RegisteredTwice(s)]);
  }
}
