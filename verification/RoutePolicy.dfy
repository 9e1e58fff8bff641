/**
  Secure-by-default route policies (saas_os/api/route_policy.py): the policy of
  a route from its resolved dependency tree, and the label under which the
  startup checks file it.
 */
module RoutePolicy {
  import opened Common

  datatype Kind = Permission | Authenticated | Public | Platform

  datatype Policy = Policy(kind: Kind, detail: string, freshSession: bool, acceptsApiKey: bool)

  /** `marker`: what the identity registry holds for this node's callable. */
  datatype Dependant = Dependant(marker: Option<Policy>, dependencies: seq<Dependant>)

  datatype Violation =
    | PublicConflict | PlatformAndTenant | SeveralPlatform | SeveralPublic | SeveralPermissions
    | NoReason | NoPolicy

  // --- the dependency tree ---------------------------------------------------------------------

  /** `_markers`: of every node below the route, in depth-first order. */
  function Markers(d: Dependant): (r: seq<Policy>)
    decreases d, 0
  {
    MarkersOf(d, |d.dependencies|)
  }

  function MarkersOf(d: Dependant, n: nat): (r: seq<Policy>)
    requires n <= |d.dependencies|
    decreases d, 0, n
  {
    if n == 0 then [] else MarkersOf(d, n - 1) + Own(d.dependencies[n - 1]) + Markers(d.dependencies[n - 1])
  }

  function Own(d: Dependant): (r: seq<Policy>)
  {
    if d.marker.Some? then [d.marker.value] else []
  }

  /** A dependency added below the node that `path` leads to. */
  function Extended(d: Dependant, path: seq<nat>, extra: Dependant): (r: Dependant)
    decreases |path|
  {
    if path == [] then d.(dependencies := d.dependencies + [extra])
    else if path[0] < |d.dependencies| then
      d.(dependencies := d.dependencies[path[0] := Extended(d.dependencies[path[0]], path[1..], extra)])
    else d
  }

  predicate Leads(d: Dependant, path: seq<nat>)
    decreases |path|
  {
    path == [] || (path[0] < |d.dependencies| && Leads(d.dependencies[path[0]], path[1..]))
  }

  lemma {:induction false} MarkersSame(d: Dependant, e: Dependant, n: nat)
    requires n <= |d.dependencies| && n <= |e.dependencies| && forall k :: 0 <= k < n ==>
               d.dependencies[k] == e.dependencies[k]
    ensures MarkersOf(d, n) == MarkersOf(e, n)
  {
    if n > 0 {
      MarkersSame(d, e, n - 1);
    }
  }

  /** Replacing one child adds what the child gains. */
  lemma {:induction false} MarkersReplaced(d: Dependant, k: nat, e: Dependant, n: nat, p: Policy, more: seq<Policy>)
    requires k < |d.dependencies| == |e.dependencies| && n <= |d.dependencies|
    requires forall j :: 0 <= j < |d.dependencies| && j != k ==> e.dependencies[j] == d.dependencies[j]
    requires e.dependencies[k].marker == d.dependencies[k].marker
    requires p in Markers(e.dependencies[k]) <==> p in Markers(d.dependencies[k]) || p in more
    ensures p in MarkersOf(e, n) <==> p in MarkersOf(d, n) || (k < n && p in more)
  {
    if n > 0 {
      MarkersReplaced(d, k, e, n - 1, p, more);
    }
  }

  /** Adding a dependency anywhere in the tree adds exactly its markers. */
  lemma {:induction false} ExtendingAddsMarkers(d: Dependant, path: seq<nat>, extra: Dependant, p: Policy)
    requires Leads(d, path)
    ensures p in Markers(Extended(d, path, extra)) <==> p in Markers(d) || p in Own(extra) + Markers(extra)
    ensures Extended(d, path, extra).marker == d.marker
    decreases |path|
  {
    var e := Extended(d, path, extra);
    if path == [] {
      MarkersSame(d, e, |d.dependencies|);
    } else {
      ExtendingAddsMarkers(d.dependencies[path[0]], path[1..], extra, p);
      MarkersReplaced(d, path[0], e, |d.dependencies|, p, Own(extra) + Markers(extra));
    }
  }

  // --- one policy --------------------------------------------------------------------------------

  predicate Any(found: seq<Policy>, k: Kind)
  {
    exists p :: p in found && p.kind == k
  }

  predicate Several(found: seq<Policy>, k: Kind)
  {
    exists p, q :: p in found && q in found && p.kind == k && q.kind == k && p != q
  }

  function First(found: seq<Policy>, k: Kind): (r: Policy)
    requires Any(found, k)
    ensures r in found && r.kind == k
  {
    if found[0].kind == k then found[0] else First(found[1..], k)
  }

  predicate Blank(s: string)
  {
    forall c :: c in s ==> c in " \t\n\r"
  }

  /** `route_policy_for` on the markers found. */
  function Resolve(found: seq<Policy>): (r: Result<Policy, Violation>)
  {
    if Any(found, Public)
      && (Any(found, Permission) || Any(found, Authenticated) || Any(found, Platform)) then Err(PublicConflict)
    else if Any(found, Platform) && Any(found, Permission) then Err(PlatformAndTenant)
    else if Several(found, Platform) then Err(SeveralPlatform)
    else if Any(found, Platform) then Ok(First(found, Platform))
    else if Several(found, Public) then Err(SeveralPublic)
    else if Several(found, Permission) then Err(SeveralPermissions)
    else if Any(found, Permission) then Ok(First(found, Permission))
    else if Any(found, Authenticated) then Ok(Policy(Authenticated, "", false, false))
    else if Any(found, Public) then
      (if Blank(First(found, Public).detail) then Err(NoReason) else Ok(First(found, Public)))
    else Err(NoPolicy)
  }

  /** The policy depends only on the set of markers, not on where in the tree or
      how often they occur. */
  lemma OnlyTheSetMatters(a: seq<Policy>, b: seq<Policy>)
    requires ToSet(a) == ToSet(b)
    ensures Resolve(a) == Resolve(b)
  {
    assert forall p :: p in a <==> p in ToSet(a);
    assert forall p :: p in b <==> p in ToSet(b);
    assert forall k :: Any(a, k) <==> Any(b, k);
    assert forall k :: Several(a, k) <==> Several(b, k);
  }

  /** Weaker than: a caller admitted by `q` may be refused by `p`, never the
      other way round. */
  predicate AtLeast(p: Policy, q: Policy)
  {
    p == q || (q.kind == Authenticated && (p.kind == Permission || p.kind == Platform))
  }

  /** More markers give a violation, the same policy, or a permission in place
      of mere authentication. */
  lemma MoreMarkersNeverWeaken(a: seq<Policy>, b: seq<Policy>)
    requires (forall p :: p in a ==> p in b) && Resolve(a).Ok? && Resolve(b).Ok?
    ensures AtLeast(Resolve(b).value, Resolve(a).value)
  {
    assert forall k :: Any(a, k) ==> Any(b, k);
    forall k | Any(a, k) && !Several(b, k)
      ensures First(a, k) == First(b, k)
    {
      assert First(a, k) in b && First(b, k) in b;
    }
  }

  /** A dependency added anywhere never weakens a route. */
  lemma ExtendingNeverWeakens(d: Dependant, path: seq<nat>, extra: Dependant)
    requires Leads(d, path) && Resolve(Markers(d)).Ok?
    ensures var after := Resolve(Markers(Extended(d, path, extra)));
            after.Err? || AtLeast(after.value, Resolve(Markers(d)).value)
  {
    forall p | p in Markers(d)
      ensures p in Markers(Extended(d, path, extra))
    {
      ExtendingAddsMarkers(d, path, extra, p);
    }
    if Resolve(Markers(Extended(d, path, extra))).Ok? {
      MoreMarkersNeverWeaken(Markers(d), Markers(Extended(d, path, extra)));
    }
  }

  // --- labels --------------------------------------------------------------------------------------

  function Join(xs: seq<string>): (r: string)
  {
    if xs == [] then "" else if |xs| == 1 then xs[0] else xs[0] + "," + Join(xs[1..])
  }

  function Split(s: string): (r: seq<string>)
    ensures r != []
  {
    if s == "" then [""]
    else if s[0] == ',' then [""] + Split(s[1..])
    else
      var rest := Split(s[1..]);
      [[s[0]] + rest[0]] + rest[1..]
  }

  function BeforeSpace(s: string): (r: string)
  {
    if s == "" || s[0] == ' ' then "" else [s[0]] + BeforeSpace(s[1..])
  }

  lemma {:induction false} SplitToken(x: string, rest: string)
    requires ',' !in x
    ensures Split(x) == [x] && Split(x + "," + rest) == [x] + Split(rest)
  {
    if x == "" {
      assert x + "," + rest == "," + rest;
      assert ("," + rest)[1..] == rest;
    } else {
      SplitToken(x[1..], rest);
      assert (x + "," + rest)[1..] == x[1..] + "," + rest;
      assert [x[0]] + x[1..] == x;
    }
  }

  lemma {:induction false} SplitUndoesJoin(xs: seq<string>)
    requires forall x :: x in xs ==> ',' !in x
    ensures Split(Join(xs)) == if xs == [] then [""] else xs
  {
    if xs != [] {
      assert xs[0] in xs;
      if |xs| == 1 {
        SplitToken(xs[0], "");
      } else {
        SplitToken(xs[0], Join(xs[1..]));
        SplitUndoesJoin(xs[1..]);
      }
    }
  }

  lemma {:induction false} BeforeSpaceStops(x: string, rest: string)
    requires ' ' !in x
    ensures BeforeSpace(x + " " + rest) == x
  {
    if x == "" {
      assert x + " " + rest == " " + rest;
    } else {
      BeforeSpaceStops(x[1..], rest);
      assert (x + " " + rest)[1..] == x[1..] + " " + rest;
    }
  }

  lemma {:induction false} JoinHasNoSpace(xs: seq<string>)
    requires forall x :: x in xs ==> ' ' !in x
    ensures ' ' !in Join(xs)
  {
    if |xs| > 1 {
      JoinHasNoSpace(xs[1..]);
    }
  }

  /** Lexicographic order, as `sorted` compares strings. */
  predicate Before(a: string, b: string)
  {
    if a == "" then b != ""
    else b != "" && (a[0] < b[0] || (a[0] == b[0] && Before(a[1..], b[1..])))
  }

  function Insert(x: string, xs: seq<string>): (r: seq<string>)
  {
    if xs == [] then [x] else if Before(xs[0], x) then [xs[0]] + Insert(x, xs[1..]) else [x] + xs
  }

  function Sorted(xs: seq<string>): (r: seq<string>)
  {
    if xs == [] then [] else Insert(xs[0], Sorted(xs[1..]))
  }

  lemma {:induction false} InsertKeepsElements(x: string, xs: seq<string>)
    ensures ToSet(Insert(x, xs)) == ToSet(xs) + {x}
  {
    if xs != [] {
      assert xs == [xs[0]] + xs[1..];
      SetOfConcat([xs[0]], xs[1..]);
      SetOfConcat([x], xs);
      if Before(xs[0], x) {
        InsertKeepsElements(x, xs[1..]);
        SetOfConcat([xs[0]], Insert(x, xs[1..]));
      }
    }
  }

  lemma {:induction false} SortedKeepsElements(xs: seq<string>)
    ensures ToSet(Sorted(xs)) == ToSet(xs)
  {
    if xs != [] {
      SortedKeepsElements(xs[1..]);
      InsertKeepsElements(xs[0], Sorted(xs[1..]));
      assert xs == [xs[0]] + xs[1..];
      SetOfConcat([xs[0]], xs[1..]);
    }
  }

  /** `methods`: in whatever order the router's set yields them. */
  datatype Route = Api(methods: seq<string>, path: string, dependant: Dependant) | Other(path: string)

  function LabelOf(r: Route): (s: string)
    requires r.Api?
  {
    Join(Sorted(r.methods)) + " " + r.path
  }

  /** HTTP methods are tokens. */
  predicate WellFormed(r: Route)
  {
    r.Api? ==> forall x :: x in r.methods ==> ',' !in x && ' ' !in x
  }

  /** What `assert_platform_route_rules` reads back from a label. */
  function MethodsOf(s: string): (r: set<string>)
  {
    ToSet(Split(BeforeSpace(s)))
  }

  /** The label gives back the methods it was made of; a route with none reads
      as one with an unknown method, never as safe. */
  lemma LabelGivesMethods(r: Route)
    requires r.Api? && WellFormed(r)
    ensures MethodsOf(LabelOf(r)) == if r.methods == [] then {""} else ToSet(r.methods)
  {
    var xs := Sorted(r.methods);
    SortedKeepsElements(r.methods);
    assert forall x :: x in xs <==> x in ToSet(xs);
    assert forall x :: x in r.methods <==> x in ToSet(r.methods);
    JoinHasNoSpace(xs);
    BeforeSpaceStops(Join(xs), r.path);
    SplitUndoesJoin(xs);
    if r.methods != [] {
      assert r.methods[0] in xs;
    }
  }
}
