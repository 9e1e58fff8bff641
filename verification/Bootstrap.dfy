/**
  Provisioning of the first tenant (saas_os/api/tenant_bootstrap.py). There is
  no enclosing transaction: the command is a sequence of find-or-create steps,
  each one committed change, and it may be cut after any of them. One run at a
  time. Core's tables are sets keyed by their uniqueness rules; tenants and
  users are numbered as they are created.
 */
module Bootstrap {
  import opened Common
  import opened Folding

  datatype Status = Pending | Active | Suspended | Deleted

  datatype Tenant = Tenant(name: string, status: Status)

  datatype Permission = Permission(resource: string, action: string)

  datatype Identity = Identity(issuer: string, subject: string)

  datatype Role = Role(tenant: nat, name: string)

  datatype Grant = Grant(tenant: nat, role: string, permission: Permission)

  datatype Member = Member(tenant: nat, user: nat)

  datatype Assignment = Assignment(tenant: nat, user: nat, role: string)

  /** A permission of a user in a tenant, denied or held. */
  datatype Holding = Holding(tenant: nat, user: nat, permission: Permission)

  /** What the final authority check reads and no step changes. `otherPaths`:
      permissions held by delegation, support access or a role further up. */
  datatype Rules = Rules(suspended: set<Member>, inactive: set<nat>, denies: set<Holding>, otherPaths: set<Holding>)

  datatype Store = Store(
    tenants: seq<Tenant>,
    nextUser: nat,
    identities: map<Identity, nat>,
    roles: set<Role>,
    catalog: set<Permission>,
    grants: set<Grant>,
    members: set<Member>,
    assignments: set<Assignment>,
    rules: Rules)

  datatype Request = Request(name: string, owner: Identity, permissions: seq<Permission>)

  const OWNER := "owner"

  datatype Conflict = AmbiguousName | ClosedTenant(status: Status) | ForeignMembers

  // --- reads ----------------------------------------------------------------------------------

  /** `find_tenants_by_name`, oldest first. */
  function Matches(tenants: seq<Tenant>, name: string): (r: seq<nat>)
  {
    if tenants == [] then []
    else
      var n := |tenants| - 1;
      Matches(tenants[..n], name) + if tenants[n].name == name then [n] else []
  }

  lemma {:induction false} MatchesExist(tenants: seq<Tenant>, name: string)
    ensures forall i :: 0 <= i < |Matches(tenants, name)| ==> Matches(tenants, name)[i] < |tenants|
  {
    if tenants != [] {
      MatchesExist(tenants[..|tenants| - 1], name);
    }
  }

  function Found(req: Request, s: Store): (r: seq<nat>)
  {
    Matches(s.tenants, req.name)
  }

  predicate HasHome(req: Request, s: Store)
  {
    Found(req, s) != []
  }

  function Home(req: Request, s: Store): (r: nat)
    requires HasHome(req, s)
    ensures r < |s.tenants|
  {
    MatchesExist(s.tenants, req.name);
    Found(req, s)[0]
  }

  predicate Known(req: Request, s: Store)
  {
    req.owner in s.identities
  }

  predicate OwnerIsMember(req: Request, s: Store, t: nat)
  {
    Known(req, s) && Member(t, s.identities[req.owner]) in s.members
  }

  predicate HasMembers(s: Store, t: nat)
  {
    exists m :: m in s.members && m.tenant == t
  }

  /** The tenant-name rule of `_resolve_tenant`. */
  function Refusal(req: Request, s: Store): (r: Option<Conflict>)
  {
    if |Found(req, s)| > 1 then Some(AmbiguousName)
    else if !HasHome(req, s) then None
    else
      var t := Home(req, s);
      if s.tenants[t].status != Pending && s.tenants[t].status != Active then Some(ClosedTenant(s.tenants[t].status))
      else if HasMembers(s, t) && !OwnerIsMember(req, s, t) then Some(ForeignMembers)
      else None
  }

  // --- the committed changes, in order ------------------------------------------------------------

  datatype Op =
    | CreateTenant | Activate | CreateUser | LinkIdentity | CreateRole
    | Register(permission: Permission) | GrantTo(permission: Permission) | Join | Assign

  /** A new user and its identity link are two transactions. */
  function Apply(req: Request, op: Op, s: Store): (r: Store)
  {
    match op
    case CreateTenant => if HasHome(req, s) then s else s.(tenants := s.tenants + [Tenant(req.name, Pending)])
    case CreateUser => if Known(req, s) then s else s.(nextUser := s.nextUser + 1)
    case LinkIdentity => if Known(req, s)
      || s.nextUser == 0 then s else s.(identities := s.identities[req.owner := s.nextUser - 1])
    case Register(p) => s.(catalog := s.catalog + {p})
    case _ => if HasHome(req, s) then ApplyAt(req, op, s, Home(req, s)) else s
  }

  /** The steps inside the tenant. */
  function ApplyAt(req: Request, op: Op, s: Store, t: nat): (r: Store)
    requires t < |s.tenants|
  {
    match op
    case Activate => s.(tenants := s.tenants[t := s.tenants[t].(status := Active)])
    case CreateRole => s.(roles := s.roles + {Role(t, OWNER)})
    case GrantTo(p) => s.(grants := s.grants + {Grant(t, OWNER, p)})
    case Join => if Known(req, s) then s.(members := s.members + {Member(t, s.identities[req.owner])}) else s
    case Assign => if Known(req, s)
      then s.(assignments := s.assignments + {Assignment(t, s.identities[req.owner], OWNER)}) else s
    case _ => s
  }

  function Length(req: Request): (r: nat)
  {
    7 + 2 * |req.permissions|
  }

  /** The program: the `j`-th change of a run. */
  function OpAt(req: Request, j: nat): (r: Op)
    requires j < Length(req)
  {
    if j == 0 then CreateTenant
    else if j == 1 then Activate
    else if j == 2 then CreateUser
    else if j == 3 then LinkIdentity
    else if j == 4 then CreateRole
    else if j == Length(req) - 2 then Join
    else if j == Length(req) - 1 then Assign
    else GrantingOp(req.permissions, j - 5)
  }

  /** Each permission is registered, then granted. */
  function GrantingOp(permissions: seq<Permission>, i: nat): (r: Op)
    requires i < 2 * |permissions|
    ensures (r.Register? || r.GrantTo?) && r.permission in permissions
  {
    if i == 0 then Register(permissions[0])
    else if i == 1 then GrantTo(permissions[0])
    else GrantingOp(permissions[1..], i - 2)
  }

  function Step(req: Request): (r: (nat, Store) -> Store)
  {
    (j: nat, s: Store) => if j < Length(req) then Apply(req, OpAt(req, j), s) else s
  }

  /** The store after the first `n` changes. */
  function Prefix(req: Request, s: Store, n: nat): (r: Store)
  {
    Fold(Step(req), s, n)
  }

  function Whole(req: Request, s: Store): (r: Store)
  {
    Prefix(req, s, Length(req))
  }

  /** A run cut after `cut` changes; a conflict is found before any change. */
  ghost function Attempt(req: Request, s: Store, cut: nat): (r: Store)
  {
    if Refusal(req, s).Some? then s else Prefix(req, s, cut)
  }

  ghost function Attempts(req: Request, s: Store, cuts: seq<nat>): (r: Store)
  {
    if cuts == [] then s else Attempt(req, Attempts(req, s, cuts[..|cuts| - 1]), cuts[|cuts| - 1])
  }

  // --- when a step has nothing left to do -----------------------------------------------------------

  predicate Done(req: Request, op: Op, s: Store)
  {
    match op
    case CreateTenant => HasHome(req, s)
    case CreateUser => Known(req, s)
    case LinkIdentity => Known(req, s)
    case Register(p) => p in s.catalog
    case _ => HasHome(req, s) && DoneAt(req, op, s, Home(req, s))
  }

  predicate DoneAt(req: Request, op: Op, s: Store, t: nat)
    requires t < |s.tenants|
  {
    match op
    case Activate => s.tenants[t].status == Active
    case CreateRole => Role(t, OWNER) in s.roles
    case GrantTo(p) => Grant(t, OWNER, p) in s.grants
    case Join => OwnerIsMember(req, s, t)
    case Assign => Known(req, s) && Assignment(t, s.identities[req.owner], OWNER) in s.assignments
    case _ => true
  }

  lemma MatchesSnoc(tenants: seq<Tenant>, t: Tenant, name: string)
    ensures Matches(tenants + [t], name) == Matches(tenants, name) + if t.name == name then [|tenants|] else []
  {
    assert (tenants + [t])[..|tenants|] == tenants;
  }

  lemma {:induction false} MatchesRestatus(tenants: seq<Tenant>, t: nat, status: Status, name: string)
    requires t < |tenants|
    ensures Matches(tenants[t := tenants[t].(status := status)], name) == Matches(tenants, name)
  {
    var n := |tenants| - 1;
    var after := tenants[t := tenants[t].(status := status)];
    if t == n {
      assert after[..n] == tenants[..n];
    } else {
      assert after[..n] == tenants[..n][t := tenants[t].(status := status)];
      MatchesRestatus(tenants[..n], t, status, name);
    }
  }

  /** Where the tenant's name leads after a change. */
  lemma ApplyFound(req: Request, op: Op, s: Store)
    ensures Found(req, Apply(req, op, s))
         == if op == CreateTenant && !HasHome(req, s) then [|s.tenants|] else Found(req, s)
  {
    if op == CreateTenant {
      MatchesSnoc(s.tenants, Tenant(req.name, Pending), req.name);
    } else if op == Activate && HasHome(req, s) {
      MatchesRestatus(s.tenants, Home(req, s), Active, req.name);
    }
  }

  lemma DoneIsNoop(req: Request, op: Op, s: Store)
    requires Done(req, op, s)
    ensures Apply(req, op, s) == s
  {
    if op == Activate {
      var t := Home(req, s);
      assert s.tenants[t := s.tenants[t].(status := Active)] == s.tenants;
    }
  }

  /** No change undoes another step. */
  lemma DoneStays(req: Request, op: Op, other: Op, s: Store)
    requires Done(req, op, s)
    ensures Done(req, op, Apply(req, other, s))
  {
    ApplyFound(req, other, s);
  }

  /** What the steps so far have set up. */
  predicate Ready(req: Request, op: Op, s: Store)
  {
    match op
    case CreateTenant => true
    case CreateUser => false
    case LinkIdentity => Known(req, s) || s.nextUser > 0
    case Register(_) => true
    case Join => HasHome(req, s) && Known(req, s)
    case Assign => HasHome(req, s) && Known(req, s)
    case _ => HasHome(req, s)
  }

  lemma ReadyGetsDone(req: Request, op: Op, s: Store)
    requires Ready(req, op, s)
    ensures Done(req, op, Apply(req, op, s))
  {
    ApplyFound(req, op, s);
  }

  // --- what the steps leave alone ------------------------------------------------------------------

  lemma HomeAfter(req: Request, s: Store, n: nat)
    requires 1 <= n <= Length(req)
    ensures Found(req, Prefix(req, s, n)) == if HasHome(req, s) then Found(req, s) else [|s.tenants|]
  {
    var home := if HasHome(req, s) then Found(req, s) else [|s.tenants|];
    var found := (v: Store) => Found(req, v) == home;
    ApplyFound(req, OpAt(req, 0), s);
    assert Fold(Step(req), s, 1) == Apply(req, OpAt(req, 0), s);
    forall j: nat, v | 1 <= j < n && found(v)
      ensures found(Step(req)(j, v))
    {
      ApplyFound(req, OpAt(req, j), v);
    }
    StaysTrue(Step(req), s, 1, n, found);
  }

  lemma ApplyOwner(req: Request, op: Op, s: Store)
    ensures var v := Apply(req, op, s);
            && v.nextUser == s.nextUser + (if op == CreateUser && !Known(req, s) then 1 else 0)
            && v.identities == if op == LinkIdentity && !Known(req, s) && s.nextUser > 0
                               then s.identities[req.owner := s.nextUser - 1] else s.identities
  {
  }

  /** Neither a new user nor a link. */
  lemma OwnerStays(req: Request, s: Store, m: nat, n: nat)
    requires m <= n <= Length(req) && (n <= 2 || m >= 4)
    ensures var a, b := Prefix(req, s, m), Prefix(req, s, n); a.identities == b.identities && a.nextUser == b.nextUser
  {
    var a := Prefix(req, s, m);
    var same := (v: Store) => v.identities == a.identities && v.nextUser == a.nextUser;
    forall j: nat, v | m <= j < n && same(v)
      ensures same(Step(req)(j, v))
    {
      ApplyOwner(req, OpAt(req, j), v);
    }
    StaysTrue(Step(req), s, m, n, same);
  }

  lemma PrefixNext(req: Request, s: Store, n: nat)
    requires n < Length(req)
    ensures Prefix(req, s, n + 1) == Apply(req, OpAt(req, n), Prefix(req, s, n))
  {
  }

  lemma OwnerAfter(req: Request, s: Store, n: nat)
    requires n <= Length(req)
    ensures var v := Prefix(req, s, n);
            && (Known(req, v) <==> Known(req, s) || n > 3)
            && v.identities == (if Known(req, s) || n <= 3 then s.identities else s.identities[req.owner := s.nextUser])
            && v.nextUser == s.nextUser + if Known(req, s) || n < 3 then 0 else 1
  {
    if n <= 2 {
      OwnerStays(req, s, 0, n);
    } else {
      OwnerLinked(req, s, 2);
      if n >= 4 {
        OwnerStays(req, s, 4, n);
      }
    }
  }

  lemma OwnerLinked(req: Request, s: Store, n: nat)
    requires n == 2
    ensures var a, b := Prefix(req, s, n + 1), Prefix(req, s, n + 2);
            && a.identities == s.identities && a.nextUser == s.nextUser + (if Known(req, s) then 0 else 1)
            && b.identities == (if Known(req, s) then s.identities else s.identities[req.owner := s.nextUser])
            && b.nextUser == a.nextUser
  {
    OwnerStays(req, s, 0, n);
    PrefixNext(req, s, n);
    ApplyOwner(req, CreateUser, Prefix(req, s, n));
    PrefixNext(req, s, n + 1);
    ApplyOwner(req, LinkIdentity, Prefix(req, s, n + 1));
  }

  lemma ApplyUntouched(req: Request, op: Op, s: Store)
    ensures var v := Apply(req, op, s);
            && (op != CreateRole ==> v.roles == s.roles)
            && (op != Join ==> v.members == s.members)
            && (op != Assign ==> v.assignments == s.assignments)
            && v.rules == s.rules
  {
  }

  lemma RolesUntouched(req: Request, s: Store, n: nat)
    requires n <= 4
    ensures Prefix(req, s, n).roles == s.roles
  {
    var same := (v: Store) => v.roles == s.roles;
    forall j: nat, v | 0 <= j < n && same(v)
      ensures same(Step(req)(j, v))
    {
      ApplyUntouched(req, OpAt(req, j), v);
    }
    StaysTrue(Step(req), s, 0, n, same);
  }

  lemma MembersUntouched(req: Request, s: Store, n: nat)
    requires n <= Length(req) - 2
    ensures Prefix(req, s, n).members == s.members
  {
    var same := (v: Store) => v.members == s.members;
    forall j: nat, v | 0 <= j < n && same(v)
      ensures same(Step(req)(j, v))
    {
      ApplyUntouched(req, OpAt(req, j), v);
    }
    StaysTrue(Step(req), s, 0, n, same);
  }

  lemma AssignmentsUntouched(req: Request, s: Store, n: nat)
    requires n <= Length(req) - 1
    ensures Prefix(req, s, n).assignments == s.assignments
  {
    var same := (v: Store) => v.assignments == s.assignments;
    forall j: nat, v | 0 <= j < n && same(v)
      ensures same(Step(req)(j, v))
    {
      ApplyUntouched(req, OpAt(req, j), v);
    }
    StaysTrue(Step(req), s, 0, n, same);
  }

  lemma RulesUntouched(req: Request, s: Store, n: nat)
    requires n <= Length(req)
    ensures Prefix(req, s, n).rules == s.rules
  {
    var same := (v: Store) => v.rules == s.rules;
    forall j: nat, v | 0 <= j < n && same(v)
      ensures same(Step(req)(j, v))
    {
      ApplyUntouched(req, OpAt(req, j), v);
    }
    StaysTrue(Step(req), s, 0, n, same);
  }

  // --- resuming --------------------------------------------------------------------------------------

  lemma DoneStaysDone(req: Request, op: Op, s: Store, m: nat, n: nat)
    requires m <= n <= Length(req) && Done(req, op, Prefix(req, s, m))
    ensures Done(req, op, Prefix(req, s, n))
  {
    var done := (v: Store) => Done(req, op, v);
    forall j: nat, v | m <= j < n && done(v)
      ensures done(Step(req)(j, v))
    {
      DoneStays(req, op, OpAt(req, j), v);
    }
    StaysTrue(Step(req), s, m, n, done);
  }

  lemma ReadyInTime(req: Request, s: Store, j: nat)
    requires j < Length(req) && j != 2
    ensures Ready(req, OpAt(req, j), Prefix(req, s, j))
  {
    OwnerAfter(req, s, j);
    if j > 0 {
      HomeAfter(req, s, j);
    }
  }

  /** After any number of changes except the one that leaves a user without a
      link, every step taken has nothing left to do. */
  lemma StepIsDone(req: Request, s: Store, j: nat, n: nat)
    requires j < n <= Length(req) && n != 3
    ensures Done(req, OpAt(req, j), Prefix(req, s, n))
  {
    if j == 2 {
      OwnerAfter(req, s, n);
    } else {
      ReadyInTime(req, s, j);
      ReadyGetsDone(req, OpAt(req, j), Prefix(req, s, j));
      PrefixNext(req, s, j);
      DoneStaysDone(req, OpAt(req, j), s, j + 1, n);
    }
  }

  /** Starting over after `m` changes continues where the cut run stopped. */
  lemma Resumes(req: Request, s: Store, m: nat, n: nat)
    requires m <= Length(req) && m != 3
    ensures Prefix(req, Prefix(req, s, m), n) == Prefix(req, s, if n < m then m else n)
  {
    var f := Step(req);
    forall j | 0 <= j < m
      ensures f(j, Fold(f, s, m)) == Fold(f, s, m)
    {
      StepIsDone(req, s, j, m);
      DoneIsNoop(req, OpAt(req, j), Prefix(req, s, m));
    }
    StartsOver(f, s, m, n);
  }

  // --- users left without a link ---------------------------------------------------------------------------

  /** `k` users were created and never linked. */
  function Orphaned(s: Store, k: nat): (r: Store)
  {
    s.(nextUser := s.nextUser + k)
  }

  lemma OrphansAreUnseen(req: Request, s: Store, k: nat, n: nat)
    requires n <= 2
    ensures Prefix(req, Orphaned(s, k), n) == Orphaned(Prefix(req, s, n), k)
  {
    var related := (a: Store, b: Store) => a == Orphaned(b, k);
    StaysRelated(Step(req), Orphaned(s, k), s, 0, n, related);
  }

  /** The one cut that leaves something behind: between the user and its link. */
  lemma CutBetween(req: Request, s: Store, k: nat, n: nat)
    requires n == 2
    ensures var more := if Known(req, s) then k else k + 1;
            Prefix(req, Orphaned(s, k), n + 1) == Prefix(req, Orphaned(s, more), n)
  {
    OrphansAreUnseen(req, s, k, n);
    OrphansAreUnseen(req, s, k + 1, n);
    OwnerAfter(req, s, n);
    PrefixNext(req, Orphaned(s, k), n);
  }

  lemma OrphansAdd(s: Store, k: nat, more: nat)
    ensures Orphaned(Orphaned(s, k), more) == Orphaned(s, k + more) && Orphaned(s, 0) == s
  {
  }

  /** One more cut, after what amounts to one cut at `m`: elsewhere than between
      a user and its link, or too late to matter. */
  lemma CutElsewhere(req: Request, s: Store, m: nat, cut: nat) returns (m': nat)
    requires m <= Length(req) && m != 3 && cut <= Length(req) && (cut != 3 || m > 3)
    ensures m' == (if cut < m then m else cut) && m' != 3
    ensures Prefix(req, Prefix(req, s, m), cut) == Prefix(req, s, m')
  {
    Resumes(req, s, m, cut);
    m' := if cut < m then m else cut;
  }

  /** Between them, while no link exists. */
  lemma CutLeavesOrphan(req: Request, s: Store, k: nat, m: nat, cut: nat) returns (k': nat)
    requires m < cut && cut == 3
    ensures k' == if Known(req, s) then k else k + 1
    ensures Prefix(req, Prefix(req, Orphaned(s, k), m), cut) == Prefix(req, Orphaned(s, k'), 2)
  {
    Resumes(req, Orphaned(s, k), m, cut);
    CutBetween(req, s, k, 2);
    k' := if Known(req, s) then k else k + 1;
  }

  lemma OneMoreCut(req: Request, s: Store, k: nat, m: nat, cut: nat) returns (k': nat, m': nat)
    requires m <= Length(req) && m != 3 && cut <= Length(req)
    ensures m' <= (if cut < m then m else cut) && m' != 3 && (m' > 3 <==> m > 3 || cut > 3)
    ensures Prefix(req, Prefix(req, Orphaned(s, k), m), cut) == Prefix(req, Orphaned(s, k'), m')
    ensures k' == if Known(req, s) || cut != 3 || m > 3 then k else k + 1
  {
    if cut != 3 || m > 3 {
      k' := k;
      m' := CutElsewhere(req, Orphaned(s, k), m, cut);
    } else {
      m' := 2;
      k' := CutLeavesOrphan(req, s, k, m, cut);
    }
  }

  lemma NotRefused(req: Request, s: Store, k: nat, m: nat, cut: nat)
    requires Refusal(req, s).None? && Valid(s) && m <= Length(req)
    ensures Attempt(req, Prefix(req, Orphaned(s, k), m), cut) == Prefix(req, Prefix(req, Orphaned(s, k), m), cut)
  {
    StaysClaimable(req, Orphaned(s, k), m);
  }

  /** Some run got past the identity link. */
  ghost predicate GotPastLink(cuts: seq<nat>)
  {
    exists i :: 0 <= i < |cuts| && cuts[i] > 3
  }

  /** How many cuts fell between a new user and its link, while no run had got
      past the link. */
  ghost function Orphans(cuts: seq<nat>): (r: nat)
  {
    if cuts == [] then 0
    else
      var init, last := cuts[..|cuts| - 1], cuts[|cuts| - 1];
      Orphans(init) + if last == 3 && !GotPastLink(init) then 1 else 0
  }

  /** A cut between a new user and its link, and none before it past the link. */
  ghost predicate LeavesOrphan(cuts: seq<nat>)
  {
    exists i :: 0 <= i < |cuts| && cuts[i] == 3 && forall j :: 0 <= j < i ==> cuts[j] <= 3
  }

  lemma {:induction false} OrphansAreLeft(cuts: seq<nat>)
    ensures Orphans(cuts) > 0 <==> LeavesOrphan(cuts)
  {
    if cuts != [] {
      var n := |cuts| - 1;
      OrphansAreLeft(cuts[..n]);
      if LeavesOrphan(cuts[..n]) {
        var i :| 0 <= i < n && cuts[..n][i] == 3 && forall j :: 0 <= j < i ==> cuts[..n][j] <= 3;
        assert cuts[i] == 3;
      }
      assert cuts[n] == 3 && !GotPastLink(cuts[..n]) ==> forall j :: 0 <= j < n ==> cuts[..n][j] <= 3;
      if LeavesOrphan(cuts) && !LeavesOrphan(cuts[..n]) {
        var i :| 0 <= i < |cuts| && cuts[i] == 3 && forall j :: 0 <= j < i ==> cuts[j] <= 3;
        assert i < n ==> cuts[..n][i] == 3;
      }
    }
  }

  lemma PastLinkSnoc(cuts: seq<nat>)
    requires cuts != []
    ensures GotPastLink(cuts) <==> GotPastLink(cuts[..|cuts| - 1]) || cuts[|cuts| - 1] > 3
  {
    var init := cuts[..|cuts| - 1];
    if GotPastLink(init) {
      var i :| 0 <= i < |init| && init[i] > 3;
      assert cuts[i] > 3;
    }
    if GotPastLink(cuts) {
      var i :| 0 <= i < |cuts| && cuts[i] > 3;
      assert i < |init| ==> init[i] > 3;
    }
  }

  /** Every sequence of cuts leaves what one cut run would have left, on a store
      with so many orphaned users. */
  lemma {:induction false} CutsAreOneCut(req: Request, s: Store, cuts: seq<nat>) returns (k: nat, m: nat)
    requires Refusal(req, s).None? && Valid(s) && forall i :: 0 <= i < |cuts| ==> cuts[i] <= Length(req)
    ensures m <= Length(req) && m != 3 && (m > 3 <==> GotPastLink(cuts))
    ensures Attempts(req, s, cuts) == Prefix(req, Orphaned(s, k), m)
    ensures k == if Known(req, s) then 0 else Orphans(cuts)
    ensures (forall i :: 0 <= i < |cuts| ==> cuts[i] < Length(req)) ==> m < Length(req)
  {
    k, m := 0, 0;
    if cuts == [] {
      OrphansAdd(s, 0, 0);
    } else {
      k, m := CutsAreOneCut(req, s, cuts[..|cuts| - 1]);
      PastLinkSnoc(cuts);
      NotRefused(req, s, k, m, cuts[|cuts| - 1]);
      k, m := OneMoreCut(req, s, k, m, cuts[|cuts| - 1]);
    }
  }

  // --- what Core's foreign keys keep ---------------------------------------------------------------------------

  ghost predicate Valid(s: Store)
  {
    && (forall i :: i in s.identities ==> s.identities[i] < s.nextUser)
    && (forall r :: r in s.roles ==> r.tenant < |s.tenants|)
    && (forall g :: g in s.grants ==> g.tenant < |s.tenants|)
    && (forall m :: m in s.members ==> m.tenant < |s.tenants| && m.user < s.nextUser)
    && (forall a :: a in s.assignments ==> a.tenant < |s.tenants| && a.user < s.nextUser)
    && (forall h :: h in s.rules.otherPaths ==> h.tenant < |s.tenants| && h.user < s.nextUser)
  }

  lemma ApplyKeepsValid(req: Request, op: Op, s: Store)
    requires Valid(s)
    ensures Valid(Apply(req, op, s))
  {
  }

  // --- a resumed run is never refused --------------------------------------------------------------------------

  lemma ApplyKeepsClaim(req: Request, op: Op, s: Store)
    requires Refusal(req, s).None? && Valid(s)
    ensures Refusal(req, Apply(req, op, s)).None?
  {
    ApplyFound(req, op, s);
    var s' := Apply(req, op, s);
    if HasHome(req, s') {
      var t := Home(req, s');
      if HasMembers(s', t) {
        var m :| m in s'.members && m.tenant == t;
        assert m in s.members || OwnerIsMember(req, s', t);
      }
    }
  }

  lemma StaysClaimable(req: Request, s: Store, n: nat)
    requires Refusal(req, s).None? && Valid(s) && n <= Length(req)
    ensures Refusal(req, Prefix(req, s, n)).None? && Valid(Prefix(req, s, n))
  {
    var claimable := (v: Store) => Refusal(req, v).None? && Valid(v);
    forall j: nat, v | 0 <= j < n && claimable(v)
      ensures claimable(Step(req)(j, v))
    {
      ApplyKeepsClaim(req, OpAt(req, j), v);
      ApplyKeepsValid(req, OpAt(req, j), v);
    }
    StaysTrue(Step(req), s, 0, n, claimable);
  }

  lemma StaysValid(req: Request, s: Store, n: nat)
    requires Valid(s) && n <= Length(req)
    ensures Valid(Prefix(req, s, n))
  {
    var valid := (v: Store) => Valid(v);
    forall j: nat, v | 0 <= j < n && valid(v)
      ensures valid(Step(req)(j, v))
    {
      ApplyKeepsValid(req, OpAt(req, j), v);
    }
    StaysTrue(Step(req), s, 0, n, valid);
  }

  // --- where the run ends --------------------------------------------------------------------------------------

  /** The converged state. */
  ghost predicate Provisioned(req: Request, s: Store)
  {
    && |Found(req, s)| == 1 && Known(req, s)
    && var t, u := Home(req, s), s.identities[req.owner];
       && s.tenants[t].status == Active
       && Role(t, OWNER) in s.roles && Member(t, u) in s.members && Assignment(t, u, OWNER) in s.assignments
       && forall p :: p in req.permissions ==> p in s.catalog && Grant(t, OWNER, p) in s.grants
  }

  lemma WholeGrants(req: Request, s: Store, i: nat)
    requires i < |req.permissions|
    ensures Done(req, Register(req.permissions[i]), Whole(req, s))
    ensures Done(req, GrantTo(req.permissions[i]), Whole(req, s))
  {
    GrantOps(req, i);
    StepIsDone(req, s, 5 + 2 * i, Length(req));
    StepIsDone(req, s, 6 + 2 * i, Length(req));
  }

  lemma {:induction false} GrantingOps(permissions: seq<Permission>, i: nat)
    requires i < |permissions|
    ensures GrantingOp(permissions, 2 * i) == Register(permissions[i])
    ensures GrantingOp(permissions, 2 * i + 1) == GrantTo(permissions[i])
  {
    if i > 0 {
      GrantingOps(permissions[1..], i - 1);
    }
  }

  lemma GrantOps(req: Request, i: nat)
    requires i < |req.permissions|
    ensures OpAt(req, 5 + 2 * i) == Register(req.permissions[i]) && OpAt(req, 6 + 2 * i) == GrantTo(req.permissions[i])
  {
    GrantingOps(req.permissions, i);
  }

  lemma WholeSteps(req: Request, s: Store)
    ensures var v := Whole(req, s);
            && Done(req, Activate, v) && Done(req, LinkIdentity, v) && Done(req, CreateRole, v)
            && Done(req, Join, v) && Done(req, Assign, v)
  {
    var n := Length(req);
    StepIsDone(req, s, 1, n);
    StepIsDone(req, s, 3, n);
    StepIsDone(req, s, 4, n);
    StepIsDone(req, s, n - 2, n);
    StepIsDone(req, s, n - 1, n);
  }

  /** A run that is not refused ends with exactly one tenant of that name,
      active, with its owner, role, grants, membership and assignment. */
  lemma WholeProvisions(req: Request, s: Store)
    requires Refusal(req, s).None?
    ensures Provisioned(req, Whole(req, s))
  {
    var v := Whole(req, s);
    HomeAfter(req, s, Length(req));
    WholeSteps(req, s);
    forall p | p in req.permissions
      ensures p in v.catalog && Grant(Home(req, v), OWNER, p) in v.grants
    {
      var i :| 0 <= i < |req.permissions| && req.permissions[i] == p;
      WholeGrants(req, s, i);
    }
  }

  // --- convergence ------------------------------------------------------------------------------------------------

  /** The same state, but for the number the owner's user got. */
  ghost predicate SameButOwnerNumber(req: Request, a: Store, b: Store)
  {
    && a.tenants == b.tenants && a.roles == b.roles && a.catalog == b.catalog && a.grants == b.grants
    && a.rules == b.rules
    && Known(req, a) && Known(req, b)
    && (forall i :: i != req.owner ==> (i in a.identities <==> i in b.identities))
    && (forall i :: i in a.identities && i != req.owner ==> a.identities[i] == b.identities[i])
    && SameMembers(a, b, a.identities[req.owner], b.identities[req.owner])
  }

  ghost predicate SameMembers(a: Store, b: Store, u: nat, v: nat)
  {
    && (forall m: Member :: m.user != u && m.user != v ==> (m in a.members <==> m in b.members))
    && (forall t: nat :: Member(t, u) in a.members <==> Member(t, v) in b.members)
    && (forall x: Assignment :: x.user != u && x.user != v ==> (x in a.assignments <==> x in b.assignments))
    && (forall t: nat, role :: Assignment(t, u, role) in a.assignments <==> Assignment(t, v, role) in b.assignments)
  }

  lemma JoinKeepsSame(req: Request, a: Store, b: Store)
    requires SameButOwnerNumber(req, a, b)
    ensures SameButOwnerNumber(req, Apply(req, Join, a), Apply(req, Join, b))
  {
  }

  lemma AssignKeepsSame(req: Request, a: Store, b: Store)
    requires SameButOwnerNumber(req, a, b)
    ensures SameButOwnerNumber(req, Apply(req, Assign, a), Apply(req, Assign, b))
  {
  }

  lemma StepKeepsSame(req: Request, op: Op, a: Store, b: Store)
    requires SameButOwnerNumber(req, a, b)
    ensures SameButOwnerNumber(req, Apply(req, op, a), Apply(req, op, b))
  {
    if op == Join {
      JoinKeepsSame(req, a, b);
    } else if op == Assign {
      AssignKeepsSame(req, a, b);
    } else {
      ApplyUntouched(req, op, a);
      ApplyUntouched(req, op, b);
      ApplyOwner(req, op, a);
      ApplyOwner(req, op, b);
    }
  }

  /** `SameButOwnerNumber` as a value. */
  ghost function Same(req: Request): (r: (Store, Store) -> bool)
  {
    (a: Store, b: Store) => SameButOwnerNumber(req, a, b)
  }

  function WithOwner(req: Request, s: Store): (r: Store)
  {
    Apply(req, LinkIdentity, Apply(req, CreateUser, s))
  }

  /** Two links of one identity on one store differ in the owner's number only:
      nothing else mentions a user that did not exist. */
  lemma FreshOwners(req: Request, s: Store, k: nat)
    requires Valid(s) && !Known(req, s)
    ensures Same(req)(WithOwner(req, Orphaned(s, k)), WithOwner(req, s))
  {
    var a, b := WithOwner(req, Orphaned(s, k)), WithOwner(req, s);
    assert a == s.(nextUser := s.nextUser + k + 1, identities := s.identities[req.owner := s.nextUser + k]);
    assert b == s.(nextUser := s.nextUser + 1, identities := s.identities[req.owner := s.nextUser]);
  }

  lemma UserSteps(req: Request, s: Store, n: nat) returns (mid: Store)
    requires n == 2
    ensures mid == Prefix(req, s, n) && Prefix(req, s, n + 2) == WithOwner(req, mid)
  {
    mid := Prefix(req, s, n);
    PrefixNext(req, s, n);
    PrefixNext(req, s, n + 1);
  }

  lemma SameAfterLink(req: Request, s: Store, k: nat, n: nat)
    requires Valid(s) && !Known(req, s) && n == 2
    ensures Same(req)(Prefix(req, Orphaned(s, k), n + 2), Prefix(req, s, n + 2))
  {
    StaysValid(req, s, n);
    OwnerAfter(req, s, n);
    OrphansAreUnseen(req, s, k, n);
    var a := UserSteps(req, Orphaned(s, k), n);
    var b := UserSteps(req, s, n);
    FreshOwners(req, b, k);
  }

  lemma SameToTheEnd(req: Request, s: Store, k: nat, n: nat)
    requires Valid(s) && !Known(req, s) && 4 <= n <= Length(req)
    ensures SameButOwnerNumber(req, Prefix(req, Orphaned(s, k), n), Prefix(req, s, n))
  {
    var related := Same(req);
    SameAfterLink(req, s, k, 2);
    forall j: nat, a, b | 4 <= j < n && related(a, b)
      ensures related(Step(req)(j, a), Step(req)(j, b))
    {
      StepKeepsSame(req, OpAt(req, j), a, b);
    }
    StaysRelated(Step(req), Orphaned(s, k), s, 4, n, related);
  }

  lemma SameAsItself(req: Request, s: Store)
    requires Known(req, s)
    ensures SameButOwnerNumber(req, s, s)
  {
  }

  /** What interrupted runs amount to once one runs to the end. */
  lemma CutsThenWhole(req: Request, s: Store, cuts: seq<nat>) returns (k: nat)
    requires Refusal(req, s).None? && Valid(s) && forall i :: 0 <= i < |cuts| ==> cuts[i] <= Length(req)
    ensures k == if Known(req, s) then 0 else Orphans(cuts)
    ensures Refusal(req, Attempts(req, s, cuts)).None?
    ensures Whole(req, Attempts(req, s, cuts)) == Whole(req, Orphaned(s, k))
  {
    var m;
    k, m := CutsAreOneCut(req, s, cuts);
    StaysClaimable(req, Orphaned(s, k), m);
    Resumes(req, Orphaned(s, k), m, Length(req));
  }

  /** Cut after any step, any number of times, then run to the end: the run is
      not refused and ends where one uncut run ends, but for the owner's user
      number. It ends exactly there if and only if the identity was known or no
      cut fell between a new user and its link before a run got past the link;
      each that did leaves one user more. */
  lemma Converges(req: Request, s: Store, cuts: seq<nat>)
    requires Refusal(req, s).None? && Valid(s) && forall i :: 0 <= i < |cuts| ==> cuts[i] <= Length(req)
    ensures Refusal(req, Attempts(req, s, cuts)).None?
    ensures SameButOwnerNumber(req, Whole(req, Attempts(req, s, cuts)), Whole(req, s))
    ensures Whole(req, Attempts(req, s, cuts)) == Whole(req, s) <==> Known(req, s) || !LeavesOrphan(cuts)
    ensures Whole(req, Attempts(req, s, cuts)).nextUser
         == Whole(req, s).nextUser + if Known(req, s) then 0 else Orphans(cuts)
  {
    var k := CutsThenWhole(req, s, cuts);
    OrphansAreLeft(cuts);
    assert Orphaned(s, 0) == s;
    OwnerAfter(req, s, Length(req));
    OwnerAfter(req, Orphaned(s, k), Length(req));
    if Known(req, s) {
      SameAsItself(req, Whole(req, s));
    } else {
      SameToTheEnd(req, s, k, Length(req));
    }
  }

  predicate Refers(s: Store, user: nat)
  {
    || (exists i :: i in s.identities && s.identities[i] == user)
    || (exists m :: m in s.members && m.user == user)
    || (exists a :: a in s.assignments && a.user == user)
  }

  lemma ApplyRefersToOwner(req: Request, op: Op, s: Store, user: nat)
    requires Known(req, s) && !Refers(s, user)
    ensures Known(req, Apply(req, op, s)) && !Refers(Apply(req, op, s), user)
  {
    assert s.identities[req.owner] != user;
  }

  /** The owner exists and nothing refers to `user`, as a value. */
  ghost function Unseen(req: Request, user: nat): (r: Store -> bool)
  {
    (s: Store) => Known(req, s) && !Refers(s, user)
  }

  lemma LinkSkipsOrphans(req: Request, s: Store, k: nat, user: nat)
    requires Valid(s) && !Known(req, s) && s.nextUser <= user < s.nextUser + k
    ensures Unseen(req, user)(WithOwner(req, Orphaned(s, k)))
  {
    assert WithOwner(req, Orphaned(s, k)) ==
           s.(nextUser := s.nextUser + k + 1, identities := s.identities[req.owner := s.nextUser + k]);
  }

  lemma UnseenAfterLink(req: Request, s: Store, k: nat, user: nat, n: nat)
    requires Valid(s) && !Known(req, s) && s.nextUser <= user < s.nextUser + k && n == 2
    ensures Unseen(req, user)(Prefix(req, Orphaned(s, k), n + 2))
  {
    StaysValid(req, s, n);
    OwnerAfter(req, s, n);
    OrphansAreUnseen(req, s, k, n);
    var mid := UserSteps(req, Orphaned(s, k), n);
    LinkSkipsOrphans(req, Prefix(req, s, n), k, user);
  }

  lemma UnseenToTheEnd(req: Request, s: Store, k: nat, user: nat, n: nat)
    requires Valid(s) && !Known(req, s) && s.nextUser <= user < s.nextUser + k && 4 <= n <= Length(req)
    ensures Unseen(req, user)(Prefix(req, Orphaned(s, k), n))
  {
    var unseen := Unseen(req, user);
    UnseenAfterLink(req, s, k, user, 2);
    forall j: nat, v | 4 <= j < n && unseen(v)
      ensures unseen(Step(req)(j, v))
    {
      ApplyRefersToOwner(req, OpAt(req, j), v, user);
    }
    StaysTrue(Step(req), Orphaned(s, k), 4, n, unseen);
  }

  /** Nothing refers to the users that cuts left without a link, and the owner is
      the user after them. */
  lemma OrphansStayUnreferred(req: Request, s: Store, cuts: seq<nat>, user: nat)
    requires Refusal(req, s).None? && Valid(s) && forall i :: 0 <= i < |cuts| ==> cuts[i] <= Length(req)
    requires !Known(req, s) && s.nextUser <= user < s.nextUser + Orphans(cuts)
    ensures var v := Whole(req, Attempts(req, s, cuts));
            && user < v.nextUser && !Refers(v, user)
            && Known(req, v) && v.identities[req.owner] == s.nextUser + Orphans(cuts)
  {
    var k := CutsThenWhole(req, s, cuts);
    OwnerAfter(req, Orphaned(s, k), Length(req));
    UnseenToTheEnd(req, s, k, user, Length(req));
  }

  /** A refused run changes nothing, whatever was cut before. */
  lemma {:induction false} ConflictChangesNothing(req: Request, s: Store, cuts: seq<nat>)
    requires Refusal(req, s).Some?
    ensures Attempts(req, s, cuts) == s
  {
    if cuts != [] {
      ConflictChangesNothing(req, s, cuts[..|cuts| - 1]);
    }
  }

  // --- what a run reports ------------------------------------------------------------------------

  datatype Label =
    | TenantLabel | ActivationLabel | OwnerUserLabel | OwnerRoleLabel | GrantLabel(permission: Permission)
    | MembershipLabel | AssignmentLabel

  function LabelOf(op: Op): (r: Option<Label>)
  {
    match op
    case CreateTenant => Some(TenantLabel)
    case Activate => Some(ActivationLabel)
    case CreateUser => None
    case LinkIdentity => Some(OwnerUserLabel)
    case CreateRole => Some(OwnerRoleLabel)
    case Register(_) => None
    case GrantTo(p) => Some(GrantLabel(p))
    case Join => Some(MembershipLabel)
    case Assign => Some(AssignmentLabel)
  }

  /** Step `j` finds something to do. */
  predicate Acts(req: Request, s: Store, j: nat)
    requires j < Length(req)
  {
    !Done(req, OpAt(req, j), Prefix(req, s, j))
  }

  function Acting(req: Request, s: Store): (r: nat -> bool)
  {
    (j: nat) => j < Length(req) && Acts(req, s, j)
  }

  /** The labels of the steps before `n` that acted, in order. */
  function Labels(req: Request, acting: nat -> bool, n: nat): (r: seq<Label>)
    requires n <= Length(req)
  {
    if n == 0 then []
    else Labels(req, acting, n - 1) + if LabelOf(OpAt(req, n - 1)).Some?
      && acting(n - 1) then [LabelOf(OpAt(req, n - 1)).value] else []
  }

  function Created(req: Request, s: Store): (r: seq<Label>)
  {
    Labels(req, Acting(req, s), Length(req))
  }

  lemma {:induction false} NothingActs(req: Request, acting: nat -> bool, n: nat)
    requires n <= Length(req) && forall j :: 0 <= j < n ==> !acting(j)
    ensures Labels(req, acting, n) == []
  {
    if n > 0 {
      NothingActs(req, acting, n - 1);
    }
  }

  /** Repeating a completed run changes nothing and reports nothing created. */
  lemma RepeatIsNoop(req: Request, s: Store)
    requires Refusal(req, s).None? && Valid(s)
    ensures var done := Whole(req, s);
            && Refusal(req, done).None? && Whole(req, done) == done
            && Created(req, done) == []
  {
    var n := Length(req);
    StaysClaimable(req, s, n);
    Resumes(req, s, n, n);
    forall j: nat | j < n
      ensures !Acting(req, Whole(req, s))(j)
    {
      Resumes(req, s, n, j);
      StepIsDone(req, s, j, n);
    }
    NothingActs(req, Acting(req, Whole(req, s)), n);
  }

  // --- the dry run -------------------------------------------------------------------------------

  datatype Announcement = Will(item: Label) | ExistingOwner | GrantsIfMissing | AssignmentIfMissing

  /** `assess_bootstrap`, in its own order of checks. */
  function Assess(req: Request, s: Store): (r: Result<seq<Announcement>, Conflict>)
  {
    if |Found(req, s)| > 1 then Err(AmbiguousName)
    else if !HasHome(req, s) then
      Ok([Will(TenantLabel), Will(ActivationLabel), if Known(req, s) then ExistingOwner else Will(OwnerUserLabel),
          Will(OwnerRoleLabel), GrantsIfMissing, Will(MembershipLabel), AssignmentIfMissing])
    else
      var t := Home(req, s);
      if s.tenants[t].status != Pending && s.tenants[t].status != Active then Err(ClosedTenant(s.tenants[t].status))
      else if HasMembers(s, t) && !OwnerIsMember(req, s, t) then Err(ForeignMembers)
      else
        Ok((if s.tenants[t].status != Active then [Will(ActivationLabel)] else [])
           + (if !Known(req, s) then [Will(OwnerUserLabel)] else [])
           + (if Role(t, OWNER) !in s.roles then [Will(OwnerRoleLabel)] else [])
           + [GrantsIfMissing]
           + (if !OwnerIsMember(req, s, t) then [Will(MembershipLabel)] else [])
           + [AssignmentIfMissing])
  }

  /** The position of a step that occurs once. */
  function Position(req: Request, item: Label): (r: nat)
    requires !item.GrantLabel?
  {
    match item
    case TenantLabel => 0
    case ActivationLabel => 1
    case OwnerUserLabel => 3
    case OwnerRoleLabel => 4
    case MembershipLabel => Length(req) - 2
    case AssignmentLabel => Length(req) - 1
  }

  lemma LabelPosition(req: Request, j: nat, item: Label)
    requires j < Length(req) && !item.GrantLabel?
    ensures LabelOf(OpAt(req, j)) == Some(item) <==> j == Position(req, item)
  {
  }

  lemma {:induction false} LabelsAt(req: Request, acting: nat -> bool, n: nat, item: Label)
    requires !item.GrantLabel? && n <= Length(req)
    ensures item in Labels(req, acting, n) <==> Position(req, item) < n && acting(Position(req, item))
  {
    if n > 0 {
      LabelsAt(req, acting, n - 1, item);
      LabelPosition(req, n - 1, item);
    }
  }

  /** Whether a step will act can be told from the store the run starts with. */
  lemma ActsFromTheStart(req: Request, s: Store, item: Label, j: nat)
    requires !item.GrantLabel? && Valid(s) && j == Position(req, item)
    ensures Acts(req, s, j) <==> !Done(req, OpAt(req, j), s)
  {
    match item {
      case TenantLabel =>
      case ActivationLabel => ActivationActs(req, s, j);
      case OwnerUserLabel => OwnerAfter(req, s, j);
      case OwnerRoleLabel => RoleActs(req, s, j);
      case MembershipLabel => MembershipActs(req, s, j);
      case AssignmentLabel => AssignmentActs(req, s, j);
    }
  }

  /** `v` comes after `s`: the tenant and the owner are the old ones or new. */
  ghost predicate After(req: Request, s: Store, v: Store)
  {
    && Found(req, v) == (if HasHome(req, s) then Found(req, s) else [|s.tenants|])
    && v.identities == if Known(req, s) then s.identities else s.identities[req.owner := s.nextUser]
  }

  lemma AfterFour(req: Request, s: Store, j: nat) returns (v: Store)
    requires 4 <= j <= Length(req)
    ensures v == Prefix(req, s, j) && After(req, s, v)
  {
    v := Prefix(req, s, j);
    HomeAfter(req, s, j);
    OwnerAfter(req, s, j);
  }

  lemma JoinAlike(req: Request, s: Store, v: Store)
    requires Valid(s) && After(req, s, v) && v.members == s.members
    ensures Done(req, Join, v) <==> Done(req, Join, s)
  {
  }

  lemma AssignAlike(req: Request, s: Store, v: Store)
    requires Valid(s) && After(req, s, v) && v.assignments == s.assignments
    ensures Done(req, Assign, v) <==> Done(req, Assign, s)
  {
  }

  lemma RoleAlike(req: Request, s: Store, v: Store)
    requires Valid(s) && After(req, s, v) && v.roles == s.roles
    ensures Done(req, CreateRole, v) <==> Done(req, CreateRole, s)
  {
  }

  lemma RoleActs(req: Request, s: Store, j: nat)
    requires Valid(s) && j == 4
    ensures Acts(req, s, j) <==> !Done(req, CreateRole, s)
  {
    var v := AfterFour(req, s, j);
    RolesUntouched(req, s, j);
    RoleAlike(req, s, v);
  }

  lemma MembershipActs(req: Request, s: Store, j: nat)
    requires Valid(s) && j == Length(req) - 2
    ensures Acts(req, s, j) <==> !Done(req, Join, s)
  {
    var v := AfterFour(req, s, j);
    MembersUntouched(req, s, j);
    JoinAlike(req, s, v);
  }

  lemma AssignmentActs(req: Request, s: Store, j: nat)
    requires Valid(s) && j == Length(req) - 1
    ensures Acts(req, s, j) <==> !Done(req, Assign, s)
  {
    var v := AfterFour(req, s, j);
    AssignmentsUntouched(req, s, j);
    AssignAlike(req, s, v);
  }

  lemma ActivationActs(req: Request, s: Store, j: nat)
    requires j == 1
    ensures Acts(req, s, j) <==> !Done(req, Activate, s)
  {
    ApplyFound(req, CreateTenant, s);
    assert Prefix(req, s, j) == Apply(req, CreateTenant, Prefix(req, s, j - 1));
  }

  /** The plan announces what the store still lacks. */
  lemma PlanSaysWhatIsMissing(req: Request, s: Store, item: Label)
    requires !item.GrantLabel? && !item.AssignmentLabel? && Assess(req, s).Ok?
    ensures Will(item) in Assess(req, s).value <==> !Done(req, OpAt(req, Position(req, item)), s)
  {
  }

  /** The dry run refuses exactly when the real run does, for the same reason. */
  lemma DryRunRefusesAlike(req: Request, s: Store)
    ensures Assess(req, s).Err? <==> Refusal(req, s).Some?
    ensures Assess(req, s).Err? ==> Refusal(req, s) == Some(Assess(req, s).error)
    ensures Assess(req, s).Ok? ==>
              GrantsIfMissing in Assess(req, s).value && AssignmentIfMissing in Assess(req, s).value
  {
  }

  /** Otherwise it announces a tenant, activation, owner, role or membership
      exactly when the real run creates it. */
  lemma DryRunAnnouncesAlike(req: Request, s: Store, item: Label)
    requires Valid(s) && Assess(req, s).Ok? && !item.GrantLabel? && !item.AssignmentLabel?
    ensures Will(item) in Assess(req, s).value <==> item in Created(req, s)
  {
    CreatedExactly(req, s, item);
    PlanSaysWhatIsMissing(req, s, item);
  }

  /** A step that occurs once is reported exactly when the store lacks it. */
  lemma CreatedExactly(req: Request, s: Store, item: Label)
    requires Valid(s) && !item.GrantLabel?
    ensures item in Created(req, s) <==> !Done(req, OpAt(req, Position(req, item)), s)
  {
    LabelsAt(req, Acting(req, s), Length(req), item);
    ActsFromTheStart(req, s, item, Position(req, item));
  }

  // --- what "if missing" announces ------------------------------------------------------------------

  lemma OnlyGrantsGrant(req: Request, op: Op, s: Store, p: Permission)
    requires Valid(s) && !Done(req, GrantTo(p), s) && Done(req, GrantTo(p), Apply(req, op, s))
    ensures op == GrantTo(p)
  {
    ApplyFound(req, op, s);
  }

  /** A label in the report has a step that acted. */
  lemma {:induction false} ReportedStep(req: Request, acting: nat -> bool, n: nat, item: Label) returns (j: nat)
    requires n <= Length(req) && item in Labels(req, acting, n)
    ensures j < n && LabelOf(OpAt(req, j)) == Some(item) && acting(j)
  {
    if item in Labels(req, acting, n - 1) {
      j := ReportedStep(req, acting, n - 1, item);
    } else {
      j := n - 1;
    }
  }

  lemma {:induction false} ActingStepIsReported(req: Request, acting: nat -> bool, n: nat, j: nat)
    requires j < n <= Length(req) && LabelOf(OpAt(req, j)).Some? && acting(j)
    ensures LabelOf(OpAt(req, j)).value in Labels(req, acting, n)
  {
    if j < n - 1 {
      ActingStepIsReported(req, acting, n - 1, j);
    }
  }

  lemma GrantIsReported(req: Request, s: Store, p: Permission)
    requires Valid(s) && !Done(req, GrantTo(p), s) && Done(req, GrantTo(p), Whole(req, s))
    ensures GrantLabel(p) in Created(req, s)
  {
    var granted := (v: Store) => Done(req, GrantTo(p), v);
    var j := BecomesTrue(Step(req), s, Length(req), granted);
    StaysValid(req, s, j);
    OnlyGrantsGrant(req, OpAt(req, j), Prefix(req, s, j), p);
    ActingStepIsReported(req, Acting(req, s), Length(req), j);
  }

  lemma GrantOpsOnly(req: Request, j: nat, p: Permission)
    requires j < Length(req) && LabelOf(OpAt(req, j)) == Some(GrantLabel(p))
    ensures OpAt(req, j) == GrantTo(p) && p in req.permissions
  {
  }

  lemma ReportedWasMissing(req: Request, s: Store, p: Permission)
    requires GrantLabel(p) in Created(req, s)
    ensures p in req.permissions && !Done(req, GrantTo(p), s)
  {
    var j := ReportedStep(req, Acting(req, s), Length(req), GrantLabel(p));
    GrantOpsOnly(req, j, p);
    if Done(req, GrantTo(p), s) {
      DoneStaysDone(req, GrantTo(p), s, 0, j);
    }
  }

  lemma MissingGrantIsReported(req: Request, s: Store, p: Permission)
    requires Valid(s) && p in req.permissions && !Done(req, GrantTo(p), s)
    ensures GrantLabel(p) in Created(req, s)
  {
    var i :| 0 <= i < |req.permissions| && req.permissions[i] == p;
    WholeGrants(req, s, i);
    GrantIsReported(req, s, p);
  }

  /** Grants and assignment are announced "if missing": the real run creates
      exactly those that the store lacks. */
  lemma MissingIsCreated(req: Request, s: Store, p: Permission)
    requires Valid(s)
    ensures GrantLabel(p) in Created(req, s) <==> p in req.permissions && !Done(req, GrantTo(p), s)
    ensures AssignmentLabel in Created(req, s) <==> !Done(req, Assign, s)
  {
    CreatedExactly(req, s, AssignmentLabel);
    if p in req.permissions && !Done(req, GrantTo(p), s) {
      MissingGrantIsReported(req, s, p);
    }
    if GrantLabel(p) in Created(req, s) {
      ReportedWasMissing(req, s, p);
    }
  }

  // --- authority --------------------------------------------------------------------------------------

  /** A role of an active membership grants the permission. */
  predicate GrantedByRole(s: Store, u: nat, t: nat, p: Permission)
  {
    && Member(t, u) in s.members && Member(t, u) !in s.rules.suspended
    && exists a :: a in s.assignments && a.tenant == t && a.user == u && Grant(t, a.role, p) in s.grants
  }

  /** `can()` for a user. */
  predicate Can(s: Store, u: nat, t: nat, p: Permission)
  {
    && t < |s.tenants| && (s.tenants[t].status == Pending || s.tenants[t].status == Active)
    && u !in s.rules.inactive && Holding(t, u, p) !in s.rules.denies
    && (GrantedByRole(s, u, t, p) || Holding(t, u, p) in s.rules.otherPaths)
  }

  /** The owner holds nothing in the tenant: no role, and nothing by other paths. */
  ghost predicate HoldsNothing(req: Request, s: Store)
  {
    HasHome(req, s) && Known(req, s) ==>
      var t, u := Home(req, s), s.identities[req.owner];
      && (forall role :: Assignment(t, u, role) !in s.assignments)
      && (forall p :: Holding(t, u, p) !in s.rules.otherPaths)
  }

  lemma OneCutGivesNothing(req: Request, s: Store, n: nat, p: Permission)
    requires Valid(s) && n < Length(req) && HoldsNothing(req, s)
    requires HasHome(req, Prefix(req, s, n)) && Known(req, Prefix(req, s, n))
    ensures var v := Prefix(req, s, n); !Can(v, v.identities[req.owner], Home(req, v), p)
  {
    var v := Prefix(req, s, n);
    AssignmentsUntouched(req, s, n);
    RulesUntouched(req, s, n);
    OwnerAfter(req, s, n);
    if n > 0 {
      HomeAfter(req, s, n);
    }
    var t, u := Home(req, v), v.identities[req.owner];
    assert (HasHome(req, s) && t == Home(req, s)) || t == |s.tenants|;
    assert (Known(req, s) && u == s.identities[req.owner]) || u == s.nextUser;
    forall a | a in v.assignments
      ensures a.tenant != t || a.user != u
    {
      assert a == Assignment(a.tenant, a.user, a.role);
    }
  }

  /** From a state where the owner holds nothing in the tenant, no sequence of
      runs that are each cut before the assignment gives it any permission
      there: authority appears with the last step. */
  lemma NoAuthorityBeforeAssignment(req: Request, s: Store, cuts: seq<nat>, p: Permission)
    requires Valid(s) && HoldsNothing(req, s) && forall i :: 0 <= i < |cuts| ==> cuts[i] < Length(req)
    requires HasHome(req, Attempts(req, s, cuts)) && Known(req, Attempts(req, s, cuts))
    ensures var v := Attempts(req, s, cuts); !Can(v, v.identities[req.owner], Home(req, v), p)
  {
    if Refusal(req, s).Some? {
      ConflictChangesNothing(req, s, cuts);
      OneCutGivesNothing(req, s, 0, p);
    } else {
      var k, m := CutsAreOneCut(req, s, cuts);
      OneCutGivesNothing(req, Orphaned(s, k), m, p);
    }
  }

  /** At the end the owner holds each permission, unless it is inactive or denied,
      or suspended as a member and not entitled otherwise: the final check fails
      for no other reason. */
  lemma AuthorityAtTheEnd(req: Request, s: Store, p: Permission)
    requires Refusal(req, s).None? && p in req.permissions
    ensures Provisioned(req, Whole(req, s))
    ensures var v := Whole(req, s);
            var t, u := Home(req, v), v.identities[req.owner];
            Can(v, u, t, p) <==>
            && u !in s.rules.inactive && Holding(t, u, p) !in s.rules.denies
            && (Member(t, u) !in s.rules.suspended || Holding(t, u, p) in s.rules.otherPaths)
  {
    WholeProvisions(req, s);
    RulesUntouched(req, s, Length(req));
    var v := Whole(req, s);
    assert Assignment(Home(req, v), v.identities[req.owner], OWNER) in v.assignments;
  }
}
