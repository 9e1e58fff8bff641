/**
  `bootstrap_first_tenant` over Core's stored tables: the find-or-create steps
  of saas_os/api/tenant_bootstrap.py in the order they are committed, proved to
  make exactly the changes of `Bootstrap`'s program and to report them.
 */
module BootstrapCommand {
  import opened Common
  import opened Folding
  import opened Bootstrap

  datatype Outcome = Outcome(tenant: nat, owner: nat, created: seq<Label>)

  datatype Failure = Refused(conflict: Conflict) | NotVerified(permission: Permission)

  /** The store and what has been reported so far. */
  datatype Progress = Progress(store: Store, created: seq<Label>)

  function Report(req: Request, op: Op, s: Store): (r: seq<Label>)
  {
    if LabelOf(op).Some? && !Done(req, op, s) then [LabelOf(op).value] else []
  }

  function Next(req: Request): (r: (nat, Progress) -> Progress)
  {
    (j: nat, p: Progress) =>
      if j < Length(req)
      then Progress(Apply(req, OpAt(req, j), p.store), p.created + Report(req, OpAt(req, j), p.store))
      else p
  }

  ghost predicate IsStep(req: Request, t: seq<Progress>, j: nat)
    requires j + 1 < |t|
  {
    t[j + 1] == Next(req)(j, t[j])
  }

  ghost predicate Trace(req: Request, t: seq<Progress>)
  {
    0 < |t| <= Length(req) + 1 && forall j :: 0 <= j < |t| - 1 ==> IsStep(req, t, j)
  }

  /** A run from `s` stands after `n` steps. */
  ghost predicate Reached(req: Request, s: Store, n: nat, p: Progress)
  {
    exists t :: Trace(req, t) && |t| == n + 1 && t[0] == Progress(s, []) && t[n] == p
  }

  lemma ReachedStart(req: Request, s: Store)
    ensures Reached(req, s, 0, Progress(s, []))
  {
    assert Trace(req, [Progress(s, [])]);
  }

  lemma ReachedNext(req: Request, s: Store, n: nat, op: Op, p: Progress, p': Progress)
    requires Reached(req, s, n, p) && n < Length(req) && op == OpAt(req, n)
    requires p'.store == Apply(req, op, p.store) && p'.created == p.created + Report(req, op, p.store)
    ensures Reached(req, s, n + 1, p')
  {
    var t :| Trace(req, t) && |t| == n + 1 && t[0] == Progress(s, []) && t[n] == p;
    var u := t + [p'];
    assert Trace(req, u) by {
      forall j | 0 <= j < |u| - 1
        ensures IsStep(req, u, j)
      {
        if j < n {
          assert IsStep(req, t, j);
        }
      }
    }
  }

  lemma LabelsNext(req: Request, s: Store, n: nat)
    requires n < Length(req)
    ensures Labels(req, Acting(req, s), n + 1)
         == Labels(req, Acting(req, s), n) + Report(req, OpAt(req, n), Prefix(req, s, n))
  {
    assert Acting(req, s)(n) <==> !Done(req, OpAt(req, n), Prefix(req, s, n));
  }

  /** Where a run from `s` stands, from the changes made and the steps that acted. */
  function At(req: Request, s: Store): (r: nat -> Progress)
  {
    (n: nat) =>
      if n <= Length(req) then Progress(Prefix(req, s, n), Labels(req, Acting(req, s), n)) else Progress(s, [])
  }

  lemma AtNext(req: Request, s: Store, n: nat)
    requires n < Length(req)
    ensures At(req, s)(n + 1) == Next(req)(n, At(req, s)(n))
  {
    PrefixNext(req, s, n);
    LabelsNext(req, s, n);
  }

  lemma TraceMeans(req: Request, s: Store, t: seq<Progress>, n: nat)
    requires Trace(req, t) && n < |t| && t[0] == Progress(s, [])
    ensures t[n] == At(req, s)(n)
  {
    forall j: nat | j + 1 < |t|
      ensures t[j + 1] == Next(req)(j, t[j]) && At(req, s)(j + 1) == Next(req)(j, At(req, s)(j))
    {
      assert IsStep(req, t, j);
      AtNext(req, s, j);
    }
    OneSequence(Next(req), t, At(req, s), n);
  }

  lemma ReachedMeans(req: Request, s: Store, p: Progress)
    requires Reached(req, s, Length(req), p)
    ensures p == Progress(Whole(req, s), Created(req, s))
  {
    var t :| Trace(req, t) && |t| == Length(req) + 1 && t[0] == Progress(s, []) && t[Length(req)] == p;
    TraceMeans(req, s, t, Length(req));
  }

  /** Where the run's tenant and owner are. */
  predicate Located(req: Request, s: Store, t: nat)
  {
    HasHome(req, s) && t == Home(req, s)
  }

  predicate Owned(req: Request, s: Store, user: nat)
  {
    Known(req, s) && user == s.identities[req.owner]
  }

  class Core {
    var tenants: seq<Tenant>
    var nextUser: nat
    var identities: map<Identity, nat>
    var roles: set<Role>
    var catalog: set<Permission>
    var grants: set<Grant>
    var members: set<Member>
    var assignments: set<Assignment>
    const rules: Rules

    function Value(): (r: Store)
      reads this
    {
      Store(tenants, nextUser, identities, roles, catalog, grants, members, assignments, rules)
    }

    method FindTenantsByName(name: string) returns (found: seq<nat>)
      ensures found == Matches(tenants, name)
    {
      found := [];
      var i := 0;
      while i < |tenants|
        invariant 0 <= i <= |tenants| && found == Matches(tenants[..i], name)
      {
        assert tenants[..i + 1] == tenants[..i] + [tenants[i]];
        MatchesSnoc(tenants[..i], tenants[i], name);
        if tenants[i].name == name {
          found := found + [i];
        }
        i := i + 1;
      }
      assert tenants[..i] == tenants;
    }

    /** The tenant-name rule for the one tenant found. */
    method FindConflict(req: Request, t: nat) returns (r: Option<Conflict>)
      requires |Found(req, Value())| == 1 && Located(req, Value(), t)
      ensures r == Refusal(req, Value())
    {
      if tenants[t].status != Pending && tenants[t].status != Active {
        return Some(ClosedTenant(tenants[t].status));
      }
      if exists m :: m in members && m.tenant == t {
        var alreadyMember := req.owner in identities && Member(t, identities[req.owner]) in members;
        if !alreadyMember {
          return Some(ForeignMembers);
        }
      }
      return None;
    }

    method CreateTenantRow(req: Request) returns (t: nat, created: seq<Label>)
      requires !HasHome(req, Value())
      modifies this`tenants
      ensures Reached(req, old(Value()), 1, Progress(Value(), created)) && Located(req, Value(), t)
    {
      ghost var s := Value();
      ApplyFound(req, CreateTenant, s);
      tenants := tenants + [Tenant(req.name, Pending)];
      t, created := |tenants| - 1, [TenantLabel];
      ReachedStart(req, s);
      ReachedNext(req, s, 0, CreateTenant, Progress(s, []), Progress(Value(), created));
    }

    /** `_resolve_tenant`: a conflict leaves the store as it was. */
    method ResolveTenant(req: Request) returns (r: Result<nat, Conflict>, created: seq<Label>)
      modifies this
      ensures r.Err? <==> Refusal(req, old(Value())).Some?
      ensures r.Err? ==> Value() == old(Value()) && Refusal(req, old(Value())) == Some(r.error)
      ensures r.Ok? ==> Reached(req, old(Value()), 1, Progress(Value(), created)) && Located(req, Value(), r.value)
    {
      ghost var s := Value();
      created := [];
      var matches := FindTenantsByName(req.name);
      if |matches| > 1 {
        return Err(AmbiguousName), [];
      }
      ReachedStart(req, s);
      if matches == [] {
        var t;
        t, created := CreateTenantRow(req);
        return Ok(t), created;
      }
      MatchesExist(tenants, req.name);
      var t := matches[0];
      var conflict := FindConflict(req, t);
      if conflict.Some? {
        return Err(conflict.value), [];
      }
      ReachedNext(req, s, 0, CreateTenant, Progress(s, []), Progress(Value(), []));
      return Ok(t), [];
    }

    method EnsureActive(req: Request, t: nat, before: seq<Label>, ghost s: Store, ghost n: nat)
        returns (created: seq<Label>)
      requires Reached(req, s, n, Progress(Value(), before)) && n < Length(req) && OpAt(req, n) == Activate
      requires Located(req, Value(), t)
      modifies this`tenants
      ensures Reached(req, s, n + 1, Progress(Value(), created)) && Located(req, Value(), t)
    {
      ghost var was := Value();
      created := before;
      ApplyFound(req, Activate, was);
      if tenants[t].status == Active {
        DoneIsNoop(req, Activate, was);
      } else {
        tenants := tenants[t := tenants[t].(status := Active)];
        created := created + [ActivationLabel];
      }
      ReachedNext(req, s, n, Activate, Progress(was, before), Progress(Value(), created));
    }

    /** `get_or_create_user_for_external_identity`: two transactions. */
    method EnsureUser(req: Request, t: nat, before: seq<Label>, ghost s: Store, ghost n: nat)
        returns (user: nat, created: seq<Label>)
      requires Reached(req, s, n, Progress(Value(), before)) && n == 2
      requires Located(req, Value(), t)
      modifies this`nextUser, this`identities
      ensures Reached(req, s, n + 2, Progress(Value(), created)) && Located(req, Value(), t)
              && Owned(req, Value(), user)
    {
      ghost var was := Value();
      created := before;
      if req.owner in identities {
        user := identities[req.owner];
        ReachedNext(req, s, n, CreateUser, Progress(was, before), Progress(was, before));
        ReachedNext(req, s, n + 1, LinkIdentity, Progress(was, before), Progress(was, before));
      } else {
        user := nextUser;
        nextUser := nextUser + 1;
        ghost var unlinked := Value();
        ReachedNext(req, s, n, CreateUser, Progress(was, before), Progress(unlinked, before));
        identities := identities[req.owner := user];
        created := created + [OwnerUserLabel];
        ReachedNext(req, s, n + 1, LinkIdentity, Progress(unlinked, before), Progress(Value(), created));
      }
    }

    method EnsureOwnerRole(req: Request, t: nat, before: seq<Label>, ghost s: Store, ghost n: nat)
        returns (created: seq<Label>)
      requires Reached(req, s, n, Progress(Value(), before)) && n < Length(req) && OpAt(req, n) == CreateRole
      requires Located(req, Value(), t)
      modifies this`roles
      ensures Reached(req, s, n + 1, Progress(Value(), created)) && Located(req, Value(), t)
    {
      ghost var was := Value();
      created := before;
      if Role(t, OWNER) in roles {
        DoneIsNoop(req, CreateRole, was);
      } else {
        roles := roles + {Role(t, OWNER)};
        created := created + [OwnerRoleLabel];
      }
      ReachedNext(req, s, n, CreateRole, Progress(was, before), Progress(Value(), created));
    }

    method EnsureRegistered(req: Request, t: nat, p: Permission, before: seq<Label>, ghost s: Store, ghost n: nat)
        returns (created: seq<Label>)
      requires Reached(req, s, n, Progress(Value(), before)) && n < Length(req) && OpAt(req, n) == Register(p)
      requires Located(req, Value(), t)
      modifies this`catalog
      ensures Reached(req, s, n + 1, Progress(Value(), created)) && Located(req, Value(), t)
    {
      ghost var was := Value();
      created := before;
      catalog := catalog + {p};
      ReachedNext(req, s, n, Register(p), Progress(was, before), Progress(Value(), created));
    }

    method EnsureGrant(req: Request, t: nat, p: Permission, before: seq<Label>, ghost s: Store, ghost n: nat)
        returns (created: seq<Label>)
      requires Reached(req, s, n, Progress(Value(), before)) && n < Length(req) && OpAt(req, n) == GrantTo(p)
      requires Located(req, Value(), t)
      modifies this`grants
      ensures Reached(req, s, n + 1, Progress(Value(), created)) && Located(req, Value(), t)
    {
      ghost var was := Value();
      created := before;
      if Grant(t, OWNER, p) in grants {
        DoneIsNoop(req, GrantTo(p), was);
      } else {
        grants := grants + {Grant(t, OWNER, p)};
        created := created + [GrantLabel(p)];
      }
      ReachedNext(req, s, n, GrantTo(p), Progress(was, before), Progress(Value(), created));
    }

    method EnsureOneGrant(req: Request, t: nat, p: Permission, before: seq<Label>, ghost s: Store, ghost n: nat)
        returns (created: seq<Label>)
      requires Reached(req, s, n, Progress(Value(), before)) && n + 1 < Length(req)
      requires OpAt(req, n) == Register(p) && OpAt(req, n + 1) == GrantTo(p) && Located(req, Value(), t)
      modifies this`catalog, this`grants
      ensures Reached(req, s, n + 2, Progress(Value(), created)) && Located(req, Value(), t)
    {
      created := EnsureRegistered(req, t, p, before, s, n);
      created := EnsureGrant(req, t, p, created, s, n + 1);
    }

    /** The loop of `_ensure_permission_grants`. */
    method EnsurePermissionGrants(req: Request, t: nat, before: seq<Label>, ghost s: Store)
        returns (created: seq<Label>)
      requires Reached(req, s, 5, Progress(Value(), before)) && Located(req, Value(), t)
      modifies this`catalog, this`grants
      ensures Reached(req, s, Length(req) - 2, Progress(Value(), created)) && Located(req, Value(), t)
    {
      created := before;
      var i := 0;
      while i < |req.permissions|
        invariant 0 <= i <= |req.permissions|
        invariant Reached(req, s, 5 + 2 * i, Progress(Value(), created)) && Located(req, Value(), t)
      {
        GrantOps(req, i);
        created := EnsureOneGrant(req, t, req.permissions[i], created, s, 5 + 2 * i);
        i := i + 1;
      }
    }

    method EnsureMembership(req: Request, t: nat, user: nat, before: seq<Label>, ghost s: Store, ghost n: nat)
        returns (created: seq<Label>)
      requires Reached(req, s, n, Progress(Value(), before)) && n < Length(req) && OpAt(req, n) == Join
      requires Located(req, Value(), t) && Owned(req, Value(), user)
      modifies this`members
      ensures Reached(req, s, n + 1, Progress(Value(), created)) && Located(req, Value(), t)
      ensures Owned(req, Value(), user)
    {
      ghost var was := Value();
      created := before;
      if Member(t, user) in members {
        DoneIsNoop(req, Join, was);
      } else {
        members := members + {Member(t, user)};
        created := created + [MembershipLabel];
      }
      ReachedNext(req, s, n, Join, Progress(was, before), Progress(Value(), created));
    }

    method EnsureRoleAssignment(req: Request, t: nat, user: nat, before: seq<Label>, ghost s: Store, ghost n: nat)
        returns (created: seq<Label>)
      requires Reached(req, s, n, Progress(Value(), before)) && n < Length(req) && OpAt(req, n) == Assign
      requires Located(req, Value(), t) && Owned(req, Value(), user)
      modifies this`assignments
      ensures Reached(req, s, n + 1, Progress(Value(), created)) && Located(req, Value(), t)
    {
      ghost var was := Value();
      created := before;
      if Assignment(t, user, OWNER) in assignments {
        DoneIsNoop(req, Assign, was);
      } else {
        assignments := assignments + {Assignment(t, user, OWNER)};
        created := created + [AssignmentLabel];
      }
      ReachedNext(req, s, n, Assign, Progress(was, before), Progress(Value(), created));
    }

    /** `_verify_owner_authority`: the first permission the owner lacks. */
    method VerifyOwnerAuthority(req: Request, user: nat, t: nat) returns (missing: Option<Permission>)
      ensures missing.None? <==> forall p :: p in req.permissions ==> Can(Value(), user, t, p)
      ensures missing.Some? ==> missing.value in req.permissions && !Can(Value(), user, t, missing.value)
    {
      var i := 0;
      while i < |req.permissions|
        invariant 0 <= i <= |req.permissions|
        invariant forall j :: 0 <= j < i ==> Can(Value(), user, t, req.permissions[j])
      {
        if !Can(Value(), user, t, req.permissions[i]) {
          return Some(req.permissions[i]);
        }
        i := i + 1;
      }
      return None;
    }

    method EnsureTenantAndOwner(req: Request, t: nat, before: seq<Label>, ghost s: Store)
        returns (user: nat, created: seq<Label>)
      requires Reached(req, s, 1, Progress(Value(), before)) && Located(req, Value(), t)
      modifies this
      ensures Reached(req, s, 4, Progress(Value(), created)) && Located(req, Value(), t) && Owned(req, Value(), user)
    {
      created := EnsureActive(req, t, before, s, 1);
      user, created := EnsureUser(req, t, created, s, 2);
    }

    method EnsureRoleAndGrants(req: Request, t: nat, before: seq<Label>, ghost s: Store) returns (created: seq<Label>)
      requires Reached(req, s, 4, Progress(Value(), before)) && Located(req, Value(), t)
      modifies this`roles, this`catalog, this`grants
      ensures Reached(req, s, Length(req) - 2, Progress(Value(), created)) && Located(req, Value(), t)
    {
      created := EnsureOwnerRole(req, t, before, s, 4);
      created := EnsurePermissionGrants(req, t, created, s);
    }

    method EnsureOwner(req: Request, t: nat, user: nat, before: seq<Label>, ghost s: Store, ghost n: nat)
        returns (created: seq<Label>)
      requires Reached(req, s, n, Progress(Value(), before)) && n == Length(req) - 2
      requires Located(req, Value(), t) && Owned(req, Value(), user)
      modifies this`members, this`assignments
      ensures Reached(req, s, Length(req), Progress(Value(), created)) && Located(req, Value(), t)
    {
      created := EnsureMembership(req, t, user, before, s, n);
      created := EnsureRoleAssignment(req, t, user, created, s, n + 1);
    }

    method EnsureAuthority(req: Request, t: nat, user: nat, before: seq<Label>, ghost s: Store)
        returns (created: seq<Label>)
      requires Reached(req, s, 4, Progress(Value(), before)) && Located(req, Value(), t) && Owned(req, Value(), user)
      modifies this`roles, this`catalog, this`grants, this`members, this`assignments
      ensures Reached(req, s, Length(req), Progress(Value(), created)) && Located(req, Value(), t)
    {
      created := EnsureRoleAndGrants(req, t, before, s);
      created := EnsureOwner(req, t, user, created, s, Length(req) - 2);
    }

    /** Every step up to the final check. */
    method Provision(req: Request) returns (r: Result<Outcome, Conflict>)
      modifies this
      ensures r.Err? <==> Refusal(req, old(Value())).Some?
      ensures r.Err? ==> Value() == old(Value()) && Refusal(req, old(Value())) == Some(r.error)
      ensures r.Ok? ==> Reached(req, old(Value()), Length(req), Progress(Value(), r.value.created))
      ensures r.Ok? ==> Located(req, Value(), r.value.tenant) && Owned(req, Value(), r.value.owner)
    {
      ghost var s := Value();
      var resolved, created := ResolveTenant(req);
      if resolved.Err? {
        return Err(resolved.error);
      }
      var user;
      user, created := EnsureTenantAndOwner(req, resolved.value, created, s);
      created := EnsureAuthority(req, resolved.value, user, created, s);
      return Ok(Outcome(resolved.value, user, created));
    }

    /** A refused run changes nothing; any other makes the whole program's
        changes, reports exactly the steps that acted, and succeeds exactly when
        the owner then holds every permission. */
    method BootstrapFirstTenant(req: Request) returns (r: Result<Outcome, Failure>)
      modifies this
      ensures Refusal(req, old(Value())).Some? ==>
                Value() == old(Value()) && r == Err(Refused(Refusal(req, old(Value())).value))
      ensures Refusal(req, old(Value())).None? ==>
                && Value() == Whole(req, old(Value()))
                && HasHome(req, Value()) && Known(req, Value())
                && (r.Ok? <==> forall p :: p in req.permissions ==>
                      Can(Value(), identities[req.owner], Home(req, Value()), p))
                && (r.Ok? ==> r.value == Outcome(Home(req, Value()), identities[req.owner], Created(req, old(Value()))))
    {
      ghost var s := Value();
      var provisioned := Provision(req);
      if provisioned.Err? {
        return Err(Refused(provisioned.error));
      }
      ReachedMeans(req, s, Progress(Value(), provisioned.value.created));
      var missing := VerifyOwnerAuthority(req, provisioned.value.owner, provisioned.value.tenant);
      if missing.Some? {
        return Err(NotVerified(missing.value));
      }
      return Ok(provisioned.value);
    }
  }
}
