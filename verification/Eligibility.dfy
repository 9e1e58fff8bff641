/**
  Which destinations may receive an inference request: the default-deny data
  authorization, the tenant's data-handling preferences and the evaluation of
  an alias's candidates against one configuration snapshot
  (saas_os/control_plane/inference/resolution.py,
  saas_os/control_plane/data_authorization/service.py).
 */
module Eligibility {
  import opened Common

  const CLASSIFICATIONS: seq<string> := ["none", "tenant_data", "sensitive"]

  // --- data authorization ---------------------------------------------------------

  datatype DenialReason =
    | UnclassifiedData | NoTenantPolicy | DataClassNotPermitted
    | PurposeNotPermitted | ProviderNotGloballyEligible | ProviderNotPermitted

  datatype Decision = Allow | Deny(reason: DenialReason)

  datatype DataRequest = DataRequest(tenant: nat, classification: string, purpose: string, provider: string)

  datatype TenantDataPolicy = TenantDataPolicy(tenant: nat, classes: set<string>, purposes: set<string>,
                                               providers: set<string>)

  /** `evaluate_data_authorization`. */
  function Authorize(request: DataRequest, policy: Option<TenantDataPolicy>,
                     eligibleProviders: set<string>): (r: Decision)
  {
    if request.classification !in CLASSIFICATIONS then Deny(UnclassifiedData)
    else if policy.None? || policy.value.tenant != request.tenant then Deny(NoTenantPolicy)
    else if request.classification !in policy.value.classes then Deny(DataClassNotPermitted)
    else if request.purpose == "" || request.purpose !in policy.value.purposes then Deny(PurposeNotPermitted)
    else if request.provider !in eligibleProviders then Deny(ProviderNotGloballyEligible)
    else if request.provider !in policy.value.providers then Deny(ProviderNotPermitted)
    else Allow
  }

  // --- preferences ------------------------------------------------------------------

  /** A provider's declared handling; `None` where nothing usable is declared. */
  datatype Handling = Handling(residency: Option<seq<string>>, retentionDays: Option<int>, trainingUse: Option<bool>)

  datatype Preferences = Preferences(allowedResidency: seq<string>, maxRetentionDays: Option<int>,
                                     excludeTraining: bool)

  predicate MeetsPreferences(h: Handling, p: Preferences)
  {
    && (p.allowedResidency != [] ==>
          && h.residency.Some? && h.residency.value != []
          && forall x :: x in h.residency.value ==> x in p.allowedResidency)
    && (p.maxRetentionDays.Some? ==> h.retentionDays.Some? && h.retentionDays.value <= p.maxRetentionDays.value)
    && (p.excludeTraining ==> h.trainingUse == Some(false))
  }

  /** Tightening, requirement by requirement. An empty residency list is no
      requirement, so emptying it loosens. */
  predicate TighterPreferences(p': Preferences, p: Preferences)
  {
    && (p.allowedResidency != [] ==>
          p'.allowedResidency != [] && forall x :: x in p'.allowedResidency ==> x in p.allowedResidency)
    && (p.maxRetentionDays.Some? ==> p'.maxRetentionDays.Some? && p'.maxRetentionDays.value <= p.maxRetentionDays.value)
    && (p.excludeTraining ==> p'.excludeTraining)
  }

  /** The requirement-wise order is exactly "accepts no more providers". */
  lemma PreferencesOnlyNarrow(p': Preferences, p: Preferences)
    ensures TighterPreferences(p', p) <==> forall h :: MeetsPreferences(h, p') ==> MeetsPreferences(h, p)
  {
    if forall h :: MeetsPreferences(h, p') ==> MeetsPreferences(h, p) {
      var residency := if p'.allowedResidency == [] then None else Some(p'.allowedResidency);
      var h := Handling(residency, p'.maxRetentionDays, if p'.excludeTraining then Some(false) else None);
      assert MeetsPreferences(h, p');
      assert MeetsPreferences(h, p);
    }
  }

  // --- candidates --------------------------------------------------------------------

  datatype Candidate = Candidate(
    modelRef: nat,
    providerKey: string,
    protocol: string,
    baseUrl: string,
    credentialRef: string,
    credentialBound: bool,
    providerActive: bool,
    providerVersion: nat,
    modelId: string,
    capabilities: set<string>,
    maxOutputTokens: int,
    modelUsable: bool,
    modelVersion: nat,
    installationAllows: bool,
    tenantGrant: Option<set<string>>,
    trusted: set<string>,
    handling: Handling)

  datatype Snapshot = Snapshot(
    tenant: nat,
    policyExists: bool,
    policyEnabled: bool,
    policyVersion: nat,
    useCaseGrant: Option<set<string>>,
    aliasActive: bool,
    candidates: seq<Candidate>,
    preferences: Preferences)

  /** What the request asks for, after validation. */
  datatype Ask = Ask(useCase: string, classification: string, required: set<string>, maxOutputTokens: int)

  type AdapterCapabilities = map<string, set<string>>

  datatype Refusal =
    | PolicyAbsentOrDisabled | UseCaseNotGranted | ClassificationNotGranted
    | AliasUnavailable | NoEligibleDestination | UnsupportedCapability

  function Granted(g: Option<set<string>>): (r: set<string>)
  {
    if g.Some? then g.value else {}
  }

  /** `data_authorization_allows`. */
  predicate GateAllows(s: Snapshot, c: Candidate, useCase: string, classification: string)
  {
    Authorize(
      DataRequest(s.tenant, classification, useCase, c.providerKey),
      Some(TenantDataPolicy(
             s.tenant,
             Granted(s.useCaseGrant) * Granted(c.tenantGrant),
             if Granted(s.useCaseGrant) != {} then {useCase} else {},
             if Granted(c.tenantGrant) != {} then {c.providerKey} else {})),
      if c.installationAllows then {c.providerKey} else {}).Allow?
  }

  /** The gate says exactly what routing checked: it can neither add nor remove
      a destination that routing decided correctly. */
  lemma GateRepeatsRouting(s: Snapshot, c: Candidate, useCase: string, classification: string)
    ensures GateAllows(s, c, useCase, classification) <==>
            && classification in CLASSIFICATIONS && useCase != ""
            && s.useCaseGrant.Some? && classification in s.useCaseGrant.value
            && c.tenantGrant.Some? && classification in c.tenantGrant.value
            && c.installationAllows
  {
  }

  predicate AllowedByPolicy(s: Snapshot, ask: Ask, c: Candidate)
  {
    && c.providerActive && c.credentialBound && c.modelUsable && c.installationAllows
    && c.tenantGrant.Some? && ask.classification in c.tenantGrant.value
    && MeetsPreferences(c.handling, s.preferences)
    && GateAllows(s, c, ask.useCase, ask.classification)
  }

  function AdapterCaps(caps: AdapterCapabilities, protocol: string): (r: set<string>)
  {
    if protocol in caps then caps[protocol] else {}
  }

  predicate Supports(ask: Ask, caps: AdapterCapabilities, c: Candidate)
  {
    && ask.required <= c.capabilities && ask.required <= AdapterCaps(caps, c.protocol)
    && ask.maxOutputTokens <= c.maxOutputTokens
  }

  /** A destination that may receive the request. */
  predicate Eligible(s: Snapshot, ask: Ask, caps: AdapterCapabilities, c: Candidate)
  {
    AllowedByPolicy(s, ask, c) && Supports(ask, caps, c)
  }

  function Select(cs: seq<Candidate>, p: Candidate -> bool): (r: seq<Candidate>)
    ensures forall c :: c in r <==> c in cs && p(c)
  {
    if cs == [] then []
    else Select(cs[..|cs| - 1], p) + if p(cs[|cs| - 1]) then [cs[|cs| - 1]] else []
  }

  /** Checks that concern the request, before any candidate. */
  function RequestRefusal(s: Snapshot, ask: Ask): (r: Option<Refusal>)
  {
    if !s.policyExists || !s.policyEnabled then Some(PolicyAbsentOrDisabled)
    else if s.useCaseGrant.None? then Some(UseCaseNotGranted)
    else if ask.classification !in s.useCaseGrant.value then Some(ClassificationNotGranted)
    else if !s.aliasActive then Some(AliasUnavailable)
    else None
  }

  function InPolicy(s: Snapshot, ask: Ask): (r: Candidate -> bool)
  {
    c => AllowedByPolicy(s, ask, c)
  }

  function Supported(ask: Ask, caps: AdapterCapabilities): (r: Candidate -> bool)
  {
    c => Supports(ask, caps, c)
  }

  function IsEligible(s: Snapshot, ask: Ask, caps: AdapterCapabilities): (r: Candidate -> bool)
  {
    c => Eligible(s, ask, caps, c)
  }

  /** Declaratively: the alias's candidates that pass every check, in alias order. */
  function Evaluated(s: Snapshot, ask: Ask, caps: AdapterCapabilities): (r: Result<seq<Candidate>, Refusal>)
  {
    if RequestRefusal(s, ask).Some? then Err(RequestRefusal(s, ask).value)
    else if Select(s.candidates, InPolicy(s, ask)) == [] then Err(NoEligibleDestination)
    else if Select(s.candidates, IsEligible(s, ask, caps)) == [] then Err(UnsupportedCapability)
    else Ok(Select(s.candidates, IsEligible(s, ask, caps)))
  }

  lemma {:induction false} SelectTwice(cs: seq<Candidate>, s: Snapshot, ask: Ask, caps: AdapterCapabilities)
    ensures Select(Select(cs, InPolicy(s, ask)), Supported(ask, caps)) == Select(cs, IsEligible(s, ask, caps))
  {
    if cs != [] {
      var before, last := cs[..|cs| - 1], cs[|cs| - 1];
      SelectTwice(before, s, ask, caps);
      var once := Select(cs, InPolicy(s, ask));
      if AllowedByPolicy(s, ask, last) {
        assert once[..|once| - 1] == Select(before, InPolicy(s, ask));
      } else {
        assert once == Select(before, InPolicy(s, ask));
      }
    }
  }

  method PolicyList(s: Snapshot, ask: Ask) returns (allowed: seq<Candidate>)
    ensures allowed == Select(s.candidates, InPolicy(s, ask))
  {
    allowed := [];
    for i := 0 to |s.candidates|
      invariant allowed == Select(s.candidates[..i], InPolicy(s, ask))
    {
      assert s.candidates[..i + 1][..i] == s.candidates[..i];
      if AllowedByPolicy(s, ask, s.candidates[i]) {
        allowed := allowed + [s.candidates[i]];
      }
    }
    assert s.candidates[..|s.candidates|] == s.candidates;
  }

  method SupportedList(allowed: seq<Candidate>, ask: Ask, caps: AdapterCapabilities) returns (eligible: seq<Candidate>)
    ensures eligible == Select(allowed, Supported(ask, caps))
  {
    eligible := [];
    for i := 0 to |allowed|
      invariant eligible == Select(allowed[..i], Supported(ask, caps))
    {
      assert allowed[..i + 1][..i] == allowed[..i];
      var c := allowed[i];
      if !(ask.required <= c.capabilities) || !(ask.required <= AdapterCaps(caps, c.protocol)) {
        continue;
      }
      if ask.maxOutputTokens > c.maxOutputTokens {
        continue;
      }
      eligible := eligible + [c];
    }
    assert allowed[..|allowed|] == allowed;
  }

  /** `evaluate`: first the policy list, then the capability loop. */
  method Evaluate(s: Snapshot, ask: Ask, caps: AdapterCapabilities) returns (r: Result<seq<Candidate>, Refusal>)
    ensures r == Evaluated(s, ask, caps)
  {
    if !s.policyExists || !s.policyEnabled {
      return Err(PolicyAbsentOrDisabled);
    }
    if s.useCaseGrant.None? {
      return Err(UseCaseNotGranted);
    }
    if ask.classification !in s.useCaseGrant.value {
      return Err(ClassificationNotGranted);
    }
    if !s.aliasActive {
      return Err(AliasUnavailable);
    }
    var allowed := PolicyList(s, ask);
    if allowed == [] {
      assert forall c :: c in s.candidates && InPolicy(s, ask)(c) ==> c in allowed;
      return Err(NoEligibleDestination);
    }
    assert allowed[0] in allowed;
    var eligible := SupportedList(allowed, ask, caps);
    SelectTwice(s.candidates, s, ask, caps);
    if eligible == [] {
      assert forall c :: c in s.candidates && IsEligible(s, ask, caps)(c) ==> c in eligible;
      return Err(UnsupportedCapability);
    }
    assert eligible[0] in eligible;
    return Ok(eligible);
  }

  /** `r` holds the elements of `cs` at the positions `at`, which ascend and are
      exactly those that `p` accepts. */
  ghost predicate Picks(cs: seq<Candidate>, p: Candidate -> bool, r: seq<Candidate>, at: seq<nat>)
  {
    && |at| == |r|
    && (forall k :: 0 <= k < |at| ==> at[k] < |cs| && r[k] == cs[at[k]])
    && (forall j, k :: 0 <= j < k < |at| ==> at[j] < at[k])
    && (forall i :: 0 <= i < |cs| && p(cs[i]) ==> i in at)
    && (forall c :: c in r ==> p(c))
  }

  lemma PicksOneMore(cs: seq<Candidate>, p: Candidate -> bool, r: seq<Candidate>, at: seq<nat>, c: Candidate)
    requires Picks(cs, p, r, at)
    ensures if p(c) then Picks(cs + [c], p, r + [c], at + [|cs|]) else Picks(cs + [c], p, r, at)
  {
    if p(c) {
      var at' := at + [|cs|];
      forall i | 0 <= i < |cs + [c]| && p((cs + [c])[i])
        ensures i in at'
      {
        assert at'[|at|] == |cs|;
        assert i < |cs| ==> i in at;
      }
    }
  }

  lemma {:induction false} SelectPicks(cs: seq<Candidate>, p: Candidate -> bool) returns (at: seq<nat>)
    ensures Picks(cs, p, Select(cs, p), at)
  {
    at := [];
    if cs != [] {
      var n := |cs| - 1;
      at := SelectPicks(cs[..n], p);
      PicksOneMore(cs[..n], p, Select(cs[..n], p), at, cs[n]);
      assert cs[..n] + [cs[n]] == cs;
      assert Select(cs, p) == Select(cs[..n], p) + if p(cs[n]) then [cs[n]] else [];
      if p(cs[n]) {
        at := at + [n];
      }
    }
  }

  /** Evaluation succeeds exactly when the request passes its own checks and some
      candidate passes all of its; policy is judged before capability. */
  lemma EvaluatesExactly(s: Snapshot, ask: Ask, caps: AdapterCapabilities)
    ensures Evaluated(s, ask, caps).Ok? <==>
            RequestRefusal(s, ask).None? && exists c :: c in s.candidates && Eligible(s, ask, caps, c)
    ensures Evaluated(s, ask, caps) == Err(UnsupportedCapability) <==>
            && RequestRefusal(s, ask).None? && (exists c :: c in s.candidates && AllowedByPolicy(s, ask, c))
            && forall c :: c in s.candidates ==> !Eligible(s, ask, caps, c)
  {
    SomeSelected(s.candidates, IsEligible(s, ask, caps));
    SomeSelected(s.candidates, InPolicy(s, ask));
    assert forall c :: IsEligible(s, ask, caps)(c) == Eligible(s, ask, caps, c);
    assert forall c :: InPolicy(s, ask)(c) == AllowedByPolicy(s, ask, c);
  }

  /** It then yields exactly the alias's eligible positions, in alias order. */
  lemma EligibleInAliasOrder(s: Snapshot, ask: Ask, caps: AdapterCapabilities) returns (at: seq<nat>)
    requires Evaluated(s, ask, caps).Ok?
    ensures Picks(s.candidates, IsEligible(s, ask, caps), Evaluated(s, ask, caps).value, at)
  {
    at := SelectPicks(s.candidates, IsEligible(s, ask, caps));
  }

  lemma SomeSelected(cs: seq<Candidate>, p: Candidate -> bool)
    ensures Select(cs, p) != [] <==> exists c :: c in cs && p(c)
  {
    if Select(cs, p) != [] {
      assert Select(cs, p)[0] in Select(cs, p);
    }
  }

  // --- tightening -----------------------------------------------------------------------

  predicate TighterGrant(g': Option<set<string>>, g: Option<set<string>>)
  {
    g'.Some? ==> g.Some? && g'.value <= g.value
  }

  /** The same destination, with fewer rights or abilities. */
  predicate TighterCandidate(c': Candidate, c: Candidate)
  {
    && c'.providerKey == c.providerKey && c'.protocol == c.protocol && c'.handling == c.handling
    && (c'.providerActive ==> c.providerActive) && (c'.credentialBound ==> c.credentialBound)
    && (c'.modelUsable ==> c.modelUsable) && (c'.installationAllows ==> c.installationAllows)
    && TighterGrant(c'.tenantGrant, c.tenantGrant)
    && c'.capabilities <= c.capabilities && c'.maxOutputTokens <= c.maxOutputTokens
  }

  ghost predicate TighterSnapshot(s': Snapshot, s: Snapshot)
  {
    && s'.tenant == s.tenant
    && (s'.policyExists ==> s.policyExists) && (s'.policyEnabled ==> s.policyEnabled)
       && (s'.aliasActive ==> s.aliasActive)
    && TighterGrant(s'.useCaseGrant, s.useCaseGrant)
    && TighterPreferences(s'.preferences, s.preferences)
    && |s'.candidates| == |s.candidates|
    && forall i :: 0 <= i < |s.candidates| ==> TighterCandidate(s'.candidates[i], s.candidates[i])
  }

  ghost predicate TighterAsk(a': Ask, a: Ask)
  {
    a'.useCase == a.useCase && a'.classification == a.classification
    && a.required <= a'.required && a.maxOutputTokens <= a'.maxOutputTokens
  }

  ghost predicate TighterAdapters(m': AdapterCapabilities, m: AdapterCapabilities)
  {
    forall p :: AdapterCaps(m', p) <= AdapterCaps(m, p)
  }

  /** Tightening anything can only remove candidates: each one eligible after
      was eligible before, and a request refused before is still refused. */
  lemma TighteningOnlyRemoves(s': Snapshot, s: Snapshot, a': Ask, a: Ask, m': AdapterCapabilities,
                              m: AdapterCapabilities, i: nat)
    requires TighterSnapshot(s', s) && TighterAsk(a', a) && TighterAdapters(m', m)
    ensures i < |s.candidates| && Eligible(s', a', m', s'.candidates[i]) ==> Eligible(s, a, m, s.candidates[i])
    ensures Evaluated(s', a', m').Ok? ==> Evaluated(s, a, m).Ok?
  {
    forall k | 0 <= k < |s.candidates| && Eligible(s', a', m', s'.candidates[k])
      ensures Eligible(s, a, m, s.candidates[k])
    {
      PreferencesOnlyNarrow(s'.preferences, s.preferences);
      GateRepeatsRouting(s', s'.candidates[k], a'.useCase, a'.classification);
      GateRepeatsRouting(s, s.candidates[k], a.useCase, a.classification);
      assert TighterCandidate(s'.candidates[k], s.candidates[k]);
    }
    if Evaluated(s', a', m').Ok? {
      var c' := Evaluated(s', a', m').value[0];
      assert c' in Evaluated(s', a', m').value;
      var k :| 0 <= k < |s'.candidates| && s'.candidates[k] == c';
      assert s.candidates[k] in Select(s.candidates, IsEligible(s, a, m));
      assert s.candidates[k] in Select(s.candidates, InPolicy(s, a));
    }
  }

  /** Emptying the residency list is not a tightening: it admits a provider
      that declares nothing. */
  lemma EmptyResidencyLoosens(p: Preferences)
    requires p.allowedResidency != []
    ensures !TighterPreferences(p.(allowedResidency := []), p)
    ensures exists h :: MeetsPreferences(h, p.(allowedResidency := [])) && !MeetsPreferences(h, p)
  {
    var h := Handling(None, p.maxRetentionDays, Some(false));
    assert MeetsPreferences(h, p.(allowedResidency := [])) && !MeetsPreferences(h, p);
  }
}
