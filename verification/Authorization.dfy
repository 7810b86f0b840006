/** The project-state half of execution authorization: the profile loader's binding and the blockers. */
module Authorization {
  import opened Common
  import opened Json
  import P = RunPlans
  import K = ProfileCoherence

  /** SHA-256 as an abstract digest. */
  type Digest = Bytes -> string

  ghost predicate Injective(digest: Digest) {
    forall a: Bytes, b: Bytes :: digest(a) == digest(b) ==> a == b
  }

  const PARENT_HASH := "profile_sha256"

  /** The child document without the hash of its parent. */
  function FingerprintDocument(plan: P.RunPlan): Fields {
    P.PlanDocument(plan) - {PARENT_HASH}
  }

  function Fingerprint(text: Text, digest: Digest, plan: P.RunPlan): string {
    digest(text.compact(Obj(FingerprintDocument(plan))))
  }

  datatype AuthorizedRunProfile = AuthorizedRunProfile(
    planId: string, profileSha256: string, authorizationReference: string, childFingerprints: set<string>)

  datatype ProjectState = ProjectState(
    phaseStatus: string, paidComputeAllowed: bool, prototypeAllowed: bool, benchmarkAllowed: bool,
    trainingAllowed: bool, cloudMutationAllowed: bool, profile: Option<AuthorizedRunProfile>)

  // ------------------------------------------------------------ the loader

  /** The project state's entry for its authorized profile. */
  datatype Recorded = Recorded(planId: string, profileSha256: string, fingerprints: seq<string>)

  /** The parent file as read: its digest, the schema's verdict on it, and its sections. */
  datatype ParentFile = ParentFile(
    sha256: string, schemaValid: bool, planId: string, eligibility: string, unresolvedBlockers: seq<string>,
    authorized: bool, reference: Option<string>, experimentId: string, profile: P.RunProfile, sampling: K.Parent)

  const ELIGIBLE := "eligible-after-authorization"

  /** The parent file's facts that the loader binds children to. */
  datatype Parent = Parent(
    planId: string, sha256: string, reference: string, experimentId: string, profile: P.RunProfile)

  function ParentOf(recorded: Recorded, file: ParentFile): Parent {
    Parent(recorded.planId, recorded.profileSha256, if file.reference.Some? then file.reference.value else "",
           file.experimentId, file.profile)
  }

  datatype LoadError =
    | RecordedInvalid | NoFingerprints | FileHash | SchemaInvalid | FilePlanId | NotEligible | UnresolvedBlockers
    | FileUnauthorized | ReferenceUnsafe
    | ChildExperiment | ChildProfile | ChildParentBinding | ChildAuthorization
    | Incoherent(error: K.CoherenceError) | DuplicateChildren | FingerprintsDiffer

  function ChildError(parent: Parent, child: P.RunPlan): Option<LoadError> {
    var a := child.execution.authorization;
    if child.identity.experimentId != parent.experimentId then Some(ChildExperiment)
    else if child.profile != parent.profile then Some(ChildProfile)
    else if child.profilePlanId != Some(parent.planId) || child.profileSha256 != Some(parent.sha256)
      then Some(ChildParentBinding)
    else if !a.authorized || a.reference != Some(parent.reference) then Some(ChildAuthorization)
    else None
  }

  function Plans(children: seq<K.Child>): (plans: seq<P.RunPlan>)
    ensures |plans| == |children|
    ensures forall i | 0 <= i < |children| :: plans[i] == children[i].plan
  {
    seq(|children|, i requires 0 <= i < |children| => children[i].plan)
  }

  function Prints(fingerprint: P.RunPlan -> string, children: seq<K.Child>): (r: seq<string>)
    ensures |r| == |children|
    ensures forall i | 0 <= i < |children| :: r[i] == fingerprint(children[i].plan)
  {
    seq(|children|, i requires 0 <= i < |children| => fingerprint(children[i].plan))
  }

  function Fingerprinter(text: Text, digest: Digest): P.RunPlan -> string {
    (plan: P.RunPlan) => Fingerprint(text, digest, plan)
  }

  /** The recorded entry is well formed. */
  predicate RecordedOk(p: P.Patterns, recorded: Recorded) {
    && (forall f | f in recorded.fingerprints :: p.sha256(f)) && Distinct(recorded.fingerprints)
    && p.planId(recorded.planId) && p.sha256(recorded.profileSha256)
  }

  /** The parent file is the recorded one, valid, ready and authorized. */
  predicate FileOk(p: P.Patterns, recorded: Recorded, file: ParentFile) {
    && file.sha256 == recorded.profileSha256 && file.schemaValid && file.planId == recorded.planId
    && file.eligibility == ELIGIBLE && file.unresolvedBlockers == []
    && file.authorized && file.reference.Some? && p.reference(file.reference.value)
  }

  predicate ChildrenBound(parent: Parent, children: seq<K.Child>) {
    forall c | c in children :: ChildError(parent, c.plan).None?
  }

  /** The declared children are exactly the sealed ones, each once. */
  predicate Sealed(fingerprint: P.RunPlan -> string, recorded: Recorded, children: seq<K.Child>) {
    && Distinct(Prints(fingerprint, children))
    && |children| == |recorded.fingerprints|
    && Elements(Prints(fingerprint, children)) == Elements(recorded.fingerprints)
  }

  /** What a successfully loaded profile has established about its parent file and its children. */
  predicate Binds(
      p: P.Patterns, text: Text, digest: Digest, decimal: Amount -> real,
      recorded: Recorded, file: ParentFile, children: seq<K.Child>)
  {
    && RecordedOk(p, recorded) && recorded.fingerprints != [] && FileOk(p, recorded, file)
    && ChildrenBound(ParentOf(recorded, file), children)
    && K.Coherent(decimal, file.sampling, children)
    && Sealed(Fingerprinter(text, digest), recorded, children)
  }

  function Profile(recorded: Recorded, file: ParentFile): AuthorizedRunProfile {
    ProfileOf(ParentOf(recorded, file), recorded.fingerprints)
  }

  /** The recorded entry and the parent file, check by check. */
  method CheckParentFile(p: P.Patterns, recorded: Recorded, file: ParentFile) returns (error: Option<LoadError>)
    ensures error.None? <==> RecordedOk(p, recorded) && recorded.fingerprints != [] && FileOk(p, recorded, file)
  {
    if !RecordedOk(p, recorded) { return Some(RecordedInvalid); }
    if recorded.fingerprints == [] { return Some(NoFingerprints); }
    if file.sha256 != recorded.profileSha256 { return Some(FileHash); }
    if !file.schemaValid { return Some(SchemaInvalid); }
    if file.planId != recorded.planId { return Some(FilePlanId); }
    if file.eligibility != ELIGIBLE { return Some(NotEligible); }
    if file.unresolvedBlockers != [] { return Some(UnresolvedBlockers); }
    if !file.authorized { return Some(FileUnauthorized); }
    if file.reference.None? || !p.reference(file.reference.value) { return Some(ReferenceUnsafe); }
    error := None;
  }

  lemma OneMoreBound(parent: Parent, children: seq<K.Child>, k: nat)
    requires k < |children|
    ensures ChildrenBound(parent, children[..k + 1])
       <==> ChildrenBound(parent, children[..k]) && ChildError(parent, children[k].plan).None?
    ensures ChildError(parent, children[k].plan).Some? ==> !ChildrenBound(parent, children)
  {
    assert children[..k + 1] == children[..k] + [children[k]] && children[k] in children;
  }

  /** Checks each declared child in turn and collects its fingerprint. */
  method CheckChildren(fingerprint: P.RunPlan -> string, parent: Parent, children: seq<K.Child>)
    returns (error: Option<LoadError>, found: seq<string>)
    ensures error.None? <==> ChildrenBound(parent, children)
    ensures error.None? ==> found == Prints(fingerprint, children)
  {
    found := [];
    for k := 0 to |children|
      invariant |found| == k && forall i | 0 <= i < k :: found[i] == fingerprint(children[i].plan)
      invariant ChildrenBound(parent, children[..k])
    {
      OneMoreBound(parent, children, k);
      error := ChildError(parent, children[k].plan);
      if error.Some? {
        return;
      }
      found := found + [fingerprint(children[k].plan)];
    }
    WholePrefix(children);
    error := None;
  }

  /** Loads the recorded profile: its file, its children, their coherence, and their sealed fingerprints. */
  method LoadAuthorizedProfile(
      p: P.Patterns, text: Text, digest: Digest, decimal: Amount -> real,
      recorded: Recorded, file: ParentFile, children: seq<K.Child>)
    returns (r: Result<AuthorizedRunProfile, LoadError>)
    ensures r.Ok? <==> Binds(p, text, digest, decimal, recorded, file, children)
    ensures r.Ok? ==> r.value == Profile(recorded, file)
  {
    var error := CheckParentFile(p, recorded, file);
    if error.Some? {
      return Err(error.value);
    }
    var found;
    error, found := CheckChildren(Fingerprinter(text, digest), ParentOf(recorded, file), children);
    if error.Some? {
      return Err(error.value);
    }
    var incoherent := K.AssertChildrenCoherent(decimal, file.sampling, children);
    if incoherent.Some? {
      return Err(Incoherent(incoherent.value));
    }
    if !Distinct(found) {
      return Err(DuplicateChildren);
    }
    if |found| != |recorded.fingerprints| || Elements(found) != Elements(recorded.fingerprints) {
      return Err(FingerprintsDiffer);
    }
    r := Ok(Profile(recorded, file));
  }

  // ------------------------------------------------------------ the blockers

  datatype Blocker =
    | PhaseNotInProgress | PlanNotAuthorized | NoAuthorizedProfile
    | ParentPlanMismatch | ParentHashMismatch | ReferenceMismatch | NotADeclaredChild
    | SourcesUnpinned | WorkloadDisallowed | PaidComputeDisallowed | CloudDisallowed

  predicate SourcesKnown(s: P.SourceVersions) {
    && s.giclabCommit != "unknown" && s.upstreamCommit != "unknown" && s.protocolSha256 != "unknown"
    && s.configSha256 != "unknown" && s.environmentSha256 != "unknown"
  }

  /** The blockers of a plan with this fingerprint. */
  function BindingBlockers(plan: P.RunPlan, fingerprint: string, profile: AuthorizedRunProfile): seq<Blocker> {
    var a := plan.execution.authorization;
    (if plan.profilePlanId != Some(profile.planId) then [ParentPlanMismatch] else [])
    + (if plan.profileSha256 != Some(profile.profileSha256) then [ParentHashMismatch] else [])
    + (if a.authorized && a.reference != Some(profile.authorizationReference) then [ReferenceMismatch] else [])
    + (if fingerprint !in profile.childFingerprints then [NotADeclaredChild] else [])
  }

  function ProfileBlockers(text: Text, digest: Digest, plan: P.RunPlan, profile: AuthorizedRunProfile): seq<Blocker> {
    BindingBlockers(plan, Fingerprint(text, digest, plan), profile)
  }

  predicate BindingBlocker(b: Blocker) {
    b.ParentPlanMismatch? || b.ParentHashMismatch? || b.ReferenceMismatch? || b.NotADeclaredChild?
  }

  /** Which bindings of a plan to the authorised profile are broken. */
  lemma ProfileBlockersMean(text: Text, digest: Digest, plan: P.RunPlan, profile: AuthorizedRunProfile)
    ensures var bs := ProfileBlockers(text, digest, plan, profile);
            && (forall b | b in bs :: BindingBlocker(b))
            && (ParentPlanMismatch in bs <==> plan.profilePlanId != Some(profile.planId))
            && (ParentHashMismatch in bs <==> plan.profileSha256 != Some(profile.profileSha256))
            && (ReferenceMismatch in bs <==>
                  && plan.execution.authorization.authorized
                  && plan.execution.authorization.reference != Some(profile.authorizationReference))
            && (NotADeclaredChild in bs <==> Fingerprint(text, digest, plan) !in profile.childFingerprints)
  {
    var a := plan.execution.authorization;
    BindingBlockersMean(plan.profilePlanId != Some(profile.planId), plan.profileSha256 != Some(profile.profileSha256),
                        a.authorized && a.reference != Some(profile.authorizationReference),
                        Fingerprint(text, digest, plan) !in profile.childFingerprints);
  }

  lemma BindingBlockersMean(plan: bool, hash: bool, reference: bool, child: bool)
    ensures var bs := (if plan then [ParentPlanMismatch] else []) + (if hash then [ParentHashMismatch] else [])
                      + (if reference then [ReferenceMismatch] else []) + (if child then [NotADeclaredChild] else []);
            && (forall b | b in bs :: BindingBlocker(b))
            && (ParentPlanMismatch in bs <==> plan) && (ParentHashMismatch in bs <==> hash)
            && (ReferenceMismatch in bs <==> reference) && (NotADeclaredChild in bs <==> child)
  {
  }

  predicate WorkloadAllowed(plan: P.RunPlan, state: ProjectState) {
    match plan.execution.workload
    case Prototype => state.prototypeAllowed
    case Benchmark => state.benchmarkAllowed
    case Training => state.trainingAllowed
  }

  method ExecutionBlockers(text: Text, digest: Digest, plan: P.RunPlan, state: ProjectState)
    returns (blockers: seq<Blocker>)
    ensures blockers == [] <==>
              && state.phaseStatus == "in-progress"
              && plan.execution.authorization.authorized
              && state.profile.Some? && ProfileBlockers(text, digest, plan, state.profile.value) == []
              && SourcesKnown(plan.sources)
              && WorkloadAllowed(plan, state)
              && (state.paidComputeAllowed || (plan.budget.maxCostUsd <= 0 && plan.budget.maxGpuHours <= 0))
              && (plan.execution.backend.Cloud? ==> state.cloudMutationAllowed)
    ensures PhaseNotInProgress in blockers <==> state.phaseStatus != "in-progress"
    ensures PlanNotAuthorized in blockers <==> !plan.execution.authorization.authorized
    ensures NoAuthorizedProfile in blockers <==> state.profile.None?
    ensures forall b | BindingBlocker(b) :: b in blockers <==>
              state.profile.Some? && b in ProfileBlockers(text, digest, plan, state.profile.value)
    ensures SourcesUnpinned in blockers <==>
              || plan.sources.giclabCommit == "unknown" || plan.sources.upstreamCommit == "unknown"
              || plan.sources.protocolSha256 == "unknown" || plan.sources.configSha256 == "unknown"
              || plan.sources.environmentSha256 == "unknown"
    ensures WorkloadDisallowed in blockers <==>
              || (plan.execution.workload == P.Prototype && !state.prototypeAllowed)
              || (plan.execution.workload == P.Benchmark && !state.benchmarkAllowed)
              || (plan.execution.workload == P.Training && !state.trainingAllowed)
    ensures PaidComputeDisallowed in blockers <==>
              !state.paidComputeAllowed && (plan.budget.maxCostUsd > 0 || plan.budget.maxGpuHours > 0)
    ensures CloudDisallowed in blockers <==> plan.execution.backend == P.Cloud && !state.cloudMutationAllowed
  {
    var gates := GateBlockers(plan, state);
    var binding := ParentBlockers(text, digest, plan, state);
    var policy := PolicyBlockers(plan, state);
    BlockersTogether(gates, binding, policy);
    blockers := gates + binding + policy;
  }

  /** What the project phase and the plan's own authorization add. */
  method GateBlockers(plan: P.RunPlan, state: ProjectState) returns (blockers: seq<Blocker>)
    ensures forall b | b in blockers :: b.PhaseNotInProgress? || b.PlanNotAuthorized?
    ensures PhaseNotInProgress in blockers <==> state.phaseStatus != "in-progress"
    ensures PlanNotAuthorized in blockers <==> !plan.execution.authorization.authorized
    ensures blockers == [] <==> state.phaseStatus == "in-progress" && plan.execution.authorization.authorized
  {
    blockers := [];
    if state.phaseStatus != "in-progress" {
      blockers := blockers + [PhaseNotInProgress];
    }
    if !plan.execution.authorization.authorized {
      blockers := blockers + [PlanNotAuthorized];
    }
  }

  /** What the binding to the authorised profile adds. */
  method ParentBlockers(text: Text, digest: Digest, plan: P.RunPlan, state: ProjectState)
    returns (blockers: seq<Blocker>)
    ensures blockers == if state.profile.None? then [NoAuthorizedProfile]
                        else ProfileBlockers(text, digest, plan, state.profile.value)
    ensures forall b | b in blockers :: BindingBlocker(b) || b.NoAuthorizedProfile?
    ensures NoAuthorizedProfile in blockers <==> state.profile.None?
  {
    if state.profile.None? {
      return [NoAuthorizedProfile];
    }
    blockers := ProfileBlockers(text, digest, plan, state.profile.value);
    ProfileBlockersMean(text, digest, plan, state.profile.value);
  }

  /** What sources, permissions and budget add. */
  method PolicyBlockers(plan: P.RunPlan, state: ProjectState) returns (blockers: seq<Blocker>)
    ensures forall b | b in blockers :: PolicyBlocker(b)
    ensures blockers == [] <==>
              && SourcesKnown(plan.sources) && WorkloadAllowed(plan, state)
              && (state.paidComputeAllowed || (plan.budget.maxCostUsd <= 0 && plan.budget.maxGpuHours <= 0))
              && (plan.execution.backend.Cloud? ==> state.cloudMutationAllowed)
    ensures SourcesUnpinned in blockers <==> !SourcesKnown(plan.sources)
    ensures WorkloadDisallowed in blockers <==> !WorkloadAllowed(plan, state)
    ensures PaidComputeDisallowed in blockers <==>
              !state.paidComputeAllowed && (plan.budget.maxCostUsd > 0 || plan.budget.maxGpuHours > 0)
    ensures CloudDisallowed in blockers <==> plan.execution.backend == P.Cloud && !state.cloudMutationAllowed
  {
    blockers := [];
    if !SourcesKnown(plan.sources) {
      blockers := blockers + [SourcesUnpinned];
    }
    if !WorkloadAllowed(plan, state) {
      blockers := blockers + [WorkloadDisallowed];
    }
    if (plan.budget.maxCostUsd > 0 || plan.budget.maxGpuHours > 0) && !state.paidComputeAllowed {
      blockers := blockers + [PaidComputeDisallowed];
    }
    if plan.execution.backend.Cloud? && !state.cloudMutationAllowed {
      blockers := blockers + [CloudDisallowed];
    }
  }

  predicate PolicyBlocker(b: Blocker) {
    b.SourcesUnpinned? || b.WorkloadDisallowed? || b.PaidComputeDisallowed? || b.CloudDisallowed?
  }

  /** Each blocker comes from its own group. */
  lemma BlockersTogether(gates: seq<Blocker>, binding: seq<Blocker>, policy: seq<Blocker>)
    requires forall b | b in gates :: b.PhaseNotInProgress? || b.PlanNotAuthorized?
    requires forall b | b in binding :: BindingBlocker(b) || b.NoAuthorizedProfile?
    requires forall b | b in policy :: PolicyBlocker(b)
    ensures var all := gates + binding + policy;
            && (all == [] <==> gates == [] && binding == [] && policy == [])
            && (forall b: Blocker | b.PhaseNotInProgress? || b.PlanNotAuthorized? :: b in all <==> b in gates)
            && (forall b | BindingBlocker(b) || b.NoAuthorizedProfile? :: b in all <==> b in binding)
            && (forall b | PolicyBlocker(b) :: b in all <==> b in policy)
  {
    var all := gates + binding + policy;
    assert |all| == |gates| + |binding| + |policy|;
    assert forall b :: b in all <==> b in gates || b in binding || b in policy;
  }

  // --------------------------------------------------------- exactness

  /** The document determines the plan, and so do the document without the parent hash and that hash. */
  lemma FingerprintAndParentHashDetermine(p: P.Patterns, text: Text, digest: Digest, a: P.RunPlan, b: P.RunPlan)
    requires text.Lawful() && Injective(digest) && P.PlanOk(p, a) && P.PlanOk(p, b)
    requires Fingerprint(text, digest, a) == Fingerprint(text, digest, b)
    requires a.profileSha256 == b.profileSha256
    ensures a == b
  {
    var x, y := Obj(FingerprintDocument(a)), Obj(FingerprintDocument(b));
    assert text.compact(x) == text.compact(y);
    assert text.parse(text.compact(x)) == Some(x) && text.parse(text.compact(y)) == Some(y);
    ParentHashEntry(a);
    ParentHashEntry(b);
    PutBack(P.PlanDocument(a), P.PlanDocument(b));
    P.PlanRoundTrip(p, a);
    P.PlanRoundTrip(p, b);
  }

  /** Different children of one parent have different fingerprints. */
  lemma DistinctPrints(p: P.Patterns, text: Text, digest: Digest, parentHash: string, children: seq<K.Child>)
    requires text.Lawful() && Injective(digest) && Distinct(Plans(children))
    requires forall c | c in children :: P.PlanOk(p, c.plan) && c.plan.profileSha256 == Some(parentHash)
    ensures Distinct(Prints(Fingerprinter(text, digest), children))
  {
    var fingerprint := Fingerprinter(text, digest);
    forall i, j | 0 <= i < j < |children| ensures fingerprint(children[i].plan) != fingerprint(children[j].plan) {
      var a, b := children[i], children[j];
      assert a in children && b in children && Plans(children)[i] == a.plan && Plans(children)[j] == b.plan;
      if fingerprint(a.plan) == fingerprint(b.plan) {
        FingerprintAndParentHashDetermine(p, text, digest, a.plan, b.plan);
      }
    }
  }

  lemma ParentHashEntry(plan: P.RunPlan)
    requires plan.profilePlanId.None? == plan.profileSha256.None? && plan.task.None? == plan.pairing.None?
    ensures PARENT_HASH in P.PlanDocument(plan) <==> plan.profileSha256.Some?
    ensures plan.profileSha256.Some? ==> P.PlanDocument(plan)[PARENT_HASH] == Str(plan.profileSha256.value)
  {
    P.BaseHasNoOptionalKeys(plan);
    P.OptionalLookups(plan);
  }

  lemma PutBack(m: Fields, n: Fields)
    requires m - {PARENT_HASH} == n - {PARENT_HASH}
    requires PARENT_HASH in m <==> PARENT_HASH in n
    requires PARENT_HASH in m ==> m[PARENT_HASH] == n[PARENT_HASH]
    ensures m == n
  {
    forall k ensures (k in m <==> k in n) && (k in m ==> m[k] == n[k]) {
      if k != PARENT_HASH {
        assert k in m <==> k in m - {PARENT_HASH};
        assert k in n <==> k in n - {PARENT_HASH};
        assert k in m ==> (m - {PARENT_HASH})[k] == m[k] && (n - {PARENT_HASH})[k] == n[k];
      }
    }
  }

  function ProfileOf(parent: Parent, prints: seq<string>): AuthorizedRunProfile {
    AuthorizedRunProfile(parent.planId, parent.sha256, parent.reference, Elements(prints))
  }

  lemma DeclaredIsUnblocked(parent: Parent, plan: P.RunPlan, fingerprint: string, prints: seq<string>)
    requires ChildError(parent, plan).None? && fingerprint in prints
    ensures BindingBlockers(plan, fingerprint, ProfileOf(parent, prints)) == []
  {
  }

  lemma BoundChild(parent: Parent, children: seq<K.Child>, i: nat)
    requires i < |children| && ChildrenBound(parent, children)
    ensures ChildError(parent, children[i].plan).None?
  {
  }

  lemma BoundHash(parent: Parent, child: P.RunPlan)
    requires ChildError(parent, child).None?
    ensures child.profileSha256 == Some(parent.sha256)
  {
  }

  lemma BlockersEmptyMeans(plan: P.RunPlan, fingerprint: string, profile: AuthorizedRunProfile)
    requires BindingBlockers(plan, fingerprint, profile) == []
    ensures plan.profileSha256 == Some(profile.profileSha256) && fingerprint in profile.childFingerprints
  {
  }

  /**
   Authorization is exact: against a profile the loader accepted, an authorized plan is free of profile
   blockers exactly when it equals a declared child in every field, although the fingerprint omits one.
   */
  lemma AuthorizationIsExact(
      p: P.Patterns, text: Text, digest: Digest, decimal: Amount -> real,
      recorded: Recorded, file: ParentFile, children: seq<K.Child>, plan: P.RunPlan)
    requires text.Lawful() && Injective(digest)
    requires P.PlanOk(p, plan) && forall c | c in children :: P.PlanOk(p, c.plan)
    requires Binds(p, text, digest, decimal, recorded, file, children)
    requires plan.execution.authorization.authorized
    ensures ProfileBlockers(text, digest, plan, Profile(recorded, file)) == [] <==> plan in Plans(children)
  {
    var parent, fingerprint := ParentOf(recorded, file), Fingerprinter(text, digest);
    BindsMeans(p, text, digest, decimal, recorded, file, children);
    forall c | c in children && fingerprint(c.plan) == fingerprint(plan) && c.plan.profileSha256 == plan.profileSha256
      ensures c.plan == plan
    {
      FingerprintAndParentHashDetermine(p, text, digest, plan, c.plan);
    }
    DeclaredExactly(fingerprint, parent, children, plan);
  }

  /** Where fingerprint and parent hash determine a plan, the unblocked plans are the declared children. */
  lemma DeclaredExactly(fingerprint: P.RunPlan -> string, parent: Parent, children: seq<K.Child>, plan: P.RunPlan)
    requires ChildrenBound(parent, children)
    requires forall c | c in children && fingerprint(c.plan) == fingerprint(plan)
             && c.plan.profileSha256 == plan.profileSha256 ::
               c.plan == plan
    ensures BindingBlockers(plan, fingerprint(plan), ProfileOf(parent, Prints(fingerprint, children))) == []
       <==> plan in Plans(children)
  {
    var prints := Prints(fingerprint, children);
    if plan in Plans(children) {
      var i :| 0 <= i < |children| && Plans(children)[i] == plan;
      BoundChild(parent, children, i);
      DeclaredIsUnblocked(parent, plan, prints[i], prints);
    }
    if BindingBlockers(plan, fingerprint(plan), ProfileOf(parent, prints)) == [] {
      BlockersEmptyMeans(plan, fingerprint(plan), ProfileOf(parent, prints));
      var i :| 0 <= i < |children| && prints[i] == fingerprint(plan);
      BoundChild(parent, children, i);
      BoundHash(parent, children[i].plan);
      assert children[i] in children && Plans(children)[i] == plan;
    }
  }

  lemma BindsMeans(
      p: P.Patterns, text: Text, digest: Digest, decimal: Amount -> real,
      recorded: Recorded, file: ParentFile, children: seq<K.Child>)
    requires Binds(p, text, digest, decimal, recorded, file, children)
    ensures ChildrenBound(ParentOf(recorded, file), children)
    ensures Profile(recorded, file)
            == ProfileOf(ParentOf(recorded, file), Prints(Fingerprinter(text, digest), children))
  {
  }

  // ------------------------------------------------- what loading comes to

  /** The entry, the parent file and every child agree, and the sealed fingerprints are those of the children. */
  lemma LoadedFacts(
      p: P.Patterns, text: Text, digest: Digest, decimal: Amount -> real,
      recorded: Recorded, file: ParentFile, children: seq<K.Child>)
    requires Binds(p, text, digest, decimal, recorded, file, children)
    ensures recorded.profileSha256 == file.sha256 && p.sha256(recorded.profileSha256)
    ensures recorded.planId == file.planId && p.planId(recorded.planId)
    ensures file.schemaValid && file.eligibility == "eligible-after-authorization" && file.unresolvedBlockers == []
    ensures file.authorized && file.reference.Some? && p.reference(file.reference.value)
    ensures forall c | c in children ::
              && c.plan.identity.experimentId == file.experimentId && c.plan.profile == file.profile
              && c.plan.profilePlanId == Some(file.planId) && c.plan.profileSha256 == Some(file.sha256)
              && c.plan.execution.authorization.authorized
              && c.plan.execution.authorization.reference == file.reference
    ensures K.Coherent(decimal, file.sampling, children)
    ensures recorded.fingerprints != [] && Distinct(recorded.fingerprints)
    ensures forall f | f in recorded.fingerprints :: p.sha256(f)
    ensures forall f :: f in recorded.fingerprints <==> exists c ::
            c in children && f == Fingerprint(text, digest, c.plan)
    ensures |children| == |recorded.fingerprints|
  {
    var prints := Prints(Fingerprinter(text, digest), children);
    forall c | c in children ensures ChildError(ParentOf(recorded, file), c.plan).None? {}
    SamePrints(prints, recorded.fingerprints);
    PrintsOfChildren(text, digest, children);
  }

  lemma SamePrints(a: seq<string>, b: seq<string>)
    requires Elements(a) == Elements(b)
    ensures forall f :: f in a <==> f in b
  {
    forall f ensures f in a <==> f in b { assert f in a <==> f in Elements(a); }
  }

  lemma PrintsOfChildren(text: Text, digest: Digest, children: seq<K.Child>)
    ensures forall f :: f in Prints(Fingerprinter(text, digest), children) <==>
                        exists c :: c in children && f == Fingerprint(text, digest, c.plan)
  {
    var prints := Prints(Fingerprinter(text, digest), children);
    forall f ensures f in prints <==> exists c :: c in children && f == Fingerprint(text, digest, c.plan) {
      if c :| c in children && f == Fingerprint(text, digest, c.plan) {
        var i :| 0 <= i < |children| && children[i] == c;
        assert prints[i] == f;
      }
      if f in prints {
        var i :| 0 <= i < |prints| && prints[i] == f;
        assert children[i] in children;
      }
    }
  }
}
