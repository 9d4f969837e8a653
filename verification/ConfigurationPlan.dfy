/** Recursive planning of a Configuration: its input revision is a hash over its own inputs and the
    revisions of its prerequisites, which must be verified against exactly those revisions. */
module ConfigurationPlan {
  import opened Wrappers

  /** Why planning stops. `Unclassified` is any exception that is not an OperatorError. */
  datatype Reason =
    | DependencyCycle | Suspended | TargetPending | InventoryPending | DependencyPending | ReferenceMissing
    | ReferenceChanged | InvalidCommand | SourceMismatch | SourceUnavailable | Unclassified

  datatype Reference = Reference(name: string, uid: Option<string>)

  datatype Spec = Spec(suspended: bool, dependsOn: seq<Reference>, settings: string)

  datatype Observed = Observed(kind: string, name: string, uid: string, generation: int)

  /** The identities and settings of one Server that enter the fingerprint. */
  datatype Member = Member(
    uid: string, generation: int, machineRef: Option<string>, installationRef: Option<string>,
    labels: map<string, string>, annotations: map<string, string>, keyPairRef: Option<string>,
    management: Option<string>)

  datatype Inputs = Inputs(
    spec: Spec, targetUid: string, targetGeneration: int, targetSpec: string, groupUid: string,
    groupGeneration: int, repositorySpec: string, sourceRevision: string, inventory: string,
    members: seq<Member>, resolvedReferences: seq<Observed>, hosts: map<string, string>,
    kubernetesContext: Option<(string, string)>)

  /** A collision-free digest of the inputs and of the prerequisite revisions by uid. */
  datatype Revision = Sha256(inputs: Inputs, dependencies: map<string, Revision>)

  datatype Status = Status(ready: bool, observedGeneration: Option<int>, inputRevision: Option<Revision>)

  datatype Configuration = Configuration(
    uid: string, generation: Option<int>, terminating: bool, spec: Spec, status: Status)

  datatype Resource = Resource(kind: string, name: string, uid: string, generation: int, spec: string)

  datatype Server = Server(
    resource: Resource, machineRef: Option<string>, installationRef: Option<string>, labels: map<string, string>,
    annotations: map<string, string>, keyPairRef: Option<string>, management: Option<string>,
    heartbeat: int, operationRef: Option<string>)

  /** Everything a plan reads besides other Configurations. */
  datatype Surroundings = Surroundings(
    target: Resource, group: Resource, repository: Resource, servers: seq<Server>,
    hosts: map<string, string>, inventory: string, commit: string, cluster: Option<Resource>)

  /** One state of the API and of the local Git input; `resolve` is what they hold for a given spec. */
  datatype Store = Store(
    configurations: map<string, Configuration>, resolve: Spec -> Result<Surroundings, Reason>)

  // ---- The computation ----

  function Fetch(s: Store, ref: Reference): Result<Configuration, Reason> {
    if ref.name !in s.configurations then Err(ReferenceMissing)
    else
      var found := s.configurations[ref.name];
      if (ref.uid.Some? && ref.uid.value != found.uid) || found.terminating then Err(ReferenceChanged)
      else Ok(found)
  }

  function ObserveResource(r: Resource): Observed {
    Observed(r.kind, r.name, r.uid, r.generation)
  }

  function ObserveConfiguration(name: string, c: Configuration): Observed {
    Observed("Configuration", name, c.uid, if c.generation.Some? then c.generation.value else 0)
  }

  function ObserveAll(s: Store, refs: seq<Reference>): Result<seq<Observed>, Reason> {
    if refs == [] then Ok([])
    else
      var earlier := ObserveAll(s, refs[..|refs| - 1]);
      var ref := refs[|refs| - 1];
      if earlier.Err? then earlier
      else match Fetch(s, ref)
        case Err(reason) => Err(reason)
        case Ok(found) => Ok(earlier.value + [ObserveConfiguration(ref.name, found)])
  }

  function MemberInputs(server: Server): Member {
    Member(server.resource.uid, server.resource.generation, server.machineRef, server.installationRef,
           server.labels, server.annotations, server.keyPairRef, server.management)
  }

  function InputsOf(spec: Spec, around: Surroundings, observed: seq<Observed>): Inputs {
    var servers := seq(
      |around.servers|, i requires 0 <= i < |around.servers| => ObserveResource(around.servers[i].resource));
    var context := if around.cluster.Some? then [ObserveResource(around.cluster.value)] else [];
    Inputs(
      spec, around.target.uid, around.target.generation, around.target.spec, around.group.uid,
      around.group.generation, around.repository.spec, around.commit, around.inventory,
      seq(|around.servers|, i requires 0 <= i < |around.servers| => MemberInputs(around.servers[i])),
      [ObserveResource(around.target), ObserveResource(around.group), ObserveResource(around.repository)]
      + servers + context + observed,
      around.hosts,
      if around.cluster.Some? then Some((around.cluster.value.uid, around.cluster.value.spec)) else None)
  }

  /** Reasons of a prerequisite that its dependents report as waiting for it. */
  predicate Waits(reason: Reason) {
    reason in {Suspended, TargetPending, InventoryPending, DependencyPending, ReferenceMissing}
  }

  predicate Current(d: Configuration, revision: Revision) {
    d.status.ready && d.status.observedGeneration == d.generation && d.status.inputRevision == Some(revision)
  }

  function Unstacked(s: Store, stack: seq<string>): set<string> {
    s.configurations.Keys - set n | n in stack
  }

  function Plan(s: Store, name: string, c: Configuration, stack: seq<string>): Result<Revision, Reason>
    decreases Unstacked(s, stack), name !in s.configurations, |c.spec.dependsOn| + 1
  {
    if name in stack then Err(DependencyCycle)
    else if c.spec.suspended || c.terminating then Err(Suspended)
    else match s.resolve(c.spec)
      case Err(reason) => Err(reason)
      case Ok(around) =>
        match ObserveAll(s, c.spec.dependsOn)
        case Err(reason) => Err(reason)
        case Ok(observed) =>
          match Prerequisites(s, name, c.spec.dependsOn, stack)
          case Err(reason) => Err(reason)
          case Ok(dependencies) => Ok(Sha256(InputsOf(c.spec, around, observed), dependencies))
  }

  function Prerequisites(s: Store, name: string, refs: seq<Reference>, stack: seq<string>):
    Result<map<string, Revision>, Reason>
    requires name !in stack
    decreases Unstacked(s, stack), name !in s.configurations, |refs|
  {
    if refs == [] then Ok(map[])
    else
      var earlier := Prerequisites(s, name, refs[..|refs| - 1], stack);
      var ref := refs[|refs| - 1];
      if earlier.Err? then earlier
      else match Fetch(s, ref)
        case Err(reason) => Err(reason)
        case Ok(found) =>
          Shrinks(s, name, stack);
          match Plan(s, ref.name, found, stack + [name])
          case Err(reason) => Err(if Waits(reason) then DependencyPending else reason)
          case Ok(revision) =>
            if Current(found, revision) then Ok(earlier.value[found.uid := revision]) else Err(DependencyPending)
  }

  lemma Shrinks(s: Store, name: string, stack: seq<string>)
    requires name !in stack
    ensures name in s.configurations ==> Unstacked(s, stack + [name]) < Unstacked(s, stack)
    ensures name !in s.configurations ==> Unstacked(s, stack + [name]) == Unstacked(s, stack)
  {
    if name in s.configurations {
      assert name in Unstacked(s, stack) && name !in Unstacked(s, stack + [name]);
    }
  }

  // ---- The same computation step by step ----

  method PlanConfiguration(s: Store, name: string, c: Configuration, stack: seq<string>)
    returns (result: Result<Revision, Reason>)
    ensures result == Plan(s, name, c, stack)
    decreases Unstacked(s, stack), name !in s.configurations, |c.spec.dependsOn| + 1
  {
    if name in stack {
      return Err(DependencyCycle);
    }
    if c.spec.suspended || c.terminating {
      return Err(Suspended);
    }
    var around := s.resolve(c.spec);
    if around.Err? {
      return Err(around.error);
    }
    var observed := ObserveAll(s, c.spec.dependsOn);
    if observed.Err? {
      return Err(observed.error);
    }
    var dependencies := PrerequisiteInputs(s, name, c.spec.dependsOn, stack);
    if dependencies.Err? {
      return Err(dependencies.error);
    }
    return Ok(Sha256(InputsOf(c.spec, around.value, observed.value), dependencies.value));
  }

  method PrerequisiteInputs(s: Store, name: string, refs: seq<Reference>, stack: seq<string>)
    returns (result: Result<map<string, Revision>, Reason>)
    requires name !in stack
    ensures result == Prerequisites(s, name, refs, stack)
    decreases Unstacked(s, stack), name !in s.configurations, |refs|
  {
    var revisions: map<string, Revision> := map[];
    for k := 0 to |refs|
      invariant Prerequisites(s, name, refs[..k], stack) == Ok(revisions)
    {
      assert refs[..k + 1][..k] == refs[..k];
      var found := Fetch(s, refs[k]);
      if found.Err? {
        FaultStays(s, name, refs, stack, k + 1);
        return Err(found.error);
      }
      Shrinks(s, name, stack);
      var resolved := PlanConfiguration(s, refs[k].name, found.value, stack + [name]);
      if resolved.Err? {
        FaultStays(s, name, refs, stack, k + 1);
        return Err(if Waits(resolved.error) then DependencyPending else resolved.error);
      }
      if !Current(found.value, resolved.value) {
        FaultStays(s, name, refs, stack, k + 1);
        return Err(DependencyPending);
      }
      revisions := revisions[found.value.uid := resolved.value];
    }
    assert refs[..|refs|] == refs;
    return Ok(revisions);
  }

  lemma {:induction false} FaultStays(s: Store, name: string, refs: seq<Reference>, stack: seq<string>, k: nat)
    requires name !in stack && k <= |refs| && Prerequisites(s, name, refs[..k], stack).Err?
    ensures Prerequisites(s, name, refs, stack) == Prerequisites(s, name, refs[..k], stack)
    decreases |refs|
  {
    if k == |refs| {
      assert refs[..k] == refs;
    } else {
      var shorter := refs[..|refs| - 1];
      assert shorter[..k] == refs[..k];
      FaultStays(s, name, shorter, stack, k);
    }
  }

  // ---- What a plan means, without recursion or stack ----

  predicate Fetchable(s: Store, refs: seq<Reference>) {
    forall ref :: ref in refs ==> Fetch(s, ref).Ok?
  }

  /** The Configuration itself can be resolved, whatever its prerequisites' state. */
  predicate Resolvable(s: Store, c: Configuration) {
    !c.spec.suspended && !c.terminating && s.resolve(c.spec).Ok? && Fetchable(s, c.spec.dependsOn)
  }

  lemma {:induction false} ObserveAllOk(s: Store, refs: seq<Reference>)
    ensures ObserveAll(s, refs).Ok? <==> Fetchable(s, refs)
    ensures Fetchable(s, refs) ==>
              && |ObserveAll(s, refs).value| == |refs|
              && forall i :: 0 <= i < |refs| ==>
                   ObserveAll(s, refs).value[i] == ObserveConfiguration(refs[i].name, Fetch(s, refs[i]).value)
  {
    if refs != [] {
      ObserveAllOk(s, refs[..|refs| - 1]);
      assert refs == refs[..|refs| - 1] + [refs[|refs| - 1]];
    }
  }

  /** The inputs of a resolvable Configuration in this store. */
  function OwnInputs(s: Store, c: Configuration): Inputs
    requires Resolvable(s, c)
  {
    ObserveAllOk(s, c.spec.dependsOn);
    InputsOf(c.spec, s.resolve(c.spec).value, ObserveAll(s, c.spec.dependsOn).value)
  }

  predicate Recorded(s: Store, refs: seq<Reference>) {
    forall ref :: ref in refs ==> Fetch(s, ref).Ok? && Fetch(s, ref).value.status.inputRevision.Some?
  }

  /** The revisions that the statuses of the prerequisites record, by uid. */
  function RecordedRevisions(s: Store, refs: seq<Reference>): map<string, Revision>
    requires Recorded(s, refs)
  {
    if refs == [] then map[]
    else
      var d := Fetch(s, refs[|refs| - 1]).value;
      RecordedRevisions(s, refs[..|refs| - 1])[d.uid := d.status.inputRevision.value]
  }

  function Expected(s: Store, c: Configuration): Revision
    requires Resolvable(s, c) && Recorded(s, c.spec.dependsOn)
  {
    Sha256(OwnInputs(s, c), RecordedRevisions(s, c.spec.dependsOn))
  }

  /** A stored Configuration is Ready for its generation, and the revision in its status is the hash of its
      present inputs and of what its direct prerequisites' statuses record. */
  predicate Verified(s: Store, d: string) {
    && d in s.configurations && Resolvable(s, s.configurations[d])
    && Recorded(s, s.configurations[d].spec.dependsOn)
    && Current(s.configurations[d], Expected(s, s.configurations[d]))
  }

  predicate Needs(c: Configuration, d: string) {
    exists i :: 0 <= i < |c.spec.dependsOn| && c.spec.dependsOn[i].name == d
  }

  /** `p` follows dependsOn references, starting from those of `c`. */
  ghost predicate Chain(s: Store, c: Configuration, p: seq<string>)
    decreases |p|
  {
    && |p| > 0 && Needs(c, p[0])
    && (|p| > 1 ==> p[0] in s.configurations && Chain(s, s.configurations[p[0]], p[1..]))
  }

  ghost predicate Reaches(s: Store, c: Configuration, d: string) {
    exists p :: Chain(s, c, p) && p[|p| - 1] == d
  }

  ghost predicate Sound(s: Store, c: Configuration) {
    && Resolvable(s, c) && Recorded(s, c.spec.dependsOn)
    && forall d :: Reaches(s, c, d) ==> Verified(s, d) && !Reaches(s, s.configurations[d], d)
  }

  lemma NeedsReaches(s: Store, c: Configuration, d: string)
    requires Needs(c, d)
    ensures Reaches(s, c, d)
  {
    assert Chain(s, c, [d]);
  }

  lemma ReachesThrough(s: Store, c: Configuration, d: string, e: string)
    requires Needs(c, d) && d in s.configurations && Reaches(s, s.configurations[d], e)
    ensures Reaches(s, c, e)
  {
    var p :| Chain(s, s.configurations[d], p) && p[|p| - 1] == e;
    assert ([d] + p)[1..] == p;
    assert Chain(s, c, [d] + p);
  }

  /** Successful prerequisites were each planned with this name on the stack, and are what is recorded. */
  lemma {:induction false} PrerequisitesSound(s: Store, name: string, refs: seq<Reference>, stack: seq<string>)
    requires name !in stack && Prerequisites(s, name, refs, stack).Ok?
    ensures Recorded(s, refs) && Prerequisites(s, name, refs, stack) == Ok(RecordedRevisions(s, refs))
    ensures forall ref :: ref in refs ==>
              && ref.name in s.configurations && Fetch(s, ref) == Ok(s.configurations[ref.name])
              && var planned := Plan(s, ref.name, s.configurations[ref.name], stack + [name]);
                 planned.Ok? && Current(s.configurations[ref.name], planned.value)
  {
    if refs != [] {
      PrerequisitesSound(s, name, refs[..|refs| - 1], stack);
      assert refs == refs[..|refs| - 1] + [refs[|refs| - 1]];
    }
  }

  lemma PlanSound(s: Store, name: string, c: Configuration, stack: seq<string>)
    requires Plan(s, name, c, stack).Ok?
    ensures name !in stack && Resolvable(s, c) && Recorded(s, c.spec.dependsOn)
    ensures Plan(s, name, c, stack) == Ok(Expected(s, c))
    ensures forall d :: Needs(c, d) ==>
              && d in s.configurations
              && var planned := Plan(s, d, s.configurations[d], stack + [name]);
                 planned.Ok? && Current(s.configurations[d], planned.value)
  {
    ObserveAllOk(s, c.spec.dependsOn);
    PrerequisitesSound(s, name, c.spec.dependsOn, stack);
  }

  /** Everything along a chain from a planned Configuration was planned itself, off the stack above it. */
  lemma {:induction false} ChainSound(s: Store, name: string, c: Configuration, stack: seq<string>, p: seq<string>)
    returns (above: seq<string>)
    requires Plan(s, name, c, stack).Ok? && Chain(s, c, p)
    ensures var d := p[|p| - 1]; Verified(s, d) && Plan(s, d, s.configurations[d], above).Ok?
    ensures p[|p| - 1] !in stack + [name]
    decreases |p|
  {
    PlanSound(s, name, c, stack);
    var d := p[0];
    PlanSound(s, d, s.configurations[d], stack + [name]);
    above := stack + [name];
    if |p| > 1 {
      above := ChainSound(s, d, s.configurations[d], stack + [name], p[1..]);
      assert p[|p| - 1] !in (stack + [name]) + [d];
    }
  }

  lemma PlannedIsSound(s: Store, name: string, c: Configuration, stack: seq<string>)
    requires Plan(s, name, c, stack).Ok?
    ensures Sound(s, c)
    ensures forall d :: Reaches(s, c, d) ==> d !in stack && d != name
  {
    PlanSound(s, name, c, stack);
    forall d | Reaches(s, c, d)
      ensures Verified(s, d) && !Reaches(s, s.configurations[d], d) && d !in stack && d != name
    {
      var p :| Chain(s, c, p) && p[|p| - 1] == d;
      var above := ChainSound(s, name, c, stack, p);
      assert d !in stack + [name];
      if Reaches(s, s.configurations[d], d) {
        var q :| Chain(s, s.configurations[d], q) && q[|q| - 1] == d;
        var _ := ChainSound(s, d, s.configurations[d], above, q);
      }
    }
  }

  lemma {:induction false} PrerequisitesComplete(s: Store, name: string, refs: seq<Reference>, stack: seq<string>)
    requires name !in stack && Recorded(s, refs)
    requires forall ref :: ref in refs ==>
               && Current(Fetch(s, ref).value, Fetch(s, ref).value.status.inputRevision.value)
               && Plan(s, ref.name, Fetch(s, ref).value, stack + [name]) == Ok(Fetch(s, ref).value.status.inputRevision.value)
    ensures Prerequisites(s, name, refs, stack) == Ok(RecordedRevisions(s, refs))
  {
    if refs != [] {
      PrerequisitesComplete(s, name, refs[..|refs| - 1], stack);
      assert refs[|refs| - 1] in refs;
    }
  }

  lemma SoundBelow(s: Store, c: Configuration, d: string)
    requires Sound(s, c) && Needs(c, d)
    ensures Reaches(s, c, d) && Verified(s, d) && Sound(s, s.configurations[d])
    ensures forall e :: Reaches(s, s.configurations[d], e) ==> Reaches(s, c, e) && e != d
  {
    NeedsReaches(s, c, d);
    forall e | Reaches(s, s.configurations[d], e)
      ensures Reaches(s, c, e)
    {
      ReachesThrough(s, c, d, e);
    }
  }

  lemma {:induction false} SoundIsPlanned(s: Store, name: string, c: Configuration, stack: seq<string>)
    requires Sound(s, c) && name !in stack
    requires forall d :: Reaches(s, c, d) ==> d !in stack && d != name
    ensures Plan(s, name, c, stack) == Ok(Expected(s, c))
    decreases Unstacked(s, stack), name !in s.configurations
  {
    var refs := c.spec.dependsOn;
    ObserveAllOk(s, refs);
    Shrinks(s, name, stack);
    forall ref | ref in refs
      ensures var d := Fetch(s, ref).value;
              && Current(d, d.status.inputRevision.value)
              && Plan(s, ref.name, d, stack + [name]) == Ok(d.status.inputRevision.value)
    {
      assert Needs(c, ref.name);
      SoundBelow(s, c, ref.name);
      SoundIsPlanned(s, ref.name, s.configurations[ref.name], stack + [name]);
    }
    PrerequisitesComplete(s, name, refs, stack);
  }

  /** Planning succeeds exactly when the Configuration resolves, every prerequisite it reaches is verified,
      and nothing it reaches depends on itself, on the Configuration or on the stack; the revision does not
      depend on the stack. */
  lemma PlanExact(s: Store, name: string, c: Configuration, stack: seq<string>)
    ensures Plan(s, name, c, stack).Ok?
            <==> && Sound(s, c) && name !in stack
                 && forall d :: Reaches(s, c, d) ==> d !in stack && d != name
    ensures Plan(s, name, c, stack).Ok? ==> Plan(s, name, c, stack) == Ok(Expected(s, c))
  {
    if Plan(s, name, c, stack).Ok? {
      PlannedIsSound(s, name, c, stack);
      PlanSound(s, name, c, stack);
    }
    if Sound(s, c) && name !in stack && (forall d :: Reaches(s, c, d) ==> d !in stack && d != name) {
      SoundIsPlanned(s, name, c, stack);
    }
  }

  /** Every reachable prerequisite is Ready with exactly the revision that planning it alone computes. */
  lemma PrerequisitesMatchTheirPlans(s: Store, name: string, c: Configuration, stack: seq<string>, d: string)
    requires Plan(s, name, c, stack).Ok? && Reaches(s, c, d)
    ensures d in s.configurations && Plan(s, d, s.configurations[d], []).Ok?
    ensures Current(s.configurations[d], Plan(s, d, s.configurations[d], []).value)
  {
    PlanExact(s, name, c, stack);
    var p :| Chain(s, c, p) && p[|p| - 1] == d;
    var above := ChainSound(s, name, c, stack, p);
    PlanExact(s, d, s.configurations[d], above);
    PlanExact(s, d, s.configurations[d], []);
  }

  /** What success means for everything reached, field by field: not suspended or terminating, Ready, for the
      present generation, and with exactly the revision that planning it alone computes. */
  lemma PrerequisitesAreReady(s: Store, name: string, c: Configuration, stack: seq<string>, d: string)
    requires Plan(s, name, c, stack).Ok? && Reaches(s, c, d)
    ensures d in s.configurations && !s.configurations[d].spec.suspended && !s.configurations[d].terminating
    ensures s.configurations[d].status.ready
    ensures s.configurations[d].status.observedGeneration == s.configurations[d].generation
    ensures var alone := Plan(s, d, s.configurations[d], []);
            alone.Ok? && s.configurations[d].status.inputRevision == Some(alone.value)
  {
    PrerequisitesMatchTheirPlans(s, name, c, stack, d);
    PlanSound(s, d, s.configurations[d], []);
  }

  /** A reference with a uid is honoured only by the object of that uid. */
  lemma PinsAreHonoured(s: Store, name: string, c: Configuration, stack: seq<string>, i: nat)
    requires Plan(s, name, c, stack).Ok? && i < |c.spec.dependsOn|
    ensures var ref := c.spec.dependsOn[i];
            && ref.name in s.configurations && !s.configurations[ref.name].terminating
            && (ref.uid.Some? ==> ref.uid.value == s.configurations[ref.name].uid)
  {
    PlanSound(s, name, c, stack);
    assert c.spec.dependsOn[i] in c.spec.dependsOn;
    assert Fetch(s, c.spec.dependsOn[i]).Ok?;
  }

  // ---- Why planning is refused ----

  /** The first `i` prerequisites were planned and are Ready, current and recorded with their revisions. */
  ghost predicate InOrderBefore(s: Store, name: string, refs: seq<Reference>, stack: seq<string>, i: nat) {
    forall j :: 0 <= j < i && j < |refs| ==>
      && Fetch(s, refs[j]).Ok?
      && var d := Fetch(s, refs[j]).value;
         var planned := Plan(s, refs[j].name, d, stack + [name]);
         && planned.Ok? && d.status.ready && d.status.observedGeneration == d.generation
         && d.status.inputRevision == Some(planned.value)
  }

  lemma {:induction false} PrefixOk(s: Store, name: string, refs: seq<Reference>, stack: seq<string>, i: nat)
    requires name !in stack && i <= |refs| && InOrderBefore(s, name, refs, stack, i)
    ensures Prerequisites(s, name, refs[..i], stack).Ok?
  {
    if i > 0 {
      PrefixOk(s, name, refs, stack, i - 1);
      assert refs[..i][..i - 1] == refs[..i - 1];
    }
  }

  /** The first prerequisite that is not in order decides. One that is itself waiting, suspended or missing, and
      one that plans but is not Ready, not current or recorded with another revision, make the dependent wait;
      any other refusal of it is passed on. */
  lemma PrerequisiteRefuses(s: Store, name: string, c: Configuration, stack: seq<string>, i: nat)
    requires name !in stack && Resolvable(s, c) && i < |c.spec.dependsOn|
    requires InOrderBefore(s, name, c.spec.dependsOn, stack, i)
    requires Fetch(s, c.spec.dependsOn[i]).Ok?
    ensures var ref := c.spec.dependsOn[i];
            var d := Fetch(s, ref).value;
            match Plan(s, ref.name, d, stack + [name]) {
              case Err(reason) =>
                Plan(s, name, c, stack)
                == Err(if reason in {Suspended, TargetPending, InventoryPending, DependencyPending, ReferenceMissing}
                       then DependencyPending else reason)
              case Ok(revision) =>
                !d.status.ready || d.status.observedGeneration != d.generation || d.status.inputRevision != Some(revision) ==>
                  Plan(s, name, c, stack) == Err(DependencyPending)
            }
  {
    var refs := c.spec.dependsOn;
    ObserveAllOk(s, refs);
    PrefixOk(s, name, refs, stack, i);
    assert refs[..i + 1][..i] == refs[..i];
    if Prerequisites(s, name, refs[..i + 1], stack).Err? {
      FaultStays(s, name, refs, stack, i + 1);
    }
  }

  lemma {:induction false} FirstUnfetchable(s: Store, refs: seq<Reference>, i: nat)
    requires i < |refs| && (forall j :: 0 <= j < i ==> Fetch(s, refs[j]).Ok?) && Fetch(s, refs[i]).Err?
    ensures ObserveAll(s, refs) == Err(Fetch(s, refs[i]).error)
    decreases |refs|
  {
    if i < |refs| - 1 {
      FirstUnfetchable(s, refs[..|refs| - 1], i);
    } else {
      ObserveAllOk(s, refs[..i]);
    }
  }

  /** The refusals that need no prerequisite to be planned, in the order in which they are found. */
  lemma OwnRefusals(s: Store, name: string, c: Configuration, stack: seq<string>)
    ensures name in stack ==> Plan(s, name, c, stack) == Err(DependencyCycle)
    ensures name !in stack && (c.spec.suspended || c.terminating) ==> Plan(s, name, c, stack) == Err(Suspended)
    ensures name !in stack && !c.spec.suspended && !c.terminating && s.resolve(c.spec).Err? ==>
              Plan(s, name, c, stack) == Err(s.resolve(c.spec).error)
  {
  }

  /** The first reference that cannot be fetched decides next: missing, or replaced or being deleted. */
  lemma UnfetchableRefuses(s: Store, name: string, c: Configuration, stack: seq<string>, i: nat)
    requires name !in stack && !c.spec.suspended && !c.terminating && s.resolve(c.spec).Ok? && i < |c.spec.dependsOn|
    requires forall j :: 0 <= j < i ==> Fetch(s, c.spec.dependsOn[j]).Ok?
    ensures var ref := c.spec.dependsOn[i];
            && (ref.name !in s.configurations ==> Plan(s, name, c, stack) == Err(ReferenceMissing))
            && (ref.name in s.configurations
                && ((ref.uid.Some? && ref.uid.value != s.configurations[ref.name].uid)
                    || s.configurations[ref.name].terminating)
                ==> Plan(s, name, c, stack) == Err(ReferenceChanged))
  {
    if Fetch(s, c.spec.dependsOn[i]).Err? {
      FirstUnfetchable(s, c.spec.dependsOn, i);
    }
  }

  // ---- Equal revisions are equal inputs, all the way down ----

  /** The API gives every Configuration its own uid. */
  ghost predicate UniqueUids(s: Store) {
    forall a, b | a in s.configurations && b in s.configurations ::
      s.configurations[a].uid == s.configurations[b].uid ==> a == b
  }

  lemma {:induction false} RecordedAt(s: Store, refs: seq<Reference>, i: nat)
    requires UniqueUids(s) && Recorded(s, refs) && i < |refs|
    ensures refs[i].name in s.configurations
    ensures var d := s.configurations[refs[i].name];
            && Fetch(s, refs[i]) == Ok(d) && d.status.inputRevision.Some?
            && d.uid in RecordedRevisions(s, refs) && RecordedRevisions(s, refs)[d.uid] == d.status.inputRevision.value
    decreases |refs|
  {
    assert refs[i] in refs;
    if i < |refs| - 1 {
      RecordedAt(s, refs[..|refs| - 1], i);
    }
  }

  /** Two resolvable Configurations with equal inputs name the same prerequisites, of the same lifetime. */
  lemma SamePrerequisites(s: Store, c: Configuration, t: Store, e: Configuration, i: nat)
    requires Resolvable(s, c) && Resolvable(t, e) && OwnInputs(s, c) == OwnInputs(t, e) && i < |c.spec.dependsOn|
    ensures c.spec == e.spec
    ensures Fetch(s, c.spec.dependsOn[i]).Ok? && Fetch(t, c.spec.dependsOn[i]).Ok?
    ensures var name := c.spec.dependsOn[i].name;
            ObserveConfiguration(name, Fetch(s, c.spec.dependsOn[i]).value)
            == ObserveConfiguration(name, Fetch(t, c.spec.dependsOn[i]).value)
  {
    var refs := c.spec.dependsOn;
    ObserveAllOk(s, refs);
    ObserveAllOk(t, refs);
    var a, b := OwnInputs(s, c).resolvedReferences, OwnInputs(t, e).resolvedReferences;
    assert refs[i] in refs;
    assert a[|a| - |refs| + i] == ObserveAll(s, refs).value[i];
    assert b[|b| - |refs| + i] == ObserveAll(t, refs).value[i];
  }

  /** The same object at the same generation, an absent generation counting as 0. */
  predicate SameLifetime(c: Configuration, e: Configuration) {
    && c.uid == e.uid
    && (c.generation == e.generation || (c.generation in {None, Some(0)} && e.generation in {None, Some(0)}))
  }

  ghost predicate SameInputsBelow(s: Store, c: Configuration, t: Store, e: Configuration) {
    && Resolvable(s, c) && Resolvable(t, e) && OwnInputs(s, c) == OwnInputs(t, e)
    && forall d :: Reaches(s, c, d) ==>
         && d in s.configurations && d in t.configurations
         && SameLifetime(s.configurations[d], t.configurations[d])
         && Resolvable(s, s.configurations[d]) && Resolvable(t, t.configurations[d])
         && OwnInputs(s, s.configurations[d]) == OwnInputs(t, t.configurations[d])
  }

  lemma {:induction false} EqualAlong(s: Store, c: Configuration, t: Store, e: Configuration, p: seq<string>)
    requires UniqueUids(s) && UniqueUids(t) && Sound(s, c) && Sound(t, e) && Expected(s, c) == Expected(t, e)
    requires Chain(s, c, p)
    ensures var d := p[|p| - 1];
            && Verified(s, d) && Verified(t, d)
            && SameLifetime(s.configurations[d], t.configurations[d])
            && Expected(s, s.configurations[d]) == Expected(t, t.configurations[d])
    decreases |p|
  {
    var i :| 0 <= i < |c.spec.dependsOn| && c.spec.dependsOn[i].name == p[0];
    SamePrerequisites(s, c, t, e, i);
    RecordedAt(s, c.spec.dependsOn, i);
    RecordedAt(t, c.spec.dependsOn, i);
    assert Needs(e, p[0]);
    SoundBelow(s, c, p[0]);
    SoundBelow(t, e, p[0]);
    if |p| > 1 {
      EqualAlong(s, s.configurations[p[0]], t, t.configurations[p[0]], p[1..]);
    }
  }

  lemma {:induction false} RecordedAlike(s: Store, t: Store, refs: seq<Reference>)
    requires Recorded(s, refs) && Recorded(t, refs)
    requires forall ref :: ref in refs ==>
               && Fetch(s, ref).value.uid == Fetch(t, ref).value.uid
               && Fetch(s, ref).value.status.inputRevision == Fetch(t, ref).value.status.inputRevision
    ensures RecordedRevisions(s, refs) == RecordedRevisions(t, refs)
  {
    if refs != [] {
      RecordedAlike(s, t, refs[..|refs| - 1]);
      assert refs[|refs| - 1] in refs;
    }
  }

  lemma {:induction false} InputsDecide(
      s: Store, name: string, c: Configuration, stack: seq<string>, t: Store, e: Configuration)
    requires Plan(s, name, c, stack).Ok? && Sound(t, e) && SameInputsBelow(s, c, t, e)
    ensures Resolvable(s, c) && Recorded(s, c.spec.dependsOn) && Expected(s, c) == Expected(t, e)
    decreases Unstacked(s, stack), name !in s.configurations
  {
    PlanSound(s, name, c, stack);
    PlannedIsSound(s, name, c, stack);
    Shrinks(s, name, stack);
    var refs := c.spec.dependsOn;
    assert e.spec == c.spec;
    forall ref | ref in refs
      ensures Fetch(s, ref).value.uid == Fetch(t, ref).value.uid
      ensures Fetch(s, ref).value.status.inputRevision == Fetch(t, ref).value.status.inputRevision
    {
      assert Needs(c, ref.name) && Needs(e, ref.name);
      SoundBelow(s, c, ref.name);
      SoundBelow(t, e, ref.name);
      InputsDecide(s, ref.name, s.configurations[ref.name], stack + [name], t, t.configurations[ref.name]);
    }
    RecordedAlike(s, t, refs);
  }

  /** Two successful plans have equal revisions exactly when their inputs agree, and those of everything
      they reach: names, lifetimes, generations and fingerprinted inputs. */
  lemma RevisionsAreFaithful(
      s: Store, name: string, c: Configuration, stack: seq<string>,
      t: Store, other: string, e: Configuration, above: seq<string>)
    requires UniqueUids(s) && UniqueUids(t)
    requires Plan(s, name, c, stack).Ok? && Plan(t, other, e, above).Ok?
    ensures Plan(s, name, c, stack) == Plan(t, other, e, above) <==> SameInputsBelow(s, c, t, e)
  {
    PlanExact(s, name, c, stack);
    PlanExact(t, other, e, above);
    if Expected(s, c) == Expected(t, e) {
      forall d | Reaches(s, c, d)
        ensures Verified(s, d) && Verified(t, d)
        ensures SameLifetime(s.configurations[d], t.configurations[d])
        ensures OwnInputs(s, s.configurations[d]) == OwnInputs(t, t.configurations[d])
      {
        var p :| Chain(s, c, p) && p[|p| - 1] == d;
        EqualAlong(s, c, t, e, p);
      }
    }
    if SameInputsBelow(s, c, t, e) {
      InputsDecide(s, name, c, stack, t, e);
    }
  }

  // ---- What the fingerprint covers ----

  /** The same resolution, up to the specs of the capture group and the Servers, of which the fingerprint takes
      the generation, and up to the Servers' pulses. */
  ghost predicate SameResolution(a: Surroundings, b: Surroundings) {
    && b == a.(servers := b.servers, group := a.group.(spec := b.group.spec))
    && |a.servers| == |b.servers|
    && forall i :: 0 <= i < |a.servers| ==> SameIdentity(a.servers[i], b.servers[i])
  }

  predicate SameIdentity(a: Server, b: Server) {
    b == a.(resource := a.resource.(spec := b.resource.spec), heartbeat := b.heartbeat, operationRef := b.operationRef)
  }

  lemma SameServers(spec: Spec, a: Surroundings, x: seq<Observed>, other: Spec, b: Surroundings, y: seq<Observed>)
    requires InputsOf(spec, a, x) == InputsOf(other, b, y)
    ensures |a.servers| == |b.servers| && x == y
    ensures ObserveResource(a.target) == ObserveResource(b.target) && ObserveResource(a.group) == ObserveResource(b.group)
    ensures ObserveResource(a.repository) == ObserveResource(b.repository)
    ensures a.cluster.Some? <==> b.cluster.Some?
    ensures a.cluster.Some? ==> ObserveResource(a.cluster.value) == ObserveResource(b.cluster.value)
    ensures forall i :: 0 <= i < |a.servers| ==> SameIdentity(a.servers[i], b.servers[i])
  {
    var p, q := InputsOf(spec, a, x), InputsOf(other, b, y);
    var n := |a.servers|;
    assert n == |p.members| == |b.servers|;
    var m := 3 + n + if a.cluster.Some? then 1 else 0;
    assert p.resolvedReferences[m..] == x && q.resolvedReferences[m..] == y;
    assert p.resolvedReferences[0] == ObserveResource(a.target) && q.resolvedReferences[0] == ObserveResource(b.target);
    assert p.resolvedReferences[1] == ObserveResource(a.group) && q.resolvedReferences[1] == ObserveResource(b.group);
    assert p.resolvedReferences[2] == ObserveResource(a.repository) && q.resolvedReferences[2] == ObserveResource(b.repository);
    if a.cluster.Some? {
      assert p.resolvedReferences[3 + n] == ObserveResource(a.cluster.value);
      assert q.resolvedReferences[3 + n] == ObserveResource(b.cluster.value);
    }
    forall i | 0 <= i < n
      ensures SameIdentity(a.servers[i], b.servers[i])
    {
      assert p.members[i] == MemberInputs(a.servers[i]) && q.members[i] == MemberInputs(b.servers[i]);
      assert p.resolvedReferences[3 + i] == ObserveResource(a.servers[i].resource);
      assert q.resolvedReferences[3 + i] == ObserveResource(b.servers[i].resource);
    }
  }

  /** Equal inputs mean the same spec, the same resolution and the same observed prerequisites, and conversely. */
  lemma FingerprintExact(spec: Spec, a: Surroundings, x: seq<Observed>, other: Spec, b: Surroundings, y: seq<Observed>)
    ensures InputsOf(spec, a, x) == InputsOf(other, b, y) <==> spec == other && SameResolution(a, b) && x == y
  {
    if InputsOf(spec, a, x) == InputsOf(other, b, y) {
      SameServers(spec, a, x, other, b, y);
    }
    if spec == other && SameResolution(a, b) && x == y {
      forall i | 0 <= i < |a.servers|
        ensures MemberInputs(a.servers[i]) == MemberInputs(b.servers[i])
        ensures ObserveResource(a.servers[i].resource) == ObserveResource(b.servers[i].resource)
      {
        assert SameIdentity(a.servers[i], b.servers[i]);
      }
      var p, q := InputsOf(spec, a, x), InputsOf(other, b, y);
      assert p.members == q.members;
      assert p.resolvedReferences == q.resolvedReferences;
    }
  }

  // ---- Heartbeats and claims ----

  /** The same Server up to its heartbeat and the Operation that claims it. */
  predicate SameServer(a: Server, b: Server) {
    b == a.(heartbeat := b.heartbeat, operationRef := b.operationRef)
  }

  predicate SameButPulses(a: Surroundings, b: Surroundings) {
    && b == a.(servers := b.servers) && |a.servers| == |b.servers|
    && forall i :: 0 <= i < |a.servers| ==> SameServer(a.servers[i], b.servers[i])
  }

  ghost predicate OnlyPulses(s: Store, t: Store) {
    && s.configurations == t.configurations
    && forall spec ::
         match (s.resolve(spec), t.resolve(spec)) {
           case (Ok(a), Ok(b)) => SameButPulses(a, b)
           case (a, b) => a == b
         }
  }

  lemma PulsesLeaveInputs(spec: Spec, a: Surroundings, b: Surroundings, observed: seq<Observed>)
    requires SameButPulses(a, b)
    ensures InputsOf(spec, a, observed) == InputsOf(spec, b, observed)
  {
    var x, y := InputsOf(spec, a, observed), InputsOf(spec, b, observed);
    assert x.members == y.members;
    assert x.resolvedReferences == y.resolvedReferences;
  }

  lemma {:induction false} ObserveAlike(s: Store, t: Store, refs: seq<Reference>)
    requires s.configurations == t.configurations
    ensures ObserveAll(s, refs) == ObserveAll(t, refs)
  {
    if refs != [] {
      ObserveAlike(s, t, refs[..|refs| - 1]);
    }
  }

  /** Heartbeats and claims change neither a revision nor a refusal. */
  lemma {:induction false} PulsesLeavePlans(s: Store, t: Store, name: string, c: Configuration, stack: seq<string>)
    requires OnlyPulses(s, t)
    ensures Plan(s, name, c, stack) == Plan(t, name, c, stack)
    decreases Unstacked(s, stack), name !in s.configurations, |c.spec.dependsOn| + 1
  {
    ObserveAlike(s, t, c.spec.dependsOn);
    if name !in stack {
      PulsesLeavePrerequisites(s, t, name, c.spec.dependsOn, stack);
    }
    if s.resolve(c.spec).Ok? && ObserveAll(s, c.spec.dependsOn).Ok? {
      PulsesLeaveInputs(c.spec, s.resolve(c.spec).value, t.resolve(c.spec).value, ObserveAll(s, c.spec.dependsOn).value);
    }
  }

  lemma {:induction false} PulsesLeavePrerequisites(
      s: Store, t: Store, name: string, refs: seq<Reference>, stack: seq<string>)
    requires OnlyPulses(s, t) && name !in stack
    ensures Prerequisites(s, name, refs, stack) == Prerequisites(t, name, refs, stack)
    decreases Unstacked(s, stack), name !in s.configurations, |refs|
  {
    if refs != [] {
      PulsesLeavePrerequisites(s, t, name, refs[..|refs| - 1], stack);
      var ref := refs[|refs| - 1];
      if Fetch(s, ref).Ok? {
        Shrinks(s, name, stack);
        PulsesLeavePlans(s, t, ref.name, Fetch(s, ref).value, stack + [name]);
      }
    }
  }

  // ---- Reporting a verified revision ----

  /** The store once a status write for one Configuration has landed. */
  function WithStatus(s: Store, name: string, status: Status): Store
    requires name in s.configurations
  {
    s.(configurations := s.configurations[name := s.configurations[name].(status := status)])
  }

  /** The store once a successful execution has reported `revision` as Ready. */
  function Reported(s: Store, name: string, revision: Revision): Store
    requires name in s.configurations
  {
    var generation := s.configurations[name].generation;
    WithStatus(s, name, Status(true, Some(if generation.Some? then generation.value else 0), Some(revision)))
  }

  lemma {:induction false} StatusKeepsObservations(s: Store, name: string, status: Status, refs: seq<Reference>)
    requires name in s.configurations
    ensures ObserveAll(WithStatus(s, name, status), refs) == ObserveAll(s, refs)
    ensures Fetchable(WithStatus(s, name, status), refs) <==> Fetchable(s, refs)
  {
    ObserveAllOk(s, refs);
    ObserveAllOk(WithStatus(s, name, status), refs);
    if refs != [] {
      StatusKeepsObservations(s, name, status, refs[..|refs| - 1]);
    }
  }

  lemma {:induction false} StatusKeepsChains(
      s: Store, name: string, status: Status, c: Configuration, e: Configuration, p: seq<string>)
    requires name in s.configurations && c.spec == e.spec
    ensures Chain(s, c, p) <==> Chain(WithStatus(s, name, status), e, p)
    decreases |p|
  {
    assert forall d :: Needs(c, d) <==> Needs(e, d);
    var t := WithStatus(s, name, status);
    if |p| > 1 && p[0] in s.configurations {
      StatusKeepsChains(s, name, status, s.configurations[p[0]], t.configurations[p[0]], p[1..]);
    }
  }

  lemma StatusKeepsReach(s: Store, name: string, status: Status, c: Configuration, e: Configuration, d: string)
    requires name in s.configurations && c.spec == e.spec
    ensures Reaches(s, c, d) <==> Reaches(WithStatus(s, name, status), e, d)
  {
    forall p: seq<string>
      ensures Chain(s, c, p) <==> Chain(WithStatus(s, name, status), e, p)
    {
      StatusKeepsChains(s, name, status, c, e, p);
    }
  }

  /** A status write does not disturb what another Configuration expects, unless that depends on it directly. */
  lemma StatusKeepsExpected(s: Store, name: string, status: Status, c: Configuration, e: Configuration)
    requires name in s.configurations && c.spec == e.spec && c.terminating == e.terminating
    requires Resolvable(s, c) && Recorded(s, c.spec.dependsOn) && !Needs(c, name)
    ensures var t := WithStatus(s, name, status);
            Resolvable(t, e) && Recorded(t, e.spec.dependsOn) && Expected(t, e) == Expected(s, c)
  {
    var t, refs := WithStatus(s, name, status), c.spec.dependsOn;
    StatusKeepsObservations(s, name, status, refs);
    forall ref | ref in refs
      ensures Fetch(t, ref) == Fetch(s, ref)
    {
      assert Needs(c, ref.name);
    }
    RecordedAlike(s, t, refs);
  }

  /** Reporting a planned revision verifies the Configuration for its dependents, if it has a generation,
      and planning it again gives the same revision. */
  lemma ReportIsStable(s: Store, name: string, revision: Revision)
    requires name in s.configurations && Plan(s, name, s.configurations[name], []) == Ok(revision)
    ensures var t := Reported(s, name, revision);
            && Plan(t, name, t.configurations[name], []) == Ok(revision)
            && (Verified(t, name) <==> s.configurations[name].generation.Some?)
  {
    var t, c := Reported(s, name, revision), s.configurations[name];
    var e := t.configurations[name];
    PlanExact(s, name, c, []);
    if Needs(c, name) {
      NeedsReaches(s, c, name);
      assert false;
    }
    StatusKeepsExpected(s, name, e.status, c, e);
    forall d | Reaches(t, e, d)
      ensures Verified(t, d) && !Reaches(t, t.configurations[d], d) && d != name
    {
      StatusKeepsReach(s, name, e.status, c, e, d);
      ReachedIsKept(s, name, e.status, c, d);
    }
    PlanExact(t, name, e, []);
  }

  lemma ReachedIsKept(s: Store, name: string, status: Status, c: Configuration, d: string)
    requires name in s.configurations && Sound(s, c) && Reaches(s, c, d)
    requires forall x :: Reaches(s, c, x) ==> x != name
    ensures var t := WithStatus(s, name, status); Verified(t, d) && !Reaches(t, t.configurations[d], d)
  {
    var member := s.configurations[d];
    if Needs(member, name) {
      NeedsReaches(s, member, name);
      ReachesFurther(s, c, d, name);
      assert false;
    }
    StatusKeepsExpected(s, name, status, member, member);
    StatusKeepsReach(s, name, status, member, member, d);
  }

  lemma {:induction false} ChainFurther(s: Store, c: Configuration, p: seq<string>, q: seq<string>)
    requires Chain(s, c, p) && p[|p| - 1] in s.configurations && Chain(s, s.configurations[p[|p| - 1]], q)
    ensures Chain(s, c, p + q)
    decreases |p|
  {
    if |p| == 1 {
      assert (p + q)[1..] == q;
    } else {
      ChainFurther(s, s.configurations[p[0]], p[1..], q);
      assert (p + q)[1..] == p[1..] + q;
    }
  }

  lemma ReachesFurther(s: Store, c: Configuration, d: string, e: string)
    requires Reaches(s, c, d) && d in s.configurations && Reaches(s, s.configurations[d], e)
    ensures Reaches(s, c, e)
  {
    var p :| Chain(s, c, p) && p[|p| - 1] == d;
    var q :| Chain(s, s.configurations[d], q) && q[|q| - 1] == e;
    ChainFurther(s, c, p, q);
    assert (p + q)[|p + q| - 1] == e;
  }

  // ---- A reported cycle is one ----

  lemma {:induction false} CycleBelow(s: Store, name: string, refs: seq<Reference>, stack: seq<string>)
    returns (ref: Reference)
    requires name !in stack && Prerequisites(s, name, refs, stack) == Err(DependencyCycle)
    ensures ref in refs && Fetch(s, ref).Ok?
    ensures Plan(s, ref.name, Fetch(s, ref).value, stack + [name]) == Err(DependencyCycle)
  {
    if Prerequisites(s, name, refs[..|refs| - 1], stack).Err? {
      ref := CycleBelow(s, name, refs[..|refs| - 1], stack);
    } else {
      ref := refs[|refs| - 1];
    }
  }

  /** A DependencyCycle refusal names no prerequisite, but some Configuration reached does reach itself. */
  lemma {:induction false} CycleIsReal(s: Store, name: string, stack: seq<string>) returns (d: string)
    requires forall spec :: s.resolve(spec) != Err(DependencyCycle)
    requires name in s.configurations && Plan(s, name, s.configurations[name], stack) == Err(DependencyCycle)
    requires forall x :: x in stack ==> x in s.configurations && Reaches(s, s.configurations[x], name)
    ensures d in s.configurations && Reaches(s, s.configurations[d], d)
    ensures d == name || Reaches(s, s.configurations[name], d)
    decreases Unstacked(s, stack)
  {
    var c := s.configurations[name];
    if name in stack {
      return name;
    }
    ObserveAllNeverCycles(s, c.spec.dependsOn);
    var ref := CycleBelow(s, name, c.spec.dependsOn, stack);
    Shrinks(s, name, stack);
    assert Needs(c, ref.name);
    NeedsReaches(s, c, ref.name);
    forall x | x in stack
      ensures Reaches(s, s.configurations[x], ref.name)
    {
      ReachesFurther(s, s.configurations[x], name, ref.name);
    }
    d := CycleIsReal(s, ref.name, stack + [name]);
    if d != ref.name {
      ReachesFurther(s, c, ref.name, d);
    }
  }

  lemma {:induction false} ObserveAllNeverCycles(s: Store, refs: seq<Reference>)
    ensures ObserveAll(s, refs) != Err(DependencyCycle)
  {
    if refs != [] {
      ObserveAllNeverCycles(s, refs[..|refs| - 1]);
    }
  }
}
