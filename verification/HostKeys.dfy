/** First-contact enrollment of one Server's SSH host key, by any number of overlapping passes. */
module HostKeys {
  import opened Wrappers

  type PassId = nat
  type Key = string
  type KeyPairRef = nat

  /** A collision-free key fingerprint. */
  datatype Fingerprint = Sha256(key: Key)

  /** What a pass compares before it delivers keys or writes, apart from the trust fields below. */
  datatype Binding = Binding(
    generation: nat, terminating: bool, maintenance: bool, operationRef: Option<nat>,
    machineRef: Option<nat>, management: Option<nat>, bundle: Option<nat>)

  /** Host key trust: the key the API wants, the first-contact pin, and what was last installed. */
  datatype Trust = Trust(
    keyPairRef: Option<KeyPairRef>, publicKey: Key, fingerprint: Fingerprint, keyReady: bool,
    pin: Option<Key>, installed: Option<KeyPairRef>, installedFingerprint: Option<Fingerprint>)

  /** `busy` is a provisioning phase that owns the SSH transition; only the start of a pass looks at it. */
  datatype Server = Server(binding: Binding, busy: bool, trust: Trust)

  datatype Pc =
    | Entered
    | Probing
    | Contacted(key: Key)
    | PutPin(key: Key, base: nat)
    | Trusting
    | Private
    | Playing
    | Observing(left: nat)
    | PutObservation(left: nat, base: nat)
    | Finished

  /** One pass: the Server version it holds, and the keys in its known-hosts file. */
  datatype Pass = Pass(ver: nat, view: Server, known: set<Key>, pc: Pc)

  /** The two writes that touch the pin or the installed key, on the version they name. */
  datatype Write =
    | PinWrite(base: nat, key: Key)
    | InstallWrite(base: nat, ref: KeyPairRef, fingerprint: Fingerprint)

  datatype State = State(log: seq<Server>, passes: map<PassId, Pass>, writes: set<Write>)

  datatype Reply = Applied | Conflict | Lost

  datatype Step =
    | Other(server: Server)
    | Enter(id: PassId)
    | Inspect(id: PassId)
    | Contact(id: PassId, key: Key)
    | CheckUnpinned(id: PassId)
    | SendPin(id: PassId, reply: Reply)
    | VerifyTrust(id: PassId)
    | Derive(id: PassId)
    | Play(id: PassId)
    | CheckObservation(id: PassId)
    | SendObservation(id: PassId, reply: Reply)
    | Stop(id: PassId)
    | Deliver(late: Write)

  const CONFLICT_LIMIT: nat := 5

  function Newest(s: State): Server
    requires |s.log| > 0
  {
    s.log[|s.log| - 1]
  }

  /** The reread of `current`: nothing the pass depends on has changed. */
  predicate Unchanged(expected: Server, latest: Server) {
    && !latest.binding.terminating && !latest.binding.maintenance
    && latest.binding == expected.binding.(terminating := false, maintenance := false)
    && latest.trust == expected.trust
  }

  /** The refusals at the head of `reconcile_owned`, apart from `busy`. */
  predicate Eligible(view: Server) {
    && !view.binding.maintenance && view.binding.bundle.Some?
    && view.trust.keyReady && view.trust.keyPairRef.Some?
    && Sha256(view.trust.publicKey) == view.trust.fingerprint
    && (view.trust.installed.Some? ==>
          view.trust.installed == view.trust.keyPairRef && view.trust.installedFingerprint == Some(view.trust.fingerprint))
  }

  predicate Enrolled(trust: Trust) {
    trust.pin.Some? || trust.installed.Some?
  }

  function TrustSet(trust: Trust): set<Key> {
    {trust.publicKey} + if trust.installed.None? && trust.pin.Some? then {trust.pin.value} else {}
  }

  predicate At(s: State, id: PassId) {
    id in s.passes && |s.log| > 0
  }

  function Base(w: Write): nat {
    w.base
  }

  /** The version a write would create from the version it names. */
  function Written(w: Write, on: Server): Server {
    match w
    case PinWrite(_, key) => on.(trust := on.trust.(pin := Some(key)))
    case InstallWrite(_, ref, fingerprint) =>
      on.(trust := on.trust.(pin := None, installed := Some(ref), installedFingerprint := Some(fingerprint)))
  }

  predicate CanSend(x: Pass) {
    x.pc.PutPin? || (x.pc.PutObservation? && x.view.trust.keyPairRef.Some?)
  }

  /** The write a pass is about to send. */
  function Outgoing(x: Pass): Write
    requires CanSend(x)
  {
    if x.pc.PutPin? then PinWrite(x.pc.base, x.pc.key)
    else InstallWrite(x.pc.base, x.view.trust.keyPairRef.value, x.view.trust.fingerprint)
  }

  predicate Enabled(s: State, step: Step) {
    match step
    case Other(server) =>
      && |s.log| > 0
      && server.trust.pin == Newest(s).trust.pin && server.trust.installed == Newest(s).trust.installed
      && server.trust.installedFingerprint == Newest(s).trust.installedFingerprint
    case Enter(id) => |s.log| > 0 && id !in s.passes
    case Inspect(id) => At(s, id) && s.passes[id].pc.Entered?
    case Contact(id, _) => At(s, id) && s.passes[id].pc.Probing?
    case CheckUnpinned(id) => At(s, id) && s.passes[id].pc.Contacted?
    case SendPin(id, reply) =>
      At(s, id) && s.passes[id].pc.PutPin? && (reply.Applied? ==> s.passes[id].pc.base == |s.log| - 1)
    case VerifyTrust(id) => At(s, id) && s.passes[id].pc.Trusting?
    case Derive(id) => At(s, id) && s.passes[id].pc.Private?
    case Play(id) => At(s, id) && s.passes[id].pc.Playing?
    case CheckObservation(id) => At(s, id) && s.passes[id].pc.Observing?
    case SendObservation(id, reply) =>
      && At(s, id) && s.passes[id].pc.PutObservation? && CanSend(s.passes[id])
      && (reply.Applied? ==> s.passes[id].pc.base == |s.log| - 1)
    case Stop(id) => id in s.passes
    case Deliver(w) => |s.log| > 0 && w in s.writes && Base(w) == |s.log| - 1
  }

  function Go(s: State, id: PassId, x: Pass): State {
    s.(passes := s.passes[id := x])
  }

  function Append(s: State, server: Server): State {
    s.(log := s.log + [server])
  }

  predicate Local(step: Step) {
    || step.Inspect? || step.Contact? || step.CheckUnpinned? || step.VerifyTrust?
    || step.Derive? || step.Play? || step.CheckObservation?
  }

  /** How a pass moves on a step of its own that writes nothing; `latest` is the newest version, `base` its number. */
  function Advance(x: Pass, step: Step, latest: Server, base: nat): Pass
    requires Local(step)
  {
    match step
    case Inspect(_) =>
      x.(pc := if x.view.busy || !Eligible(x.view) then Finished else if Enrolled(x.view.trust) then Trusting else Probing)
    case Contact(_, key) => x.(pc := Contacted(key))
    case CheckUnpinned(_) =>
      x.(pc := if x.pc.Contacted? && Unchanged(x.view, latest) && !Enrolled(latest.trust)
               then PutPin(x.pc.key, base) else Finished)
    case VerifyTrust(_) =>
      if Unchanged(x.view, latest) then Pass(base, latest, TrustSet(x.view.trust), Private) else x.(pc := Finished)
    case Derive(_) => x.(pc := if Unchanged(x.view, latest) then Playing else Finished)
    case Play(_) => x.(pc := Observing(CONFLICT_LIMIT))
    case CheckObservation(_) =>
      x.(pc := if x.pc.Observing? && x.pc.left > 0 && Unchanged(x.view, latest)
                  && (x.view.trust.pin.Some? ==> latest.trust.pin == x.view.trust.pin)
               then PutObservation(x.pc.left, base) else Finished)
  }

  function Perform(s: State, step: Step): State
    requires Enabled(s, step)
  {
    match step
    case Other(server) => Append(s, server)
    case Enter(id) => Go(s, id, Pass(|s.log| - 1, Newest(s), {}, Entered))
    case SendPin(id, reply) =>
      var x := s.passes[id];
      (match reply
       case Applied =>
         var next := Written(Outgoing(x), Newest(s));
         Go(Append(s, next), id, x.(ver := |s.log|, view := next, pc := Trusting))
       case Conflict => Go(s, id, x.(pc := Finished))
       case Lost => Go(s.(writes := s.writes + {Outgoing(x)}), id, x.(pc := Finished)))
    case SendObservation(id, reply) =>
      var x := s.passes[id];
      (match reply
       case Applied => Go(Append(s, Written(Outgoing(x), Newest(s))), id, x.(pc := Finished))
       case Conflict => Go(s, id, x.(pc := Observing(if x.pc.left > 0 then x.pc.left - 1 else 0)))
       case Lost => Go(s.(writes := s.writes + {Outgoing(x)}), id, x.(pc := Finished)))
    case Stop(id) => s.(passes := s.passes - {id})
    case Deliver(w) => Append(s, Written(w, Newest(s)))
    case _ => Go(s, step.id, Advance(s.passes[step.id], step, Newest(s), |s.log| - 1))
  }

  ghost predicate Reaches(from: State, steps: seq<Step>, s: State)
    decreases |steps|
  {
    if steps == [] then s == from
    else Enabled(from, steps[0]) && Reaches(Perform(from, steps[0]), steps[1..], s)
  }

  /** Any one version of the Server, before the first pass. */
  predicate Initial(s: State) {
    |s.log| == 1 && s.passes == map[] && s.writes == {}
  }

  // ---- The invariant ----

  predicate Untouched(a: Trust, b: Trust) {
    b.pin == a.pin && b.installed == a.installed && b.installedFingerprint == a.installedFingerprint
  }

  predicate Pinned(a: Trust, b: Trust) {
    !Enrolled(a) && b.pin.Some? && b == a.(pin := b.pin)
  }

  /** The managed key named by `a` was installed, replacing the pin if there was one. */
  predicate Installed(a: Trust, b: Trust) {
    && b.pin.None? && b.installed.Some? && b.installed == a.keyPairRef
    && b.installedFingerprint == Some(Sha256(a.publicKey))
    && (a.installed.Some? ==> b.installed == a.installed && b.installedFingerprint == a.installedFingerprint)
    && (a.pin.Some? || a.installed.Some?)
  }

  predicate Follows(a: Trust, b: Trust) {
    Untouched(a, b) || Pinned(a, b) || Installed(a, b)
  }

  ghost predicate LogOk(log: seq<Server>) {
    |log| > 0 && forall i :: 0 < i < |log| ==> Follows(log[i - 1].trust, log[i].trust)
  }

  ghost predicate WriteOk(log: seq<Server>, w: Write) {
    Base(w) < |log| && Follows(log[Base(w)].trust, Written(w, log[Base(w)]).trust)
  }

  predicate Trusts(x: Pass) {
    && Eligible(x.view) && Enrolled(x.view.trust)
    && (x.pc.Trusting? || x.known == TrustSet(x.view.trust))
  }

  ghost predicate PassOk(log: seq<Server>, x: Pass) {
    && x.ver < |log| && x.view == log[x.ver]
    && (x.pc.Probing? || x.pc.Contacted? || x.pc.PutPin? ==> Eligible(x.view) && !Enrolled(x.view.trust))
    && (x.pc.Trusting? || x.pc.Private? || x.pc.Playing? || x.pc.Observing? || x.pc.PutObservation? ==> Trusts(x))
    && (x.pc.PutPin? || x.pc.PutObservation? ==>
          x.pc.base < |log| && Unchanged(x.view, log[x.pc.base]) && WriteOk(log, Outgoing(x)))
  }

  ghost predicate Inv(s: State) {
    && LogOk(s.log)
    && (forall w :: w in s.writes ==> WriteOk(s.log, w))
    && (forall id :: id in s.passes ==> PassOk(s.log, s.passes[id]))
  }

  lemma AppendKeeps(log: seq<Server>, server: Server, x: Pass, w: Write)
    ensures PassOk(log, x) ==> PassOk(log + [server], x)
    ensures WriteOk(log, w) ==> WriteOk(log + [server], w)
  {
  }

  lemma AppendInv(s: State, server: Server)
    requires Inv(s) && Follows(Newest(s).trust, server.trust)
    ensures Inv(Append(s, server))
  {
    hide PassOk, WriteOk, Follows;
    var t := Append(s, server);
    forall w | w in t.writes
      ensures WriteOk(t.log, w)
    {
      AppendKeeps(s.log, server, Pass(0, server, {}, Finished), w);
    }
    forall id | id in t.passes
      ensures PassOk(t.log, t.passes[id])
    {
      AppendKeeps(s.log, server, s.passes[id], PinWrite(0, ""));
    }
  }

  lemma GoInv(s: State, id: PassId, x: Pass)
    requires Inv(s) && PassOk(s.log, x)
    ensures Inv(Go(s, id, x))
  {
    hide PassOk, WriteOk, LogOk;
  }

  lemma PinFollows(log: seq<Server>, x: Pass, base: nat)
    requires PassOk(log, x) && x.pc.Contacted? && base < |log| && Unchanged(x.view, log[base])
    ensures PassOk(log, x.(pc := PutPin(x.pc.key, base)))
  {
  }

  lemma InstallFollows(log: seq<Server>, x: Pass, base: nat)
    requires PassOk(log, x) && x.pc.Observing? && base < |log| && Unchanged(x.view, log[base])
    ensures PassOk(log, x.(pc := PutObservation(x.pc.left, base)))
  {
  }

  lemma AdvanceOk(log: seq<Server>, x: Pass, step: Step)
    requires |log| > 0 && PassOk(log, x) && Local(step)
    requires match step
             case Inspect(_) => x.pc.Entered?
             case Contact(_, _) => x.pc.Probing?
             case CheckUnpinned(_) => x.pc.Contacted?
             case VerifyTrust(_) => x.pc.Trusting?
             case Derive(_) => x.pc.Private?
             case Play(_) => x.pc.Playing?
             case CheckObservation(_) => x.pc.Observing?
    ensures PassOk(log, Advance(x, step, log[|log| - 1], |log| - 1))
  {
    var base := |log| - 1;
    match step {
      case CheckUnpinned(_) =>
        if Unchanged(x.view, log[base]) {
          PinFollows(log, x, base);
        }
      case CheckObservation(_) =>
        if Unchanged(x.view, log[base]) {
          InstallFollows(log, x, base);
        }
      case _ =>
    }
  }

  lemma SentInv(s: State, id: PassId, w: Write, x: Pass)
    requires Inv(s) && id in s.passes && WriteOk(s.log, w) && Base(w) == |s.log| - 1
    requires PassOk(s.log + [Written(w, Newest(s))], x)
    ensures Inv(Go(Append(s, Written(w, Newest(s))), id, x))
  {
    AppendInv(s, Written(w, Newest(s)));
    GoInv(Append(s, Written(w, Newest(s))), id, x);
  }

  lemma LostInv(s: State, id: PassId, w: Write, x: Pass)
    requires Inv(s) && id in s.passes && WriteOk(s.log, w) && PassOk(s.log, x)
    ensures Inv(Go(s.(writes := s.writes + {w}), id, x))
  {
    hide PassOk, WriteOk, LogOk;
  }

  /** The pass goes on from the version its own pin write created, still eligible and now enrolled. */
  lemma PinnedOk(log: seq<Server>, x: Pass)
    requires PassOk(log, x) && x.pc.PutPin? && x.pc.base == |log| - 1
    ensures var next := Written(Outgoing(x), log[x.pc.base]);
            PassOk(log + [next], x.(ver := |log|, view := next, pc := Trusting))
  {
  }

  lemma SendInv(s: State, step: Step)
    requires Inv(s) && Enabled(s, step) && (step.SendPin? || step.SendObservation?)
    ensures Inv(Perform(s, step))
  {
    hide LogOk;
    var x := s.passes[step.id];
    var w := Outgoing(x);
    assert PassOk(s.log, x) && WriteOk(s.log, w) && PassOk(s.log, x.(pc := Finished));
    hide PassOk, WriteOk, Follows, Unchanged, Written;
    match step.reply {
      case Applied =>
        if step.SendPin? {
          PinnedOk(s.log, x);
        } else {
          AppendKeeps(s.log, Written(w, Newest(s)), x.(pc := Finished), w);
        }
        SentInv(s, step.id, w, Perform(s, step).passes[step.id]);
      case Conflict =>
        ConflictOk(s.log, x);
        GoInv(s, step.id, Perform(s, step).passes[step.id]);
      case Lost => LostInv(s, step.id, w, x.(pc := Finished));
    }
  }

  lemma ConflictOk(log: seq<Server>, x: Pass)
    requires PassOk(log, x)
    ensures PassOk(log, x.(pc := Finished))
    ensures x.pc.PutObservation? ==> PassOk(log, x.(pc := Observing(if x.pc.left > 0 then x.pc.left - 1 else 0)))
  {
  }

  lemma StepInv(s: State, step: Step)
    requires Inv(s) && Enabled(s, step)
    ensures Inv(Perform(s, step))
  {
    match step {
      case Other(server) => AppendInv(s, server);
      case Deliver(w) => AppendInv(s, Written(w, Newest(s)));
      case SendPin(_, _) => SendInv(s, step);
      case SendObservation(_, _) => SendInv(s, step);
      case Stop(_) =>
      case Enter(id) => GoInv(s, id, Pass(|s.log| - 1, Newest(s), {}, Entered));
      case _ =>
        AdvanceOk(s.log, s.passes[step.id], step);
        GoInv(s, step.id, Advance(s.passes[step.id], step, Newest(s), |s.log| - 1));
    }
  }

  lemma {:induction false} ReachableInv(from: State, steps: seq<Step>, s: State)
    requires Inv(from) && Reaches(from, steps, s)
    ensures Inv(s)
    decreases |steps|
  {
    if steps != [] {
      StepInv(from, steps[0]);
      ReachableInv(Perform(from, steps[0]), steps[1..], s);
    }
  }

  // ---- What enrollment promises ----

  predicate WritesPin(log: seq<Server>, i: int) {
    0 < i < |log| && log[i].trust.pin.Some? && log[i].trust.pin != log[i - 1].trust.pin
  }

  predicate ClearsPin(log: seq<Server>, i: int) {
    0 < i < |log| && log[i - 1].trust.pin.Some? && log[i].trust.pin.None?
  }

  lemma {:induction false} EnrolledStays(log: seq<Server>, i: nat, j: nat)
    requires LogOk(log) && i <= j < |log| && Enrolled(log[i].trust)
    ensures Enrolled(log[j].trust)
    ensures log[i].trust.installed.Some? ==>
              log[j].trust.installed == log[i].trust.installed
              && log[j].trust.installedFingerprint == log[i].trust.installedFingerprint
    decreases j
  {
    if i < j {
      EnrolledStays(log, i, j - 1);
      assert Follows(log[j - 1].trust, log[j].trust);
    }
  }

  lemma {:induction false} PinStays(log: seq<Server>, i: nat, j: nat)
    requires LogOk(log) && i <= j < |log| && log[i].trust.pin.Some? && log[j].trust.pin.Some?
    ensures log[j].trust.pin == log[i].trust.pin
    decreases j
  {
    if i < j {
      EnrolledStays(log, i, j - 1);
      assert Follows(log[j - 1].trust, log[j].trust);
      PinStays(log, i, j - 1);
    }
  }

  /** Over all interleavings the pin is written at most once, never once a managed key is installed, and it
      is cleared only by the write that records the installed managed key. */
  lemma PinWrittenOnce(from: State, steps: seq<Step>, s: State, i: nat, j: nat)
    requires Initial(from) && Reaches(from, steps, s)
    ensures WritesPin(s.log, i) && WritesPin(s.log, j) ==> i == j
    ensures WritesPin(s.log, i) && j < i ==> !Enrolled(s.log[j].trust)
    ensures ClearsPin(s.log, i) ==>
              && s.log[i].trust.installed.Some? && s.log[i].trust.installed == s.log[i - 1].trust.keyPairRef
              && s.log[i].trust.installedFingerprint == Some(Sha256(s.log[i - 1].trust.publicKey))
  {
    ReachableInv(from, steps, s);
    if WritesPin(s.log, i) {
      assert Follows(s.log[i - 1].trust, s.log[i].trust);
      NotEnrolledBefore(s.log, i);
    }
    if WritesPin(s.log, j) {
      assert Follows(s.log[j - 1].trust, s.log[j].trust);
      NotEnrolledBefore(s.log, j);
    }
    if ClearsPin(s.log, i) {
      assert Follows(s.log[i - 1].trust, s.log[i].trust);
    }
  }

  lemma NotEnrolledBefore(log: seq<Server>, i: nat)
    requires LogOk(log) && 0 < i < |log| && !Enrolled(log[i - 1].trust)
    ensures forall k :: 0 <= k < i ==> !Enrolled(log[k].trust)
  {
    forall k | 0 <= k < i
      ensures !Enrolled(log[k].trust)
    {
      if Enrolled(log[k].trust) {
        EnrolledStays(log, k, i - 1);
      }
    }
  }

  /** Once recorded, the installed identity never changes again, whoever reconciles. */
  lemma InstalledIsFinal(from: State, steps: seq<Step>, s: State, i: nat, j: nat)
    requires Initial(from) && Reaches(from, steps, s) && i <= j < |s.log| && s.log[i].trust.installed.Some?
    ensures s.log[j].trust.installed == s.log[i].trust.installed
    ensures s.log[j].trust.installedFingerprint == s.log[i].trust.installedFingerprint
  {
    ReachableInv(from, steps, s);
    EnrolledStays(s.log, i, j);
  }

  /** The pass is about to read the private host key, has it, or installs it. */
  predicate HasTrustSet(x: Pass) {
    x.pc.Private? || x.pc.Playing? || x.pc.Observing? || x.pc.PutObservation?
  }

  /** A pass that reaches the private key trusts the managed key of the version it holds and, besides, at
      most the one pin ever persisted; on an established Server only the key that was installed. */
  lemma PrivateKeyTrust(from: State, steps: seq<Step>, s: State, id: PassId, v: nat)
    requires Initial(from) && Reaches(from, steps, s) && id in s.passes && HasTrustSet(s.passes[id])
    ensures var x := s.passes[id]; x.ver < |s.log| && x.view == s.log[x.ver] && x.view.trust.publicKey in x.known
    ensures forall k :: k in s.passes[id].known && k != s.passes[id].view.trust.publicKey ==>
              && s.passes[id].view.trust.installed.None? && s.passes[id].view.trust.pin == Some(k)
              && (v < |s.log| && s.log[v].trust.pin.Some? ==> s.log[v].trust.pin == Some(k))
    ensures s.passes[id].view.trust.installed.Some? ==>
              && s.passes[id].known == {s.passes[id].view.trust.publicKey}
              && s.passes[id].view.trust.installed == s.passes[id].view.trust.keyPairRef
              && s.passes[id].view.trust.installedFingerprint == Some(Sha256(s.passes[id].view.trust.publicKey))
  {
    ReachableInv(from, steps, s);
    var x := s.passes[id];
    assert PassOk(s.log, x);
    forall k | k in x.known && k != x.view.trust.publicKey
      ensures x.view.trust.installed.None? && x.view.trust.pin == Some(k)
      ensures v < |s.log| && s.log[v].trust.pin.Some? ==> s.log[v].trust.pin == Some(k)
    {
      if v < |s.log| && s.log[v].trust.pin.Some? {
        if v <= x.ver {
          PinStays(s.log, v, x.ver);
        } else {
          PinStays(s.log, x.ver, v);
        }
      }
    }
  }

  /** Before the private key is read, everything the managed identity needs is in place, field by field. */
  lemma PrivateKeyPreconditions(from: State, steps: seq<Step>, s: State, id: PassId)
    requires Initial(from) && Reaches(from, steps, s) && id in s.passes && HasTrustSet(s.passes[id])
    ensures var x := s.passes[id].view;
            && !x.binding.maintenance && x.binding.bundle.Some?
            && x.trust.keyReady && x.trust.keyPairRef.Some? && x.trust.fingerprint == Sha256(x.trust.publicKey)
            && (x.trust.pin.Some? || x.trust.installed.Some?)
    ensures s.passes[id].view.trust.installed.None? && s.passes[id].view.trust.pin.Some? ==>
              s.passes[id].view.trust.pin.value in s.passes[id].known
  {
    ReachableInv(from, steps, s);
    assert PassOk(s.log, s.passes[id]);
  }

  /** Two versions of a Server that agree field by field, the later one neither terminating nor under maintenance. */
  predicate Agrees(on: Server, seen: Server) {
    && !on.binding.terminating && !on.binding.maintenance
    && on.binding.generation == seen.binding.generation && on.binding.operationRef == seen.binding.operationRef
    && on.binding.machineRef == seen.binding.machineRef && on.binding.management == seen.binding.management
    && on.binding.bundle == seen.binding.bundle
    && on.trust.keyPairRef == seen.trust.keyPairRef && on.trust.publicKey == seen.trust.publicKey
    && on.trust.fingerprint == seen.trust.fingerprint && on.trust.keyReady == seen.trust.keyReady
    && on.trust.pin == seen.trust.pin && on.trust.installed == seen.trust.installed
    && on.trust.installedFingerprint == seen.trust.installedFingerprint
  }

  /** A pin or an installed key is only ever written on a version that agrees with the one the pass has verified. */
  lemma WritesOnUnchangedServer(from: State, steps: seq<Step>, s: State, id: PassId)
    requires Initial(from) && Reaches(from, steps, s) && id in s.passes
    requires s.passes[id].pc.PutPin? || s.passes[id].pc.PutObservation?
    ensures s.passes[id].pc.base < |s.log| && Agrees(s.log[s.passes[id].pc.base], s.passes[id].view)
  {
    ReachableInv(from, steps, s);
    assert PassOk(s.log, s.passes[id]);
  }

  /** What ends a pass before it contacts the host: provisioning or maintenance, no bundle, a managed key that is
      not ready or does not hash to its fingerprint, or another key already installed. */
  lemma RefusedAtStart(s: State, id: PassId)
    requires Enabled(s, Inspect(id))
    ensures var v := s.passes[id].view;
            Perform(s, Inspect(id)).passes[id].pc.Finished? <==>
              || v.busy || v.binding.maintenance || v.binding.bundle.None? || !v.trust.keyReady || v.trust.keyPairRef.None?
              || v.trust.fingerprint != Sha256(v.trust.publicKey)
              || (v.trust.installed.Some? && (v.trust.installed != v.trust.keyPairRef
                                              || v.trust.installedFingerprint != Some(v.trust.fingerprint)))
  {
  }

  /** The private key is read, and again sent to the host, only while the newest version agrees with the pass's own. */
  lemma KeysMoveOnUnchangedServer(s: State, step: Step, id: PassId)
    requires Enabled(s, step) && id in Perform(s, step).passes
    requires Perform(s, step).passes[id].pc in {Private, Playing}
    requires id in s.passes ==> s.passes[id].pc != Perform(s, step).passes[id].pc
    ensures id in s.passes && |s.log| > 0 && Agrees(Newest(s), s.passes[id].view)
  {
  }

  // ---- An undisturbed enrollment completes ----

  lemma ReachesOne(s: State, step: Step, rest: seq<Step>, t: State)
    requires Enabled(s, step) && Reaches(Perform(s, step), rest, t)
    ensures Reaches(s, [step] + rest, t)
  {
    assert ([step] + rest)[1..] == rest;
  }

  /** A Server on which nothing stands in the way of enrollment. */
  predicate Open(v: Server) {
    && !v.binding.terminating && !v.binding.maintenance && v.binding.bundle.Some? && !v.busy
    && v.trust.keyReady && v.trust.keyPairRef.Some? && v.trust.fingerprint == Sha256(v.trust.publicKey)
  }

  /** The record once the managed key has been verified on the host. */
  function AfterInstall(v: Server): Server
    requires v.trust.keyPairRef.Some?
  {
    v.(trust := v.trust.(pin := None, installed := v.trust.keyPairRef, installedFingerprint := Some(v.trust.fingerprint)))
  }

  lemma TrustedPassInstalls(s: State, id: PassId) returns (steps: seq<Step>, t: State)
    requires |s.log| > 0 && id in s.passes && s.passes[id].pc.Trusting? && s.passes[id].view == Newest(s)
    requires Open(Newest(s)) && Enrolled(Newest(s).trust)
    ensures Reaches(s, steps, t) && t.log == s.log + [AfterInstall(Newest(s))]
    ensures id in t.passes && t.passes[id].pc.Finished?
  {
    var s1 := Perform(s, VerifyTrust(id));
    var s2 := Perform(s1, Derive(id));
    var s3 := Perform(s2, Play(id));
    assert s3.log == s.log && s3.passes[id].pc == Observing(CONFLICT_LIMIT) && s3.passes[id].view == Newest(s);
    var rest;
    rest, t := ObservingPassInstalls(s3, id, CONFLICT_LIMIT);
    hide Enabled, Perform;
    EnabledInOrder(s, id);
    ReachesOne(s2, Play(id), rest, t);
    ReachesOne(s1, Derive(id), [Play(id)] + rest, t);
    ReachesOne(s, VerifyTrust(id), [Derive(id)] + ([Play(id)] + rest), t);
    steps := [VerifyTrust(id)] + ([Derive(id)] + ([Play(id)] + rest));
  }

  lemma EnabledInOrder(s: State, id: PassId)
    requires |s.log| > 0 && id in s.passes && s.passes[id].pc.Trusting? && s.passes[id].view == Newest(s)
    requires Open(Newest(s))
    ensures Enabled(s, VerifyTrust(id)) && Enabled(Perform(s, VerifyTrust(id)), Derive(id))
    ensures Enabled(Perform(Perform(s, VerifyTrust(id)), Derive(id)), Play(id))
  {
  }

  lemma ObservingPassInstalls(s: State, id: PassId, left: nat) returns (steps: seq<Step>, t: State)
    requires |s.log| > 0 && id in s.passes && s.passes[id].pc == Observing(left) && left > 0
    requires s.passes[id].view == Newest(s) && Open(Newest(s))
    ensures Reaches(s, steps, t) && t.log == s.log + [AfterInstall(Newest(s))]
    ensures id in t.passes && t.passes[id].pc.Finished?
  {
    assert Enabled(s, CheckObservation(id));
    var s1 := Perform(s, CheckObservation(id));
    assert s1.passes[id].pc == PutObservation(left, |s.log| - 1) && s1.log == s.log;
    assert Enabled(s1, SendObservation(id, Applied));
    t := Perform(s1, SendObservation(id, Applied));
    assert Reaches(t, [], t);
    ReachesOne(s1, SendObservation(id, Applied), [], t);
    ReachesOne(s, CheckObservation(id), [SendObservation(id, Applied)] + [], t);
    steps := [CheckObservation(id)] + ([SendObservation(id, Applied)] + []);
  }

  /** First contact, undisturbed: the key the host showed is pinned, and then replaced by the managed key. */
  lemma EnrollmentCompletes(s: State, id: PassId, key: Key) returns (steps: seq<Step>, t: State)
    requires |s.log| > 0 && id !in s.passes && Open(Newest(s))
    requires Newest(s).trust.pin.None? && Newest(s).trust.installed.None?
    ensures Reaches(s, steps, t)
    ensures var v := Newest(s);
            var pinned := v.(trust := v.trust.(pin := Some(key)));
            t.log == s.log + [pinned, AfterInstall(v)]
  {
    var s1 := Perform(s, Enter(id));
    var s2 := Perform(s1, Inspect(id));
    assert s2.passes[id].pc.Probing? && s2.log == s.log && s2.passes[id].view == Newest(s);
    var s5, contact := ContactPins(s2, id, key);
    var rest;
    rest, t := TrustedPassInstalls(s5, id);
    ReachesThrough(s2, contact, s5, rest, t);
    assert Enabled(s, Enter(id)) && Enabled(s1, Inspect(id));
    hide Enabled, Perform, Reaches;
    ReachesOne(s1, Inspect(id), contact + rest, t);
    ReachesOne(s, Enter(id), [Inspect(id)] + (contact + rest), t);
    steps := [Enter(id)] + ([Inspect(id)] + (contact + rest));
  }

  lemma {:induction false} ReachesThrough(s: State, a: seq<Step>, m: State, b: seq<Step>, t: State)
    requires Reaches(s, a, m) && Reaches(m, b, t)
    ensures Reaches(s, a + b, t)
    decreases |a|
  {
    if a == [] {
      assert a + b == b;
    } else {
      ReachesThrough(Perform(s, a[0]), a[1..], m, b, t);
      assert (a + b)[1..] == a[1..] + b;
    }
  }

  lemma ContactPins(s: State, id: PassId, key: Key) returns (t: State, steps: seq<Step>)
    requires |s.log| > 0 && id in s.passes && s.passes[id].pc.Probing? && s.passes[id].view == Newest(s)
    requires Open(Newest(s)) && Newest(s).trust.pin.None? && Newest(s).trust.installed.None?
    ensures Reaches(s, steps, t) && id in t.passes && t.passes[id].pc.Trusting?
    ensures t.log == s.log + [Newest(s).(trust := Newest(s).trust.(pin := Some(key)))] && t.passes[id].view == Newest(t)
  {
    assert Enabled(s, Contact(id, key));
    var s1 := Perform(s, Contact(id, key));
    assert Enabled(s1, CheckUnpinned(id));
    var s2 := Perform(s1, CheckUnpinned(id));
    assert s2.passes[id].pc == PutPin(key, |s.log| - 1) && s2.log == s.log;
    assert Enabled(s2, SendPin(id, Applied));
    t := Perform(s2, SendPin(id, Applied));
    assert Reaches(t, [], t);
    ReachesOne(s2, SendPin(id, Applied), [], t);
    ReachesOne(s1, CheckUnpinned(id), [SendPin(id, Applied)] + [], t);
    ReachesOne(s, Contact(id, key), [CheckUnpinned(id)] + ([SendPin(id, Applied)] + []), t);
    steps := [Contact(id, key)] + ([CheckUnpinned(id)] + ([SendPin(id, Applied)] + []));
  }

  /** Checks of the record that are each followed by a refused observation. */
  function Refusals(id: PassId, n: nat): seq<Step> {
    if n == 0 then [] else [CheckObservation(id), SendObservation(id, Conflict)] + Refusals(id, n - 1)
  }

  predicate Observes(s: State, id: PassId, left: nat) {
    |s.log| > 0 && id in s.passes && s.passes[id].pc == Observing(left) && s.passes[id].view == Newest(s) && Open(Newest(s))
  }

  lemma RefusedOnce(s: State, id: PassId, left: nat)
    requires Observes(s, id, left) && left > 0
    ensures Enabled(s, CheckObservation(id)) && Enabled(Perform(s, CheckObservation(id)), SendObservation(id, Conflict))
    ensures Perform(Perform(s, CheckObservation(id)), SendObservation(id, Conflict))
            == Go(s, id, s.passes[id].(pc := Observing(left - 1)))
  {
  }

  lemma {:induction false} RefusedOften(s: State, id: PassId, left: nat, n: nat)
    requires Observes(s, id, left) && n <= left
    ensures Reaches(s, Refusals(id, n), Go(s, id, s.passes[id].(pc := Observing(left - n))))
    decreases n
  {
    if n == 0 {
      assert Go(s, id, s.passes[id].(pc := Observing(left))) == s;
    } else {
      RefusedOnce(s, id, left);
      var next := Go(s, id, s.passes[id].(pc := Observing(left - 1)));
      RefusedOften(next, id, left - 1, n - 1);
      assert Go(next, id, next.passes[id].(pc := Observing(left - n)))
          == Go(s, id, s.passes[id].(pc := Observing(left - n)));
      var steps := Refusals(id, n);
      assert steps[0] == CheckObservation(id) && steps[1..][0] == SendObservation(id, Conflict);
      assert steps[1..][1..] == Refusals(id, n - 1);
      hide Enabled, Perform;
    }
  }

  /** The observation survives four refused writes; after the fifth the pass ends and nothing is written. */
  lemma ObservationRetries(s: State, id: PassId, n: nat) returns (steps: seq<Step>, t: State)
    requires Observes(s, id, 5) && n <= 5
    ensures Reaches(s, Refusals(id, n) + steps, t) && id in t.passes && t.passes[id].pc.Finished?
    ensures t.log == if n < 5 then s.log + [AfterInstall(Newest(s))] else s.log
  {
    RefusedOften(s, id, 5, n);
    var m := Go(s, id, s.passes[id].(pc := Observing(5 - n)));
    if n < 5 {
      steps, t := ObservingPassInstalls(m, id, 5 - n);
    } else {
      t := Perform(m, CheckObservation(id));
      assert Reaches(t, [], t);
      ReachesOne(m, CheckObservation(id), [], t);
      steps := [CheckObservation(id)] + [];
    }
    ReachesThrough(s, Refusals(id, n), m, steps, t);
  }
}
