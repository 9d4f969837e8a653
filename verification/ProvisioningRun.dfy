/** The record of one ProvisioningRun and the writes the provisioning operator makes to it. */
module ProvisioningRun {
  import opened Wrappers

  type Uid = nat
  type BootId = nat
  type Key = nat

  datatype Phase =
    | Pending | PreparingBoot | AwaitingLive | Installing
    | AwaitingInstalled | Verifying | Succeeded | Blocked

  predicate Active(phase: Phase) {
    phase in {PreparingBoot, AwaitingLive, Installing, AwaitingInstalled, Verifying}
  }

  /** Phases that follow a finished installation; they end only in success. */
  predicate Installed(phase: Phase) {
    phase in {AwaitingInstalled, Verifying, Succeeded}
  }

  predicate Terminal(phase: Phase) {
    phase.Succeeded? || phase.Blocked?
  }

  /** Phases that follow the write authorising erasure. */
  predicate Erasing(phase: Phase) {
    phase in {Installing, AwaitingInstalled, Verifying, Succeeded}
  }

  /** The pinned plan; the digest stands for every pinned input. */
  datatype Plan = Plan(codeRevision: nat, digest: nat)

  datatype Status = Status(
    phase: Phase,
    maintenance: bool,
    attemptID: Option<Uid>,
    plan: Option<Plan>,
    source: Option<BootId>,
    liveBoot: Option<BootId>,
    contactKey: Option<Key>,
    armed: bool)

  /** A merge patch: an absent field keeps the stored value. */
  datatype Patch = Patch(
    phase: Phase,
    maintenance: Option<bool>,
    liveBoot: Option<Option<BootId>>,
    contactKey: Option<Option<Key>>,
    armed: Option<bool>)

  function Or<T>(field: Option<T>, stored: T): T {
    match field
    case Some(v) => v
    case None => stored
  }

  function Merge(stored: Status, patch: Patch): Status {
    stored.(phase := patch.phase,
            maintenance := Or(patch.maintenance, stored.maintenance),
            liveBoot := Or(patch.liveBoot, stored.liveBoot),
            contactKey := Or(patch.contactKey, stored.contactKey),
            armed := Or(patch.armed, stored.armed))
  }

  /** A fresh read still shows the attempt, plan and phase of the caller's view. */
  predicate Continues(latest: Status, view: Status) {
    && view.attemptID.Some? && view.plan.Some?
    && latest.attemptID == view.attemptID
    && latest.plan == view.plan
    && latest.phase == view.phase
  }

  /** The places that call `checkpoint`, in the order a pass meets them. */
  datatype Site =
    | BlockInterrupted
    | ArmPreparing | AwaitLiveKexec | AwaitLiveGrub
    | RecordContact(key: Key, seen: BootId)
    | Enroll(boot: BootId)
    | EnterInstall | InstallDone
    | BeginVerify | Complete
    | StayPending
    | BlockFailure(keep: bool)

  function SitePatch(site: Site, view: Status): Patch {
    match site
    case BlockInterrupted => Patch(Blocked, Some(true), None, None, None)
    case ArmPreparing => Patch(PreparingBoot, None, None, None, Some(true))
    case AwaitLiveKexec => Patch(AwaitingLive, None, Some(None), None, Some(true))
    case AwaitLiveGrub => Patch(AwaitingLive, None, None, None, Some(true))
    case RecordContact(key, _) => Patch(AwaitingLive, None, None, Some(Some(key)), None)
    case Enroll(boot) => Patch(AwaitingLive, None, Some(Some(boot)), Some(None), Some(false))
    case EnterInstall => Patch(Installing, None, None, None, None)
    case InstallDone => Patch(AwaitingInstalled, None, None, None, Some(false))
    case BeginVerify => Patch(Verifying, None, None, None, None)
    case Complete => Patch(Succeeded, Some(false), None, None, None)
    case StayPending => Patch(view.phase, None, None, None, None)
    case BlockFailure(keep) => Patch(Blocked, Some(keep), None, None, Some(keep && view.armed))
  }

  /** The claim written by `prepare_attempt`: every attempt field is set at once. */
  function Claimed(stored: Status, run: Uid, plan: Plan, source: BootId): Status {
    Status(PreparingBoot, true, Some(run), Some(plan), Some(source), None, None, false)
  }

  /** The cleanup and release rule: only a terminal run that gave up maintenance and netboot. */
  predicate Releasable(st: Status) {
    Terminal(st.phase) && !st.maintenance && !st.armed
  }

  /** Erasure was authorised and the record still says so. */
  predicate Committed(st: Status) {
    Erasing(st.phase) || (st.phase.Blocked? && st.maintenance)
  }

  /** The phase order, independent of who writes. */
  predicate Follows(a: Phase, b: Phase) {
    || a == b
    || (a.Pending? && b.PreparingBoot?)
    || (a.PreparingBoot? && (b.AwaitingLive? || b.Blocked?))
    || (a.AwaitingLive? && (b.Installing? || b.Blocked?))
    || (a.Installing? && (b.AwaitingInstalled? || b.Blocked?))
    || (a.AwaitingInstalled? && b.Verifying?)
    || (a.Verifying? && b.Succeeded?)
  }

  function Rank(phase: Phase): nat {
    match phase
    case Pending => 0
    case PreparingBoot => 1
    case AwaitingLive => 2
    case Installing => 3
    case AwaitingInstalled => 4
    case Verifying => 5
    case Succeeded => 6
    case Blocked => 7
  }

  /** What every stored version satisfies. */
  predicate WellFormed(run: Uid, st: Status) {
    && (st.phase.Pending? <==> st.attemptID.None?)
    && (st.attemptID.Some? ==> st.attemptID == Some(run) && st.plan.Some? && st.source.Some?)
    && (Active(st.phase) ==> st.maintenance)
    && (st.liveBoot.Some? ==> st.liveBoot != st.source)
    && (st.liveBoot.Some? && !st.phase.Blocked? ==> !st.armed)
    && (st.phase in {Pending, PreparingBoot} ==> st.liveBoot.None?)
    && (Erasing(st.phase) ==> st.liveBoot.Some?)
    && (st.phase.Pending? ==> !st.armed)
    && (st.phase.Succeeded? ==> !st.maintenance)
    && (st.phase.Blocked? && !st.maintenance ==> !st.armed)
  }

  /** What every write preserves, whoever makes it. */
  predicate Legal(run: Uid, a: Status, b: Status) {
    && WellFormed(run, b)
    && Follows(a.phase, b.phase)
    && (!a.phase.Pending? ==> b.attemptID == a.attemptID && b.plan == a.plan && b.source == a.source)
    && (Terminal(a.phase) ==> b == a)
    && (Erasing(a.phase) ==> b.liveBoot == a.liveBoot)
    && (a.liveBoot.Some? ==> b.liveBoot.Some?)
    && (Committed(a) ==> Committed(b))
  }

  datatype Run = Run(log: seq<Status>, started: nat, finished: nat, attested: set<BootId>)

  function Last(run: Run): Status
    requires |run.log| > 0
  {
    run.log[|run.log| - 1]
  }

  /** A status past installation is backed by a finished install, and past boot by an attested boot. */
  predicate Backed(run: Run, st: Status) {
    && (st.phase in {AwaitingInstalled, Verifying, Succeeded} ==> run.finished == 1)
    && (st.phase in {Verifying, Succeeded} ==> exists b :: b in run.attested && st.liveBoot != Some(b))
  }

  predicate RunOk(uid: Uid, run: Run) {
    && |run.log| > 0
    && run.log[0].phase.Pending?
    && (forall i :: 0 <= i < |run.log| ==> WellFormed(uid, run.log[i]))
    && (forall i :: 0 < i < |run.log| ==> Legal(uid, run.log[i - 1], run.log[i]))
    && Backed(run, Last(run))
    && run.finished <= run.started <= 1
    && (run.started == 1 ==> Committed(Last(run)))
  }

  /** Everything a write may never undo, between any two versions of one record. */
  lemma {:induction false} LogKeeps(uid: Uid, run: Run, i: nat, j: nat)
    requires RunOk(uid, run) && i <= j < |run.log|
    ensures Rank(run.log[i].phase) <= Rank(run.log[j].phase)
    ensures Terminal(run.log[i].phase) ==> run.log[j] == run.log[i]
    ensures !run.log[i].phase.Pending? ==>
              && run.log[j].attemptID == run.log[i].attemptID
              && run.log[j].plan == run.log[i].plan
              && run.log[j].source == run.log[i].source
    ensures Erasing(run.log[i].phase) ==> run.log[j].liveBoot == run.log[i].liveBoot
    ensures run.log[i].liveBoot.Some? ==> run.log[j].liveBoot.Some?
    ensures Committed(run.log[i]) ==> Committed(run.log[j])
    ensures Installed(run.log[i].phase) ==> Installed(run.log[j].phase)
    decreases j - i
  {
    if i < j {
      LogKeeps(uid, run, i, j - 1);
      assert Legal(uid, run.log[j - 1], run.log[j]);
    }
  }

  function Append(run: Run, st: Status): Run {
    run.(log := run.log + [st])
  }

  lemma AppendOk(uid: Uid, run: Run, st: Status)
    requires RunOk(uid, run) && Legal(uid, Last(run), st) && Backed(run, st)
    ensures RunOk(uid, Append(run, st))
  {
    var log := run.log + [st];
    forall i | 0 < i < |log|
      ensures Legal(uid, log[i - 1], log[i])
    {
      if i < |run.log| {
        assert Legal(uid, run.log[i - 1], run.log[i]);
      }
    }
  }

  /** What a pass must know of its own view before it may call `checkpoint` at a site. */
  predicate SiteOk(run: Run, view: Status, site: Site) {
    match site
    case BlockInterrupted => view.phase.Installing?
    case ArmPreparing => view.phase.PreparingBoot?
    case AwaitLiveKexec => view.phase.PreparingBoot?
    case AwaitLiveGrub => view.phase.PreparingBoot?
    case RecordContact(_, seen) => view.phase.AwaitingLive? && view.source != Some(seen)
    case Enroll(boot) => view.phase.AwaitingLive? && view.source != Some(boot)
    case EnterInstall => view.phase.AwaitingLive? && view.liveBoot.Some?
    case InstallDone => view.phase.Installing? && run.finished == 1
    case BeginVerify => view.phase.AwaitingInstalled? && exists b :: b in run.attested && view.liveBoot != Some(b)
    case Complete => view.phase.Verifying? && exists b :: b in run.attested && view.liveBoot != Some(b)
    case StayPending => Active(view.phase)
    case BlockFailure(keep) =>
      view.phase in {PreparingBoot, AwaitingLive, Installing} && (view.phase.Installing? ==> keep)
  }

  /** A checkpoint written on a version that continues a stale view is legal on that version. */
  lemma SiteLegal(uid: Uid, run: Run, ver: nat, base: nat, site: Site)
    requires RunOk(uid, run) && ver <= base < |run.log|
    requires SiteOk(run, run.log[ver], site) && Continues(run.log[base], run.log[ver])
    ensures Legal(uid, run.log[base], Merge(run.log[base], SitePatch(site, run.log[ver])))
    ensures base == |run.log| - 1 ==> Backed(run, Merge(run.log[base], SitePatch(site, run.log[ver])))
  {
    LogKeeps(uid, run, ver, base);
  }
}
