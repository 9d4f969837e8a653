/** Any number of provisioning passes over one Server, its runs and its machine.

    Every stored record is the log of its versions. A write names the version it was
    computed from and takes effect only while that version is the newest one; a write
    whose reply is lost stays deliverable, at any later time and any number of times. */
module ProvisioningSystem {
  import opened Wrappers
  import opened ProvisioningRun

  type PassId = nat

  datatype Stage =
    | RefreshPrepare | RefreshBoot | Arm | Reboot
    | Install | FinalReboot | Post
    | Clear | RefreshClear

  /** Continuation of a `current` check that only validates. */
  datatype Goal = CommitKexec | CommitInstall | Launch(stage: Stage)

  datatype Pc =
    | Binding | Bound
    | Preparing | Claiming(plan: Plan, source: BootId)
    | Resuming | PrepareBoot
    | InstallLive | AwaitLive | InspectLive | Enrolling(boot: BootId)
    | FinishBoot | AwaitInstalled | InspectInstalled
    | Verify | VerifyAgain
    | Recheck(goal: Goal)
    | Ready(stage: Stage) | Running(stage: Stage, applied: bool)
    | Reading(site: Site, left: nat) | Writing(site: Site, left: nat, base: nat)
    | ReleaseRead | ReleaseGet(left: nat, succeeded: bool) | ReleasePut(left: nat, succeeded: bool, on: nat)
    | Failing(networkPending: bool) | NotePending
    | Cleaning | CleanCheck
    | Finished

  /** One operator pass: the run it bound, its code revision and its local view of the run. */
  datatype Pass = Pass(run: Uid, revision: nat, ver: nat, view: Status, pc: Pc)

  datatype Reservation = Reservation(
    activeRun: Option<Uid>, lastSuccessful: Option<Uid>, provisioned: bool, maintenance: bool)

  datatype Selection = Grub | Kexec

  /** `pending` is the one-shot boot selection a run has set and no boot has consumed; every boot is taken to
      go through the loader that consumes it. */
  datatype Machine = Machine(boot: BootId, live: bool, pending: Option<(Uid, Selection)>)

  datatype RunWrite = RunWrite(run: Uid, base: nat, status: Status)
  datatype ServerWrite = ServerWrite(run: Uid, on: nat, succeeded: bool)

  datatype State = State(
    runs: map<Uid, Run>,
    server: seq<Reservation>,
    passes: map<PassId, Pass>,
    runWrites: set<RunWrite>,
    serverWrites: set<ServerWrite>,
    machine: Machine)

  datatype Reply = Applied | Conflict | Lost

  datatype Step =
    | CreateRun(run: Uid, maintenance: bool)
    | TouchRun(run: Uid)
    | TouchServer
    | Boot(live: bool)
    | DeliverRun(late: RunWrite)
    | DeliverServer(lateServer: ServerWrite)
    | Start(id: PassId, revision: nat)
    | Drop(id: PassId)
    | Move(id: PassId, to: Pass)
    | Claim(id: PassId, reply: Reply)
    | Checkpoint(id: PassId, reply: Reply)
    | Release(id: PassId, reply: Reply)
    | BeginStage(id: PassId)
    | StageEffect(id: PassId)
    | EndStage(id: PassId)
    | Attest(id: PassId)

  const CONFLICT_LIMIT: nat := 5

  // ---- Control flow of one pass ----

  /** The branch `reconcile` takes on the phase it was given. */
  function Dispatch(view: Status): Pc {
    if view.phase.Succeeded? then ReleaseRead
    else if view.phase.Blocked? then (if view.maintenance then Failing(false) else ReleaseRead)
    else if view.phase.Installing? then Reading(BlockInterrupted, CONFLICT_LIMIT)
    else if view.attemptID.None? || !Active(view.phase) then Preparing
    else Resuming
  }

  /** The stage function a resumed or freshly claimed attempt enters. */
  function EnterPhase(phase: Phase): Pc {
    match phase
    case PreparingBoot => PrepareBoot
    case AwaitingLive => InstallLive
    case AwaitingInstalled => FinishBoot
    case Verifying => Verify
    case _ => Finished
  }

  function AfterSite(site: Site): Pc {
    match site
    case BlockInterrupted => Finished
    case ArmPreparing => Ready(RefreshPrepare)
    case AwaitLiveKexec => Recheck(Launch(RefreshBoot))
    case AwaitLiveGrub => Recheck(Launch(Arm))
    case RecordContact(_, seen) => Enrolling(seen)
    case Enroll(_) => Recheck(CommitInstall)
    case EnterInstall => Ready(Install)
    case InstallDone => FinishBoot
    case BeginVerify => Verify
    case Complete => ReleaseRead
    case StayPending => Finished
    case BlockFailure(_) => ReleaseRead
  }

  /** Where the exception of a failed checkpoint lands. */
  function AfterError(site: Site): Pc {
    match site
    case RecordContact(_, _) => AwaitLive
    case StayPending => Finished
    case BlockFailure(_) => Finished
    case _ => Failing(false)
  }

  function Block(view: Status): Pc {
    Reading(BlockFailure(view.phase.Installing?), CONFLICT_LIMIT)
  }

  function AfterStage(stage: Stage, view: Status): Pc {
    match stage
    case RefreshPrepare => Recheck(CommitKexec)
    case RefreshBoot => InstallLive
    case Arm => Recheck(Launch(Reboot))
    case Reboot => InstallLive
    case Install => Reading(InstallDone, CONFLICT_LIMIT)
    case FinalReboot => AwaitInstalled
    case Post => VerifyAgain
    case Clear => CleanCheck
    case RefreshClear => Block(view)
  }

  function AfterGoal(goal: Goal): Pc {
    match goal
    case CommitKexec => Reading(AwaitLiveKexec, CONFLICT_LIMIT)
    case CommitInstall => Reading(EnterInstall, CONFLICT_LIMIT)
    case Launch(stage) => Ready(stage)
  }

  /** `handle_failure` on the view the pass holds. */
  function Handle(view: Status, networkPending: bool): Pc {
    if view.phase.Pending? then NotePending
    else if !Active(view.phase) then Finished
    else if networkPending || view.phase in {AwaitingInstalled, Verifying} then Reading(StayPending, CONFLICT_LIMIT)
    else if view.armed then Cleaning
    else Block(view)
  }

  predicate CleanupStage(stage: Stage) {
    stage in {Clear, RefreshClear}
  }

  /** Program points inside `reconcile`, whose exceptions reach `handle_failure`. */
  predicate InReconcile(pc: Pc) {
    match pc
    case Binding => false
    case Ready(stage) => !CleanupStage(stage)
    case Running(stage, _) => !CleanupStage(stage)
    case Reading(site, _) => AfterError(site).Failing?
    case Writing(site, _, _) => AfterError(site).Failing?
    case Failing(_) => false
    case NotePending => false
    case Cleaning => false
    case CleanCheck => false
    case Finished => false
    case _ => true
  }

  /** Program points inside the cleanup `try`, whose exceptions only retain maintenance. */
  predicate InCleanup(pc: Pc) {
    match pc
    case Cleaning => true
    case CleanCheck => true
    case Ready(stage) => CleanupStage(stage)
    case Running(stage, _) => CleanupStage(stage)
    case _ => false
  }

  function Go(x: Pass, pc: Pc): Pass {
    x.(pc := pc)
  }

  function Refreshed(x: Pass, run: Run, pc: Pc): Pass
    requires |run.log| > 0
  {
    x.(ver := |run.log| - 1, view := Last(run), pc := pc)
  }

  /** Undisturbed control moves: they read stores or the machine and change only the pass itself. */
  ghost predicate Proceeds(run: Run, server: seq<Reservation>, m: Machine, x: Pass, y: Pass)
    requires |run.log| > 0 && |server| > 0
  {
    match x.pc
    case Binding => y == Refreshed(x, run, Bound)
    case Bound => y == Go(x, Dispatch(x.view))
    case Preparing => y.pc.Claiming? && y == Go(x, Claiming(y.pc.plan, m.boot))
                      && y.pc.plan.codeRevision == x.revision
    case Resuming =>
      && Continues(Last(run), x.view)
      && x.view.plan.value.codeRevision == x.revision
      && y == Refreshed(x, run, EnterPhase(x.view.phase))
    case PrepareBoot =>
      && Some(m.boot) == x.view.source
      && y == Go(x, Reading(if m.live then ArmPreparing else AwaitLiveGrub, CONFLICT_LIMIT))
    case InstallLive =>
      if x.view.liveBoot.Some? then
        m.live && x.view.liveBoot == Some(m.boot) && x.view.source != Some(m.boot) && y == Go(x, Enrolling(m.boot))
      else
        y == Go(x, AwaitLive)
    case AwaitLive => Continues(Last(run), x.view) && y == Refreshed(x, run, InspectLive)
    case InspectLive =>
      || y == Go(x, AwaitLive)
      || (m.live && x.view.source != Some(m.boot) && y == Go(x, Enrolling(m.boot)))
      || (m.live && x.view.source != Some(m.boot) && x.view.contactKey.None?
          && exists key :: y == Go(x, Reading(RecordContact(key, m.boot), CONFLICT_LIMIT)))
    case Enrolling(boot) => Continues(Last(run), x.view) && y == Go(x, Reading(Enroll(boot), CONFLICT_LIMIT))
    case FinishBoot =>
      || y == Go(x, AwaitInstalled)
      || (m.live && x.view.liveBoot == Some(m.boot) && y == Go(x, Recheck(Launch(FinalReboot))))
    case AwaitInstalled => Continues(Last(run), x.view) && y == Refreshed(x, run, InspectInstalled)
    case InspectInstalled => y == Go(x, AwaitInstalled)
    case Recheck(goal) => Continues(Last(run), x.view) && y == Go(x, AfterGoal(goal))
    case Reading(site, left) =>
      left > 0 && Continues(Last(run), x.view) && y == Go(x, Writing(site, left, |run.log| - 1))
    case ReleaseRead =>
      if Releasable(Last(run)) then y == Go(x, ReleaseGet(CONFLICT_LIMIT, Last(run).phase.Succeeded?))
      else y == Go(x, Finished)
    case ReleaseGet(left, succeeded) =>
      && left > 0
      && server[|server| - 1].activeRun == Some(x.run)
      && y == Go(x, ReleasePut(left, succeeded, |server| - 1))
    case Failing(networkPending) => y == Go(x, Handle(x.view, networkPending))
    case NotePending => y == Go(x, Finished)
    case Cleaning =>
      && Continues(Last(run), x.view)
      && y == Go(x, if Some(m.boot) != x.view.source then Reading(BlockFailure(true), CONFLICT_LIMIT)
                    else if m.live then Ready(RefreshClear)
                    else Ready(Clear))
    case CleanCheck =>
      y == Go(x, if m.pending.Some? && m.pending.value.1.Grub? then Reading(BlockFailure(true), CONFLICT_LIMIT)
                 else Block(x.view))
    case _ => false
  }

  /** Any control move. A pass may end at any point; an exception in `reconcile` reaches the failure handler, one
      in the cleanup only retains maintenance, and a checkpoint may refuse its fresh read. The message written at
      `NotePending` leaves every field of `Status` as it was: `TouchRun` stands for it. */
  ghost predicate CanMove(run: Run, server: seq<Reservation>, m: Machine, x: Pass, y: Pass)
    requires |run.log| > 0 && |server| > 0
  {
    || y == Go(x, Finished)
    || (InReconcile(x.pc) && exists n :: y == Go(x, Failing(n)))
    || (InCleanup(x.pc) && y == Go(x, Reading(BlockFailure(true), CONFLICT_LIMIT)))
    || (x.pc.Reading? && y == Go(x, AfterError(x.pc.site)))
    || Proceeds(run, server, m, x, y)
  }

  // ---- Steps ----

  function ActiveRun(s: State): Option<Uid>
    requires |s.server| > 0
  {
    s.server[|s.server| - 1].activeRun
  }

  /** The guards that the refresh and install tasks make on the session they run in; the others have none. */
  predicate EffectAllowed(x: Pass, m: Machine) {
    x.pc.Running? &&
    match x.pc.stage
    case RefreshPrepare => m.live && Some(m.boot) == x.view.source
    case Install => m.live && Some(m.boot) == x.view.liveBoot
    case _ => true
  }

  /** The boot selection a stage leaves. Arming runs `grub-reboot`, and in a live session that does not reach
      the environment block of the disk's GRUB. */
  function EffectOn(x: Pass, m: Machine): Machine
    requires x.pc.Running?
  {
    match x.pc.stage
    case RefreshPrepare => m.(pending := Some((x.run, Kexec)))
    case Arm => if m.live then m else m.(pending := Some((x.run, Grub)))
    case Clear => if m.pending.Some? && m.pending.value.1.Grub? then m.(pending := None) else m
    case RefreshClear => if m.pending.Some? && m.pending.value.1.Kexec? then m.(pending := None) else m
    case _ => m
  }

  predicate Stored(s: State, r: Uid) {
    r in s.runs && |s.runs[r].log| > 0
  }

  predicate CanAct(s: State, id: PassId) {
    id in s.passes && Stored(s, s.passes[id].run)
  }

  predicate ClaimEnabled(s: State, id: PassId, reply: Reply) {
    && CanAct(s, id) && s.passes[id].pc.Claiming?
    && (reply.Applied? ==> s.passes[id].ver == |s.runs[s.passes[id].run].log| - 1)
  }

  predicate CheckpointEnabled(s: State, id: PassId, reply: Reply) {
    && CanAct(s, id) && s.passes[id].pc.Writing? && s.passes[id].pc.left > 0
    && s.passes[id].pc.base < |s.runs[s.passes[id].run].log|
    && (reply.Applied? ==> s.passes[id].pc.base == |s.runs[s.passes[id].run].log| - 1)
  }

  predicate ReleaseEnabled(s: State, id: PassId, reply: Reply) {
    && |s.server| > 0 && CanAct(s, id) && s.passes[id].pc.ReleasePut? && s.passes[id].pc.left > 0
    && (reply.Applied? ==> s.passes[id].pc.on == |s.server| - 1)
  }

  predicate AttestEnabled(s: State, id: PassId) {
    && CanAct(s, id) && s.passes[id].pc in {InspectInstalled, Verify, VerifyAgain}
    && !s.machine.live && s.passes[id].view.liveBoot != Some(s.machine.boot)
  }

  ghost predicate MoveEnabled(s: State, id: PassId, y: Pass) {
    && |s.server| > 0 && CanAct(s, id)
    && CanMove(s.runs[s.passes[id].run], s.server, s.machine, s.passes[id], y)
  }

  ghost predicate Enabled(s: State, step: Step) {
    && |s.server| > 0
    && match step
       case CreateRun(r, _) => r !in s.runs && ActiveRun(s).None?
       case TouchRun(r) => Stored(s, r)
       case TouchServer => true
       case Boot(_) => true
       case DeliverRun(w) => w in s.runWrites && Stored(s, w.run) && w.base == |s.runs[w.run].log| - 1
       case DeliverServer(w) => w in s.serverWrites && w.on == |s.server| - 1
       case Start(id, _) => id !in s.passes && ActiveRun(s).Some?
       case Drop(id) => id in s.passes
       case Move(id, y) => MoveEnabled(s, id, y)
       case Claim(id, reply) => ClaimEnabled(s, id, reply)
       case Checkpoint(id, reply) => CheckpointEnabled(s, id, reply)
       case Release(id, reply) => ReleaseEnabled(s, id, reply)
       case BeginStage(id) => CanAct(s, id) && s.passes[id].pc.Ready?
       case StageEffect(id) => CanAct(s, id) && EffectAllowed(s.passes[id], s.machine)
       case EndStage(id) => CanAct(s, id) && s.passes[id].pc.Running? && s.passes[id].pc.applied
       case Attest(id) => AttestEnabled(s, id)
  }

  function PutPass(s: State, id: PassId, x: Pass): State {
    s.(passes := s.passes[id := x])
  }

  function PutRun(s: State, r: Uid, run: Run): State {
    s.(runs := s.runs[r := run])
  }

  /** A completed write: the new version is the pass's new view. */
  function Commit(s: State, id: PassId, st: Status, pc: Pc): State
    requires CanAct(s, id)
  {
    var x := s.passes[id];
    var run := Append(s.runs[x.run], st);
    PutPass(PutRun(s, x.run, run), id, Refreshed(x, run, pc))
  }

  function Delay(s: State, w: RunWrite): State {
    s.(runWrites := s.runWrites + {w})
  }

  function PerformClaim(s: State, id: PassId, reply: Reply): State
    requires ClaimEnabled(s, id, reply)
  {
    var x := s.passes[id];
    var claimed := Claimed(x.view, x.run, x.pc.plan, x.pc.source);
    match reply
    case Applied => Commit(s, id, claimed, Resuming)
    case Conflict => PutPass(s, id, Go(x, Failing(false)))
    case Lost => PutPass(Delay(s, RunWrite(x.run, x.ver, claimed)), id, Go(x, Failing(false)))
  }

  function PerformCheckpoint(s: State, id: PassId, reply: Reply): State
    requires CheckpointEnabled(s, id, reply)
  {
    var x := s.passes[id];
    var merged := Merge(s.runs[x.run].log[x.pc.base], SitePatch(x.pc.site, x.view));
    match reply
    case Applied => Commit(s, id, merged, AfterSite(x.pc.site))
    case Conflict =>
      PutPass(s, id, Go(x, if x.pc.left == 1 then AfterError(x.pc.site) else Reading(x.pc.site, x.pc.left - 1)))
    case Lost => PutPass(Delay(s, RunWrite(x.run, x.pc.base, merged)), id, Go(x, AfterError(x.pc.site)))
  }

  function Released(before: Reservation, w: ServerWrite): Reservation {
    before.(activeRun := None,
            maintenance := false,
            provisioned := w.succeeded || before.provisioned,
            lastSuccessful := if w.succeeded then Some(w.run) else before.lastSuccessful)
  }

  function PerformRelease(s: State, id: PassId, reply: Reply): State
    requires ReleaseEnabled(s, id, reply)
  {
    var x := s.passes[id];
    var w := ServerWrite(x.run, x.pc.on, x.pc.succeeded);
    match reply
    case Applied =>
      PutPass(s.(server := s.server + [Released(s.server[|s.server| - 1], w)]), id, Go(x, Finished))
    case Conflict =>
      PutPass(s, id, Go(x, if x.pc.left == 1 then Failing(false) else ReleaseGet(x.pc.left - 1, x.pc.succeeded)))
    case Lost => PutPass(s.(serverWrites := s.serverWrites + {w}), id, Go(x, Failing(false)))
  }

  function Begin(s: State, id: PassId): State
    requires CanAct(s, id) && s.passes[id].pc.Ready?
  {
    var x := s.passes[id];
    var run := s.runs[x.run];
    PutPass(PutRun(s, x.run, if x.pc.stage.Install? then run.(started := run.started + 1) else run),
            id, Go(x, Running(x.pc.stage, false)))
  }

  function Effect(s: State, id: PassId): State
    requires CanAct(s, id) && s.passes[id].pc.Running?
  {
    var x := s.passes[id];
    PutPass(s.(machine := EffectOn(x, s.machine)), id, Go(x, Running(x.pc.stage, true)))
  }

  function End(s: State, id: PassId): State
    requires CanAct(s, id) && s.passes[id].pc.Running?
  {
    var x := s.passes[id];
    var run := s.runs[x.run];
    PutPass(PutRun(s, x.run, if x.pc.stage.Install? then run.(finished := run.finished + 1) else run),
            id, Go(x, AfterStage(x.pc.stage, x.view)))
  }

  function AfterAttest(pc: Pc): Pc {
    match pc
    case InspectInstalled => Reading(BeginVerify, CONFLICT_LIMIT)
    case Verify => Recheck(Launch(Post))
    case _ => Reading(Complete, CONFLICT_LIMIT)
  }

  /** The pass saw the machine in an installed session that is not the recorded live one. */
  function Attested(s: State, id: PassId): State
    requires CanAct(s, id)
  {
    var x := s.passes[id];
    var run := s.runs[x.run];
    PutPass(PutRun(s, x.run, run.(attested := run.attested + {s.machine.boot})), id, Go(x, AfterAttest(x.pc)))
  }

  function FreshRun(maintenance: bool): Run {
    Run([Status(Pending, maintenance, None, None, None, None, None, false)], 0, 0, {})
  }

  function Perform(s: State, step: Step): State
    requires Enabled(s, step)
  {
    match step
    case CreateRun(r, maintenance) =>
      PutRun(s, r, FreshRun(maintenance)).(
        server := s.server + [s.server[|s.server| - 1].(activeRun := Some(r), maintenance := true)])
    case TouchRun(r) => PutRun(s, r, Append(s.runs[r], Last(s.runs[r])))
    case TouchServer => s.(server := s.server + [s.server[|s.server| - 1]])
    case Boot(live) => s.(machine := Machine(s.machine.boot + 1, live, None))
    case DeliverRun(w) => PutRun(s, w.run, Append(s.runs[w.run], w.status))
    case DeliverServer(w) => s.(server := s.server + [Released(s.server[|s.server| - 1], w)])
    case Start(id, revision) =>
      PutPass(s, id, Pass(ActiveRun(s).value, revision, 0, FreshRun(false).log[0], Binding))
    case Drop(id) => s.(passes := s.passes - {id})
    case Move(id, y) => PutPass(s, id, y)
    case Claim(id, reply) => PerformClaim(s, id, reply)
    case Checkpoint(id, reply) => PerformCheckpoint(s, id, reply)
    case Release(id, reply) => PerformRelease(s, id, reply)
    case BeginStage(id) => Begin(s, id)
    case StageEffect(id) => Effect(s, id)
    case EndStage(id) => End(s, id)
    case Attest(id) => Attested(s, id)
  }

  predicate Initial(s: State) {
    && s.runs == map[] && s.passes == map[] && s.runWrites == {} && s.serverWrites == {}
    && |s.server| > 0
    && s.machine.pending.None?
    && (forall i :: 0 <= i < |s.server| ==> s.server[i].activeRun.None? && s.server[i].lastSuccessful.None?)
  }

  /** `s` is reached from `from` by performing the steps in order. */
  ghost predicate Reaches(from: State, steps: seq<Step>, s: State)
    decreases |steps|
  {
    if steps == [] then s == from
    else Enabled(from, steps[0]) && Reaches(Perform(from, steps[0]), steps[1..], s)
  }
}
