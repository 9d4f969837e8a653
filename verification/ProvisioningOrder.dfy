/** What a pass has done directly before each of its stages and checkpoints, over every interleaving. */
module ProvisioningOrder {
  import opened Wrappers
  import opened ProvisioningRun
  import opened ProvisioningSystem
  import opened ProvisioningSafety
  import T = ProvisioningTheorems

  /** The visible actions of one pass. `Wrote` carries the stored versions before and after the write. */
  datatype Event =
    | Wrote(before: Status, now: Status)
    | Began(stage: Stage)
    | Completed(stage: Stage)
    | SawInstalled

  ghost function EventOf(s: State, id: PassId, step: Step): Option<Event>
    requires Enabled(s, step)
  {
    match step
    case Claim(i, reply) => if i == id && reply.Applied? then Some(WroteBy(s, id, step)) else None
    case Checkpoint(i, reply) => if i == id && reply.Applied? then Some(WroteBy(s, id, step)) else None
    case BeginStage(i) => if i == id then Some(Began(s.passes[id].pc.stage)) else None
    case EndStage(i) => if i == id then Some(Completed(s.passes[id].pc.stage)) else None
    case Attest(i) => if i == id then Some(SawInstalled) else None
    case _ => None
  }

  /** The newest stored version of a run, or a fresh one when there is none. */
  function Newest(s: State, r: Uid): Status {
    if Stored(s, r) then Last(s.runs[r]) else Last(FreshRun(false))
  }

  ghost function WroteBy(s: State, id: PassId, step: Step): Event
    requires Enabled(s, step) && id in s.passes
  {
    Wrote(Newest(s, s.passes[id].run), Newest(Perform(s, step), s.passes[id].run))
  }

  /** Everything the pass `id` has done since it started, in order. */
  ghost function Trace(from: State, id: PassId, done: seq<Event>, steps: seq<Step>, s: State): seq<Event>
    requires Reaches(from, steps, s)
    decreases |steps|
  {
    if steps == [] then done else Trace(Perform(from, steps[0]), id, Record(from, id, done, steps[0]), steps[1..], s)
  }

  ghost function Record(s: State, id: PassId, done: seq<Event>, step: Step): seq<Event>
    requires Enabled(s, step)
  {
    if step.Start? && step.id == id then []
    else match EventOf(s, id, step)
      case None => done
      case Some(event) => done + [event]
  }

  predicate LastIs(done: seq<Event>, event: Event) {
    |done| > 0 && done[|done| - 1] == event
  }

  predicate LastTwoAre(done: seq<Event>, first: Event, second: Event) {
    |done| > 1 && done[|done| - 2] == first && done[|done| - 1] == second
  }

  /** The last action stored a version in this phase and with this netboot flag. */
  predicate JustStored(done: seq<Event>, phase: Phase, armed: bool) {
    |done| > 0 && done[|done| - 1].Wrote? && done[|done| - 1].now.phase == phase && done[|done| - 1].now.armed == armed
  }

  /** The pass has just enrolled the live session that it will erase from. */
  predicate JustEnrolled(done: seq<Event>) {
    JustStored(done, AwaitingLive, false) && done[|done| - 1].now.liveBoot.Some?
  }

  /** Loading the kernel was recorded as done after the stage that does it, with no live boot known yet. */
  predicate KernelLoaded(done: seq<Event>) {
    && JustStored(done, AwaitingLive, true) && done[|done| - 1].now.liveBoot.None?
    && |done| > 1 && done[|done| - 2] == Completed(RefreshPrepare)
  }

  /** What must directly precede an action of a pass. */
  predicate Allowed(done: seq<Event>, event: Event) {
    match event
    case Began(Arm) => JustStored(done, AwaitingLive, true)
    case Began(Reboot) => LastIs(done, Completed(Arm))
    case Began(RefreshPrepare) => JustStored(done, PreparingBoot, true)
    case Began(RefreshBoot) => KernelLoaded(done)
    case Began(Install) => |done| > 0 && done[|done| - 1].Wrote? && done[|done| - 1].now.phase.Installing?
    case Began(Post) => LastIs(done, SawInstalled)
    case Wrote(before, now) =>
      && (now.phase.Installing? && !before.phase.Installing? ==> JustEnrolled(done))
      && (now.phase.AwaitingInstalled? && !before.phase.AwaitingInstalled? ==> LastIs(done, Completed(Install)))
      && (now.phase.Verifying? && !before.phase.Verifying? ==> LastIs(done, SawInstalled))
      && (now.phase.Succeeded? && !before.phase.Succeeded? ==> LastTwoAre(done, Completed(Post), SawInstalled))
    case _ => true
  }

  predicate SiteFollows(done: seq<Event>, site: Site) {
    match site
    case AwaitLiveKexec => LastIs(done, Completed(RefreshPrepare))
    case EnterInstall => JustEnrolled(done)
    case InstallDone => LastIs(done, Completed(Install))
    case BeginVerify => LastIs(done, SawInstalled)
    case Complete => LastTwoAre(done, Completed(Post), SawInstalled)
    case _ => true
  }

  predicate GoalFollows(done: seq<Event>, goal: Goal) {
    match goal
    case CommitKexec => LastIs(done, Completed(RefreshPrepare))
    case CommitInstall => JustEnrolled(done)
    case Launch(stage) => Allowed(done, Began(stage))
  }

  /** What the program point of a pass says about its last actions. */
  predicate Follows(done: seq<Event>, pc: Pc) {
    match pc
    case Recheck(goal) => GoalFollows(done, goal)
    case Ready(stage) => Allowed(done, Began(stage))
    case Running(stage, _) => LastIs(done, Began(stage))
    case Reading(site, _) => SiteFollows(done, site)
    case Writing(site, _, _) => SiteFollows(done, site)
    case VerifyAgain => LastIs(done, Completed(Post))
    case _ => true
  }

  ghost predicate Ordered(s: State, id: PassId, done: seq<Event>) {
    id in s.passes ==> Follows(done, s.passes[id].pc)
  }

  // ---- Preservation ----

  lemma MoveFollows(run: Run, server: seq<Reservation>, m: Machine, x: Pass, y: Pass, done: seq<Event>)
    requires |run.log| > 0 && |server| > 0 && CanMove(run, server, m, x, y) && Follows(done, x.pc)
    ensures Follows(done, y.pc)
  {
  }

  lemma SiteFollowsUp(done: seq<Event>, site: Site, view: Status, stored: Status)
    requires SiteFollows(done, site) && Continues(stored, view)
    ensures var event := Wrote(stored, Merge(stored, SitePatch(site, view)));
            Follows(done + [event], AfterSite(site)) && Allowed(done, event)
  {
  }

  lemma CheckpointStores(s: State, id: PassId)
    requires |s.server| > 0 && CheckpointEnabled(s, id, Applied)
    ensures var x := s.passes[id];
            WroteBy(s, id, Checkpoint(id, Applied))
            == Wrote(Last(s.runs[x.run]), Merge(Last(s.runs[x.run]), SitePatch(x.pc.site, x.view)))
  {
    hide Merge, SitePatch, AfterSite;
  }

  /** A checkpoint that may be applied continues the record its pass has seen. */
  predicate BaseOk(s: State, id: PassId) {
    CanAct(s, id) && s.passes[id].pc.Writing? && s.passes[id].pc.base == |s.runs[s.passes[id].run].log| - 1 ==>
      Continues(Last(s.runs[s.passes[id].run]), s.passes[id].view)
  }

  lemma InvBaseOk(s: State, id: PassId)
    requires Inv(s)
    ensures BaseOk(s, id)
  {
    hide Inv, RunOk, PassOk, Continues;
    if CanAct(s, id) && s.passes[id].pc.Writing? {
      InvAt(s, id);
      BaseContinues(s.runs[s.passes[id].run], s.passes[id]);
    }
  }

  lemma BaseContinues(run: Run, x: Pass)
    requires PassOk(run, x) && x.pc.Writing?
    ensures |run.log| > 0 && (x.pc.base == |run.log| - 1 ==> Continues(Last(run), x.view))
  {
  }

  lemma CheckpointFollows(s: State, id: PassId, done: seq<Event>)
    requires |s.server| > 0 && CheckpointEnabled(s, id, Applied) && BaseOk(s, id) && SiteFollows(done, s.passes[id].pc.site)
    ensures var event := WroteBy(s, id, Checkpoint(id, Applied));
            Follows(done + [event], AfterSite(s.passes[id].pc.site)) && Allowed(done, event)
  {
    var x := s.passes[id];
    hide Follows, Allowed, AfterSite, Merge, SitePatch, Continues, SiteFollows, WroteBy;
    CheckpointStores(s, id);
    SiteFollowsUp(done, x.pc.site, x.view, Last(s.runs[x.run]));
  }

  lemma StageFollows(s: State, id: PassId, done: seq<Event>)
    requires CanAct(s, id) && Follows(done, s.passes[id].pc)
    ensures s.passes[id].pc.Ready? ==> Follows(done + [Began(s.passes[id].pc.stage)], Running(s.passes[id].pc.stage, false))
    ensures s.passes[id].pc.Running? ==>
              Follows(done + [Completed(s.passes[id].pc.stage)], AfterStage(s.passes[id].pc.stage, s.passes[id].view))
  {
  }

  lemma AttestFollows(done: seq<Event>, pc: Pc)
    requires pc in {InspectInstalled, Verify, VerifyAgain} && Follows(done, pc)
    ensures Follows(done + [SawInstalled], AfterAttest(pc))
  {
  }

  lemma StepFollows(s: State, id: PassId, done: seq<Event>, step: Step)
    requires Inv(s) && Enabled(s, step) && Ordered(s, id, done)
    ensures Ordered(Perform(s, step), id, Record(s, id, done, step))
    ensures EventOf(s, id, step).Some? ==> Allowed(done, EventOf(s, id, step).value)
  {
    hide Inv, Follows, Allowed, CanMove, AfterSite, AfterStage, AfterAttest, Merge, SitePatch, SiteFollows, BaseOk;
    match step {
      case Move(i, y) =>
        if i == id {
          MoveFollows(s.runs[s.passes[id].run], s.server, s.machine, s.passes[id], y, done);
        }
      case Checkpoint(i, reply) =>
        if i == id {
          InvBaseOk(s, id);
          AtSite(done, s.passes[id].pc);
          CheckpointStep(s, id, done, reply);
        }
      case BeginStage(_) => StageStep(s, id, done, step);
      case EndStage(_) => StageStep(s, id, done, step);
      case Attest(_) => StageStep(s, id, done, step);
      case _ => OtherStep(s, id, done, step);
    }
  }

  lemma StageStep(s: State, id: PassId, done: seq<Event>, step: Step)
    requires Enabled(s, step) && Ordered(s, id, done) && (step.BeginStage? || step.EndStage? || step.Attest?)
    ensures Ordered(Perform(s, step), id, Record(s, id, done, step))
    ensures EventOf(s, id, step).Some? ==> Allowed(done, EventOf(s, id, step).value)
  {
    if step.id == id {
      var pc := s.passes[id].pc;
      StageFollows(s, id, done);
      CompletedAllowed(done, if pc.Running? then pc.stage else Post);
      if pc.Ready? {
        ReadyAllows(done, pc);
      }
      if step.Attest? {
        AttestFollows(done, pc);
      }
    }
    hide Follows, Allowed, AfterStage, AfterAttest;
  }

  lemma AtSite(done: seq<Event>, pc: Pc)
    requires Follows(done, pc) && pc.Writing?
    ensures SiteFollows(done, pc.site)
  {
  }

  lemma ReadyAllows(done: seq<Event>, pc: Pc)
    requires Follows(done, pc) && pc.Ready?
    ensures Allowed(done, Began(pc.stage))
  {
  }

  lemma CompletedAllowed(done: seq<Event>, stage: Stage)
    ensures Allowed(done, Completed(stage)) && Allowed(done, SawInstalled)
  {
  }

  lemma CheckpointTo(s: State, id: PassId, reply: Reply)
    requires |s.server| > 0 && CheckpointEnabled(s, id, reply)
    ensures id in Perform(s, Checkpoint(id, reply)).passes
    ensures var x, y := s.passes[id], Perform(s, Checkpoint(id, reply)).passes[id];
            y.pc == if reply.Applied? then AfterSite(x.pc.site)
                    else if reply.Conflict? && x.pc.left > 1 then Reading(x.pc.site, x.pc.left - 1)
                    else AfterError(x.pc.site)
  {
    hide Merge, SitePatch, AfterSite, AfterError;
  }

  lemma ErrorFollows(done: seq<Event>, site: Site, left: nat)
    requires SiteFollows(done, site)
    ensures Follows(done, AfterError(site)) && Follows(done, Reading(site, left))
  {
  }

  lemma CheckpointStep(s: State, id: PassId, done: seq<Event>, reply: Reply)
    requires |s.server| > 0 && CheckpointEnabled(s, id, reply) && BaseOk(s, id) && SiteFollows(done, s.passes[id].pc.site)
    ensures Ordered(Perform(s, Checkpoint(id, reply)), id, Record(s, id, done, Checkpoint(id, reply)))
    ensures reply.Applied? ==> Allowed(done, WroteBy(s, id, Checkpoint(id, reply)))
  {
    hide Follows, Allowed, AfterSite, AfterError, SiteFollows, WroteBy, Perform, BaseOk;
    var x := s.passes[id];
    CheckpointTo(s, id, reply);
    if reply.Applied? {
      CheckpointFollows(s, id, done);
    } else {
      ErrorFollows(done, x.pc.site, if x.pc.left > 0 then x.pc.left - 1 else 0);
    }
  }

  lemma OtherStep(s: State, id: PassId, done: seq<Event>, step: Step)
    requires Enabled(s, step) && Ordered(s, id, done)
    requires !step.Move? && !step.Checkpoint? && !step.BeginStage? && !step.EndStage? && !step.Attest?
    ensures Ordered(Perform(s, step), id, Record(s, id, done, step))
    ensures EventOf(s, id, step).Some? ==> Allowed(done, EventOf(s, id, step).value)
  {
  }

  lemma {:induction false} TraceFollows(
      from: State, id: PassId, done: seq<Event>, steps: seq<Step>, s: State)
    requires Inv(from) && Reaches(from, steps, s) && Ordered(from, id, done)
    ensures Ordered(s, id, Trace(from, id, done, steps, s))
    decreases |steps|
  {
    hide Inv, Ordered;
    if steps != [] {
      StepInv(from, steps[0]);
      StepFollows(from, id, done, steps[0]);
      TraceFollows(Perform(from, steps[0]), id, Record(from, id, done, steps[0]), steps[1..], s);
    }
  }

  /** Over every interleaving, each action of a pass directly follows what makes it safe: netboot is armed and a kernel
      loaded only after that was recorded, a reboot follows the stage that arms it, the erase follows the pass's own
      Installing write and that its own enrollment of the live session, the installation is recorded only after
      it completed, and success only after the final stage and another look at the installed session. */
  lemma EveryActionIsPrepared(from: State, steps: seq<Step>, s: State, id: PassId, step: Step)
    requires Initial(from) && Reaches(from, steps, s) && Enabled(s, step)
    requires EventOf(s, id, step).Some?
    ensures Allowed(Trace(from, id, [], steps, s), EventOf(s, id, step).value)
  {
    InitialInv(from);
    T.ReachableFromStart(from, steps, s);
    TraceFollows(from, id, [], steps, s);
    StepFollows(s, id, Trace(from, id, [], steps, s), step);
  }

  /** Between its stages a pass resumes, waits for a session, delivers keys, launches and writes only after a fresh read
      still showed its attempt, plan and phase. */
  lemma MovesOnCurrentRecord(run: Run, server: seq<Reservation>, m: Machine, x: Pass, y: Pass)
    requires |run.log| > 0 && |server| > 0 && CanMove(run, server, m, x, y) && !y.pc.Finished? && !y.pc.Failing?
    requires x.pc.Resuming? || x.pc.AwaitLive? || x.pc.Enrolling? || x.pc.AwaitInstalled? || x.pc.Recheck?
             || (x.pc.Reading? && y.pc.Writing?) || (x.pc.Cleaning? && y.pc.Ready?)
    ensures x.view.attemptID.Some? && Last(run).attemptID == x.view.attemptID
    ensures Last(run).plan == x.view.plan && Last(run).phase == x.view.phase
    ensures x.pc.Reading? ==> y.pc.base == |run.log| - 1 && y.pc.site == x.pc.site && y.pc.left == x.pc.left
  {
  }

  /** Whenever a pass comes to a stage, the newest record still shows the attempt, plan and phase it acts on. */
  lemma LaunchesAreCurrent(s: State, step: Step, id: PassId)
    requires Inv(s) && Enabled(s, step) && id in Perform(s, step).passes && Perform(s, step).passes[id].pc.Ready?
    requires id in s.passes ==> !s.passes[id].pc.Ready?
    ensures var t := Perform(s, step);
            Stored(t, t.passes[id].run) && Continues(Last(t.runs[t.passes[id].run]), t.passes[id].view)
  {
    hide Inv, CanMove, Merge, SitePatch, AfterSite, AfterError, AfterStage, AfterAttest, Continues, BaseOk;
    match step {
      case Move(i, y) =>
        if i == id {
          MoveLaunches(s.runs[s.passes[id].run], s.server, s.machine, s.passes[id], y);
        }
      case Checkpoint(i, reply) =>
        if i == id {
          InvBaseOk(s, id);
          WriteLaunches(s, id, reply);
        }
      case _ => OtherLaunches(s, step, id);
    }
  }

  lemma MoveLaunches(run: Run, server: seq<Reservation>, m: Machine, x: Pass, y: Pass)
    requires |run.log| > 0 && |server| > 0 && CanMove(run, server, m, x, y) && y.pc.Ready? && !x.pc.Ready?
    ensures Continues(Last(run), x.view) && y.view == x.view && y.run == x.run
  {
    hide Continues;
  }

  lemma WriteLaunches(s: State, id: PassId, reply: Reply)
    requires |s.server| > 0 && CheckpointEnabled(s, id, reply) && BaseOk(s, id)
    requires Perform(s, Checkpoint(id, reply)).passes[id].pc.Ready?
    ensures var t := Perform(s, Checkpoint(id, reply));
            Stored(t, t.passes[id].run) && Continues(Last(t.runs[t.passes[id].run]), t.passes[id].view)
  {
    hide SitePatch, AfterSite;
    assert !AfterError(s.passes[id].pc.site).Ready?;
    hide AfterError;
  }

  lemma OtherLaunches(s: State, step: Step, id: PassId)
    requires Enabled(s, step) && !step.Move? && !step.Checkpoint? && id in Perform(s, step).passes
    requires Perform(s, step).passes[id].pc.Ready?
    ensures id in s.passes && s.passes[id].pc.Ready?
  {
  }

  /** What a stage may do to the machine now, in terms of the newest record of its run. */
  predicate RunsInItsSession(x: Pass, run: Run, m: Machine) {
    |run.log| > 0 && x.pc.Running? &&
    match x.pc.stage
    case Install => m.live && Last(run).liveBoot == Some(m.boot) && Last(run).source != Some(m.boot)
    case RefreshPrepare => m.live && Last(run).source == Some(m.boot)
    case _ => true
  }

  /** The disk is erased only in the live session that the newest record names, and a kernel loaded only in the live
      session the run started from. */
  lemma ErasesInRecordedSession(from: State, steps: seq<Step>, s: State, id: PassId)
    requires Initial(from) && Reaches(from, steps, s) && Enabled(s, StageEffect(id))
    ensures RunsInItsSession(s.passes[id], s.runs[s.passes[id].run], s.machine)
  {
    T.ReachableFromStart(from, steps, s);
    hide Inv, RunOk, PassOk, Reaches, Initial, RunsInItsSession;
    InvAt(s, id);
    StageView(s.passes[id].run, s.runs[s.passes[id].run], s.passes[id], s.machine);
  }

  lemma StageView(r: Uid, run: Run, x: Pass, m: Machine)
    requires RunOk(r, run) && PassOk(run, x) && EffectAllowed(x, m)
    ensures RunsInItsSession(x, run, m)
  {
    if x.pc.stage.Install? || x.pc.stage.RefreshPrepare? {
      LogKeeps(r, run, x.ver, |run.log| - 1);
      assert WellFormed(r, run.log[x.ver]);
    }
  }

  // ---- The code revision ----

  predicate SiteOfAttempt(site: Site) {
    !site.BlockInterrupted? && !site.StayPending? && !site.BlockFailure?
  }

  /** Program points behind the revision check of a resumed or fresh attempt. */
  predicate InAttempt(pc: Pc) {
    match pc
    case PrepareBoot => true
    case InstallLive => true
    case AwaitLive => true
    case InspectLive => true
    case Enrolling(_) => true
    case FinishBoot => true
    case AwaitInstalled => true
    case InspectInstalled => true
    case Verify => true
    case VerifyAgain => true
    case Recheck(_) => true
    case Ready(stage) => !CleanupStage(stage)
    case Running(stage, _) => !CleanupStage(stage)
    case Reading(site, _) => SiteOfAttempt(site)
    case Writing(site, _, _) => SiteOfAttempt(site)
    case _ => false
  }

  predicate OwnCode(x: Pass) {
    && (InAttempt(x.pc) ==> x.view.plan.Some? && x.view.plan.value.codeRevision == x.revision)
    && (x.pc.Claiming? ==> x.pc.plan.codeRevision == x.revision)
  }

  ghost predicate AllOwnCode(s: State) {
    forall id :: id in s.passes ==> OwnCode(s.passes[id])
  }

  lemma MoveOwnCode(run: Run, server: seq<Reservation>, m: Machine, x: Pass, y: Pass)
    requires |run.log| > 0 && |server| > 0 && CanMove(run, server, m, x, y) && OwnCode(x)
    ensures OwnCode(y)
  {
  }

  lemma CheckpointOwnCode(s: State, id: PassId, reply: Reply)
    requires CheckpointEnabled(s, id, reply) && OwnCode(s.passes[id]) && Inv(s)
    ensures OwnCode(PerformCheckpoint(s, id, reply).passes[id])
  {
    hide Inv, RunOk;
    InvAt(s, id);
  }

  lemma StepOwnCode(s: State, step: Step)
    requires Inv(s) && AllOwnCode(s) && Enabled(s, step)
    ensures AllOwnCode(Perform(s, step))
  {
    hide Inv, CanMove;
    match step {
      case Move(id, y) =>
        MoveOwnCode(s.runs[s.passes[id].run], s.server, s.machine, s.passes[id], y);
        hide OwnCode;
      case Checkpoint(id, reply) =>
        CheckpointOwnCode(s, id, reply);
        hide OwnCode, Merge, SitePatch;
      case Claim(id, reply) =>
        hide CheckpointEnabled, EffectAllowed;
      case _ => OtherOwnCode(s, step);
    }
  }

  lemma OtherOwnCode(s: State, step: Step)
    requires AllOwnCode(s) && Enabled(s, step) && !step.Move? && !step.Checkpoint? && !step.Claim?
    ensures AllOwnCode(Perform(s, step))
  {
    hide CanMove, Merge, SitePatch;
  }

  lemma {:induction false} OwnCodeReached(from: State, steps: seq<Step>, s: State)
    requires Inv(from) && AllOwnCode(from) && Reaches(from, steps, s)
    ensures AllOwnCode(s)
    decreases |steps|
  {
    hide Inv, AllOwnCode;
    if steps != [] {
      StepInv(from, steps[0]);
      StepOwnCode(from, steps[0]);
      OwnCodeReached(Perform(from, steps[0]), steps[1..], s);
    }
  }

  /** No pass starts a stage for an attempt that another revision of the operator pinned, but for the cleanup of
      a failed one. */
  lemma StagesUsePinnedRevision(from: State, steps: seq<Step>, s: State, id: PassId)
    requires Initial(from) && Reaches(from, steps, s) && Enabled(s, BeginStage(id))
    requires s.passes[id].pc.stage !in {Clear, RefreshClear}
    ensures var stored := Last(s.runs[s.passes[id].run]);
            stored.plan.Some? && stored.plan.value.codeRevision == s.passes[id].revision
  {
    InitialInv(from);
    OwnCodeReached(from, steps, s);
    T.ReachableFromStart(from, steps, s);
    hide Inv, RunOk, PassOk, Reaches, Initial;
    InvAt(s, id);
    var x := s.passes[id];
    assert OwnCode(x);
    PlanStays(x.run, s.runs[x.run], x);
  }

  /** A claim pins the revision of the operator that makes it. */
  lemma ClaimsPinOwnRevision(from: State, steps: seq<Step>, s: State, id: PassId)
    requires Initial(from) && Reaches(from, steps, s) && Enabled(s, Claim(id, Applied))
    ensures var t := Perform(s, Claim(id, Applied));
            && id in t.passes && Stored(t, t.passes[id].run)
            && var claimed := Last(t.runs[t.passes[id].run]);
               claimed.plan.Some? && claimed.plan.value.codeRevision == s.passes[id].revision
  {
    InitialInv(from);
    OwnCodeReached(from, steps, s);
    assert OwnCode(s.passes[id]);
  }

  lemma PlanStays(r: Uid, run: Run, x: Pass)
    requires RunOk(r, run) && PassOk(run, x) && x.pc.Ready? && x.view.plan.Some?
    ensures Last(run).plan == x.view.plan
  {
    LogKeeps(r, run, x.ver, |run.log| - 1);
  }
}
