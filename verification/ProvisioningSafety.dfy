/** Safety of provisioning over every interleaving of passes, crashes, conflicts and late writes. */
module ProvisioningSafety {
  import opened Wrappers
  import opened ProvisioningRun
  import opened ProvisioningSystem

  // ---- The inductive invariant ----

  predicate Cleanable(phase: Phase) {
    phase in {PreparingBoot, AwaitingLive, Installing}
  }

  /** The phase a pass has seen when it is about to run, or is running, a stage. */
  predicate StageOk(stage: Stage, phase: Phase) {
    match stage
    case RefreshPrepare => phase.PreparingBoot?
    case RefreshBoot => phase.AwaitingLive?
    case Arm => phase.AwaitingLive?
    case Reboot => phase.AwaitingLive?
    case Install => phase.Installing?
    case FinalReboot => phase.AwaitingInstalled?
    case Post => phase.Verifying?
    case Clear => Cleanable(phase)
    case RefreshClear => Cleanable(phase)
  }

  predicate GoalOk(goal: Goal, view: Status) {
    match goal
    case CommitKexec => view.phase.PreparingBoot?
    case CommitInstall => view.phase.AwaitingLive? && view.liveBoot.Some?
    case Launch(stage) => stage in {RefreshBoot, Arm, Reboot, FinalReboot, Post} && StageOk(stage, view.phase)
  }

  /** What the program point of a pass says about its view and about the current record. */
  ghost predicate PcOk(run: Run, x: Pass)
    requires |run.log| > 0
  {
    match x.pc
    case Preparing => x.view.phase.Pending?
    case Claiming(_, _) => x.view.phase.Pending?
    case Resuming => Active(x.view.phase)
    case PrepareBoot => x.view.phase.PreparingBoot?
    case InstallLive => x.view.phase.AwaitingLive?
    case AwaitLive => x.view.phase.AwaitingLive?
    case InspectLive => x.view.phase.AwaitingLive?
    case Enrolling(boot) => x.view.phase.AwaitingLive? && x.view.source != Some(boot)
    case FinishBoot => x.view.phase.AwaitingInstalled?
    case AwaitInstalled => x.view.phase.AwaitingInstalled?
    case InspectInstalled => x.view.phase.AwaitingInstalled?
    case Verify => x.view.phase.Verifying?
    case VerifyAgain => x.view.phase.Verifying?
    case Recheck(goal) => GoalOk(goal, x.view)
    case Ready(stage) =>
      StageOk(stage, x.view.phase) && (stage.Install? ==> run.started == 0 && Committed(Last(run)))
    case Running(stage, _) =>
      StageOk(stage, x.view.phase) && (stage.Install? ==> run.started == 1 && run.finished == 0)
    case Reading(site, _) => SiteOk(run, x.view, site)
    case Writing(site, _, base) =>
      SiteOk(run, x.view, site) && x.ver <= base < |run.log| && Continues(run.log[base], x.view)
    case ReleaseGet(_, succeeded) => Releasable(Last(run)) && (succeeded ==> Last(run).phase.Succeeded?)
    case ReleasePut(_, succeeded, _) => Releasable(Last(run)) && (succeeded ==> Last(run).phase.Succeeded?)
    case Cleaning => Cleanable(x.view.phase)
    case CleanCheck => Cleanable(x.view.phase)
    case _ => true
  }

  ghost predicate PassOk(run: Run, x: Pass) {
    && |run.log| > 0
    && (x.pc.Binding? || x.pc.Finished? || (x.ver < |run.log| && run.log[x.ver] == x.view && PcOk(run, x)))
  }

  predicate Installer(x: Pass) {
    match x.pc
    case Ready(stage) => stage.Install?
    case Running(stage, _) => stage.Install?
    case _ => false
  }

  ghost predicate WriteOk(run: Run, w: RunWrite) {
    && 0 < |run.log| && w.base < |run.log|
    && (w.base == |run.log| - 1 ==> Legal(w.run, Last(run), w.status) && Backed(run, w.status))
  }

  ghost predicate RunsOk(s: State) {
    forall r :: r in s.runs ==> RunOk(r, s.runs[r])
  }

  ghost predicate PassesOk(s: State) {
    forall id :: id in s.passes ==>
      s.passes[id].run in s.runs && PassOk(s.runs[s.passes[id].run], s.passes[id])
  }

  ghost predicate OneInstaller(s: State) {
    forall i, j | i in s.passes && j in s.passes && s.passes[i].run == s.passes[j].run ::
      Installer(s.passes[i]) && Installer(s.passes[j]) ==> i == j
  }

  ghost predicate WritesOk(s: State) {
    forall w :: w in s.runWrites ==> w.run in s.runs && WriteOk(s.runs[w.run], w)
  }

  /** A run that may release its Server, and how it ended. */
  ghost predicate Done(s: State, r: Uid, succeeded: bool) {
    && r in s.runs && |s.runs[r].log| > 0
    && Releasable(Last(s.runs[r]))
    && (succeeded ==> Last(s.runs[r]).phase.Succeeded?)
  }

  /** Only a releasable run can have lost the reservation. */
  ghost predicate Held(s: State) {
    && |s.server| > 0
    && (forall r :: r in s.runs ==> Done(s, r, false) || ActiveRun(s) == Some(r))
  }

  ghost predicate HistoryOk(s: State) {
    && (forall i :: 0 <= i < |s.server| && s.server[i].activeRun.Some? ==> s.server[i].activeRun.value in s.runs)
    && (forall i :: 0 <= i < |s.server| && s.server[i].lastSuccessful.Some? ==>
          Done(s, s.server[i].lastSuccessful.value, true))
    && (forall i | 0 < i < |s.server| && s.server[i - 1].activeRun.Some? ::
          s.server[i].activeRun == s.server[i - 1].activeRun || Done(s, s.server[i - 1].activeRun.value, false))
  }

  ghost predicate ReleasesOk(s: State) {
    && (forall w :: w in s.serverWrites ==>
          && Done(s, w.run, w.succeeded)
          && w.on < |s.server| && s.server[w.on].activeRun == Some(w.run))
    && (forall id :: id in s.passes && s.passes[id].pc.ReleasePut? ==>
          && s.passes[id].pc.on < |s.server|
          && s.server[s.passes[id].pc.on].activeRun == Some(s.passes[id].run))
  }

  ghost predicate Inv(s: State) {
    && RunsOk(s) && PassesOk(s) && OneInstaller(s) && WritesOk(s)
    && Held(s) && HistoryOk(s) && ReleasesOk(s)
  }

  // ---- Preservation by the three primitive changes ----

  lemma PassOkAppend(uid: Uid, run: Run, st: Status, x: Pass)
    requires RunOk(uid, run) && PassOk(run, x) && Legal(uid, Last(run), st)
    ensures PassOk(Append(run, st), x)
  {
  }

  lemma DoneAppend(s: State, r: Uid, st: Status, q: Uid, succeeded: bool)
    requires RunsOk(s) && r in s.runs && Legal(r, Last(s.runs[r]), st) && Done(s, q, succeeded)
    ensures Done(PutRun(s, r, Append(s.runs[r], st)), q, succeeded)
  {
  }

  /** Appending a legal version keeps every other obligation. */
  lemma AppendInv(s: State, r: Uid, st: Status)
    requires Inv(s) && r in s.runs && Legal(r, Last(s.runs[r]), st) && Backed(s.runs[r], st)
    ensures Inv(PutRun(s, r, Append(s.runs[r], st)))
  {
    var t := PutRun(s, r, Append(s.runs[r], st));
    AppendOk(r, s.runs[r], st);
    forall id | id in t.passes
      ensures t.passes[id].run in t.runs && PassOk(t.runs[t.passes[id].run], t.passes[id])
    {
      if t.passes[id].run == r { PassOkAppend(r, s.runs[r], st, t.passes[id]); }
    }
    forall q, succeeded | Done(s, q, succeeded)
      ensures Done(t, q, succeeded)
    {
      DoneAppend(s, r, st, q, succeeded);
    }
    assert WritesOk(t);
    assert Held(t);
    assert HistoryOk(t);
  }

  predicate MayInstall(s: State, id: PassId, y: Pass) {
    Installer(y) ==> forall j :: j in s.passes && s.passes[j].run == y.run && Installer(s.passes[j]) ==> j == id
  }

  /** Changing one pass keeps the invariant when its new program point is justified. */
  lemma PutPassInv(s: State, id: PassId, y: Pass)
    requires Inv(s) && y.run in s.runs && PassOk(s.runs[y.run], y)
    requires MayInstall(s, id, y)
    requires y.pc.ReleasePut? ==> y.pc.on < |s.server| && s.server[y.pc.on].activeRun == Some(y.run)
    ensures Inv(PutPass(s, id, y))
  {
    hide RunOk, PassOk, WriteOk, Done;
    var t := PutPass(s, id, y);
    SameDone(s, t);
    assert PassesOk(t);
    assert WritesOk(t);
  }

  lemma SameDone(s: State, t: State)
    requires t.runs == s.runs
    ensures forall q, succeeded :: Done(t, q, succeeded) == Done(s, q, succeeded)
  {
  }

  lemma DoneEither(s: State, q: Uid, succeeded: bool)
    requires Done(s, q, succeeded)
    ensures Done(s, q, false)
  {
  }

  lemma FreshRunOk(r: Uid, maintenance: bool)
    ensures RunOk(r, FreshRun(maintenance))
  {
  }

  lemma NewRunDone(s: State, t: State, r: Uid, q: Uid, succeeded: bool)
    requires r !in s.runs && (forall p :: p in s.runs ==> p in t.runs && t.runs[p] == s.runs[p]) && Done(s, q, succeeded)
    ensures Done(t, q, succeeded)
  {
  }

  lemma DelayInv(s: State, w: RunWrite)
    requires Inv(s) && w.run in s.runs && WriteOk(s.runs[w.run], w)
    ensures Inv(Delay(s, w))
  {
  }

  // ---- Preservation by every step ----

  lemma InitialInv(s: State)
    requires Initial(s)
    ensures Inv(s)
  {
  }

  lemma DispatchOk(uid: Uid, view: Status)
    requires WellFormed(uid, view)
    ensures match Dispatch(view)
            case Preparing => view.phase.Pending?
            case Resuming => Active(view.phase)
            case Reading(site, _) => site.BlockInterrupted? && view.phase.Installing?
            case Failing(_) => true
            case ReleaseRead => true
            case _ => false
  {
  }

  lemma HandleOk(view: Status, networkPending: bool)
    ensures match Handle(view, networkPending)
            case NotePending => view.phase.Pending?
            case Finished => true
            case Reading(site, _) =>
              (site.StayPending? && Active(view.phase))
              || (site.BlockFailure? && Cleanable(view.phase) && (view.phase.Installing? ==> site.keep))
            case Cleaning => Cleanable(view.phase)
            case _ => false
  {
  }

  predicate RefreshPoint(pc: Pc) {
    pc in {Binding, Resuming, AwaitLive, AwaitInstalled}
  }

  lemma RefreshOk(uid: Uid, run: Run, server: seq<Reservation>, m: Machine, x: Pass, y: Pass)
    requires RunOk(uid, run) && PassOk(run, x) && |server| > 0 && CanMove(run, server, m, x, y)
    requires RefreshPoint(x.pc) && y.ver == |run.log| - 1 && y.view == Last(run) && !y.pc.Failing? && !y.pc.Finished?
    ensures PassOk(run, y) && y.run == x.run && !Installer(y) && !y.pc.ReleasePut?
  {
  }

  predicate EarlyPoint(pc: Pc) {
    pc in {Bound, Preparing, PrepareBoot, Cleaning, CleanCheck} || pc.Failing? || pc.Recheck?
  }

  lemma DispatchPassOk(uid: Uid, run: Run, x: Pass)
    requires RunOk(uid, run) && PassOk(run, x) && (x.pc.Bound? || x.pc.Failing?)
    ensures var pc := if x.pc.Bound? then Dispatch(x.view) else Handle(x.view, x.pc.networkPending);
            PassOk(run, Go(x, pc)) && !Installer(Go(x, pc)) && !pc.ReleasePut?
  {
    if x.pc.Bound? {
      DispatchOk(uid, x.view);
    } else {
      HandleOk(x.view, x.pc.networkPending);
    }
  }

  lemma EarlyOk(uid: Uid, run: Run, server: seq<Reservation>, m: Machine, x: Pass, y: Pass)
    requires RunOk(uid, run) && PassOk(run, x) && |server| > 0 && CanMove(run, server, m, x, y)
    requires EarlyPoint(x.pc) && !y.pc.Finished? && !y.pc.Failing?
    ensures PassOk(run, y) && y.run == x.run && !Installer(y) && !y.pc.ReleasePut?
  {
    hide RunOk, Dispatch, Handle;
    if x.pc.Bound? || x.pc.Failing? {
      hide PassOk;
      DispatchPassOk(uid, run, x);
    }
  }

  lemma LateOk(uid: Uid, run: Run, server: seq<Reservation>, m: Machine, x: Pass, y: Pass)
    requires RunOk(uid, run) && PassOk(run, x) && |server| > 0 && CanMove(run, server, m, x, y)
    requires !EarlyPoint(x.pc) && !RefreshPoint(x.pc) && !y.pc.Finished? && !y.pc.Failing?
    ensures PassOk(run, y) && y.run == x.run && !Installer(y)
    ensures y.pc.ReleasePut? ==> y.pc.on == |server| - 1 && server[y.pc.on].activeRun == Some(y.run)
  {
    hide RunOk;
    if x.pc.Reading? {
      hide SiteOk;
    }
  }

  /** Every control move lands on a program point its view justifies. */
  lemma MoveOk(uid: Uid, run: Run, server: seq<Reservation>, m: Machine, x: Pass, y: Pass)
    requires RunOk(uid, run) && PassOk(run, x) && |server| > 0 && CanMove(run, server, m, x, y)
    ensures PassOk(run, y) && y.run == x.run && !Installer(y)
    ensures y.pc.ReleasePut? ==> y.pc.on == |server| - 1 && server[y.pc.on].activeRun == Some(y.run)
  {
    if y.pc.Finished? || y.pc.Failing? {
      MoveExitOk(uid, run, server, m, x, y);
    } else if RefreshPoint(x.pc) {
      RefreshOk(uid, run, server, m, x, y);
    } else if EarlyPoint(x.pc) {
      EarlyOk(uid, run, server, m, x, y);
    } else {
      LateOk(uid, run, server, m, x, y);
    }
  }

  lemma MoveExitOk(uid: Uid, run: Run, server: seq<Reservation>, m: Machine, x: Pass, y: Pass)
    requires RunOk(uid, run) && PassOk(run, x) && |server| > 0 && CanMove(run, server, m, x, y)
    requires y.pc.Finished? || y.pc.Failing?
    ensures PassOk(run, y) && y.run == x.run && !Installer(y) && !y.pc.ReleasePut?
  {
    hide RunOk;
  }

  /** What the invariant says of one pass and of the run it bound. */
  lemma InvAt(s: State, id: PassId)
    requires Inv(s) && id in s.passes
    ensures var x := s.passes[id];
            && x.run in s.runs && RunOk(x.run, s.runs[x.run]) && PassOk(s.runs[x.run], x) && |s.server| > 0
            && (Installer(x) ==> MayInstall(s, id, x))
  {
    hide RunOk, PassOk;
  }

  lemma ReleasingAt(s: State, id: PassId)
    requires Inv(s) && id in s.passes && s.passes[id].pc.ReleasePut?
    ensures var x := s.passes[id];
            && x.pc.on < |s.server| && s.server[x.pc.on].activeRun == Some(x.run)
            && Done(s, x.run, x.pc.succeeded)
  {
    hide RunOk;
    var x := s.passes[id];
    assert PassOk(s.runs[x.run], x);
  }

  lemma MoveInv(s: State, id: PassId, y: Pass)
    requires Inv(s) && MoveEnabled(s, id, y)
    ensures Inv(PutPass(s, id, y))
  {
    var x := s.passes[id];
    MoveOk(x.run, s.runs[x.run], s.server, s.machine, x, y);
    PutPassInv(s, id, y);
  }

  /** A write committed by a pass becomes its view; only `EnterInstall` opens the install stage. */
  lemma CommitInv(s: State, id: PassId, st: Status, pc: Pc)
    requires Inv(s) && id in s.passes
    requires Legal(s.passes[id].run, Last(s.runs[s.passes[id].run]), st) && Backed(s.runs[s.passes[id].run], st)
    requires var x := s.passes[id]; var run := Append(s.runs[x.run], st);
             PcOk(run, Refreshed(x, run, pc)) && !pc.ReleasePut?
             && (Installer(Go(x, pc)) ==> !Committed(Last(s.runs[x.run])))
    ensures Inv(Commit(s, id, st, pc))
  {
    var x := s.passes[id];
    var run := Append(s.runs[x.run], st);
    AppendInv(s, x.run, st);
    PutPassInv(PutRun(s, x.run, run), id, Refreshed(x, run, pc));
  }

  lemma ClaimOk(uid: Uid, run: Run, x: Pass)
    requires RunOk(uid, run) && PassOk(run, x) && x.pc.Claiming?
    ensures var st := Claimed(x.view, uid, x.pc.plan, x.pc.source);
            && WriteOk(run, RunWrite(uid, x.ver, st))
            && PcOk(Append(run, st), Refreshed(x, Append(run, st), Resuming))
            && PassOk(run, Go(x, Failing(false)))
  {
  }

  lemma ClaimInv(s: State, id: PassId, reply: Reply)
    requires Inv(s) && ClaimEnabled(s, id, reply)
    ensures Inv(PerformClaim(s, id, reply))
  {
    hide Inv, RunOk, PassOk, Counts;
    InvAt(s, id);
    var x := s.passes[id];
    ClaimOk(x.run, s.runs[x.run], x);
    var claimed := Claimed(x.view, x.run, x.pc.plan, x.pc.source);
    match reply {
      case Applied => CommitInv(s, id, claimed, Resuming);
      case Conflict => PutPassInv(s, id, Go(x, Failing(false)));
      case Lost => LostInv(s, id, RunWrite(x.run, x.ver, claimed), Failing(false));
    }
  }

  /** A pass whose write got no reply goes on to an error handler while the write stays deliverable. */
  lemma LostInv(s: State, id: PassId, w: RunWrite, pc: Pc)
    requires Inv(s) && id in s.passes && w.run == s.passes[id].run && WriteOk(s.runs[w.run], w)
    requires PassOk(s.runs[w.run], Go(s.passes[id], pc)) && !Installer(Go(s.passes[id], pc)) && !pc.ReleasePut?
    ensures Inv(PutPass(Delay(s, w), id, Go(s.passes[id], pc)))
  {
    DelayInv(s, w);
    PutPassInv(Delay(s, w), id, Go(s.passes[id], pc));
  }

  /** The program point reached after a committed checkpoint is justified by the new version. */
  lemma AfterSiteOk(uid: Uid, run: Run, x: Pass)
    requires RunOk(uid, run) && PassOk(run, x) && x.pc.Writing? && x.pc.base == |run.log| - 1
    ensures var st := Merge(Last(run), SitePatch(x.pc.site, x.view));
            && Legal(uid, Last(run), st) && Backed(run, st)
            && PcOk(Append(run, st), Refreshed(x, Append(run, st), AfterSite(x.pc.site)))
            && (Installer(Go(x, AfterSite(x.pc.site))) ==> !Committed(Last(run)))
            && !AfterSite(x.pc.site).ReleasePut?
  {
    SiteLegal(uid, run, x.ver, x.pc.base, x.pc.site);
    LogKeeps(uid, run, x.ver, x.pc.base);
  }

  /** What a refused or unanswered checkpoint leaves behind. */
  lemma RefusedSiteOk(uid: Uid, run: Run, x: Pass)
    requires RunOk(uid, run) && PassOk(run, x) && x.pc.Writing?
    ensures WriteOk(run, RunWrite(uid, x.pc.base, Merge(run.log[x.pc.base], SitePatch(x.pc.site, x.view))))
    ensures PassOk(run, Go(x, AfterError(x.pc.site))) && !Installer(Go(x, AfterError(x.pc.site)))
    ensures !AfterError(x.pc.site).ReleasePut?
    ensures x.pc.left > 0 ==> PassOk(run, Go(x, Reading(x.pc.site, x.pc.left - 1)))
  {
    SiteLegal(uid, run, x.ver, x.pc.base, x.pc.site);
  }

  lemma CheckpointInv(s: State, id: PassId, reply: Reply)
    requires Inv(s) && CheckpointEnabled(s, id, reply)
    ensures Inv(PerformCheckpoint(s, id, reply))
  {
    hide Inv, RunOk, PassOk, PcOk, Legal, Backed, WriteOk, Merge, SitePatch, AfterSite, AfterError, Committed;
    InvAt(s, id);
    var x := s.passes[id];
    var run := s.runs[x.run];
    var merged := Merge(run.log[x.pc.base], SitePatch(x.pc.site, x.view));
    RefusedSiteOk(x.run, run, x);
    match reply {
      case Applied =>
        AfterSiteOk(x.run, run, x);
        CommitInv(s, id, merged, AfterSite(x.pc.site));
      case Conflict =>
        PutPassInv(s, id, Go(x, if x.pc.left == 1 then AfterError(x.pc.site) else Reading(x.pc.site, x.pc.left - 1)));
      case Lost =>
        LostInv(s, id, RunWrite(x.run, x.pc.base, merged), AfterError(x.pc.site));
    }
  }

  /** Releasing from a version that named the run keeps the reservation history sound. */
  lemma ReleasedInv(s: State, w: ServerWrite)
    requires Inv(s) && Done(s, w.run, w.succeeded) && w.on == |s.server| - 1 && s.server[w.on].activeRun == Some(w.run)
    ensures Inv(s.(server := s.server + [Released(s.server[|s.server| - 1], w)]))
  {
    hide RunOk, PassOk, WriteOk, Done;
    var t := s.(server := s.server + [Released(s.server[|s.server| - 1], w)]);
    SameDone(s, t);
    assert Done(s, w.run, false) by { DoneEither(s, w.run, w.succeeded); }
    assert HistoryOk(t);
    assert ReleasesOk(t);
  }

  lemma ReleaseRetryOk(run: Run, x: Pass)
    requires PassOk(run, x) && x.pc.ReleasePut? && x.pc.left > 0
    ensures PassOk(run, Go(x, Failing(false))) && PassOk(run, Go(x, ReleaseGet(x.pc.left - 1, x.pc.succeeded)))
  {
  }

  lemma ReleaseInv(s: State, id: PassId, reply: Reply)
    requires Inv(s) && ReleaseEnabled(s, id, reply)
    ensures Inv(PerformRelease(s, id, reply))
  {
    hide Inv, RunOk, PassOk, Done;
    InvAt(s, id);
    ReleasingAt(s, id);
    var x := s.passes[id];
    var w := ServerWrite(x.run, x.pc.on, x.pc.succeeded);
    ReleaseRetryOk(s.runs[x.run], x);
    match reply {
      case Applied =>
        ReleasedInv(s, w);
        FinishInv(s.(server := s.server + [Released(s.server[|s.server| - 1], w)]), id);
      case Conflict =>
        PutPassInv(s, id, Go(x, if x.pc.left == 1 then Failing(false) else ReleaseGet(x.pc.left - 1, x.pc.succeeded)));
      case Lost =>
        PutPassInv(s, id, Go(x, Failing(false)));
        SameDone(s, PutPass(s, id, Go(x, Failing(false))));
        LateReleaseInv(PutPass(s, id, Go(x, Failing(false))), w);
    }
  }

  lemma FinishInv(s: State, id: PassId)
    requires Inv(s) && id in s.passes
    ensures Inv(PutPass(s, id, Go(s.passes[id], Finished)))
  {
    InvAt(s, id);
    hide Inv, RunOk;
    PutPassInv(s, id, Go(s.passes[id], Finished));
  }

  lemma LateReleaseInv(s: State, w: ServerWrite)
    requires Inv(s) && Done(s, w.run, w.succeeded) && w.on < |s.server| && s.server[w.on].activeRun == Some(w.run)
    ensures Inv(s.(serverWrites := s.serverWrites + {w}))
  {
    hide RunOk, PassOk, WriteOk, Done;
    var t := s.(serverWrites := s.serverWrites + {w});
    SameDone(s, t);
    assert ReleasesOk(t);
  }

  /** `next` counts at least the stage events of `run` on the same versions. */
  predicate Counts(run: Run, next: Run) {
    && next.log == run.log && run.attested <= next.attested
    && run.started <= next.started && run.finished <= next.finished
    && (run.finished == 1 ==> next.finished == 1)
  }

  lemma OtherPassOk(run: Run, next: Run, x: Pass)
    requires PassOk(run, x) && Counts(run, next)
    requires (next.started == run.started && next.finished == run.finished) || !Installer(x)
    ensures PassOk(next, x)
  {
  }

  ghost predicate MayCount(s: State, id: PassId, next: Run, y: Pass) {
    && id in s.passes && y.run == s.passes[id].run && y.run in s.runs && !y.pc.ReleasePut?
    && Counts(s.runs[y.run], next) && RunOk(y.run, next) && PassOk(next, y)
    && (Installer(y) ==> Installer(s.passes[id]))
    && ((next.started == s.runs[y.run].started && next.finished == s.runs[y.run].finished) || Installer(s.passes[id]))
  }

  lemma CountPasses(s: State, id: PassId, next: Run, y: Pass)
    requires PassesOk(s) && OneInstaller(s) && MayCount(s, id, next, y)
    ensures PassesOk(PutPass(PutRun(s, y.run, next), id, y))
  {
    var t := PutPass(PutRun(s, y.run, next), id, y);
    forall j | j in t.passes
      ensures t.passes[j].run in t.runs && PassOk(t.runs[t.passes[j].run], t.passes[j])
    {
      if j != id && s.passes[j].run == y.run {
        OtherPassOk(s.runs[y.run], next, s.passes[j]);
      }
    }
  }

  lemma CountDone(s: State, id: PassId, next: Run, y: Pass, q: Uid, succeeded: bool)
    requires MayCount(s, id, next, y) && Done(s, q, succeeded)
    ensures Done(PutPass(PutRun(s, y.run, next), id, y), q, succeeded)
  {
  }

  lemma CountWrites(s: State, id: PassId, next: Run, y: Pass)
    requires WritesOk(s) && MayCount(s, id, next, y)
    ensures WritesOk(PutPass(PutRun(s, y.run, next), id, y))
  {
  }

  lemma CountServer(s: State, id: PassId, next: Run, y: Pass)
    requires Held(s) && HistoryOk(s) && ReleasesOk(s) && MayCount(s, id, next, y)
    ensures var t := PutPass(PutRun(s, y.run, next), id, y); Held(t) && HistoryOk(t) && ReleasesOk(t)
  {
    var t := PutPass(PutRun(s, y.run, next), id, y);
    forall q, succeeded | Done(s, q, succeeded)
      ensures Done(t, q, succeeded)
    {
      CountDone(s, id, next, y, q, succeeded);
    }
    hide Done, RunOk, PassOk;
    assert Held(t);
    assert HistoryOk(t);
    assert ReleasesOk(t);
  }

  /** Counting a stage event of one pass keeps the invariant. */
  lemma CountInv(s: State, id: PassId, next: Run, y: Pass)
    requires Inv(s) && MayCount(s, id, next, y)
    ensures Inv(PutPass(PutRun(s, y.run, next), id, y))
  {
    hide RunOk, PassOk, WriteOk, Done, Counts;
    CountPasses(s, id, next, y);
    CountWrites(s, id, next, y);
    CountServer(s, id, next, y);
    var t := PutPass(PutRun(s, y.run, next), id, y);
    assert RunsOk(t);
    assert OneInstaller(t);
    hide RunsOk, PassesOk, OneInstaller, WritesOk, Held, HistoryOk, ReleasesOk;
  }

  lemma BeginOk(uid: Uid, run: Run, x: Pass)
    requires RunOk(uid, run) && PassOk(run, x) && x.pc.Ready?
    ensures var next := if x.pc.stage.Install? then run.(started := run.started + 1) else run;
            && RunOk(uid, next) && Counts(run, next) && PassOk(next, Go(x, Running(x.pc.stage, false)))
            && ((next.started == run.started && next.finished == run.finished) || Installer(x))
  {
  }

  lemma EndOk(uid: Uid, run: Run, x: Pass)
    requires RunOk(uid, run) && PassOk(run, x) && x.pc.Running?
    ensures var next := if x.pc.stage.Install? then run.(finished := run.finished + 1) else run;
            var y := Go(x, AfterStage(x.pc.stage, x.view));
            && RunOk(uid, next) && Counts(run, next) && PassOk(next, y) && !Installer(y) && !y.pc.ReleasePut?
            && ((next.started == run.started && next.finished == run.finished) || Installer(x))
  {
    assert WellFormed(uid, x.view);
  }

  lemma AttestOk(uid: Uid, run: Run, x: Pass, boot: BootId)
    requires RunOk(uid, run) && PassOk(run, x) && x.view.liveBoot != Some(boot)
    requires x.pc in {InspectInstalled, Verify, VerifyAgain}
    ensures var next := run.(attested := run.attested + {boot});
            var y := Go(x, AfterAttest(x.pc));
            RunOk(uid, next) && Counts(run, next) && PassOk(next, y) && !Installer(y) && !y.pc.ReleasePut?
  {
    assert boot in run.attested + {boot};
  }

  lemma BeginInv(s: State, id: PassId)
    requires Inv(s) && CanAct(s, id) && s.passes[id].pc.Ready?
    ensures Inv(Begin(s, id))
  {
    hide Inv, RunOk, PassOk, Counts;
    InvAt(s, id);
    var x := s.passes[id];
    var run := s.runs[x.run];
    BeginOk(x.run, run, x);
    CountInv(s, id, if x.pc.stage.Install? then run.(started := run.started + 1) else run, Go(x, Running(x.pc.stage, false)));
  }

  lemma EffectInv(s: State, id: PassId)
    requires Inv(s) && CanAct(s, id) && s.passes[id].pc.Running?
    ensures Inv(Effect(s, id))
  {
    hide Inv;
    InvAt(s, id);
    var x := s.passes[id];
    MachineInv(s, EffectOn(x, s.machine));
    PutPassInv(s.(machine := EffectOn(x, s.machine)), id, Go(x, Running(x.pc.stage, true)));
  }

  lemma MachineInv(s: State, m: Machine)
    requires Inv(s)
    ensures Inv(s.(machine := m))
  {
    hide RunOk, PassOk, WriteOk, Done;
    SameDone(s, s.(machine := m));
  }

  lemma EndInv(s: State, id: PassId)
    requires Inv(s) && CanAct(s, id) && s.passes[id].pc.Running?
    ensures Inv(End(s, id))
  {
    hide Inv, RunOk, PassOk, Counts;
    InvAt(s, id);
    var x := s.passes[id];
    var run := s.runs[x.run];
    EndOk(x.run, run, x);
    CountInv(s, id, if x.pc.stage.Install? then run.(finished := run.finished + 1) else run,
             Go(x, AfterStage(x.pc.stage, x.view)));
  }

  lemma AttestInv(s: State, id: PassId)
    requires Inv(s) && AttestEnabled(s, id)
    ensures Inv(Attested(s, id))
  {
    hide Inv, RunOk, PassOk, Counts;
    InvAt(s, id);
    var x := s.passes[id];
    var run := s.runs[x.run];
    AttestOk(x.run, run, x, s.machine.boot);
    CountInv(s, id, run.(attested := run.attested + {s.machine.boot}), Go(x, AfterAttest(x.pc)));
  }

  lemma TouchRunInv(s: State, r: Uid)
    requires Inv(s) && Stored(s, r)
    ensures Inv(PutRun(s, r, Append(s.runs[r], Last(s.runs[r]))))
  {
    AppendInv(s, r, Last(s.runs[r]));
  }

  /** A late write still on the newest version is as legal as when it was computed. */
  lemma DeliverRunInv(s: State, w: RunWrite)
    requires Inv(s) && w in s.runWrites && Stored(s, w.run) && w.base == |s.runs[w.run].log| - 1
    ensures Inv(PutRun(s, w.run, Append(s.runs[w.run], w.status)))
  {
    AppendInv(s, w.run, w.status);
  }

  lemma DeliverServerInv(s: State, w: ServerWrite)
    requires Inv(s) && w in s.serverWrites && w.on == |s.server| - 1
    ensures Inv(s.(server := s.server + [Released(s.server[|s.server| - 1], w)]))
  {
    ReleasedInv(s, w);
  }

  lemma StartInv(s: State, id: PassId, x: Pass)
    requires Inv(s) && ActiveRun(s) == Some(x.run) && x.pc.Binding?
    ensures Inv(PutPass(s, id, x))
  {
    assert RunOk(x.run, s.runs[x.run]);
    hide RunOk;
    PutPassInv(s, id, x);
  }

  lemma TouchServerInv(s: State)
    requires Inv(s)
    ensures Inv(s.(server := s.server + [s.server[|s.server| - 1]]))
  {
    hide RunOk, PassOk, WriteOk, Done;
    var t := s.(server := s.server + [s.server[|s.server| - 1]]);
    SameDone(s, t);
    assert HistoryOk(t);
    assert ReleasesOk(t);
  }

  lemma DropInv(s: State, id: PassId)
    requires Inv(s)
    ensures Inv(s.(passes := s.passes - {id}))
  {
    hide RunOk, PassOk, WriteOk, Done;
    SameDone(s, s.(passes := s.passes - {id}));
  }

  lemma CreateInv(s: State, r: Uid, maintenance: bool)
    requires Inv(s) && Enabled(s, CreateRun(r, maintenance))
    ensures Inv(Perform(s, CreateRun(r, maintenance)))
  {
    hide RunOk, PassOk, WriteOk, Done;
    var t := Perform(s, CreateRun(r, maintenance));
    assert RunOk(r, t.runs[r]) by { FreshRunOk(r, maintenance); }
    forall q, succeeded | Done(s, q, succeeded)
      ensures Done(t, q, succeeded)
    {
      NewRunDone(s, t, r, q, succeeded);
    }
    assert HistoryOk(t);
    assert ReleasesOk(t);
  }

  lemma StepInv(s: State, step: Step)
    requires Inv(s) && Enabled(s, step)
    ensures Inv(Perform(s, step))
  {
    hide Inv;
    match step {
      case Move(id, y) => MoveInv(s, id, y);
      case Claim(id, reply) => ClaimInv(s, id, reply);
      case Checkpoint(id, reply) => CheckpointInv(s, id, reply);
      case Release(id, reply) => ReleaseInv(s, id, reply);
      case BeginStage(id) => BeginInv(s, id);
      case StageEffect(id) => EffectInv(s, id);
      case EndStage(id) => EndInv(s, id);
      case Attest(id) => AttestInv(s, id);
      case CreateRun(r, maintenance) => CreateInv(s, r, maintenance);
      case TouchRun(r) => TouchRunInv(s, r);
      case TouchServer => TouchServerInv(s);
      case Boot(live) => MachineInv(s, Machine(s.machine.boot + 1, live, None));
      case DeliverRun(w) => DeliverRunInv(s, w);
      case DeliverServer(w) => DeliverServerInv(s, w);
      case Start(id, revision) => StartInv(s, id, Perform(s, step).passes[id]);
      case Drop(id) => DropInv(s, id);
    }
  }

  lemma {:induction false} ReachableInv(from: State, steps: seq<Step>, s: State)
    requires Inv(from) && Reaches(from, steps, s)
    ensures Inv(s)
    decreases |steps|
  {
    if steps != [] {
      StepInv(from, steps[0]);
      ReachableInv(Perform(from, steps[0]), steps[1..], s);
    }
  }
}
