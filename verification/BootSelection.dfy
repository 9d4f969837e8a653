/** One-shot boot selections when passes do not overlap: the record names every pending selection. */
module BootSelection {
  import opened Wrappers
  import opened ProvisioningRun
  import opened ProvisioningSystem
  import opened ProvisioningSafety

  /** At most one pass exists; a pass may still crash and leave its late writes behind. */
  predicate Alone(s: State) {
    forall i, j :: i in s.passes && j in s.passes ==> i == j
  }

  ghost predicate AloneReaches(from: State, steps: seq<Step>, s: State)
    decreases |steps|
  {
    && Alone(from)
    && if steps == [] then s == from
       else Enabled(from, steps[0]) && AloneReaches(Perform(from, steps[0]), steps[1..], s)
  }

  /** Checkpoints that record netboot as no longer armed. */
  predicate DisarmSite(site: Site) {
    match site
    case RecordContact(_, _) => true
    case Enroll(_) => true
    case BlockFailure(keep) => !keep
    case _ => false
  }

  /** Whether a cleanup stage would miss, or has already removed, a selection of this kind. */
  predicate CleanupMisses(stage: Stage, applied: bool, kind: Selection) {
    || (stage.Clear? && (applied || kind.Kexec?))
    || (stage.RefreshClear? && (applied || kind.Grub?))
  }

  /** What a pass must be doing while a selection of this kind is pending. */
  predicate Keeps(kind: Selection, x: Pass) {
    || x.pc.Binding? || x.pc.Finished?
    || (x.view.armed
        && match x.pc
           case Enrolling(_) => false
           case CleanCheck => false
           case Reading(site, _) => !DisarmSite(site)
           case Writing(site, _, _) => !DisarmSite(site)
           case Ready(stage) => !CleanupMisses(stage, false, kind)
           case Running(stage, applied) => !CleanupMisses(stage, applied, kind)
           case _ => true)
  }

  /** Program points between the write-ahead of netboot and the stage that arms it. */
  predicate Arming(pc: Pc) {
    match pc
    case Recheck(goal) => goal == Launch(Arm)
    case Ready(stage) => stage.Arm? || stage.RefreshPrepare?
    case Running(stage, _) => stage.Arm? || stage.RefreshPrepare?
    case _ => false
  }

  /** The selection agrees with the stored run and with the session it was made in. */
  predicate SelectionOk(run: Run, m: Machine, kind: Selection) {
    && |run.log| > 0 && Last(run).armed
    && (kind.Kexec? <==> m.live)
    && (kind.Kexec? ==> Last(run).source == Some(m.boot))
  }

  ghost predicate PendingOk(s: State) {
    s.machine.pending.Some? ==>
      var (r, kind) := s.machine.pending.value;
      && r in s.runs && SelectionOk(s.runs[r], s.machine, kind)
      && (forall w :: w in s.runWrites && w.run == r && w.base == |s.runs[r].log| - 1 ==> w.status.armed)
      && (forall id :: id in s.passes ==> s.passes[id].run == r && Keeps(kind, s.passes[id]))
  }

  ghost predicate ArmingOk(s: State) {
    forall id :: id in s.passes && Arming(s.passes[id].pc) ==>
      var x := s.passes[id];
      && x.run in s.runs && |s.runs[x.run].log| > 0
      && x.view.armed && Last(s.runs[x.run]) == x.view && x.ver < |s.runs[x.run].log|
      && forall w :: w in s.runWrites && w.run == x.run ==> w.base < x.ver
  }

  ghost predicate BootInv(s: State) {
    PendingOk(s) && ArmingOk(s)
  }

  // ---- Passes ----

  lemma MoveKeeps(uid: Uid, run: Run, server: seq<Reservation>, m: Machine, x: Pass, y: Pass, kind: Selection)
    requires RunOk(uid, run) && PassOk(run, x) && |server| > 0 && CanMove(run, server, m, x, y)
    requires SelectionOk(run, m, kind) && Keeps(kind, x)
    ensures Keeps(kind, y)
  {
    if x.pc.InstallLive? {
      assert WellFormed(uid, x.view);
    } else if x.pc.InspectLive? {
      LogKeeps(uid, run, x.ver, |run.log| - 1);
    }
  }

  lemma MoveArms(run: Run, server: seq<Reservation>, m: Machine, x: Pass, y: Pass)
    requires |run.log| > 0 && |server| > 0 && PassOk(run, x) && CanMove(run, server, m, x, y) && Arming(y.pc)
    ensures x.pc == Recheck(Launch(Arm)) && y == Go(x, Ready(Arm))
  {
  }

  /** While a selection is pending, no checkpoint the pass may write clears the record of it. */
  lemma SiteKeeps(uid: Uid, run: Run, x: Pass, kind: Selection)
    requires RunOk(uid, run) && PassOk(run, x) && x.pc.Writing? && Keeps(kind, x) && run.log[x.pc.base].armed
    ensures Merge(run.log[x.pc.base], SitePatch(x.pc.site, x.view)).armed
    ensures forall v: nat, st: Status :: st.armed ==> Keeps(kind, x.(ver := v, view := st, pc := AfterSite(x.pc.site)))
    ensures Keeps(kind, Go(x, AfterError(x.pc.site)))
  {
    assert WellFormed(uid, run.log[x.ver]);
  }

  // ---- Steps ----

  lemma MoveBoot(s: State, id: PassId, y: Pass)
    requires Inv(s) && BootInv(s) && MoveEnabled(s, id, y)
    ensures BootInv(PutPass(s, id, y))
  {
    hide Inv, RunOk, PassOk, CanMove;
    InvAt(s, id);
    var x := s.passes[id];
    var run := s.runs[x.run];
    MoveOk(x.run, run, s.server, s.machine, x, y);
    if s.machine.pending.Some? {
      MoveKeeps(x.run, run, s.server, s.machine, x, y, s.machine.pending.value.1);
    }
    if Arming(y.pc) {
      MoveArms(run, s.server, s.machine, x, y);
    }
  }

  /** A pass changed in place, to a program point that neither arms nor disarms. */
  lemma PutBoot(s: State, id: PassId, y: Pass)
    requires BootInv(s) && id in s.passes && y.run == s.passes[id].run
    requires Arming(y.pc) ==> Arming(s.passes[id].pc) && y.view == s.passes[id].view && y.ver == s.passes[id].ver
    requires s.machine.pending.Some? ==> Keeps(s.machine.pending.value.1, y)
    ensures BootInv(PutPass(s, id, y))
  {
  }

  /** A write left undelivered by a pass that was not arming. */
  lemma DelayBoot(s: State, id: PassId, w: RunWrite)
    requires Alone(s) && BootInv(s) && id in s.passes && !Arming(s.passes[id].pc)
    requires s.machine.pending.Some? && w.run in s.runs && w.base == |s.runs[w.run].log| - 1 ==> w.status.armed
    ensures BootInv(Delay(s, w))
  {
  }

  lemma ViewOk(uid: Uid, run: Run, x: Pass)
    requires RunOk(uid, run) && PassOk(run, x) && !x.pc.Binding? && !x.pc.Finished?
    ensures WellFormed(uid, x.view)
  {
  }

  lemma BasesOld(s: State, r: Uid)
    requires Inv(s) && r in s.runs
    ensures forall w :: w in s.runWrites && w.run == r ==> w.base < |s.runs[r].log|
  {
  }

  /** A committed write keeps the record of a pending selection, and makes earlier late writes obsolete. */
  lemma CommitBoot(s: State, id: PassId, st: Status, pc: Pc)
    requires Inv(s) && Alone(s) && BootInv(s) && CanAct(s, id)
    requires Legal(s.passes[id].run, Last(s.runs[s.passes[id].run]), st)
    requires Arming(pc) ==> st.armed
    requires s.machine.pending.Some? ==>
               var x := s.passes[id];
               && st.armed && !Last(s.runs[x.run]).phase.Pending?
               && Keeps(s.machine.pending.value.1, Refreshed(x, Append(s.runs[x.run], st), pc))
    ensures BootInv(Commit(s, id, st, pc))
  {
    hide Inv, RunOk, PassOk;
    InvAt(s, id);
    BasesOld(s, s.passes[id].run);
    var t := Commit(s, id, st, pc);
    assert PendingOk(t);
    assert ArmingOk(t);
  }

  lemma ClaimBoot(s: State, id: PassId, reply: Reply)
    requires Inv(s) && Alone(s) && BootInv(s) && ClaimEnabled(s, id, reply)
    ensures BootInv(PerformClaim(s, id, reply))
  {
    hide Inv, RunOk;
    InvAt(s, id);
    var x := s.passes[id];
    ViewOk(x.run, s.runs[x.run], x);
    assert s.machine.pending.None?;
  }

  lemma CheckpointBoot(s: State, id: PassId, reply: Reply)
    requires Inv(s) && Alone(s) && BootInv(s) && CheckpointEnabled(s, id, reply)
    ensures BootInv(PerformCheckpoint(s, id, reply))
  {
    hide Inv, RunOk, PassOk, PcOk, Legal, Backed, WriteOk, Merge, SitePatch;
    InvAt(s, id);
    var x := s.passes[id];
    var run := s.runs[x.run];
    var merged := Merge(run.log[x.pc.base], SitePatch(x.pc.site, x.view));
    RefusedSiteOk(x.run, run, x);
    ArmingSite(x.run, run, x);
    if s.machine.pending.Some? && x.pc.base == |run.log| - 1 {
      SiteKeeps(x.run, run, x, s.machine.pending.value.1);
    }
    match reply {
      case Applied =>
        AfterSiteOk(x.run, run, x);
        CommitBoot(s, id, merged, AfterSite(x.pc.site));
      case Conflict =>
        PutBoot(s, id, Go(x, if x.pc.left == 1 then AfterError(x.pc.site) else Reading(x.pc.site, x.pc.left - 1)));
      case Lost =>
        DelayBoot(s, id, RunWrite(x.run, x.pc.base, merged));
        PutBoot(Delay(s, RunWrite(x.run, x.pc.base, merged)), id, Go(x, AfterError(x.pc.site)));
    }
  }

  lemma ArmingSite(uid: Uid, run: Run, x: Pass)
    requires RunOk(uid, run) && PassOk(run, x) && x.pc.Writing?
    ensures Arming(AfterSite(x.pc.site)) ==> Merge(run.log[x.pc.base], SitePatch(x.pc.site, x.view)).armed
    ensures !Arming(AfterError(x.pc.site)) && !run.log[x.pc.base].phase.Pending?
    ensures forall kind :: Keeps(kind, x) ==> Keeps(kind, Go(x, AfterError(x.pc.site)))
    ensures x.pc.left > 0 ==> forall kind :: Keeps(kind, x) ==> Keeps(kind, Go(x, Reading(x.pc.site, x.pc.left - 1)))
  {
    assert WellFormed(uid, run.log[x.pc.base]);
  }

  lemma ReleaseBoot(s: State, id: PassId, reply: Reply)
    requires BootInv(s) && ReleaseEnabled(s, id, reply)
    ensures BootInv(PerformRelease(s, id, reply))
  {
  }

  /** Counting stage events and moving to a point that neither arms nor disarms. */
  lemma CountBoot(s: State, id: PassId, next: Run, y: Pass)
    requires BootInv(s) && id in s.passes && y.run == s.passes[id].run && y.run in s.runs
    requires next.log == s.runs[y.run].log
    requires Arming(y.pc) ==> Arming(s.passes[id].pc) && y.view == s.passes[id].view && y.ver == s.passes[id].ver
    requires s.machine.pending.Some? ==> Keeps(s.machine.pending.value.1, y)
    ensures BootInv(PutPass(PutRun(s, y.run, next), id, y))
  {
  }

  lemma BeginBoot(s: State, id: PassId)
    requires BootInv(s) && CanAct(s, id) && s.passes[id].pc.Ready?
    ensures BootInv(Begin(s, id))
  {
    var x := s.passes[id];
    var run := s.runs[x.run];
    CountBoot(s, id, if x.pc.stage.Install? then run.(started := run.started + 1) else run, Go(x, Running(x.pc.stage, false)));
  }

  lemma EndKeeps(x: Pass)
    requires x.pc.Running? && x.pc.applied
    ensures !Arming(AfterStage(x.pc.stage, x.view))
    ensures forall kind :: Keeps(kind, x) ==> Keeps(kind, Go(x, AfterStage(x.pc.stage, x.view)))
  {
  }

  lemma EndBoot(s: State, id: PassId)
    requires Inv(s) && BootInv(s) && CanAct(s, id) && s.passes[id].pc.Running? && s.passes[id].pc.applied
    ensures BootInv(End(s, id))
  {
    hide Inv, RunOk, PassOk;
    InvAt(s, id);
    var x := s.passes[id];
    var run := s.runs[x.run];
    EndKeeps(x);
    CountBoot(s, id, if x.pc.stage.Install? then run.(finished := run.finished + 1) else run,
              Go(x, AfterStage(x.pc.stage, x.view)));
  }

  /** A stage may arm only what the record already names, and cleanup removes what it was chosen for. */
  lemma EffectBoot(s: State, id: PassId)
    requires Inv(s) && Alone(s) && BootInv(s) && CanAct(s, id) && EffectAllowed(s.passes[id], s.machine)
    ensures BootInv(Effect(s, id))
  {
    hide Inv, RunOk, PassOk;
    InvAt(s, id);
    var x := s.passes[id];
    if x.pc.stage.Arm? || x.pc.stage.RefreshPrepare? {
      assert Arming(x.pc);
      assert PendingOk(Effect(s, id));
    }
  }

  lemma AttestBoot(s: State, id: PassId)
    requires Inv(s) && BootInv(s) && AttestEnabled(s, id)
    ensures BootInv(Attested(s, id))
  {
    var x := s.passes[id];
    CountBoot(s, id, s.runs[x.run].(attested := s.runs[x.run].attested + {s.machine.boot}), Go(x, AfterAttest(x.pc)));
  }

  lemma HeldWhilePending(s: State)
    requires Inv(s) && BootInv(s) && s.machine.pending.Some?
    ensures |s.server| > 0 && ActiveRun(s) == Some(s.machine.pending.value.0)
    ensures s.machine.pending.value.0 in s.runs
  {
    assert !Done(s, s.machine.pending.value.0, false);
  }

  lemma AppendBoot(s: State, r: Uid, st: Status)
    requires BootInv(s) && r in s.runs && |s.runs[r].log| > 0
    requires st == Last(s.runs[r])
             || (forall id :: id in s.passes && s.passes[id].run == r ==> !Arming(s.passes[id].pc))
    requires forall w :: w in s.runWrites && w.run == r ==> w.base < |s.runs[r].log|
    requires s.machine.pending.Some? && s.machine.pending.value.0 == r ==> st.armed && st.source == Last(s.runs[r]).source
    ensures BootInv(PutRun(s, r, Append(s.runs[r], st)))
  {
  }

  lemma LastOk(uid: Uid, run: Run)
    requires RunOk(uid, run)
    ensures WellFormed(uid, Last(run))
  {
  }

  lemma TouchBoot(s: State, r: Uid)
    requires Inv(s) && BootInv(s) && Stored(s, r)
    ensures BootInv(PutRun(s, r, Append(s.runs[r], Last(s.runs[r]))))
  {
    BasesOld(s, r);
    hide Inv;
    AppendBoot(s, r, Last(s.runs[r]));
  }

  lemma DeliverBoot(s: State, w: RunWrite)
    requires Inv(s) && BootInv(s) && w in s.runWrites && Stored(s, w.run) && w.base == |s.runs[w.run].log| - 1
    ensures BootInv(PutRun(s, w.run, Append(s.runs[w.run], w.status)))
  {
    hide RunOk, PassOk;
    BasesOld(s, w.run);
    assert WriteOk(s.runs[w.run], w);
    LastOk(w.run, s.runs[w.run]);
    AppendBoot(s, w.run, w.status);
  }

  lemma StoreBoot(s: State, step: Step)
    requires Inv(s) && BootInv(s) && Enabled(s, step)
    requires step.CreateRun? || step.TouchServer? || step.Boot? || step.DeliverServer? || step.Start? || step.Drop?
    ensures BootInv(Perform(s, step))
  {
    hide Inv;
    if s.machine.pending.Some? {
      HeldWhilePending(s);
    }
  }

  lemma StepBoot(s: State, step: Step)
    requires Inv(s) && Alone(s) && BootInv(s) && Enabled(s, step)
    ensures BootInv(Perform(s, step))
  {
    hide Inv, BootInv;
    match step {
      case Move(id, y) => MoveBoot(s, id, y);
      case Claim(id, reply) => ClaimBoot(s, id, reply);
      case Checkpoint(id, reply) => CheckpointBoot(s, id, reply);
      case Release(id, reply) => ReleaseBoot(s, id, reply);
      case BeginStage(id) => BeginBoot(s, id);
      case StageEffect(id) => EffectBoot(s, id);
      case EndStage(id) => EndBoot(s, id);
      case Attest(id) => AttestBoot(s, id);
      case TouchRun(r) => TouchBoot(s, r);
      case DeliverRun(w) => DeliverBoot(s, w);
      case _ => StoreBoot(s, step);
    }
  }

  lemma InitialBoot(s: State)
    requires Initial(s)
    ensures BootInv(s)
  {
  }

  lemma {:induction false} AloneInv(from: State, steps: seq<Step>, s: State)
    requires Inv(from) && BootInv(from) && AloneReaches(from, steps, s)
    ensures Inv(s) && BootInv(s)
    decreases |steps|
  {
    hide Inv, BootInv;
    if steps != [] {
      StepInv(from, steps[0]);
      StepBoot(from, steps[0]);
      AloneInv(Perform(from, steps[0]), steps[1..], s);
    }
  }

  /** With passes that do not overlap, a selection some run armed is pending only while that run's
      record says netboot is armed; so a run blocked without maintenance leaves no selection
      behind, and the Server stays reserved for the run as long as one is pending. */
  lemma PendingIsRecorded(from: State, steps: seq<Step>, s: State)
    requires Initial(from) && AloneReaches(from, steps, s) && s.machine.pending.Some?
    ensures var r := s.machine.pending.value.0;
            && r in s.runs && |s.runs[r].log| > 0
            && Last(s.runs[r]).armed
            && !(Last(s.runs[r]).phase.Blocked? && !Last(s.runs[r]).maintenance)
            && !Last(s.runs[r]).phase.Succeeded?
            && |s.server| > 0 && ActiveRun(s) == Some(r)
  {
    InitialInv(from);
    InitialBoot(from);
    AloneInv(from, steps, s);
    HeldWhilePending(s);
    RecordedStatus(s);
  }

  lemma RecordedStatus(s: State)
    requires Inv(s) && PendingOk(s) && s.machine.pending.Some?
    ensures var r := s.machine.pending.value.0;
            && r in s.runs && |s.runs[r].log| > 0 && WellFormed(r, Last(s.runs[r])) && Last(s.runs[r]).armed
            && !Last(s.runs[r]).phase.Succeeded?
  {
    var r := s.machine.pending.value.0;
    assert RunOk(r, s.runs[r]);
  }
}
