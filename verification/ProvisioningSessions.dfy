/** Which boot sessions a run may name: the session it erases from is a live one, the session it attests is not. */
module ProvisioningSessions {
  import opened Wrappers
  import opened ProvisioningRun
  import opened ProvisioningSystem

  /** The live sessions the machine has been in. */
  ghost function LiveSessions(from: State, known: set<BootId>, steps: seq<Step>, s: State): set<BootId>
    requires Reaches(from, steps, s)
    decreases |steps|
  {
    if steps == [] then known else LiveSessions(Perform(from, steps[0]), Known(from, known, steps[0]), steps[1..], s)
  }

  function Known(s: State, known: set<BootId>, step: Step): set<BootId> {
    if step.Boot? && step.live then known + {s.machine.boot + 1} else known
  }

  predicate NamesLive(v: Status, known: set<BootId>) {
    v.liveBoot.Some? ==> v.liveBoot.value in known
  }

  predicate SiteNamesLive(site: Site, known: set<BootId>) {
    match site
    case RecordContact(_, seen) => seen in known
    case Enroll(boot) => boot in known
    case _ => true
  }

  predicate PcNamesLive(pc: Pc, known: set<BootId>) {
    match pc
    case Enrolling(boot) => boot in known
    case Reading(site, _) => SiteNamesLive(site, known)
    case Writing(site, _, _) => SiteNamesLive(site, known)
    case _ => true
  }

  predicate MachineKnown(m: Machine, known: set<BootId>) {
    (forall b :: b in known ==> b <= m.boot) && (m.live <==> m.boot in known)
  }

  ghost predicate RunKnown(run: Run, m: Machine, known: set<BootId>) {
    && (forall v :: v in run.log ==> NamesLive(v, known))
    && (forall b :: b in run.attested ==> b <= m.boot && b !in known)
  }

  ghost predicate RunsKnown(s: State, known: set<BootId>) {
    forall r :: r in s.runs ==> RunKnown(s.runs[r], s.machine, known)
  }

  ghost predicate PassesKnown(s: State, known: set<BootId>) {
    forall id :: id in s.passes ==> NamesLive(s.passes[id].view, known) && PcNamesLive(s.passes[id].pc, known)
  }

  ghost predicate WritesKnown(s: State, known: set<BootId>) {
    forall w :: w in s.runWrites ==> NamesLive(w.status, known)
  }

  ghost predicate SessionsKnown(s: State, known: set<BootId>) {
    MachineKnown(s.machine, known) && RunsKnown(s, known) && PassesKnown(s, known) && WritesKnown(s, known)
  }

  lemma MoveKnown(run: Run, server: seq<Reservation>, m: Machine, x: Pass, y: Pass, known: set<BootId>)
    requires |run.log| > 0 && |server| > 0 && CanMove(run, server, m, x, y)
    requires MachineKnown(m, known) && RunKnown(run, m, known) && NamesLive(x.view, known) && PcNamesLive(x.pc, known)
    ensures NamesLive(y.view, known) && PcNamesLive(y.pc, known)
  {
    assert Last(run) in run.log;
  }

  lemma PatchKnown(stored: Status, site: Site, view: Status, known: set<BootId>)
    requires NamesLive(stored, known) && SiteNamesLive(site, known)
    ensures NamesLive(Merge(stored, SitePatch(site, view)), known) && PcNamesLive(AfterSite(site), known)
    ensures PcNamesLive(AfterError(site), known)
  {
  }

  lemma BootKnown(s: State, known: set<BootId>, live: bool)
    requires |s.server| > 0 && SessionsKnown(s, known)
    ensures SessionsKnown(Perform(s, Boot(live)), Known(s, known, Boot(live)))
  {
  }

  lemma CheckpointKnown(s: State, known: set<BootId>, id: PassId, reply: Reply)
    requires |s.server| > 0 && CheckpointEnabled(s, id, reply) && SessionsKnown(s, known)
    ensures SessionsKnown(PerformCheckpoint(s, id, reply), known)
  {
    var x := s.passes[id];
    PatchKnown(s.runs[x.run].log[x.pc.base], x.pc.site, x.view, known);
    hide Merge, SitePatch, AfterSite, AfterError, NamesLive, MachineKnown;
    assert SiteNamesLive(x.pc.site, known);
  }

  lemma StepKnown(s: State, known: set<BootId>, step: Step)
    requires Enabled(s, step) && SessionsKnown(s, known)
    ensures SessionsKnown(Perform(s, step), Known(s, known, step))
  {
    hide CanMove, Merge, SitePatch, AfterSite, AfterError, MachineKnown;
    match step {
      case Boot(live) => BootKnown(s, known, live);
      case Move(id, y) => MoveKnown(s.runs[s.passes[id].run], s.server, s.machine, s.passes[id], y, known);
      case Checkpoint(id, reply) => CheckpointKnown(s, known, id, reply);
      case Attest(id) => AttestKnown(s, known, id);
      case Claim(_, _) => ClaimKnown(s, known, step);
      case Release(_, _) => ClaimKnown(s, known, step);
      case BeginStage(_) => StageKnown(s, known, step);
      case StageEffect(_) => StageKnown(s, known, step);
      case EndStage(_) => StageKnown(s, known, step);
      case _ => OtherKnown(s, known, step);
    }
  }

  lemma AttestKnown(s: State, known: set<BootId>, id: PassId)
    requires |s.server| > 0 && AttestEnabled(s, id) && SessionsKnown(s, known)
    ensures SessionsKnown(Attested(s, id), known)
  {
  }

  lemma StageKnown(s: State, known: set<BootId>, step: Step)
    requires Enabled(s, step) && SessionsKnown(s, known) && (step.BeginStage? || step.StageEffect? || step.EndStage?)
    ensures SessionsKnown(Perform(s, step), known)
  {
    var x := s.passes[step.id];
    assert x.pc.Running? ==> PcNamesLive(AfterStage(x.pc.stage, x.view), known);
    assert x.pc.Running? ==> EffectOn(x, s.machine).boot == s.machine.boot && EffectOn(x, s.machine).live == s.machine.live;
    hide CanMove, AfterStage, EffectOn, EffectAllowed, NamesLive;
  }

  lemma ClaimKnown(s: State, known: set<BootId>, step: Step)
    requires Enabled(s, step) && SessionsKnown(s, known) && (step.Claim? || step.Release?)
    ensures SessionsKnown(Perform(s, step), known)
  {
    hide CanMove, MachineKnown;
  }

  lemma OtherKnown(s: State, known: set<BootId>, step: Step)
    requires Enabled(s, step) && SessionsKnown(s, known)
    requires step.TouchServer? || step.CreateRun? || step.TouchRun? || step.DeliverRun? || step.DeliverServer?
             || step.Start? || step.Drop?
    ensures SessionsKnown(Perform(s, step), known)
  {
    hide CanMove, Merge, SitePatch, AfterSite, AfterError, MachineKnown;
  }

  lemma {:induction false} StepsKnown(from: State, known: set<BootId>, steps: seq<Step>, s: State)
    requires Reaches(from, steps, s) && SessionsKnown(from, known)
    ensures SessionsKnown(s, LiveSessions(from, known, steps, s))
    decreases |steps|
  {
    hide SessionsKnown;
    if steps != [] {
      StepKnown(from, known, steps[0]);
      StepsKnown(Perform(from, steps[0]), Known(from, known, steps[0]), steps[1..], s);
    }
  }

  /** In every execution, each version of a run names as its live boot only a session the machine was live in, and
      attests only sessions it was not: what was erased from is never taken for what was installed. */
  lemma SessionsAreWhatTheySay(from: State, steps: seq<Step>, s: State, r: Uid, v: Status)
    requires Initial(from) && Reaches(from, steps, s) && r in s.runs && v in s.runs[r].log
    ensures var known := LiveSessions(from, if from.machine.live then {from.machine.boot} else {}, steps, s);
            && (v.liveBoot.Some? ==> v.liveBoot.value in known)
            && s.runs[r].attested !! known
  {
    var known := if from.machine.live then {from.machine.boot} else {};
    StepsKnown(from, known, steps, s);
    assert NamesLive(v, LiveSessions(from, known, steps, s));
  }

  /** In which session of the machine a pass goes on at its own moves: it arms from the source it pinned, enrolls a
      live session other than that, and the recorded one once there is one, pins a contact key only where there is none,
      starts the final reboot only from the recorded live session, and cleans up only in the source. */
  lemma MovesInItsSession(run: Run, server: seq<Reservation>, m: Machine, x: Pass, y: Pass)
    requires |run.log| > 0 && |server| > 0 && CanMove(run, server, m, x, y) && !y.pc.Finished? && !y.pc.Failing?
    ensures x.pc.PrepareBoot? ==>
              x.view.source == Some(m.boot) && y.pc == Reading(if m.live then ArmPreparing else AwaitLiveGrub, 5)
    ensures y.pc.Enrolling? && (x.pc.InstallLive? || x.pc.InspectLive?) ==>
              && m.live && y.pc.boot == m.boot && x.view.source != Some(m.boot)
              && (x.pc.InstallLive? ==> x.view.liveBoot == Some(m.boot))
    ensures x.pc.InspectLive? && y.pc.Reading? ==>
              && m.live && x.view.source != Some(m.boot) && x.view.contactKey.None?
              && y.pc.site.RecordContact? && y.pc.site.seen == m.boot
    ensures y.pc == Recheck(Launch(FinalReboot)) ==> m.live && x.view.liveBoot == Some(m.boot)
    ensures x.pc.Cleaning? && y.pc.Ready? ==> x.view.source == Some(m.boot) && (y.pc.stage.RefreshClear? <==> m.live)
  {
    hide Continues, Releasable;
  }
}
