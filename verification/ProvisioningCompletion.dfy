/** The way to success: an undisturbed pass on a machine that boots as it is told completes the installation. */
module ProvisioningCompletion {
  import opened Wrappers
  import opened ProvisioningRun
  import opened ProvisioningSystem
  import opened ProvisioningSafety
  import opened ProvisioningEndings

  /** Steps of the pass alone, and boots of the machine. */
  ghost predicate Goes(s: State, id: PassId, steps: seq<Step>, t: State)
    decreases |steps|
  {
    if steps == [] then s == t
    else
      && Enabled(s, steps[0]) && (steps[0].Boot? || OwnStep(s, id, steps[0]))
      && Goes(Perform(s, steps[0]), id, steps[1..], t)
  }

  ghost predicate Leads(s: State, id: PassId, t: State) {
    exists steps :: Goes(s, id, steps, t)
  }

  lemma LeadsOne(s: State, id: PassId, step: Step)
    requires Enabled(s, step) && (step.Boot? || OwnStep(s, id, step))
    ensures Leads(s, id, Perform(s, step))
  {
    assert [step][1..] == [];
    assert Goes(Perform(s, step), id, [], Perform(s, step));
    assert Goes(s, id, [step], Perform(s, step));
  }

  lemma {:induction false} GoesThrough(s: State, id: PassId, a: seq<Step>, m: State, b: seq<Step>, t: State)
    requires Goes(s, id, a, m) && Goes(m, id, b, t)
    ensures Goes(s, id, a + b, t)
    decreases |a|
  {
    hide Enabled, OwnStep, Perform;
    if a == [] {
      assert a + b == b;
    } else {
      GoesThrough(Perform(s, a[0]), id, a[1..], m, b, t);
      assert (a + b)[0] == a[0] && (a + b)[1..] == a[1..] + b;
    }
  }

  lemma LeadsThrough(s: State, id: PassId, m: State, t: State)
    requires Leads(s, id, m) && Leads(m, id, t)
    ensures Leads(s, id, t)
  {
    var a :| Goes(s, id, a, m);
    var b :| Goes(m, id, b, t);
    GoesThrough(s, id, a, m, b, t);
  }

  lemma {:induction false} UndisturbedGoes(s: State, id: PassId, steps: seq<Step>, t: State)
    requires Undisturbed(s, id, steps, t)
    ensures Goes(s, id, steps, t)
    decreases |steps|
  {
    if steps != [] {
      UndisturbedGoes(Perform(s, steps[0]), id, steps[1..], t);
    }
  }

  // ---- Legs of the way ----

  predicate At(s: State, e: Scene, v: Status, pc: Pc) {
    Holding(s, e, v) && s.passes[e.id].pc == pc
  }

  /** The attempt's own code can go on from the record. */
  predicate ClaimedBy(v: Status, e: Scene) {
    v.attemptID == Some(e.run) && v.plan.Some? && v.plan.value.codeRevision == e.revision
  }

  /** Whatever else `s` holds, a pass there may proceed to `pc`. */
  ghost predicate MayGo(s: State, e: Scene, v: Status, pc: Pc) {
    Holding(s, e, v) && Proceeds(s.runs[e.run], s.server, s.machine, s.passes[e.id], Go(s.passes[e.id], pc))
  }

  lemma OwnLeads(o: State, s: State, id: PassId, step: Step)
    requires Leads(o, id, s) && OwnStep(s, id, step)
    ensures Enabled(s, step) && Leads(o, id, Perform(s, step))
  {
    assert Enabled(s, step);
    hide Enabled, Perform, OwnStep, Leads;
    LeadsOne(s, id, step);
    LeadsThrough(o, id, s, Perform(s, step));
  }

  lemma MoveLeg(o: State, s: State, e: Scene, v: Status, pc: Pc) returns (t: State)
    requires Leads(o, e.id, s) && MayGo(s, e, v, pc)
    ensures Leads(o, e.id, t) && At(t, e, v, pc) && t.runs == s.runs
  {
    hide Proceeds, Enabled, Perform, OwnStep, Leads;
    var y := Go(s.passes[e.id], pc);
    OwnMove(s, e.id, y);
    OwnLeads(o, s, e.id, Move(e.id, y));
    t := Perform(s, Move(e.id, y));
  }

  lemma CheckpointLeg(o: State, s: State, e: Scene, v: Status, site: Site) returns (t: State)
    requires Leads(o, e.id, s) && At(s, e, v, Reading(site, CONFLICT_LIMIT)) && ClaimedBy(v, e)
    ensures Leads(o, e.id, t) && At(t, e, Merge(v, SitePatch(site, v)), AfterSite(site))
  {
    var m := MoveLeg(o, s, e, v, Writing(site, CONFLICT_LIMIT, |s.runs[e.run].log| - 1));
    hide OwnStep, Enabled, Perform, Leads, Merge, SitePatch, AfterSite;
    OwnCheckpoint(m, e.id);
    OwnLeads(o, m, e.id, Checkpoint(e.id, Applied));
    WritingStep(m, e, v, site, Checkpoint(e.id, Applied));
    t := Perform(m, Checkpoint(e.id, Applied));
  }

  lemma ClaimLeg(o: State, s: State, e: Scene, v: Status, plan: Plan, source: BootId) returns (t: State)
    requires Leads(o, e.id, s) && At(s, e, v, Claiming(plan, source))
    ensures Leads(o, e.id, t)
    ensures At(t, e, Status(PreparingBoot, true, Some(e.run), Some(plan), Some(source), None, None, false), Resuming)
  {
    hide Leads;
    OwnLeads(o, s, e.id, Claim(e.id, Applied));
    t := Perform(s, Claim(e.id, Applied));
  }

  lemma AttestLeg(o: State, s: State, e: Scene, v: Status, pc: Pc) returns (t: State)
    requires Leads(o, e.id, s) && At(s, e, v, pc) && pc in {InspectInstalled, Verify, VerifyAgain}
    requires !e.machine.live && v.liveBoot != Some(e.machine.boot)
    ensures Leads(o, e.id, t) && At(t, e, v, AfterAttest(pc))
  {
    hide Leads, AfterAttest;
    OwnLeads(o, s, e.id, Attest(e.id));
    t := Perform(s, Attest(e.id));
  }

  lemma BootLeg(o: State, s: State, e: Scene, v: Status, pc: Pc, live: bool) returns (t: State)
    requires Leads(o, e.id, s) && At(s, e, v, pc)
    ensures Leads(o, e.id, t) && At(t, e.(machine := Machine(e.machine.boot + 1, live, None)), v, pc)
  {
    hide Leads;
    LeadsOne(s, e.id, Boot(live));
    t := Perform(s, Boot(live));
    LeadsThrough(o, e.id, s, t);
  }

  /** The machine after a stage: the refresh loads a kernel, arming selects netboot, and neither starts a session. */
  function StageLeaves(stage: Stage, run: Uid, m: Machine): Machine {
    match stage
    case RefreshPrepare => m.(pending := Some((run, Kexec)))
    case Arm => if m.live then m else m.(pending := Some((run, Grub)))
    case _ => m
  }

  lemma StageLeg(o: State, s: State, e: Scene, v: Status, stage: Stage) returns (t: State)
    requires Leads(o, e.id, s) && At(s, e, v, Ready(stage)) && !CleanupStage(stage)
    requires stage.RefreshPrepare? ==> e.machine.live && v.source == Some(e.machine.boot)
    requires stage.Install? ==> e.machine.live && v.liveBoot == Some(e.machine.boot)
    ensures Leads(o, e.id, t)
    ensures At(t, e.(machine := StageLeaves(stage, e.run, e.machine)), v, AfterStage(stage, v))
  {
    hide Leads, AfterStage;
    OwnLeads(o, s, e.id, BeginStage(e.id));
    var a := Begin(s, e.id);
    OwnLeads(o, a, e.id, StageEffect(e.id));
    var b := Effect(a, e.id);
    OwnLeads(o, b, e.id, EndStage(e.id));
    t := End(b, e.id);
  }

  /** A validated continuation: the check of `current`, then what it guards. */
  lemma RecheckLeg(o: State, s: State, e: Scene, v: Status, goal: Goal) returns (t: State)
    requires Leads(o, e.id, s) && At(s, e, v, Recheck(goal)) && ClaimedBy(v, e)
    ensures Leads(o, e.id, t) && At(t, e, v, AfterGoal(goal))
  {
    hide Leads, AfterGoal;
    t := MoveLeg(o, s, e, v, AfterGoal(goal));
  }

  // ---- From one phase to the next ----

  /** The record of an attempt in `phase`, started in session `source`. */
  predicate Attempt(v: Status, e: Scene, phase: Phase) {
    v.phase == phase && v.maintenance && ClaimedBy(v, e) && v.source.Some?
  }

  /** A pass that finds a Pending run claims it for itself, from the session the machine is in. */
  lemma ClaimRun(o: State, s: State, e: Scene, v: Status, digest: nat) returns (t: State)
    requires Leads(o, e.id, s) && At(s, e, v, Bound) && v.phase.Pending?
    ensures Leads(o, e.id, t)
    ensures At(t, e, Status(PreparingBoot, true, Some(e.run), Some(Plan(e.revision, digest)), Some(e.machine.boot),
                            None, None, false), PrepareBoot)
  {
    hide Leads;
    var plan := Plan(e.revision, digest);
    t := MoveLeg(o, s, e, v, Preparing);
    t := MoveLeg(o, t, e, v, Claiming(plan, e.machine.boot));
    t := ClaimLeg(o, t, e, v, plan, e.machine.boot);
    t := MoveLeg(o, t, e, Last(t.runs[e.run]), PrepareBoot);
  }

  /** From an installed session: GRUB is armed for one netboot and the machine restarts. */
  lemma NetbootFromDisk(o: State, s: State, e: Scene, v: Status) returns (t: State, m: Machine)
    requires Leads(o, e.id, s) && At(s, e, v, PrepareBoot) && Attempt(v, e, PreparingBoot)
    requires v.source == Some(e.machine.boot) && !e.machine.live
    ensures Leads(o, e.id, t) && At(t, e.(machine := m), v.(phase := AwaitingLive, armed := true), InstallLive)
    ensures m.boot == e.machine.boot
  {
    hide Leads;
    var w := v.(phase := AwaitingLive, armed := true);
    t := MoveLeg(o, s, e, v, Reading(AwaitLiveGrub, CONFLICT_LIMIT));
    t := CheckpointLeg(o, t, e, v, AwaitLiveGrub);
    t := RecheckLeg(o, t, e, w, Launch(Arm));
    t := StageLeg(o, t, e, w, Arm);
    m := StageLeaves(Arm, e.run, e.machine);
    t := RecheckLeg(o, t, e.(machine := m), w, Launch(Reboot));
    t := StageLeg(o, t, e.(machine := m), w, Reboot);
  }

  lemma LoadKernel(o: State, s: State, e: Scene, v: Status) returns (t: State)
    requires Leads(o, e.id, s) && At(s, e, v, PrepareBoot) && Attempt(v, e, PreparingBoot)
    requires v.source == Some(e.machine.boot) && e.machine.live
    ensures Leads(o, e.id, t)
    ensures At(t, e.(machine := StageLeaves(RefreshPrepare, e.run, e.machine)), v.(armed := true), Recheck(CommitKexec))
  {
    hide Leads;
    t := MoveLeg(o, s, e, v, Reading(ArmPreparing, CONFLICT_LIMIT));
    t := CheckpointLeg(o, t, e, v, ArmPreparing);
    t := StageLeg(o, t, e, v.(armed := true), RefreshPrepare);
  }

  /** From a live session: a kernel is loaded there and the machine restarts into it. */
  lemma NetbootFromLive(o: State, s: State, e: Scene, v: Status) returns (t: State, m: Machine)
    requires Leads(o, e.id, s) && At(s, e, v, PrepareBoot) && Attempt(v, e, PreparingBoot)
    requires v.source == Some(e.machine.boot) && e.machine.live
    ensures Leads(o, e.id, t)
    ensures At(t, e.(machine := m), v.(phase := AwaitingLive, armed := true, liveBoot := None), InstallLive)
    ensures m.boot == e.machine.boot
  {
    hide Leads, Holding, Proceeds, MayGo;
    var p, w := v.(armed := true), v.(phase := AwaitingLive, armed := true, liveBoot := None);
    t := LoadKernel(o, s, e, v);
    m := StageLeaves(RefreshPrepare, e.run, e.machine);
    var f := e.(machine := m);
    t := RecheckLeg(o, t, f, p, CommitKexec);
    t := CheckpointLeg(o, t, f, p, AwaitLiveKexec);
    t := RecheckLeg(o, t, f, w, Launch(RefreshBoot));
    t := StageLeg(o, t, f, w, RefreshBoot);
  }

  /** The live session is found again, or found and its first-contact key recorded when none is yet. */
  lemma FindLive(o: State, s: State, e: Scene, v: Status, key: Key) returns (t: State, w: Status)
    requires Leads(o, e.id, s) && At(s, e, v, InstallLive) && Attempt(v, e, AwaitingLive)
    requires e.machine.live && v.source != Some(e.machine.boot) && v.liveBoot in {None, Some(e.machine.boot)}
    ensures w == if v.liveBoot.None? && v.contactKey.None? then v.(contactKey := Some(key)) else v
    ensures Leads(o, e.id, t) && At(t, e, w, Enrolling(e.machine.boot))
  {
    hide Leads;
    w := if v.liveBoot.None? && v.contactKey.None? then v.(contactKey := Some(key)) else v;
    if v.liveBoot.Some? {
      t := MoveLeg(o, s, e, v, Enrolling(e.machine.boot));
    } else {
      t := MoveLeg(o, s, e, v, AwaitLive);
      t := FirstContact(o, t, e, v, key);
    }
  }

  lemma StartEnrolling(o: State, s: State, e: Scene, v: Status) returns (t: State)
    requires Leads(o, e.id, s) && At(s, e, v, Enrolling(e.machine.boot)) && Attempt(v, e, AwaitingLive)
    ensures Leads(o, e.id, t) && At(t, e, v, Reading(Enroll(e.machine.boot), CONFLICT_LIMIT))
  {
    hide Leads;
    t := MoveLeg(o, s, e, v, Reading(Enroll(e.machine.boot), CONFLICT_LIMIT));
  }

  lemma FirstContact(o: State, s: State, e: Scene, v: Status, key: Key) returns (t: State)
    requires Leads(o, e.id, s) && At(s, e, v, AwaitLive) && Attempt(v, e, AwaitingLive)
    requires e.machine.live && v.source != Some(e.machine.boot)
    ensures Leads(o, e.id, t)
    ensures At(t, e, if v.contactKey.None? then v.(contactKey := Some(key)) else v, Enrolling(e.machine.boot))
  {
    hide Leads;
    t := MoveLeg(o, s, e, v, InspectLive);
    if v.contactKey.None? {
      t := MoveLeg(o, t, e, v, Reading(RecordContact(key, e.machine.boot), CONFLICT_LIMIT));
      t := CheckpointLeg(o, t, e, v, RecordContact(key, e.machine.boot));
    } else {
      t := MoveLeg(o, t, e, v, Enrolling(e.machine.boot));
    }
  }

  /** The session is enrolled, and only that session is erased from. */
  lemma InstallFromLive(o: State, s: State, e: Scene, v: Status) returns (t: State)
    requires Leads(o, e.id, s) && At(s, e, v, Enrolling(e.machine.boot)) && Attempt(v, e, AwaitingLive) && e.machine.live
    ensures Leads(o, e.id, t)
    ensures At(t, e, v.(phase := AwaitingInstalled, liveBoot := Some(e.machine.boot), contactKey := None, armed := false),
               FinishBoot)
  {
    hide Leads, Holding, Proceeds, MayGo;
    t := StartEnrolling(o, s, e, v);
    t := CheckpointLeg(o, t, e, v, Enroll(e.machine.boot));
    var w := v.(liveBoot := Some(e.machine.boot), contactKey := None, armed := false);
    t := RecheckLeg(o, t, e, w, CommitInstall);
    t := EraseFromLive(o, t, e, w);
  }

  lemma EraseFromLive(o: State, s: State, e: Scene, v: Status) returns (t: State)
    requires Leads(o, e.id, s) && At(s, e, v, Reading(EnterInstall, CONFLICT_LIMIT)) && Attempt(v, e, AwaitingLive)
    requires e.machine.live && v.liveBoot == Some(e.machine.boot)
    ensures Leads(o, e.id, t) && At(t, e, v.(phase := AwaitingInstalled, armed := false), FinishBoot)
  {
    hide Leads;
    t := CheckpointLeg(o, s, e, v, EnterInstall);
    t := StageLeg(o, t, e, v.(phase := Installing), Install);
    t := CheckpointLeg(o, t, e, v.(phase := Installing), InstallDone);
  }

  /** The live session restarts once more, and any later session than it is inspected. */
  lemma RestartInstalled(o: State, s: State, e: Scene, v: Status) returns (t: State)
    requires Leads(o, e.id, s) && At(s, e, v, FinishBoot) && Attempt(v, e, AwaitingInstalled)
    requires e.machine.live && v.liveBoot == Some(e.machine.boot)
    ensures Leads(o, e.id, t) && At(t, e, v, AwaitInstalled)
  {
    hide Leads;
    t := MoveLeg(o, s, e, v, Recheck(Launch(FinalReboot)));
    t := RecheckLeg(o, t, e, v, Launch(FinalReboot));
    t := StageLeg(o, t, e, v, FinalReboot);
  }

  lemma InspectInstalledSession(o: State, s: State, e: Scene, v: Status) returns (t: State)
    requires Leads(o, e.id, s) && At(s, e, v, AwaitInstalled) && Attempt(v, e, AwaitingInstalled)
    requires !e.machine.live && v.liveBoot != Some(e.machine.boot)
    ensures Leads(o, e.id, t) && At(t, e, v.(phase := Verifying), Verify)
  {
    hide Leads;
    t := MoveLeg(o, s, e, v, InspectInstalled);
    t := AttestLeg(o, t, e, v, InspectInstalled);
    t := CheckpointLeg(o, t, e, v, BeginVerify);
  }

  /** The final stage, another look at the same session, and success: the Server is given back. */
  lemma VerifyInstalled(o: State, s: State, e: Scene, v: Status) returns (t: State)
    requires Leads(o, e.id, s) && At(s, e, v, Verify) && Attempt(v, e, Verifying) && !v.armed
    requires !e.machine.live && v.liveBoot != Some(e.machine.boot)
    ensures Leads(o, e.id, t) && Gone(t, e, v.(phase := Succeeded, maintenance := false))
  {
    hide Leads;
    t := AttestLeg(o, s, e, v, Verify);
    t := RecheckLeg(o, t, e, v, Launch(Post));
    t := StageLeg(o, t, e, v, Post);
    t := AttestLeg(o, t, e, v, VerifyAgain);
    t := Success(o, t, e, v);
  }

  lemma Success(o: State, s: State, e: Scene, v: Status) returns (t: State)
    requires Leads(o, e.id, s) && At(s, e, v, Reading(Complete, CONFLICT_LIMIT)) && Attempt(v, e, Verifying) && !v.armed
    ensures Leads(o, e.id, t) && Gone(t, e, v.(phase := Succeeded, maintenance := false))
  {
    var w := v.(phase := Succeeded, maintenance := false);
    assert LastSite(v, Complete, w) && Releasable(w);
    assert OnCourse(s, e, v, Complete, w);
    hide LastSite, Releasable, OnCourse, Gone, Goes, Undisturbed;
    var steps;
    steps, t := CourseCanEnd(s, e, v, Complete, w);
    CourseEnds(s, e, v, Complete, w, steps, t);
    CourseEnded(t, e, v, Complete, w);
    UndisturbedGoes(s, e.id, steps, t);
    LeadsThrough(o, e.id, s, t);
  }

  // ---- The whole way ----

  /** An attempt that can go on where it stopped, in the session the machine is in. */
  predicate Resumable(v: Status, m: Machine) {
    match v.phase
    case PreparingBoot => v.source == Some(m.boot)
    case AwaitingLive => m.live && v.source != Some(m.boot) && (v.liveBoot.None? || v.liveBoot == Some(m.boot))
    case AwaitingInstalled => m.live <==> v.liveBoot == Some(m.boot)
    case Verifying => !m.live && v.liveBoot != Some(m.boot)
    case _ => false
  }

  /** The pass ended, its run succeeded and the Server is free and records it. */
  predicate Installs(s: State, id: PassId, t: State)
    requires Current(s, id)
  {
    && Ended(t, id) && t.passes[id].run == s.passes[id].run && Stored(t, t.passes[id].run) && |t.server| > 0
    && Record(t, id).phase.Succeeded? && !Record(t, id).maintenance && !Record(t, id).armed
    && Record(t, id).attemptID == Some(s.passes[id].run)
    && Reserved(t) == Reserved(s).(activeRun := None, maintenance := false, provisioned := true,
                                   lastSuccessful := Some(s.passes[id].run))
  }

  lemma FromVerifying(o: State, s: State, e: Scene, v: Status) returns (t: State)
    requires Leads(o, e.id, s) && At(s, e, v, Verify) && Attempt(v, e, Verifying) && !v.armed && Resumable(v, e.machine)
    ensures Leads(o, e.id, t) && Ended(t, e.id) && t.machine == e.machine
    ensures Gone(t, e, v.(phase := Succeeded, maintenance := false))
  {
    t := VerifyInstalled(o, s, e, v);
    hide Leads;
  }

  lemma FromInstalled(o: State, s: State, e: Scene, v: Status) returns (t: State, m: Machine)
    requires Leads(o, e.id, s) && At(s, e, v, FinishBoot) && Attempt(v, e, AwaitingInstalled) && !v.armed
    requires Resumable(v, e.machine)
    ensures Leads(o, e.id, t) && Gone(t, e.(machine := m), v.(phase := Succeeded, maintenance := false))
    ensures m == if e.machine.live then Machine(e.machine.boot + 1, false, None) else e.machine
  {
    hide Leads, Gone;
    m := if e.machine.live then Machine(e.machine.boot + 1, false, None) else e.machine;
    if e.machine.live {
      t := RestartInstalled(o, s, e, v);
      t := BootLeg(o, t, e, v, AwaitInstalled, false);
    } else {
      t := MoveLeg(o, s, e, v, AwaitInstalled);
    }
    t := InspectInstalledSession(o, t, e.(machine := m), v);
    t := FromVerifying(o, t, e.(machine := m), v.(phase := Verifying));
  }

  /** From a live session: the record ends with that session as its live boot, the machine in the next one. */
  lemma FromLive(o: State, s: State, e: Scene, v: Status, key: Key) returns (t: State)
    requires Leads(o, e.id, s) && At(s, e, v, InstallLive) && Attempt(v, e, AwaitingLive)
    requires e.machine.live && v.source != Some(e.machine.boot) && v.liveBoot in {None, Some(e.machine.boot)}
    ensures Leads(o, e.id, t)
    ensures Gone(t, e.(machine := Machine(e.machine.boot + 1, false, None)),
                 v.(phase := Succeeded, maintenance := false, liveBoot := Some(e.machine.boot), contactKey := None,
                    armed := false))
  {
    hide Leads, Gone;
    var c;
    t, c := FindLive(o, s, e, v, key);
    t := FromEnrolling(o, t, e, c);
  }

  lemma FromEnrolling(o: State, s: State, e: Scene, v: Status) returns (t: State)
    requires Leads(o, e.id, s) && At(s, e, v, Enrolling(e.machine.boot)) && Attempt(v, e, AwaitingLive) && e.machine.live
    ensures Leads(o, e.id, t)
    ensures Gone(t, e.(machine := Machine(e.machine.boot + 1, false, None)),
                 v.(phase := Succeeded, maintenance := false, liveBoot := Some(e.machine.boot), contactKey := None,
                    armed := false))
  {
    hide Leads, Gone;
    t := InstallFromLive(o, s, e, v);
    var w := v.(phase := AwaitingInstalled, liveBoot := Some(e.machine.boot), contactKey := None, armed := false);
    var m;
    t, m := FromInstalled(o, t, e, w);
  }

  lemma FromSource(o: State, s: State, e: Scene, v: Status, key: Key) returns (t: State)
    requires Leads(o, e.id, s) && At(s, e, v, PrepareBoot) && Attempt(v, e, PreparingBoot)
    requires v.source == Some(e.machine.boot) && v.liveBoot.None?
    ensures Leads(o, e.id, t)
    ensures Gone(t, e.(machine := Machine(e.machine.boot + 2, false, None)),
                 v.(phase := Succeeded, maintenance := false, liveBoot := Some(e.machine.boot + 1), contactKey := None,
                    armed := false))
  {
    hide Leads, Gone;
    var m;
    if e.machine.live {
      t, m := NetbootFromLive(o, s, e, v);
    } else {
      t, m := NetbootFromDisk(o, s, e, v);
    }
    var w := v.(phase := AwaitingLive, armed := true);
    t := BootLeg(o, t, e.(machine := m), w, InstallLive, true);
    t := FromLive(o, t, e.(machine := Machine(e.machine.boot + 1, true, None)), w, key);
  }

  /** On a machine that boots as it is told, a pass that finds its run Pending installs it: into the session after the
      one that was live, with every field of the record and of the reservation as given. */
  lemma PendingRunInstalls(s: State, id: PassId, digest: nat, key: Key) returns (t: State)
    requires Inv(s) && Current(s, id) && s.passes[id].pc.Bound? && Record(s, id).phase.Pending?
    ensures Leads(s, id, t) && Installs(s, id, t)
    ensures Record(t, id) == Status(Succeeded, false, Some(s.passes[id].run), Some(Plan(s.passes[id].revision, digest)),
                                    Some(s.machine.boot), Some(s.machine.boot + 1), None, false)
    ensures t.machine == Machine(s.machine.boot + 2, false, None)
  {
    hide Inv, WellFormed, Proceeds, MayGo, OwnStep, Perform;
    var e, v := SceneOf(s, id), Record(s, id);
    HoldsCurrent(s, id);
    assert Goes(s, id, [], s);
    hide Leads, Goes;
    t := ClaimRun(s, s, e, v, digest);
    var w := Status(PreparingBoot, true, Some(e.run), Some(Plan(e.revision, digest)), Some(e.machine.boot), None, None, false);
    t := FromSource(s, t, e, w, key);
  }

  lemma Resume(o: State, s: State, e: Scene, v: Status) returns (t: State)
    requires Leads(o, e.id, s) && At(s, e, v, Bound) && ClaimedBy(v, e) && Resumable(v, e.machine)
    ensures Leads(o, e.id, t) && At(t, e, v, EnterPhase(v.phase))
  {
    hide Leads;
    t := MoveLeg(o, s, e, v, Resuming);
    t := MoveLeg(o, t, e, v, EnterPhase(v.phase));
  }

  /** A later pass of the same revision completes an attempt from any phase but the erase, under the plan and from the
      source that were pinned. */
  lemma InterruptedRunInstalls(s: State, id: PassId, key: Key) returns (t: State)
    requires Inv(s) && Current(s, id) && s.passes[id].pc.Bound? && Resumable(Record(s, id), s.machine)
    requires Record(s, id).plan.Some? && Record(s, id).plan.value.codeRevision == s.passes[id].revision
    ensures Leads(s, id, t) && Installs(s, id, t)
    ensures Record(t, id).plan == Record(s, id).plan && Record(t, id).source == Record(s, id).source
    ensures Record(s, id).liveBoot.Some? ==> Record(t, id).liveBoot == Record(s, id).liveBoot
  {
    hide Inv, OwnStep, Perform, MayGo, Proceeds;
    var e, v := SceneOf(s, id), Record(s, id);
    HoldsCurrent(s, id);
    assert Goes(s, id, [], s);
    hide Leads, Goes;
    t := Resume(s, s, e, v);
    match v.phase {
      case PreparingBoot => t := FromSource(s, t, e, v, key);
      case AwaitingLive => t := FromLive(s, t, e, v, key);
      case AwaitingInstalled =>
        var m;
        t, m := FromInstalled(s, t, e, v);
      case Verifying => t := FromVerifying(s, t, e, v);
    }
  }

  /** A refused first-contact write costs the attempt nothing: the pass contacts the session again and installs. */
  lemma RefusedContactInstalls(s: State, e: Scene, v: Status, key: Key, base: nat) returns (t: State)
    requires At(s, e, v, Writing(RecordContact(key, e.machine.boot), 1, base)) && base < |s.runs[e.run].log|
    requires Attempt(v, e, AwaitingLive) && v.liveBoot.None? && e.machine.live && v.source != Some(e.machine.boot)
    ensures Enabled(s, Checkpoint(e.id, Conflict)) && Leads(Perform(s, Checkpoint(e.id, Conflict)), e.id, t)
    ensures Gone(t, e.(machine := Machine(e.machine.boot + 1, false, None)),
                 v.(phase := Succeeded, maintenance := false, liveBoot := Some(e.machine.boot), contactKey := None,
                    armed := false))
  {
    var o := Perform(s, Checkpoint(e.id, Conflict));
    assert Goes(o, e.id, [], o);
    assert At(o, e, v, AwaitLive);
    hide Leads, Goes, Gone;
    t := FirstContact(o, o, e, v, key);
    var c := if v.contactKey.None? then v.(contactKey := Some(key)) else v;
    t := FromEnrolling(o, t, e, c);
  }
}
