/** How one pass ends when nothing disturbs it: which failures give the Server back, and which keep it. */
module ProvisioningEndings {
  import opened Wrappers
  import opened ProvisioningRun
  import opened ProvisioningSystem
  import opened ProvisioningSafety

  /** A step of this pass alone: an undisturbed move, an applied write, or a part of a stage. */
  ghost predicate OwnStep(s: State, id: PassId, step: Step) {
    && id in s.passes && Enabled(s, step)
    && match step
       case Move(i, y) => i == id && Proceeds(s.runs[s.passes[id].run], s.server, s.machine, s.passes[id], y)
       case Claim(i, reply) => i == id && reply.Applied?
       case Checkpoint(i, reply) => i == id && reply.Applied?
       case Release(i, reply) => i == id && reply.Applied?
       case BeginStage(i) => i == id
       case StageEffect(i) => i == id
       case EndStage(i) => i == id
       case Attest(i) => i == id
       case _ => false
  }

  ghost predicate Undisturbed(s: State, id: PassId, steps: seq<Step>, t: State)
    decreases |steps|
  {
    if steps == [] then s == t
    else OwnStep(s, id, steps[0]) && Undisturbed(Perform(s, steps[0]), id, steps[1..], t)
  }

  predicate Ended(t: State, id: PassId) {
    id in t.passes && t.passes[id].pc.Finished?
  }

  /** The pass holds the newest version of its run, and its run the Server. */
  predicate Current(s: State, id: PassId) {
    && id in s.passes && Stored(s, s.passes[id].run) && |s.server| > 0
    && s.passes[id].ver == |s.runs[s.passes[id].run].log| - 1
    && ActiveRun(s) == Some(s.passes[id].run)
  }

  function Record(s: State, id: PassId): Status
    requires id in s.passes && Stored(s, s.passes[id].run)
  {
    Last(s.runs[s.passes[id].run])
  }

  function Reserved(s: State): Reservation
    requires |s.server| > 0
  {
    s.server[|s.server| - 1]
  }

  // ---- The course of an ending ----

  /** What does not change along a course: the pass, its run and code revision, the Server's reservation and the
      machine. */
  datatype Scene = Scene(id: PassId, run: Uid, revision: nat, reserved: Reservation, machine: Machine)

  predicate Holding(s: State, e: Scene, v: Status) {
    && e.id in s.passes && s.passes[e.id].run == e.run && s.passes[e.id].revision == e.revision
    && Stored(s, e.run) && |s.server| > 0 && Last(s.runs[e.run]) == v
    && s.passes[e.id].view == v && s.passes[e.id].ver == |s.runs[e.run].log| - 1
    && Reserved(s) == e.reserved && e.reserved.activeRun == Some(e.run) && s.machine == e.machine
  }

  /** The run gave the Server back; a successful one is named as the last successful. */
  predicate Gone(s: State, e: Scene, w: Status) {
    && Ended(s, e.id) && s.passes[e.id].run == e.run && Stored(s, e.run) && Last(s.runs[e.run]) == w
    && |s.server| > 0 && s.machine == e.machine
    && Reserved(s)
       == if w.phase.Succeeded?
          then e.reserved.(activeRun := None, maintenance := false, provisioned := true, lastSuccessful := Some(e.run))
          else e.reserved.(activeRun := None, maintenance := false)
  }

  predicate Leaving(s: State, e: Scene, w: Status) {
    || Gone(s, e, w)
    || (Holding(s, e, w)
        && s.passes[e.id].pc in {ReleaseRead, ReleaseGet(CONFLICT_LIMIT, w.phase.Succeeded?),
                                 ReleasePut(CONFLICT_LIMIT, w.phase.Succeeded?, |s.server| - 1)})
  }

  predicate Keeping(s: State, e: Scene, w: Status) {
    Holding(s, e, w) && s.passes[e.id].pc in {ReleaseRead, Finished}
  }

  /** The last checkpoint of the pass at `site` turns the record `v` into `w`; then it leaves or keeps the Server. */
  predicate OnCourse(s: State, e: Scene, v: Status, site: Site, w: Status) {
    || (Holding(s, e, v)
        && s.passes[e.id].pc in {Reading(site, CONFLICT_LIMIT), Writing(site, CONFLICT_LIMIT, |s.runs[e.run].log| - 1)})
    || (if Releasable(w) then Leaving(s, e, w) else Keeping(s, e, w))
  }

  predicate LastSite(v: Status, site: Site, w: Status) {
    && w == Merge(v, SitePatch(site, v)) && v.attemptID.Some? && v.plan.Some?
    && AfterSite(site) in {ReleaseRead, Finished} && (Releasable(w) ==> AfterSite(site).ReleaseRead?)
  }

  lemma LeavingStep(s: State, e: Scene, w: Status, step: Step)
    requires Leaving(s, e, w) && Releasable(w) && OwnStep(s, e.id, step)
    ensures Leaving(Perform(s, step), e, w)
  {
  }

  lemma KeepingStep(s: State, e: Scene, w: Status, step: Step)
    requires Keeping(s, e, w) && !Releasable(w) && OwnStep(s, e.id, step)
    ensures Keeping(Perform(s, step), e, w)
  {
  }

  lemma ReadingStep(s: State, e: Scene, v: Status, site: Site, step: Step)
    requires Holding(s, e, v) && s.passes[e.id].pc == Reading(site, CONFLICT_LIMIT) && OwnStep(s, e.id, step)
    ensures var t := Perform(s, step);
            Holding(t, e, v) && t.passes[e.id].pc == Writing(site, CONFLICT_LIMIT, |t.runs[e.run].log| - 1)
  {
    hide AfterSite, AfterError;
  }

  lemma WritingStep(s: State, e: Scene, v: Status, site: Site, step: Step)
    requires Holding(s, e, v) && OwnStep(s, e.id, step)
    requires s.passes[e.id].pc == Writing(site, CONFLICT_LIMIT, |s.runs[e.run].log| - 1)
    ensures var t := Perform(s, step);
            Holding(t, e, Merge(v, SitePatch(site, v))) && t.passes[e.id].pc == AfterSite(site)
  {
    hide AfterSite, Merge, SitePatch;
  }

  lemma CourseStep(s: State, e: Scene, v: Status, site: Site, w: Status, step: Step)
    requires LastSite(v, site, w) && OnCourse(s, e, v, site, w) && OwnStep(s, e.id, step)
    ensures OnCourse(Perform(s, step), e, v, site, w)
  {
    hide Releasable, OwnStep, Merge, SitePatch, AfterSite;
    if Releasable(w) && Leaving(s, e, w) {
      LeavingStep(s, e, w, step);
    } else if !Releasable(w) && Keeping(s, e, w) {
      KeepingStep(s, e, w, step);
    } else if s.passes[e.id].pc.Reading? {
      ReadingStep(s, e, v, site, step);
    } else {
      WritingStep(s, e, v, site, step);
    }
  }

  lemma {:induction false} CourseEnds(s: State, e: Scene, v: Status, site: Site, w: Status, steps: seq<Step>, t: State)
    requires LastSite(v, site, w) && OnCourse(s, e, v, site, w) && Undisturbed(s, e.id, steps, t)
    ensures OnCourse(t, e, v, site, w)
    decreases |steps|
  {
    hide OnCourse, LastSite;
    if steps != [] {
      CourseStep(s, e, v, site, w, steps[0]);
      CourseEnds(Perform(s, steps[0]), e, v, site, w, steps[1..], t);
    }
  }

  /** An ended course left the record as `w`, and the Server free exactly when that is releasable. */
  lemma CourseEnded(t: State, e: Scene, v: Status, site: Site, w: Status)
    requires OnCourse(t, e, v, site, w) && Ended(t, e.id)
    ensures if Releasable(w) then Gone(t, e, w) else Holding(t, e, w)
  {
  }

  // ---- The way into a course ----

  function SceneOf(s: State, id: PassId): Scene
    requires Current(s, id)
  {
    Scene(id, s.passes[id].run, s.passes[id].revision, Reserved(s), s.machine)
  }

  /** One undisturbed step from the head of the failure handler or of `reconcile`. */
  lemma EntryStep(s: State, e: Scene, v: Status, step: Step)
    requires Holding(s, e, v) && OwnStep(s, e.id, step) && (s.passes[e.id].pc.Failing? || s.passes[e.id].pc.Bound?)
    ensures var t := Perform(s, step);
            && Holding(t, e, v)
            && t.passes[e.id].pc
               == if s.passes[e.id].pc.Bound? then Dispatch(v) else Handle(v, s.passes[e.id].pc.networkPending)
  {
    hide Dispatch, Handle;
  }

  lemma EntryEnds(s: State, e: Scene, v: Status, site: Site, w: Status, steps: seq<Step>, t: State)
    requires Holding(s, e, v) && (s.passes[e.id].pc.Failing? || s.passes[e.id].pc.Bound?) && LastSite(v, site, w)
    requires (if s.passes[e.id].pc.Bound? then Dispatch(v) else Handle(v, s.passes[e.id].pc.networkPending))
             == Reading(site, CONFLICT_LIMIT)
    requires Undisturbed(s, e.id, steps, t) && Ended(t, e.id)
    ensures if Releasable(w) then Gone(t, e, w) else Holding(t, e, w)
  {
    hide LastSite, Dispatch, Handle;
    EntryStep(s, e, v, steps[0]);
    CourseEnds(Perform(s, steps[0]), e, v, site, w, steps[1..], t);
    CourseEnded(t, e, v, site, w);
  }

  lemma HoldsCurrent(s: State, id: PassId)
    requires Inv(s) && Current(s, id) && !s.passes[id].pc.Binding? && !s.passes[id].pc.Finished?
    ensures Holding(s, SceneOf(s, id), Record(s, id)) && WellFormed(s.passes[id].run, Record(s, id))
  {
    hide Inv;
    InvAt(s, id);
  }

  // ---- Which checkpoint an ending goes for ----

  lemma EarlyFailureBlocks(r: Uid, v: Status)
    requires WellFormed(r, v) && v.phase in {PreparingBoot, AwaitingLive} && !v.armed
    ensures var w := v.(phase := Blocked, maintenance := false);
            && Handle(v, false) == Reading(BlockFailure(false), CONFLICT_LIMIT)
            && LastSite(v, BlockFailure(false), w) && Releasable(w)
  {
  }

  lemma EraseFailureBlocks(r: Uid, v: Status)
    requires WellFormed(r, v) && v.phase.Installing?
    ensures var w := v.(phase := Blocked, maintenance := true);
            && Handle(v, false) == Reading(BlockFailure(true), CONFLICT_LIMIT) && LastSite(v, BlockFailure(true), w)
            && Dispatch(v) == Reading(BlockInterrupted, CONFLICT_LIMIT) && LastSite(v, BlockInterrupted, w)
            && !Releasable(w)
  {
  }

  lemma PendingFailureStays(r: Uid, v: Status, networkPending: bool)
    requires WellFormed(r, v) && Active(v.phase) && (networkPending || v.phase in {AwaitingInstalled, Verifying})
    ensures Handle(v, networkPending) == Reading(StayPending, CONFLICT_LIMIT) && LastSite(v, StayPending, v) && !Releasable(v)
  {
  }

  // ---- What a failure does to the Server ----

  /** A failure before the erase, with netboot not armed, blocks the run without maintenance and gives the Server
      back: nothing else in the record, the reservation or the machine changes. */
  lemma FailureBeforeEraseReleases(s: State, id: PassId, steps: seq<Step>, t: State)
    requires Inv(s) && Current(s, id) && s.passes[id].pc == Failing(false)
    requires Record(s, id).phase in {PreparingBoot, AwaitingLive} && !Record(s, id).armed
    requires Undisturbed(s, id, steps, t) && Ended(t, id)
    ensures t.passes[id].run == s.passes[id].run && Stored(t, t.passes[id].run) && |t.server| > 0
    ensures Record(t, id) == Record(s, id).(phase := Blocked, maintenance := false)
    ensures Reserved(t) == Reserved(s).(activeRun := None, maintenance := false) && t.machine == s.machine
  {
    var v := Record(s, id);
    HoldsCurrent(s, id);
    EarlyFailureBlocks(s.passes[id].run, v);
    hide Inv, WellFormed, Undisturbed, Handle, Dispatch, LastSite, Releasable;
    EntryEnds(s, SceneOf(s, id), v, BlockFailure(false), v.(phase := Blocked, maintenance := false), steps, t);
  }

  /** A failure of the erase itself blocks the run with maintenance, and the Server stays reserved for it. */
  lemma FailureOfEraseRetains(s: State, id: PassId, steps: seq<Step>, t: State)
    requires Inv(s) && Current(s, id) && s.passes[id].pc == Failing(false) && Record(s, id).phase.Installing?
    requires Undisturbed(s, id, steps, t) && Ended(t, id)
    ensures t.passes[id].run == s.passes[id].run && Stored(t, t.passes[id].run) && |t.server| > 0
    ensures Record(t, id) == Record(s, id).(phase := Blocked, maintenance := true)
    ensures Reserved(t) == Reserved(s) && t.machine == s.machine
  {
    var v := Record(s, id);
    HoldsCurrent(s, id);
    EraseFailureBlocks(s.passes[id].run, v);
    hide Inv, WellFormed, Undisturbed, Handle, Dispatch, LastSite, Releasable;
    EntryEnds(s, SceneOf(s, id), v, BlockFailure(true), v.(phase := Blocked, maintenance := true), steps, t);
  }

  /** Pending management networking in any active phase, and any failure after the installation, change nothing:
      a later pass goes on from the same record. */
  lemma PendingFailureChangesNothing(s: State, id: PassId, steps: seq<Step>, t: State)
    requires Inv(s) && Current(s, id) && Active(Record(s, id).phase)
    requires || s.passes[id].pc == Failing(true)
             || (s.passes[id].pc == Failing(false) && Record(s, id).phase in {AwaitingInstalled, Verifying})
    requires Undisturbed(s, id, steps, t) && Ended(t, id)
    ensures t.passes[id].run == s.passes[id].run && Stored(t, t.passes[id].run) && |t.server| > 0
    ensures Record(t, id) == Record(s, id) && Reserved(t) == Reserved(s) && t.machine == s.machine
  {
    var v := Record(s, id);
    HoldsCurrent(s, id);
    PendingFailureStays(s.passes[id].run, v, s.passes[id].pc == Failing(true));
    hide Inv, WellFormed, Undisturbed, Handle, Dispatch, LastSite, Releasable;
    EntryEnds(s, SceneOf(s, id), v, StayPending, v, steps, t);
  }

  /** A pass that finds an erase it did not start blocks the run with maintenance at once. */
  lemma FoundEraseIsBlocked(s: State, id: PassId, steps: seq<Step>, t: State)
    requires Inv(s) && Current(s, id) && s.passes[id].pc.Bound? && Record(s, id).phase.Installing?
    requires Undisturbed(s, id, steps, t) && Ended(t, id)
    ensures t.passes[id].run == s.passes[id].run && Stored(t, t.passes[id].run) && |t.server| > 0
    ensures Record(t, id) == Record(s, id).(phase := Blocked, maintenance := true)
    ensures Reserved(t) == Reserved(s) && t.machine == s.machine
  {
    var v := Record(s, id);
    HoldsCurrent(s, id);
    EraseFailureBlocks(s.passes[id].run, v);
    hide Inv, WellFormed, Undisturbed, Handle, Dispatch, LastSite, Releasable;
    EntryEnds(s, SceneOf(s, id), v, BlockInterrupted, v.(phase := Blocked, maintenance := true), steps, t);
  }

  lemma {:induction false} LeavingEnds(s: State, e: Scene, w: Status, steps: seq<Step>, t: State)
    requires Leaving(s, e, w) && Releasable(w) && Undisturbed(s, e.id, steps, t) && Ended(t, e.id)
    ensures Gone(t, e, w)
    decreases |steps|
  {
    hide Releasable;
    if steps != [] {
      LeavingStep(s, e, w, steps[0]);
      LeavingEnds(Perform(s, steps[0]), e, w, steps[1..], t);
    }
  }

  /** A lost release is recovered: a pass that finds a finished run gives the Server back, and records a success. */
  lemma FinishedRunIsReleased(s: State, id: PassId, steps: seq<Step>, t: State)
    requires Inv(s) && Current(s, id) && s.passes[id].pc.Bound?
    requires Record(s, id).phase.Succeeded? || (Record(s, id).phase.Blocked? && !Record(s, id).maintenance)
    requires Undisturbed(s, id, steps, t) && Ended(t, id)
    ensures t.passes[id].run == s.passes[id].run && Stored(t, t.passes[id].run) && |t.server| > 0
    ensures Record(t, id) == Record(s, id) && t.machine == s.machine
    ensures Reserved(t).activeRun.None? && !Reserved(t).maintenance
    ensures Record(s, id).phase.Succeeded? ==>
              Reserved(t).provisioned && Reserved(t).lastSuccessful == Some(s.passes[id].run)
    ensures Record(s, id).phase.Blocked? ==>
              && Reserved(t).provisioned == Reserved(s).provisioned
              && Reserved(t).lastSuccessful == Reserved(s).lastSuccessful
  {
    var e, v := SceneOf(s, id), Record(s, id);
    HoldsCurrent(s, id);
    EntryStep(s, e, v, steps[0]);
    LeavingEnds(Perform(s, steps[0]), e, v, steps[1..], t);
  }

  /** Which newest record lets a pass go on to give the Server back. */
  lemma ReleasesExactly(run: Run, server: seq<Reservation>, m: Machine, x: Pass, y: Pass)
    requires |run.log| > 0 && |server| > 0 && x.pc.ReleaseRead? && Proceeds(run, server, m, x, y)
    ensures y.pc.ReleaseGet? <==>
              (Last(run).phase.Succeeded? || Last(run).phase.Blocked?) && !Last(run).maintenance && !Last(run).armed
    ensures !y.pc.ReleaseGet? ==> y.pc.Finished?
    ensures y.pc.ReleaseGet? ==> (y.pc.succeeded <==> Last(run).phase.Succeeded?) && y.pc.left == 5
  {
  }

  // ---- What a refused checkpoint does ----

  /** The fifth conflict gives a checkpoint up, and every version stays as it was: the note of a failure ends the pass, a
      first-contact write is tried again with the next contact, and any other refusal is a failure of the pass. */
  lemma LastConflict(s: State, id: PassId)
    requires CheckpointEnabled(s, id, Conflict) && s.passes[id].pc.left == 1 && |s.server| > 0
    ensures var x, t := s.passes[id], Perform(s, Checkpoint(id, Conflict));
            && t == s.(passes := t.passes) && id in t.passes && t.passes[id] == x.(pc := t.passes[id].pc)
            && (x.pc.site.StayPending? || x.pc.site.BlockFailure? ==> Ended(t, id))
            && (x.pc.site.RecordContact? ==> t.passes[id].pc.AwaitLive?)
            && (!x.pc.site.StayPending? && !x.pc.site.BlockFailure? && !x.pc.site.RecordContact? ==>
                  t.passes[id].pc == Failing(false))
  {
    hide Merge, SitePatch;
  }

  /** The pass is about to take the fifth conflict on the newest version of its run. */
  predicate GivesUp(s: State, id: PassId, site: Site) {
    Current(s, id) && CheckpointEnabled(s, id, Conflict) && s.passes[id].pc.left == 1 && s.passes[id].pc.site == site
  }

  lemma AfterConflict(s: State, id: PassId, site: Site) returns (o: State)
    requires GivesUp(s, id, site) && site in {EnterInstall, InstallDone}
    ensures Enabled(s, Checkpoint(id, Conflict)) && o == Perform(s, Checkpoint(id, Conflict))
    ensures Current(o, id) && o.passes[id].pc == Failing(false)
    ensures o.passes[id].run == s.passes[id].run && Record(o, id) == Record(s, id) && Reserved(o) == Reserved(s)
  {
    o := Perform(s, Checkpoint(id, Conflict));
    LastConflict(s, id);
    hide Perform;
  }

  /** The run is Blocked, with or without maintenance, and the Server free exactly without. */
  predicate BlockedWith(s: State, id: PassId, t: State, maintenance: bool) {
    && Current(s, id) && Ended(t, id) && t.passes[id].run == s.passes[id].run && Stored(t, t.passes[id].run)
    && Record(t, id) == Record(s, id).(phase := Blocked, maintenance := maintenance) && |t.server| > 0
    && Reserved(t) == if maintenance then Reserved(s) else Reserved(s).(activeRun := None, maintenance := false)
  }

  /** Losing the write that would have authorised the erase gives the Server back. */
  lemma UnauthorisedEraseReleases(s: State, id: PassId, steps: seq<Step>, t: State)
    requires GivesUp(s, id, EnterInstall) && !Record(s, id).armed
    requires Undisturbed(Perform(s, Checkpoint(id, Conflict)), id, steps, t) && Ended(t, id) && Inv(s)
    ensures BlockedWith(s, id, t, false)
  {
    hide Inv, Undisturbed, Perform;
    var o := AfterConflict(s, id, EnterInstall);
    StepInv(s, Checkpoint(id, Conflict));
    SiteOfPass(s, id);
    FailureBeforeEraseReleases(o, id, steps, t);
  }

  /** Losing the write that would have recorded the finished installation keeps it. */
  lemma UnrecordedInstallRetains(s: State, id: PassId, steps: seq<Step>, t: State)
    requires GivesUp(s, id, InstallDone)
    requires Undisturbed(Perform(s, Checkpoint(id, Conflict)), id, steps, t) && Ended(t, id) && Inv(s)
    ensures BlockedWith(s, id, t, true)
  {
    hide Inv, Undisturbed, Perform;
    var o := AfterConflict(s, id, InstallDone);
    StepInv(s, Checkpoint(id, Conflict));
    SiteOfPass(s, id);
    FailureOfEraseRetains(o, id, steps, t);
  }

  lemma SiteOfPass(s: State, id: PassId)
    requires Inv(s) && Current(s, id) && s.passes[id].pc.Writing?
    ensures s.passes[id].pc.site.EnterInstall? ==> Record(s, id).phase.AwaitingLive?
    ensures s.passes[id].pc.site.InstallDone? ==> Record(s, id).phase.Installing?
  {
    hide Inv;
    InvAt(s, id);
  }

  // ---- Cleaning up an armed boot selection ----

  /** The machine once the selection of the kind its session arms is gone. */
  function Cleared(m: Machine): Machine {
    if m.pending.Some? && m.pending.value.1 == (if m.live then Kexec else Grub) then m.(pending := None) else m
  }

  function CleanStage(m: Machine): Stage {
    if m.live then RefreshClear else Clear
  }

  function After(e: Scene): Scene {
    e.(machine := Cleared(e.machine))
  }

  /** The cleanup in the session the run started from, up to the checkpoint that blocks the run. */
  predicate InCleaning(s: State, e: Scene, v: Status) {
    || (Holding(s, e, v)
        && s.passes[e.id].pc in {Cleaning, Ready(CleanStage(e.machine)), Running(CleanStage(e.machine), false)})
    || (Holding(s, After(e), v) && s.passes[e.id].pc == Running(CleanStage(e.machine), true))
    || (Holding(s, After(e), v) && s.passes[e.id].pc.CleanCheck? && !e.machine.live)
    || (Holding(s, After(e), v) && s.passes[e.id].pc == Reading(BlockFailure(false), CONFLICT_LIMIT))
  }

  predicate CleansUp(e: Scene, v: Status) {
    v.phase in {PreparingBoot, AwaitingLive} && v.attemptID.Some? && v.plan.Some? && v.source == Some(e.machine.boot)
  }

  lemma CleanMove(s: State, e: Scene, v: Status, step: Step)
    requires CleansUp(e, v) && InCleaning(s, e, v) && OwnStep(s, e.id, step) && step.Move?
    requires !s.passes[e.id].pc.Reading?
    ensures InCleaning(Perform(s, step), e, v)
  {
  }

  lemma CleanStageStep(s: State, e: Scene, v: Status, step: Step)
    requires CleansUp(e, v) && InCleaning(s, e, v) && OwnStep(s, e.id, step) && !step.Move?
    requires !s.passes[e.id].pc.Reading?
    ensures InCleaning(Perform(s, step), e, v)
  {
    hide Proceeds;
  }

  lemma {:induction false} CleaningEnds(s: State, e: Scene, v: Status, steps: seq<Step>, t: State)
    requires CleansUp(e, v) && InCleaning(s, e, v) && Undisturbed(s, e.id, steps, t) && Ended(t, e.id)
    ensures Gone(t, After(e), v.(phase := Blocked, maintenance := false, armed := false))
    decreases |steps|
  {
    var w := v.(phase := Blocked, maintenance := false, armed := false);
    if s.passes[e.id].pc.Reading? {
      assert LastSite(v, BlockFailure(false), w) && Releasable(w);
      hide LastSite, InCleaning, Undisturbed, Releasable;
      CourseEnds(s, After(e), v, BlockFailure(false), w, steps, t);
      CourseEnded(t, After(e), v, BlockFailure(false), w);
    } else {
      assert steps != [];
      if steps[0].Move? {
        CleanMove(s, e, v, steps[0]);
      } else {
        CleanStageStep(s, e, v, steps[0]);
      }
      hide InCleaning, OwnStep, CleansUp;
      CleaningEnds(Perform(s, steps[0]), e, v, steps[1..], t);
    }
  }

  /** An armed failure before the erase, still in the session the run started from, removes the selection, blocks
      the run without maintenance and gives the Server back. */
  lemma CleanedFailureReleases(s: State, id: PassId, steps: seq<Step>, t: State)
    requires Inv(s) && Current(s, id) && s.passes[id].pc == Failing(false)
    requires Record(s, id).phase in {PreparingBoot, AwaitingLive} && Record(s, id).armed
    requires Record(s, id).source == Some(s.machine.boot) && Undisturbed(s, id, steps, t) && Ended(t, id)
    ensures t.passes[id].run == s.passes[id].run && Stored(t, t.passes[id].run) && |t.server| > 0
    ensures Record(t, id) == Record(s, id).(phase := Blocked, maintenance := false, armed := false)
    ensures Reserved(t) == Reserved(s).(activeRun := None, maintenance := false)
    ensures t.machine == if s.machine.pending.Some? && (s.machine.pending.value.1.Kexec? <==> s.machine.live)
                         then s.machine.(pending := None) else s.machine
  {
    var e, v := SceneOf(s, id), Record(s, id);
    HoldsCurrent(s, id);
    EntryStep(s, e, v, steps[0]);
    hide Inv;
    CleaningEnds(Perform(s, steps[0]), e, v, steps[1..], t);
  }

  /** In any other session the selection may have been used: the run stays armed and keeps its Server. */
  lemma UncleanedFailureRetains(s: State, id: PassId, steps: seq<Step>, t: State)
    requires Inv(s) && Current(s, id) && s.passes[id].pc == Failing(false)
    requires Record(s, id).phase in {PreparingBoot, AwaitingLive} && Record(s, id).armed
    requires Record(s, id).source != Some(s.machine.boot) && Undisturbed(s, id, steps, t) && Ended(t, id)
    ensures t.passes[id].run == s.passes[id].run && Stored(t, t.passes[id].run) && |t.server| > 0
    ensures Record(t, id) == Record(s, id).(phase := Blocked, maintenance := true)
    ensures Reserved(t) == Reserved(s) && t.machine == s.machine
  {
    var e, v := SceneOf(s, id), Record(s, id);
    HoldsCurrent(s, id);
    EntryStep(s, e, v, steps[0]);
    hide Inv;
    ElsewhereEnds(Perform(s, steps[0]), e, v, steps[1..], t);
  }

  lemma ElsewhereEnds(s: State, e: Scene, v: Status, steps: seq<Step>, t: State)
    requires Holding(s, e, v) && s.passes[e.id].pc.Cleaning? && v.source != Some(e.machine.boot)
    requires v.attemptID.Some? && v.plan.Some? && v.armed && Undisturbed(s, e.id, steps, t) && Ended(t, e.id)
    ensures Holding(t, e, v.(phase := Blocked, maintenance := true))
  {
    var w := v.(phase := Blocked, maintenance := true);
    assert LastSite(v, BlockFailure(true), w) && !Releasable(w);
    hide LastSite, Releasable;
    ElsewhereStep(s, e, v, steps[0]);
    CourseEnds(Perform(s, steps[0]), e, v, BlockFailure(true), w, steps[1..], t);
    CourseEnded(t, e, v, BlockFailure(true), w);
  }

  lemma ElsewhereStep(s: State, e: Scene, v: Status, step: Step)
    requires Holding(s, e, v) && s.passes[e.id].pc.Cleaning? && v.source != Some(e.machine.boot) && OwnStep(s, e.id, step)
    ensures var t := Perform(s, step);
            Holding(t, e, v) && t.passes[e.id].pc == Reading(BlockFailure(true), CONFLICT_LIMIT)
  {
  }

  lemma RetainedCourse(s: State, e: Scene, v: Status, steps: seq<Step>, t: State)
    requires Holding(s, e, v) && s.passes[e.id].pc == Reading(BlockFailure(true), CONFLICT_LIMIT)
    requires v.attemptID.Some? && v.plan.Some? && Undisturbed(s, e.id, steps, t) && Ended(t, e.id)
    ensures Holding(t, e, v.(phase := Blocked, maintenance := true))
  {
    var w := v.(phase := Blocked, maintenance := true);
    assert LastSite(v, BlockFailure(true), w) && !Releasable(w);
    hide LastSite, Releasable;
    CourseEnds(s, e, v, BlockFailure(true), w, steps, t);
    CourseEnded(t, e, v, BlockFailure(true), w);
  }

  /** An exception during the cleanup keeps the Server: the selection may still be there. */
  lemma CleanupErrorRetains(s: State, e: Scene, v: Status, steps: seq<Step>, t: State)
    requires Holding(s, e, v) && v.attemptID.Some? && v.plan.Some?
    requires var pc := s.passes[e.id].pc;
             pc.Cleaning? || pc.CleanCheck? || ((pc.Ready? || pc.Running?) && (pc.stage.Clear? || pc.stage.RefreshClear?))
    ensures var y := s.passes[e.id].(pc := Reading(BlockFailure(true), 5));
            && Enabled(s, Move(e.id, y))
            && (Undisturbed(Perform(s, Move(e.id, y)), e.id, steps, t) && Ended(t, e.id) ==>
                  Holding(t, e, v.(phase := Blocked, maintenance := true)))
  {
    hide Proceeds, Undisturbed;
    var o := Perform(s, Move(e.id, Go(s.passes[e.id], Reading(BlockFailure(true), CONFLICT_LIMIT))));
    if Undisturbed(o, e.id, steps, t) && Ended(t, e.id) {
      RetainedCourse(o, e, v, steps, t);
    }
  }

  /** A GRUB selection that is there again when the clearing stage ends keeps the Server as well. */
  lemma SelectedAgainRetains(s: State, e: Scene, v: Status, steps: seq<Step>, t: State)
    requires Holding(s, e, v) && v.attemptID.Some? && v.plan.Some? && s.passes[e.id].pc == Running(Clear, true)
    requires e.machine.pending.Some? && e.machine.pending.value.1.Grub?
    requires |steps| > 0 && steps[0] == EndStage(e.id) && Undisturbed(s, e.id, steps, t) && Ended(t, e.id)
    ensures Holding(t, e, v.(phase := Blocked, maintenance := true))
  {
    var a := Perform(s, steps[0]);
    assert Holding(a, e, v) && a.passes[e.id].pc.CleanCheck?;
    hide Perform, Proceeds, Holding, Enabled;
    CheckSelection(a, e, v, steps[1]);
    RetainedCourse(Perform(a, steps[1]), e, v, steps[1..][1..], t);
  }

  lemma CheckSelection(s: State, e: Scene, v: Status, step: Step)
    requires Holding(s, e, v) && s.passes[e.id].pc.CleanCheck? && OwnStep(s, e.id, step)
    requires e.machine.pending.Some? && e.machine.pending.value.1.Grub?
    ensures Holding(Perform(s, step), e, v)
    ensures Perform(s, step).passes[e.id].pc == Reading(BlockFailure(true), CONFLICT_LIMIT)
  {
  }

  lemma InstallMayFail(s: State, e: Scene, v: Status, applied: bool) returns (o: State)
    requires Holding(s, e, v) && s.passes[e.id].pc == Running(Install, applied)
    ensures var y := s.passes[e.id].(pc := Failing(false));
            Enabled(s, Move(e.id, y)) && o == Perform(s, Move(e.id, y)) && Holding(o, e, v) && o.passes[e.id].pc == y.pc
  {
    hide Proceeds;
    o := Perform(s, Move(e.id, Go(s.passes[e.id], Failing(false))));
  }

  /** An erase that fails is handled like one: the run is blocked with maintenance and the Server stays reserved. */
  lemma FailedInstallRetains(s: State, e: Scene, v: Status, applied: bool, steps: seq<Step>, t: State)
    requires Holding(s, e, v) && WellFormed(e.run, v) && v.phase.Installing? && s.passes[e.id].pc == Running(Install, applied)
    ensures var y := s.passes[e.id].(pc := Failing(false));
            && Enabled(s, Move(e.id, y))
            && (Undisturbed(Perform(s, Move(e.id, y)), e.id, steps, t) && Ended(t, e.id) ==>
                  Holding(t, e, v.(phase := Blocked, maintenance := true)))
  {
    hide Perform, Undisturbed, WellFormed;
    var o := InstallMayFail(s, e, v, applied);
    EraseFailureBlocks(e.run, v);
    hide Dispatch, Handle, LastSite, Releasable, Enabled;
    if Undisturbed(o, e.id, steps, t) && Ended(t, e.id) {
      EntryEnds(o, e, v, BlockFailure(true), v.(phase := Blocked, maintenance := true), steps, t);
    }
  }

  predicate CheckpointPc(pc: Pc) {
    pc.Reading? || pc.Writing?
  }

  /** Where an exception reaches the failure handler: anywhere but before the run is bound, in the handler itself and
      its cleanup, after the end, and in the writes that record a failure or a first contact. */
  lemma FaultsReachHandler(run: Run, server: seq<Reservation>, m: Machine, x: Pass, networkPending: bool)
    requires |run.log| > 0 && |server| > 0 && !x.pc.Bound?
    ensures CanMove(run, server, m, x, x.(pc := Failing(networkPending))) <==>
            && !x.pc.Binding? && !x.pc.Failing? && !x.pc.NotePending? && !x.pc.Cleaning? && !x.pc.CleanCheck?
            && !x.pc.Finished?
            && ((x.pc.Ready? || x.pc.Running?) ==> !x.pc.stage.Clear? && !x.pc.stage.RefreshClear?)
            && (CheckpointPc(x.pc) ==> !x.pc.site.StayPending? && !x.pc.site.BlockFailure? && !x.pc.site.RecordContact?)
  {
    var y := Go(x, Failing(networkPending));
    assert y.pc.Failing?;
  }

  // ---- Every failure can be handled to its end ----

  function Left(pc: Pc): nat {
    match pc
    case Cleaning => 10
    case Ready(_) => 9
    case Running(_, applied) => if applied then 7 else 8
    case CleanCheck => 6
    case Reading(_, _) => 5
    case Writing(_, _, _) => 4
    case ReleaseRead => 3
    case ReleaseGet(_, _) => 2
    case ReleasePut(_, _, _) => 1
    case _ => 0
  }

  lemma OwnMove(s: State, id: PassId, y: Pass)
    requires |s.server| > 0 && CanAct(s, id)
    requires Proceeds(s.runs[s.passes[id].run], s.server, s.machine, s.passes[id], y)
    ensures OwnStep(s, id, Move(id, y)) && Perform(s, Move(id, y)) == PutPass(s, id, y)
  {
    hide Proceeds;
  }

  lemma OwnCheckpoint(s: State, id: PassId)
    requires |s.server| > 0 && CheckpointEnabled(s, id, Applied)
    ensures OwnStep(s, id, Checkpoint(id, Applied)) && id in Perform(s, Checkpoint(id, Applied)).passes
    ensures Perform(s, Checkpoint(id, Applied)).passes[id].pc == AfterSite(s.passes[id].pc.site)
  {
    hide AfterSite, Merge, SitePatch;
  }

  lemma OwnRelease(s: State, id: PassId)
    requires ReleaseEnabled(s, id, Applied)
    ensures OwnStep(s, id, Release(id, Applied)) && id in Perform(s, Release(id, Applied)).passes
    ensures Perform(s, Release(id, Applied)).passes[id].pc.Finished?
  {
  }

  lemma NextAtCheckpoint(s: State, e: Scene, v: Status, site: Site) returns (step: Step)
    requires Holding(s, e, v) && v.attemptID.Some? && v.plan.Some? && AfterSite(site) in {ReleaseRead, Finished}
    requires s.passes[e.id].pc in {Reading(site, CONFLICT_LIMIT), Writing(site, CONFLICT_LIMIT, |s.runs[e.run].log| - 1)}
    ensures OwnStep(s, e.id, step) && e.id in Perform(s, step).passes
    ensures Left(Perform(s, step).passes[e.id].pc) < Left(s.passes[e.id].pc)
  {
    hide OwnStep, Enabled, Perform, AfterSite;
    var x := s.passes[e.id];
    if x.pc.Writing? {
      step := Checkpoint(e.id, Applied);
      OwnCheckpoint(s, e.id);
    } else {
      step := Move(e.id, Go(x, Writing(site, CONFLICT_LIMIT, |s.runs[e.run].log| - 1)));
      OwnMove(s, e.id, step.to);
    }
  }

  lemma NextInRelease(s: State, e: Scene, w: Status) returns (step: Step)
    requires Leaving(s, e, w) && Releasable(w) && !s.passes[e.id].pc.Finished?
    ensures OwnStep(s, e.id, step) && e.id in Perform(s, step).passes
    ensures Left(Perform(s, step).passes[e.id].pc) < Left(s.passes[e.id].pc)
  {
    hide OwnStep, Enabled, Perform, Releasable;
    var x := s.passes[e.id];
    if x.pc.ReleasePut? {
      step := Release(e.id, Applied);
      OwnRelease(s, e.id);
    } else if x.pc.ReleaseGet? {
      step := Move(e.id, Go(x, ReleasePut(CONFLICT_LIMIT, w.phase.Succeeded?, |s.server| - 1)));
      OwnMove(s, e.id, step.to);
    } else {
      step := Move(e.id, Go(x, ReleaseGet(CONFLICT_LIMIT, w.phase.Succeeded?)));
      OwnMove(s, e.id, step.to);
    }
  }

  lemma NextWhenKept(s: State, e: Scene, w: Status) returns (step: Step)
    requires Keeping(s, e, w) && !Releasable(w) && !s.passes[e.id].pc.Finished?
    ensures OwnStep(s, e.id, step) && e.id in Perform(s, step).passes
    ensures Left(Perform(s, step).passes[e.id].pc) < Left(s.passes[e.id].pc)
  {
    hide OwnStep, Enabled, Perform, Releasable;
    step := Move(e.id, Go(s.passes[e.id], Finished));
    OwnMove(s, e.id, step.to);
  }

  lemma NextOnCourse(s: State, e: Scene, v: Status, site: Site, w: Status) returns (step: Step)
    requires LastSite(v, site, w) && OnCourse(s, e, v, site, w) && !s.passes[e.id].pc.Finished?
    ensures OwnStep(s, e.id, step) && e.id in Perform(s, step).passes
    ensures Left(Perform(s, step).passes[e.id].pc) < Left(s.passes[e.id].pc)
  {
    hide OwnStep, Enabled, Perform, Merge, SitePatch, Releasable, AfterSite, Left, Holding, Gone;
    if Releasable(w) && Leaving(s, e, w) {
      step := NextInRelease(s, e, w);
    } else if !Releasable(w) && Keeping(s, e, w) {
      step := NextWhenKept(s, e, w);
    } else {
      step := NextAtCheckpoint(s, e, v, site);
    }
  }

  lemma {:induction false} CourseCanEnd(s: State, e: Scene, v: Status, site: Site, w: Status)
    returns (steps: seq<Step>, t: State)
    requires LastSite(v, site, w) && OnCourse(s, e, v, site, w)
    ensures Undisturbed(s, e.id, steps, t) && Ended(t, e.id)
    decreases if e.id in s.passes then Left(s.passes[e.id].pc) else 0
  {
    assert e.id in s.passes;
    if s.passes[e.id].pc.Finished? {
      return [], s;
    }
    var step := NextOnCourse(s, e, v, site, w);
    CourseStep(s, e, v, site, w, step);
    hide OnCourse, LastSite, OwnStep, Left;
    var rest;
    rest, t := CourseCanEnd(Perform(s, step), e, v, site, w);
    steps := [step] + rest;
    assert steps[1..] == rest;
  }

  lemma OwnStage(s: State, id: PassId)
    requires |s.server| > 0 && CanAct(s, id)
    ensures s.passes[id].pc.Ready? ==>
              && OwnStep(s, id, BeginStage(id)) && id in Perform(s, BeginStage(id)).passes
              && Perform(s, BeginStage(id)).passes[id].pc == Running(s.passes[id].pc.stage, false)
    ensures s.passes[id].pc.Running? && CleanupStage(s.passes[id].pc.stage) && !s.passes[id].pc.applied ==>
              && OwnStep(s, id, StageEffect(id)) && id in Perform(s, StageEffect(id)).passes
              && Perform(s, StageEffect(id)).passes[id].pc == Running(s.passes[id].pc.stage, true)
    ensures s.passes[id].pc.Running? && s.passes[id].pc.applied ==>
              && OwnStep(s, id, EndStage(id)) && id in Perform(s, EndStage(id)).passes
              && Perform(s, EndStage(id)).passes[id].pc == AfterStage(s.passes[id].pc.stage, s.passes[id].view)
  {
    hide EffectOn, AfterStage;
  }

  lemma NextInCleaning(s: State, e: Scene, v: Status) returns (step: Step)
    requires CleansUp(e, v) && InCleaning(s, e, v) && !s.passes[e.id].pc.Reading?
    ensures OwnStep(s, e.id, step) && InCleaning(Perform(s, step), e, v)
    ensures Left(Perform(s, step).passes[e.id].pc) < Left(s.passes[e.id].pc)
  {
    var x := s.passes[e.id];
    if x.pc.Ready? || x.pc.Running? {
      step := if x.pc.Ready? then BeginStage(e.id) else if x.pc.applied then EndStage(e.id) else StageEffect(e.id);
      StageLeft(s, e, v);
      CleanStageStep(s, e, v, step);
    } else {
      step := MoveInCleaning(s, e, v);
      CleanMove(s, e, v, step);
    }
    hide OwnStep, Enabled, Perform, Holding;
  }

  lemma StageLeft(s: State, e: Scene, v: Status)
    requires CleansUp(e, v) && InCleaning(s, e, v) && (s.passes[e.id].pc.Ready? || s.passes[e.id].pc.Running?)
    ensures var x := s.passes[e.id];
            var step := if x.pc.Ready? then BeginStage(e.id) else if x.pc.applied then EndStage(e.id) else StageEffect(e.id);
            && OwnStep(s, e.id, step) && e.id in Perform(s, step).passes
            && Left(Perform(s, step).passes[e.id].pc) < Left(x.pc)
  {
    OwnStage(s, e.id);
    hide OwnStep, Enabled, Perform;
  }

  lemma MoveInCleaning(s: State, e: Scene, v: Status) returns (step: Step)
    requires CleansUp(e, v) && InCleaning(s, e, v) && (s.passes[e.id].pc.Cleaning? || s.passes[e.id].pc.CleanCheck?)
    ensures step.Move? && OwnStep(s, e.id, step) && e.id in Perform(s, step).passes
    ensures Left(Perform(s, step).passes[e.id].pc) < Left(s.passes[e.id].pc)
  {
    hide OwnStep, Enabled, Perform;
    var x := s.passes[e.id];
    step := Move(e.id, Go(x, if x.pc.Cleaning? then Ready(CleanStage(e.machine))
                             else Reading(BlockFailure(false), CONFLICT_LIMIT)));
    OwnMove(s, e.id, step.to);
  }

  lemma {:induction false} CleaningCanEnd(s: State, e: Scene, v: Status) returns (steps: seq<Step>, t: State)
    requires CleansUp(e, v) && InCleaning(s, e, v)
    ensures Undisturbed(s, e.id, steps, t) && Ended(t, e.id)
    decreases if e.id in s.passes then Left(s.passes[e.id].pc) else 0
  {
    if s.passes[e.id].pc.Reading? {
      var w := v.(phase := Blocked, maintenance := false, armed := false);
      steps, t := CourseCanEnd(s, After(e), v, BlockFailure(false), w);
    } else {
      var step := NextInCleaning(s, e, v);
      hide InCleaning, OwnStep, CleansUp;
      var rest;
      rest, t := CleaningCanEnd(Perform(s, step), e, v);
      steps := [step] + rest;
      assert steps[1..] == rest;
    }
  }

  lemma Prepend(s: State, id: PassId, step: Step, rest: seq<Step>, t: State)
    requires OwnStep(s, id, step) && Undisturbed(Perform(s, step), id, rest, t)
    ensures Undisturbed(s, id, [step] + rest, t)
  {
    assert ([step] + rest)[1..] == rest;
  }

  lemma HandlerStarts(s: State, e: Scene, v: Status) returns (step: Step)
    requires Holding(s, e, v) && s.passes[e.id].pc.Failing?
    ensures OwnStep(s, e.id, step) && Holding(Perform(s, step), e, v)
    ensures Perform(s, step).passes[e.id].pc == Handle(v, s.passes[e.id].pc.networkPending)
  {
    hide OwnStep, Enabled, Perform, Handle;
    step := Move(e.id, Go(s.passes[e.id], Handle(v, s.passes[e.id].pc.networkPending)));
    OwnMove(s, e.id, step.to);
    EntryStep(s, e, v, step);
  }

  lemma HandlerCanEnd(s: State, e: Scene, v: Status, networkPending: bool) returns (steps: seq<Step>, t: State)
    requires Holding(s, e, v) && WellFormed(e.run, v) && s.passes[e.id].pc == Handle(v, networkPending)
    ensures Undisturbed(s, e.id, steps, t) && Ended(t, e.id)
  {
    SiteOfFailure(e.run, v, networkPending);
    var pc := s.passes[e.id].pc;
    hide Handle, LastSite, WellFormed, Merge, SitePatch;
    if pc.Finished? {
      steps, t := [], s;
    } else if pc.NotePending? {
      steps, t := NoteCanEnd(s, e, v);
    } else if pc.Cleaning? && v.source == Some(e.machine.boot) {
      steps, t := CleaningCanEnd(s, e, v);
    } else if pc.Cleaning? {
      steps, t := ElsewhereCanEnd(s, e, v);
    } else {
      steps, t := CourseCanEnd(s, e, v, pc.site, Merge(v, SitePatch(pc.site, v)));
    }
  }

  /** Whatever the record, the machine and the exception, an undisturbed failure handler comes to an end. */
  lemma FailuresEnd(s: State, id: PassId) returns (steps: seq<Step>, t: State)
    requires Inv(s) && Current(s, id) && s.passes[id].pc.Failing?
    ensures Undisturbed(s, id, steps, t) && Ended(t, id)
  {
    HoldsCurrent(s, id);
    hide Inv, Holding, WellFormed, Handle, OwnStep, Perform, Undisturbed;
    var e, v := SceneOf(s, id), Record(s, id);
    var first := HandlerStarts(s, e, v);
    var rest;
    rest, t := HandlerCanEnd(Perform(s, first), e, v, s.passes[id].pc.networkPending);
    Prepend(s, id, first, rest, t);
    steps := [first] + rest;
  }

  lemma NoteCanEnd(s: State, e: Scene, v: Status) returns (steps: seq<Step>, t: State)
    requires Holding(s, e, v) && s.passes[e.id].pc.NotePending?
    ensures Undisturbed(s, e.id, steps, t) && Ended(t, e.id)
  {
    var y := Go(s.passes[e.id], Finished);
    OwnMove(s, e.id, y);
    hide OwnStep, Enabled, Perform;
    t := Perform(s, Move(e.id, y));
    Prepend(s, e.id, Move(e.id, y), [], t);
    steps := [Move(e.id, y)] + [];
  }

  lemma ElsewhereCanEnd(s: State, e: Scene, v: Status) returns (steps: seq<Step>, t: State)
    requires Holding(s, e, v) && s.passes[e.id].pc.Cleaning? && v.source != Some(e.machine.boot)
    requires v.attemptID.Some? && v.plan.Some?
    ensures Undisturbed(s, e.id, steps, t) && Ended(t, e.id)
  {
    var step := Move(e.id, Go(s.passes[e.id], Reading(BlockFailure(true), CONFLICT_LIMIT)));
    ElsewhereStep(s, e, v, step);
    var w := Merge(v, SitePatch(BlockFailure(true), v));
    assert LastSite(v, BlockFailure(true), w);
    hide LastSite;
    var rest;
    rest, t := CourseCanEnd(Perform(s, step), e, v, BlockFailure(true), w);
    Prepend(s, e.id, step, rest, t);
    steps := [step] + rest;
  }

  lemma SiteOfFailure(r: Uid, v: Status, networkPending: bool)
    requires WellFormed(r, v)
    ensures var pc := Handle(v, networkPending);
            && (pc.Finished? || pc.NotePending? || pc.Cleaning? || pc.Reading?)
            && (pc.Reading? ==> pc.left == CONFLICT_LIMIT && LastSite(v, pc.site, Merge(v, SitePatch(pc.site, v))))
            && (pc.Cleaning? ==> v.phase in {PreparingBoot, AwaitingLive} && v.attemptID.Some? && v.plan.Some?)
  {
  }
}
