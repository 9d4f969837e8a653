/** The operators' own bounded write loops, each one guarded update of its record, and what their
    version of the record is worth in the protocol it belongs to. */
module GuardedWrites {
  import opened Wrappers
  import opened CasLoop
  import H = HostKeys
  import opened OperationClaims
  import opened ProvisioningRun
  import S = ProvisioningSystem

  /** A provisioning pass and the run record it shares with other writers. */
  class Attempt {
    const uid: Uid
    const record: Record<Status>
    var view: Status

    constructor (uid: Uid, record: Record<Status>, view: Status)
      ensures this.uid == uid && this.record == record && this.view == view
    {
      this.uid, this.record, this.view := uid, record, view;
    }

    /** Version `v` is the checkpoint of `site`, made from the version before it and the view `seen`. */
    ghost predicate Checkpointed(v: nat, site: Site, seen: Status)
      reads record
    {
      && 0 < v < |record.log| && Continues(record.log[v - 1], seen)
      && record.log[v] == Merge(record.log[v - 1], SitePatch(site, seen))
    }

    /** `checkpoint`: the local view moves only together with the one version this call wrote; an unanswered
        write may have created one such version, and then no other. */
    method Checkpoint(site: Site) returns (outcome: Outcome)
      requires |record.log| > 0
      modifies this, record
      ensures old(record.log) <= record.log
      ensures Answered(old(record.replies), record.replies, |record.fetched| - |old(record.fetched)|, 5, outcome)
      ensures outcome.Written? ==>
                && record.mine == old(record.mine) + [outcome.version] && |old(record.log)| <= outcome.version
                && Checkpointed(outcome.version, site, old(view)) && view == record.log[outcome.version]
      ensures !outcome.Written? ==> view == old(view)
      ensures outcome.Refused? || outcome.Exhausted? ==> record.mine == old(record.mine)
      ensures outcome.Refused? ==>
                && |old(record.log)| - 1 <= outcome.seen < |record.log|
                && !Continues(record.log[outcome.seen], old(view))
      ensures outcome.Unknown? && record.mine != old(record.mine) ==>
                exists v: nat :: |old(record.log)| <= v && record.mine == old(record.mine) + [v]
                                 && Checkpointed(v, site, old(view))
    {
      var seen := view;
      var guard := (latest: Status) => Continues(latest, seen);
      var change := (latest: Status) => Merge(latest, SitePatch(site, seen));
      outcome := GuardedUpdate(record, guard, change, S.CONFLICT_LIMIT);
      if outcome.Written? {
        view := record.log[outcome.version];
      } else if outcome.Unknown? && record.mine != old(record.mine) {
        ghost var v: nat :| |old(record.log)| <= v && record.mine == old(record.mine) + [v] && record.Updated(v, guard, change);
        assert Checkpointed(v, site, seen);
      }
    }
  }

  /** A checkpointed version extends every well-formed history whose view the pass acted on. */
  lemma CheckpointKeepsHistory(uid: Uid, run: Run, ver: nat, site: Site, next: Status)
    requires RunOk(uid, run) && ver < |run.log| && SiteOk(run, run.log[ver], site)
    requires Continues(Last(run), run.log[ver]) && next == Merge(Last(run), SitePatch(site, run.log[ver]))
    ensures RunOk(uid, Append(run, next))
    ensures Committed(Last(run)) ==> Committed(next)
    ensures Terminal(Last(run).phase) ==> next == Last(run)
  {
    SiteLegal(uid, run, ver, |run.log| - 1, site);
    AppendOk(uid, run, next);
  }

  /** Version `v` gives up the reservation that the version before it held for the run. */
  ghost predicate GaveUp(log: seq<S.Reservation>, v: nat, run: Uid, succeeded: bool) {
    && 0 < v < |log| && log[v - 1].activeRun == Some(run) && log[v].activeRun.None? && !log[v].maintenance
    && log[v].provisioned == (succeeded || log[v - 1].provisioned)
    && log[v].lastSuccessful == if succeeded then Some(run) else log[v - 1].lastSuccessful
  }

  /** `release_run`, once the run was read as releasable: the reservation goes to nobody else's loss. */
  method ReleaseReservation(server: Record<S.Reservation>, run: Uid, succeeded: bool) returns (outcome: Outcome)
    requires |server.log| > 0
    modifies server
    ensures old(server.log) <= server.log
    ensures Answered(old(server.replies), server.replies, |server.fetched| - |old(server.fetched)|, 5, outcome)
    ensures outcome.Written? ==>
              && server.mine == old(server.mine) + [outcome.version] && GaveUp(server.log, outcome.version, run, succeeded)
    ensures outcome.Refused? || outcome.Exhausted? ==> server.mine == old(server.mine)
    ensures outcome.Refused? ==> outcome.seen < |server.log| && server.log[outcome.seen].activeRun != Some(run)
    ensures outcome.Unknown? && server.mine != old(server.mine) ==>
              exists v: nat :: server.mine == old(server.mine) + [v] && GaveUp(server.log, v, run, succeeded)
  {
    var guard := (latest: S.Reservation) => latest.activeRun == Some(run);
    var change := (latest: S.Reservation) => S.Released(latest, S.ServerWrite(run, 0, succeeded));
    outcome := GuardedUpdate(server, guard, change, S.CONFLICT_LIMIT);
    if outcome.Unknown? && server.mine != old(server.mine) {
      ghost var v: nat :| |old(server.log)| <= v && server.mine == old(server.mine) + [v] && server.Updated(v, guard, change);
      assert GaveUp(server.log, v, run, succeeded);
    }
  }

  /** `complete_operation`: an outcome is recorded on a held Operation or not at all. */
  method CompleteOperation(operation: Record<OpPhase>, phase: OpPhase) returns (outcome: Outcome)
    requires |operation.log| > 0
    modifies operation
    ensures old(operation.log) <= operation.log
    ensures Answered(old(operation.replies), operation.replies, |operation.fetched| - |old(operation.fetched)|, 5, outcome)
    ensures outcome.Written? ==>
              && operation.mine == old(operation.mine) + [outcome.version] && 0 < outcome.version < |operation.log|
              && HeldPhase(operation.log[outcome.version - 1]) && operation.log[outcome.version] == phase
    ensures outcome.Refused? || outcome.Exhausted? ==> operation.mine == old(operation.mine)
    ensures outcome.Refused? ==> outcome.seen < |operation.log| && !HeldPhase(operation.log[outcome.seen])
    ensures outcome.Unknown? && operation.mine != old(operation.mine) ==>
              exists v: nat :: 0 < v < |operation.log| && operation.mine == old(operation.mine) + [v]
                               && HeldPhase(operation.log[v - 1]) && operation.log[v] == phase
  {
    outcome := GuardedUpdate(
      operation, (latest: OpPhase) => HeldPhase(latest), (latest: OpPhase) => phase, OperationClaims.CONFLICT_LIMIT);
    if outcome.Unknown? && operation.mine != old(operation.mine) {
      ghost var v: nat :| |old(operation.log)| <= v && operation.mine == old(operation.mine) + [v]
                          && operation.Updated(v, (latest: OpPhase) => HeldPhase(latest), (latest: OpPhase) => phase);
      assert HeldPhase(operation.log[v - 1]) && operation.log[v] == phase;
    }
  }

  /** Version `v` installs the managed key on a version that agrees with the one the pass verified, and changes
      nothing else. */
  ghost predicate Enrolled(log: seq<H.Server>, v: nat, view: H.Server) {
    && 0 < v < |log| && H.Agrees(log[v - 1], view) && H.Installed(log[v - 1].trust, log[v].trust)
    && log[v] == log[v - 1].(trust := log[v - 1].trust.(pin := None, installed := view.trust.keyPairRef,
                                                        installedFingerprint := Some(view.trust.fingerprint)))
  }

  /** `observation`, as the last step of host key enrollment: the record moves as enrollment allows. */
  method RecordInstalledKey(server: Record<H.Server>, view: H.Server) returns (outcome: Outcome)
    requires |server.log| > 0 && H.Eligible(view) && H.Enrolled(view.trust)
    modifies server
    ensures old(server.log) <= server.log
    ensures Answered(old(server.replies), server.replies, |server.fetched| - |old(server.fetched)|, 5, outcome)
    ensures outcome.Written? ==>
              && server.mine == old(server.mine) + [outcome.version] && Enrolled(server.log, outcome.version, view)
    ensures outcome.Refused? || outcome.Exhausted? ==> server.mine == old(server.mine)
    ensures outcome.Refused? ==> outcome.seen < |server.log| && !H.Agrees(server.log[outcome.seen], view)
    ensures outcome.Unknown? && server.mine != old(server.mine) ==>
              exists v: nat :: server.mine == old(server.mine) + [v] && Enrolled(server.log, v, view)
  {
    var guard := (latest: H.Server) =>
      H.Unchanged(view, latest) && (view.trust.pin.Some? ==> latest.trust.pin == view.trust.pin);
    var change := (latest: H.Server) =>
      H.Written(H.InstallWrite(0, view.trust.keyPairRef.value, view.trust.fingerprint), latest);
    outcome := GuardedUpdate(server, guard, change, H.CONFLICT_LIMIT);
    if outcome.Unknown? && server.mine != old(server.mine) {
      ghost var v: nat :| |old(server.log)| <= v && server.mine == old(server.mine) + [v] && server.Updated(v, guard, change);
      assert Enrolled(server.log, v, view);
    }
  }

  /** The target of a Configuration while its status is published. */
  datatype Target = Target(uid: Uid, generation: nat, terminating: bool, status: string)

  predicate SameLifetime(latest: Target, resolved: Target) {
    latest.uid == resolved.uid && latest.generation == resolved.generation && !latest.terminating
  }

  /** Version `v` merges the observations into a target that still is what was resolved, and nothing else. */
  ghost predicate Published(log: seq<Target>, v: nat, resolved: Target, merge: string -> string) {
    && 0 < v < |log| && log[v - 1].uid == resolved.uid && log[v - 1].generation == resolved.generation
    && !log[v - 1].terminating && log[v] == log[v - 1].(status := merge(log[v - 1].status))
  }

  /** `publish_target_status`: observations reach only the lifetime and generation they were made for. */
  method PublishTargetStatus(target: Record<Target>, resolved: Target, merge: string -> string) returns (outcome: Outcome)
    requires |target.log| > 0
    modifies target
    ensures old(target.log) <= target.log
    ensures Answered(old(target.replies), target.replies, |target.fetched| - |old(target.fetched)|, 5, outcome)
    ensures outcome.Written? ==>
              && target.mine == old(target.mine) + [outcome.version]
              && Published(target.log, outcome.version, resolved, merge)
    ensures outcome.Refused? || outcome.Exhausted? ==> target.mine == old(target.mine)
    ensures outcome.Refused? ==>
              && outcome.seen < |target.log|
              && (target.log[outcome.seen].uid != resolved.uid || target.log[outcome.seen].generation != resolved.generation
                  || target.log[outcome.seen].terminating)
    ensures outcome.Unknown? && target.mine != old(target.mine) ==>
              exists v: nat :: target.mine == old(target.mine) + [v] && Published(target.log, v, resolved, merge)
  {
    var guard := (latest: Target) => SameLifetime(latest, resolved);
    var change := (latest: Target) => latest.(status := merge(latest.status));
    outcome := GuardedUpdate(target, guard, change, OperationClaims.CONFLICT_LIMIT);
    if outcome.Unknown? && target.mine != old(target.mine) {
      ghost var v: nat :| |old(target.log)| <= v && target.mine == old(target.mine) + [v] && target.Updated(v, guard, change);
      assert Published(target.log, v, resolved, merge);
    }
  }
}
