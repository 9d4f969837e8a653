/** What the provisioning protocol promises about every run, read off the invariant. */
module ProvisioningTheorems {
  import opened Wrappers
  import opened ProvisioningRun
  import opened ProvisioningSystem
  import opened ProvisioningSafety

  function Started(s: State, r: Uid): nat {
    if r in s.runs then s.runs[r].started else 0
  }

  predicate StartsInstall(s: State, step: Step, r: Uid) {
    && step.BeginStage? && step.id in s.passes
    && s.passes[step.id].run == r && s.passes[step.id].pc == Ready(Install)
  }

  /** The number of times the sequence starts the destructive stage for a run. */
  ghost function InstallStarts(from: State, steps: seq<Step>, r: Uid, s: State): nat
    requires Reaches(from, steps, s)
    decreases |steps|
  {
    if steps == [] then 0
    else (if StartsInstall(from, steps[0], r) then 1 else 0)
         + InstallStarts(Perform(from, steps[0]), steps[1..], r, s)
  }

  lemma StepStarts(s: State, step: Step, r: Uid)
    requires Enabled(s, step)
    ensures Started(Perform(s, step), r) == Started(s, r) + if StartsInstall(s, step, r) then 1 else 0
  {
  }

  lemma {:induction false} StartsCounted(from: State, steps: seq<Step>, r: Uid, s: State)
    requires Reaches(from, steps, s)
    ensures Started(s, r) == Started(from, r) + InstallStarts(from, steps, r, s)
    decreases |steps|
  {
    if steps != [] {
      StepStarts(from, steps[0], r);
      StartsCounted(Perform(from, steps[0]), steps[1..], r, s);
    }
  }

  lemma ReachableFromStart(from: State, steps: seq<Step>, s: State)
    requires Initial(from) && Reaches(from, steps, s)
    ensures Inv(s)
  {
    InitialInv(from);
    hide Inv;
    ReachableInv(from, steps, s);
  }

  /** No interleaving starts the destructive stage of one run twice. */
  lemma InstallAtMostOnce(from: State, steps: seq<Step>, s: State, r: Uid)
    requires Initial(from) && Reaches(from, steps, s)
    ensures InstallStarts(from, steps, r, s) <= 1
  {
    ReachableFromStart(from, steps, s);
    StartsCounted(from, steps, r, s);
    if r in s.runs { assert RunOk(r, s.runs[r]); }
  }

  predicate LogPrefix(s: State, t: State, r: Uid) {
    r in s.runs ==> r in t.runs && s.runs[r].log <= t.runs[r].log
  }

  lemma StepGrows(s: State, step: Step, r: Uid)
    requires Enabled(s, step)
    ensures LogPrefix(s, Perform(s, step), r)
  {
  }

  /** Stored versions are never rewritten or dropped. */
  lemma {:induction false} RunsGrow(from: State, steps: seq<Step>, s: State, r: Uid)
    requires Reaches(from, steps, s)
    ensures LogPrefix(from, s, r)
    decreases |steps|
  {
    if steps != [] {
      StepGrows(from, steps[0], r);
      RunsGrow(Perform(from, steps[0]), steps[1..], s, r);
    }
  }

  lemma RunAt(s: State, r: Uid)
    requires Inv(s) && r in s.runs
    ensures RunOk(r, s.runs[r])
  {
  }

  lemma Later(from: State, before: seq<Step>, mid: State, after: seq<Step>, s: State, r: Uid)
    requires Initial(from) && Reaches(from, before, mid) && Reaches(mid, after, s) && r in mid.runs
    ensures Inv(s) && r in s.runs && RunOk(r, mid.runs[r]) && RunOk(r, s.runs[r])
    ensures mid.runs[r].log <= s.runs[r].log
  {
    hide Inv, RunOk;
    ReachableFromStart(from, before, mid);
    ReachableInv(mid, after, s);
    RunsGrow(mid, after, s, r);
    RunAt(mid, r);
    RunAt(s, r);
  }

  /** `now` is a later version of a record whose version was `past`. */
  predicate Forward(past: Status, now: Status) {
    && Rank(past.phase) <= Rank(now.phase)
    && (Terminal(past.phase) ==> now == past)
    && (!past.phase.Pending? ==> now.attemptID == past.attemptID && now.plan == past.plan && now.source == past.source)
    && (Erasing(past.phase) ==> now.liveBoot == past.liveBoot)
    && (Committed(past) ==> Committed(now))
    && (Installed(past.phase) ==> Installed(now.phase))
  }

  lemma PrefixForward(r: Uid, past: Run, now: Run)
    requires RunOk(r, now) && |past.log| > 0 && past.log <= now.log
    ensures Forward(Last(past), Last(now))
  {
    var i := |past.log| - 1;
    LogKeeps(r, now, i, |now.log| - 1);
    assert now.log[i] == past.log[i];
  }

  /** Between two moments of one execution a run only moves forward; its attempt stays pinned and its end is final. */
  lemma RunMovesForward(from: State, before: seq<Step>, mid: State, after: seq<Step>, s: State, r: Uid)
    requires Initial(from) && Reaches(from, before, mid) && Reaches(mid, after, s) && r in mid.runs
    ensures r in s.runs && |mid.runs[r].log| > 0 && |s.runs[r].log| > 0
    ensures Forward(Last(mid.runs[r]), Last(s.runs[r]))
  {
    Later(from, before, mid, after, s, r);
    PrefixForward(r, mid.runs[r], s.runs[r]);
  }

  /** The Server's reservation passed on from run `r` at version `i` of the Server. */
  predicate LostReservation(s: State, r: Uid, i: nat) {
    0 < i < |s.server| && s.server[i - 1].activeRun == Some(r) && s.server[i].activeRun != Some(r)
  }

  /** Once erasure may have begun, the record says so for ever, and only success frees the Server. */
  lemma PossiblyErasedIsRetained(from: State, before: seq<Step>, mid: State, after: seq<Step>, s: State, r: Uid)
    requires Initial(from) && Reaches(from, before, mid) && Reaches(mid, after, s)
    requires InstallStarts(from, before, r, mid) >= 1
    ensures r in s.runs && |s.runs[r].log| > 0
    ensures Erasing(Last(s.runs[r]).phase) || (Last(s.runs[r]).phase.Blocked? && Last(s.runs[r]).maintenance)
    ensures forall i :: LostReservation(s, r, i) ==> Last(s.runs[r]).phase.Succeeded?
  {
    StartsCounted(from, before, r, mid);
    Later(from, before, mid, after, s, r);
    PrefixForward(r, mid.runs[r], s.runs[r]);
    forall i | LostReservation(s, r, i)
      ensures Last(s.runs[r]).phase.Succeeded?
    {
      LostOnlyDone(s, r, i);
    }
  }

  lemma LostOnlyDone(s: State, r: Uid, i: nat)
    requires Inv(s) && LostReservation(s, r, i)
    ensures Done(s, r, false)
  {
  }

  /** What success attests, and what the Server's last successful run names. */
  lemma SuccessIsAttested(from: State, steps: seq<Step>, s: State, r: Uid)
    requires Initial(from) && Reaches(from, steps, s)
    requires (r in s.runs && |s.runs[r].log| > 0 && Last(s.runs[r]).phase.Succeeded?)
             || exists i :: 0 <= i < |s.server| && s.server[i].lastSuccessful == Some(r)
    ensures r in s.runs && |s.runs[r].log| > 0
    ensures var run := s.runs[r]; var st := Last(run);
            && st.phase.Succeeded? && !st.maintenance && !st.armed
            && InstallStarts(from, steps, r, s) == 1 && run.finished == 1
            && st.liveBoot.Some? && st.liveBoot != st.source
            && exists b :: b in run.attested && Some(b) != st.liveBoot
  {
    ReachableFromStart(from, steps, s);
    if i :| 0 <= i < |s.server| && s.server[i].lastSuccessful == Some(r) {
      assert Done(s, r, true);
    }
    StartsCounted(from, steps, r, s);
    assert RunOk(r, s.runs[r]);
  }

  /** A run is open from its creation until it ends without maintenance or an armed netboot. */
  predicate Open(s: State, r: Uid) {
    r in s.runs && (|s.runs[r].log| == 0 || !Releasable(Last(s.runs[r])))
  }

  /** A Server never has two open runs, and an open run holds the reservation. */
  lemma OneOpenRun(from: State, steps: seq<Step>, s: State, r: Uid, q: Uid)
    requires Initial(from) && Reaches(from, steps, s) && Open(s, r)
    ensures |s.server| > 0 && ActiveRun(s) == Some(r)
    ensures Open(s, q) ==> q == r
  {
    ReachableFromStart(from, steps, s);
    assert !Done(s, r, false);
    if Open(s, q) { assert !Done(s, q, false); }
  }
}
