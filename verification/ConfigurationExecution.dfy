/** One Configuration execution: claim every host, run the guarded commands, unwind every claim. */
module ConfigurationExecution {
  import opened Wrappers
  import opened OperationClaims

  datatype Reason =
    | OperationBusy | OwnershipChanged | InputsChanged | CommandFailed | RemoteWorkUncertain | OtherRefusal

  /** A raised exception. `OsFault` includes every HTTP and socket error of the API client,
      because those derive from OSError. */
  datatype Fault = Refusal(reason: Reason) | TimeoutExpired | OsFault | OtherFault

  /** The phase `reservation` records for the way its body ended. */
  function Conclude(fault: Option<Fault>): OpPhase {
    match fault
    case None => Succeeded
    case Some(Refusal(reason)) => if reason.RemoteWorkUncertain? then Uncertain else Failed
    case Some(_) => Uncertain
  }

  // ---- The guarded commands ----

  /** What one stage of `run_commands` came to: an exception before or in the command, or its exit code. */
  datatype StageResult = Raised(fault: Fault) | Exited(code: int)

  function RequireCompleted(code: int): Option<Fault> {
    if code == 4 || code == 6 || code < 0 then Some(Refusal(RemoteWorkUncertain))
    else if code != 0 then Some(Refusal(CommandFailed))
    else None
  }

  /** The `except` clauses around the stages. */
  function Translate(fault: Fault): Fault {
    match fault
    case TimeoutExpired => Refusal(RemoteWorkUncertain)
    case OsFault => Refusal(CommandFailed)
    case _ => fault
  }

  predicate StagePassed(result: StageResult) {
    result == Exited(0)
  }

  /** A stage after which remote work may still be running, or whose failure is not classified. */
  predicate StageUncertain(result: StageResult) {
    match result
    case Exited(code) => code == 4 || code == 6 || code < 0
    case Raised(fault) => fault.TimeoutExpired? || fault.OtherFault? || fault == Refusal(RemoteWorkUncertain)
  }

  /** Stage `i` is the one that ended the commands. */
  predicate FirstFailure(stages: seq<StageResult>, i: nat) {
    && i < |stages| && !StagePassed(stages[i])
    && forall j :: 0 <= j < i ==> StagePassed(stages[j])
  }

  /** A failure reported as `CommandFailed`, which the API errors of a stage are as well. */
  predicate StageFailed(result: StageResult) {
    || result in {Raised(OsFault), Raised(Refusal(CommandFailed))}
    || (result.Exited? && !StagePassed(result) && !StageUncertain(result))
  }

  /** A failure reported as `RemoteWorkUncertain`; an unclassified one is not. */
  predicate StageUnattested(result: StageResult) {
    result == Raised(TimeoutExpired) || result == Raised(Refusal(RemoteWorkUncertain))
    || (result.Exited? && StageUncertain(result))
  }

  method RunCommands(stages: seq<StageResult>) returns (fault: Option<Fault>)
    ensures fault.None? <==> forall i :: 0 <= i < |stages| ==> StagePassed(stages[i])
    ensures fault.Some? ==> exists i: nat :: FirstFailure(stages, i)
    ensures forall i: nat :: FirstFailure(stages, i) ==>
              && fault.Some?
              && (Conclude(fault).Uncertain? <==> StageUncertain(stages[i]))
              && (fault == Some(Refusal(CommandFailed)) <==> StageFailed(stages[i]))
              && (fault == Some(Refusal(RemoteWorkUncertain)) <==> StageUnattested(stages[i]))
  {
    for i := 0 to |stages|
      invariant forall j :: 0 <= j < i ==> StagePassed(stages[j])
    {
      match stages[i] {
        case Raised(raised) =>
          assert FirstFailure(stages, i);
          return Some(Translate(raised));
        case Exited(code) =>
          var completed := RequireCompleted(code);
          if completed.Some? {
            assert FirstFailure(stages, i);
            return completed;
          }
      }
    }
    return None;
  }

  /** What happens between the last claim and the first release. `publish` is the fault of reporting
      observations after a failed command, `finish` that of the final checks. */
  datatype Body = Body(recheck: Option<Fault>, stages: seq<StageResult>, publish: Option<Fault>, finish: Option<Fault>)

  predicate AllPass(stages: seq<StageResult>) {
    forall i :: 0 <= i < |stages| ==> StagePassed(stages[i])
  }

  /** How the body ends: at the recheck, at its first failing stage, or at the final checks. */
  ghost predicate BodyEnds(body: Body, fault: Option<Fault>) {
    && (body.recheck.Some? ==> fault == body.recheck)
    && (body.recheck.None? && AllPass(body.stages) ==> fault == body.finish)
    && forall i: nat :: body.recheck.None? && FirstFailure(body.stages, i) ==>
         if !StageFailed(body.stages[i]) then
           fault.Some? && (Conclude(fault).Uncertain? <==> StageUncertain(body.stages[i]))
         else if body.publish.Some? then fault == body.publish
         else fault == Some(Refusal(CommandFailed))
  }

  method RunBody(body: Body) returns (fault: Option<Fault>)
    ensures BodyEnds(body, fault)
  {
    if body.recheck.Some? {
      return body.recheck;
    }
    fault := RunCommands(body.stages);
    if fault == Some(Refusal(CommandFailed)) && body.publish.Some? {
      return body.publish;
    }
    if fault.None? {
      fault := body.finish;
    }
  }

  // ---- Claims of several hosts ----

  /** How the completion write of one claim goes; every way but the first raises. */
  datatype Completion = Confirmed | Unanswered | NotWritten

  /** One host and what happens to it: `refresh` and `entry` are faults of `refresh_claim_target` and of
      the read that follows the creation, `create` a POST that created the Operation without an answer. */
  datatype Host = Host(
    target: Target, op: OpId, refresh: Option<Fault>, seenBusy: bool,
    create: Option<Fault>, entry: Option<Fault>, completion: Completion)

  predicate Acquires(b: Board, h: Host) {
    h.refresh.None? && !h.seenBusy && h.target !in b.owner && h.create.None? && h.entry.None?
  }

  /** The fault of a host that is not acquired. */
  function AcquireFault(b: Board, h: Host): Fault
    requires !Acquires(b, h)
  {
    if h.refresh.Some? then h.refresh.value
    else if h.seenBusy || h.target in b.owner then Refusal(OperationBusy)
    else if h.create.Some? then h.create.value
    else if h.completion.Confirmed? then h.entry.value
    else OtherFault
  }

  predicate DistinctHosts(b: Board, hosts: seq<Host>) {
    && (forall i, j :: 0 <= i < j < |hosts| ==> hosts[i].target != hosts[j].target && hosts[i].op != hosts[j].op)
    && (forall i :: 0 <= i < |hosts| ==> hosts[i].op !in b.ops)
  }

  function Written(log: seq<OpPhase>, completion: Completion, phase: OpPhase): seq<OpPhase> {
    if completion.NotWritten? then log else log + [phase]
  }

  /** The fault once the claims from `i` on have unwound: the original one, unless a completion raised. */
  ghost function InForce(original: Option<Fault>, hosts: seq<Host>, acquired: nat, i: nat): Option<Fault>
    requires i <= acquired <= |hosts|
  {
    if exists j :: i <= j < acquired && !hosts[j].completion.Confirmed? then Some(OtherFault) else original
  }

  /** The host's Operation is created although the host is not acquired in the end. */
  predicate Creates(b: Board, h: Host) {
    h.refresh.None? && !h.seenBusy && h.target !in b.owner
  }

  /** What the Operation of a host that was created and then refused keeps. */
  function RefusedLog(h: Host): seq<OpPhase> {
    if h.create.Some? then [Running] else Written([Running], h.completion, Conclude(h.entry))
  }

  ghost predicate OpAmong(hosts: seq<Host>, n: int, op: OpId) {
    exists i :: 0 <= i < n && i < |hosts| && hosts[i].op == op
  }

  /** No Operation but those of the first `n` hosts is new, and the old ones are as they were. */
  ghost predicate Framed(before: Board, now: Board, hosts: seq<Host>, n: int) {
    && (forall op :: op in before.ops ==> op in now.ops && now.ops[op] == before.ops[op])
    && (forall op :: op in now.ops ==> op in before.ops || OpAmong(hosts, n, op))
  }

  /** The host that could not be acquired, if any, left its own Operation exactly when it got to create one. */
  ghost predicate RefusedTrace(before: Board, now: Board, hosts: seq<Host>, acquired: nat) {
    acquired < |hosts| ==>
      && (hosts[acquired].op in now.ops <==> Creates(before, hosts[acquired]))
      && (hosts[acquired].op in now.ops ==>
            now.ops[hosts[acquired].op] == Operation(hosts[acquired].target, RefusedLog(hosts[acquired])))
  }

  /** What each of the `acquired` claims records when it unwinds under the original fault. */
  ghost function Recorded(original: Option<Fault>, hosts: seq<Host>, acquired: nat, i: nat): seq<OpPhase>
    requires i < acquired <= |hosts|
  {
    Written([Running], hosts[i].completion, Conclude(InForce(original, hosts, acquired, i + 1)))
  }

  predicate AllRunning(now: Board, hosts: seq<Host>, n: nat)
    requires n <= |hosts|
  {
    forall i :: 0 <= i < n ==> hosts[i].op in now.ops && now.ops[hosts[i].op] == Operation(hosts[i].target, [Running])
  }

  /** Claims taken so far: each is a fresh running Operation on a target nobody owned. */
  ghost predicate Claimed(before: Board, now: Board, hosts: seq<Host>, acquired: nat)
    requires acquired <= |hosts|
  {
    && Consistent(now)
    && AllRunning(now, hosts, acquired) && Framed(before, now, hosts, acquired)
    && Untouched(before, now, hosts, acquired)
  }

  /** What one execution leaves on the board. */
  ghost predicate Executed(before: Board, after: Board, hosts: seq<Host>, body: Option<Fault>, acquired: nat)
    requires acquired <= |hosts|
  {
    && Consistent(after)
    && (forall i :: 0 <= i < acquired ==> Acquires(before, hosts[i]))
    && (acquired < |hosts| ==> !Acquires(before, hosts[acquired]))
    && Framed(before, after, hosts, acquired + 1) && RefusedTrace(before, after, hosts, acquired)
    && var original := if acquired < |hosts| then Some(AcquireFault(before, hosts[acquired])) else body;
       forall i :: 0 <= i < acquired ==>
         && hosts[i].op in after.ops
         && after.ops[hosts[i].op] == Operation(hosts[i].target, Recorded(original, hosts, acquired, i))
  }

  /** The board while unwinding: the claims from `i` on are recorded, those before it still run. */
  ghost predicate HalfUnwound(before: Board, now: Board, hosts: seq<Host>, acquired: nat, original: Option<Fault>, i: nat)
    requires i <= acquired <= |hosts|
  {
    && Consistent(now)
    && AllRunning(now, hosts, i)
    && (forall j :: i <= j < acquired ==>
          && hosts[j].op in now.ops
          && now.ops[hosts[j].op] == Operation(hosts[j].target, Recorded(original, hosts, acquired, j)))
    && Framed(before, now, hosts, acquired + 1) && RefusedTrace(before, now, hosts, acquired)
  }

  function Exit(b: Board, h: Host, fault: Option<Fault>): Board
    requires h.op in b.ops
  {
    if h.completion.NotWritten? then b else Put(b, h.op, Conclude(fault))
  }

  lemma NothingInForce(original: Option<Fault>, hosts: seq<Host>, acquired: nat)
    requires acquired <= |hosts|
    ensures InForce(original, hosts, acquired, acquired) == original
  {
  }

  lemma InForceStep(original: Option<Fault>, hosts: seq<Host>, acquired: nat, i: nat)
    requires i < acquired <= |hosts|
    ensures InForce(original, hosts, acquired, i)
            == if hosts[i].completion.Confirmed? then InForce(original, hosts, acquired, i + 1) else Some(OtherFault)
  {
  }

  lemma ExitOne(now: Board, h: Host, fault: Option<Fault>)
    requires Consistent(now) && h.op in now.ops && now.ops[h.op] == Operation(h.target, [Running])
    ensures var next := Exit(now, h, fault);
            && Consistent(next) && h.op in next.ops
            && next.ops[h.op] == Operation(h.target, Written([Running], h.completion, Conclude(fault)))
            && next.ops.Keys == now.ops.Keys
            && forall op :: op in now.ops && op != h.op ==> next.ops[op] == now.ops[op]
  {
    PutConsistent(now, h.op, Conclude(fault));
  }

  lemma UnwindOne(before: Board, now: Board, hosts: seq<Host>, acquired: nat, original: Option<Fault>, i: nat)
    requires i < acquired <= |hosts| && DistinctHosts(before, hosts)
    requires HalfUnwound(before, now, hosts, acquired, original, i + 1)
    ensures Consistent(now) && hosts[i].op in now.ops && Now(now.ops[hosts[i].op]).Running?
    ensures HalfUnwound(before, Exit(now, hosts[i], InForce(original, hosts, acquired, i + 1)), hosts, acquired, original, i)
  {
    hide Consistent, InForce, Conclude, Written, Exit;
    ExitOne(now, hosts[i], InForce(original, hosts, acquired, i + 1));
  }

  lemma ClaimFramed(before: Board, now: Board, hosts: seq<Host>, acquired: nat)
    requires acquired < |hosts| && Framed(before, now, hosts, acquired) && Acquires(now, hosts[acquired])
    requires hosts[acquired].op !in now.ops && hosts[acquired].op !in before.ops
    ensures Framed(before, Create(now, hosts[acquired].op, hosts[acquired].target), hosts, acquired + 1)
  {
    var next := Create(now, hosts[acquired].op, hosts[acquired].target);
    forall op | op in next.ops && op !in before.ops
      ensures OpAmong(hosts, acquired + 1, op)
    {
      if op != hosts[acquired].op {
        assert OpAmong(hosts, acquired, op);
      }
    }
  }

  /** Hosts from `n` on have no Operation yet, and their targets are owned as they were. */
  ghost predicate Untouched(before: Board, now: Board, hosts: seq<Host>, n: nat) {
    forall i :: n <= i < |hosts| ==>
      && hosts[i].op !in now.ops
      && (hosts[i].target in now.owner <==> hosts[i].target in before.owner)
  }

  lemma ClaimUntouched(before: Board, now: Board, hosts: seq<Host>, acquired: nat)
    requires acquired < |hosts| && DistinctHosts(before, hosts) && Untouched(before, now, hosts, acquired)
    requires Acquires(now, hosts[acquired])
    ensures Untouched(before, Create(now, hosts[acquired].op, hosts[acquired].target), hosts, acquired + 1)
  {
    var h := hosts[acquired];
    var next := Create(now, h.op, h.target);
    forall i | acquired + 1 <= i < |hosts|
      ensures hosts[i].op !in next.ops && (hosts[i].target in next.owner <==> hosts[i].target in before.owner)
    {
      assert hosts[i].op != h.op && hosts[i].target != h.target;
    }
  }

  lemma ClaimRunning(now: Board, hosts: seq<Host>, acquired: nat)
    requires acquired < |hosts| && AllRunning(now, hosts, acquired) && Acquires(now, hosts[acquired])
    requires hosts[acquired].op !in now.ops
    ensures AllRunning(Create(now, hosts[acquired].op, hosts[acquired].target), hosts, acquired + 1)
  {
  }

  lemma ClaimNext(before: Board, now: Board, hosts: seq<Host>, acquired: nat)
    requires acquired < |hosts| && DistinctHosts(before, hosts) && Claimed(before, now, hosts, acquired)
    requires Acquires(now, hosts[acquired])
    ensures Claimed(before, Create(now, hosts[acquired].op, hosts[acquired].target), hosts, acquired + 1)
  {
    CreateConsistent(now, hosts[acquired].op, hosts[acquired].target);
    ClaimFramed(before, now, hosts, acquired);
    ClaimUntouched(before, now, hosts, acquired);
    ClaimRunning(now, hosts, acquired);
    hide Consistent, Framed, Untouched, Acquires, AllRunning, DistinctHosts, Create;
  }

  lemma ClaimOne(before: Board, now: Board, hosts: seq<Host>, acquired: nat)
    requires acquired < |hosts| && DistinctHosts(before, hosts) && Claimed(before, now, hosts, acquired)
    ensures var h := hosts[acquired];
            && Consistent(now) && h.op !in now.ops
            && Acquires(now, h) == Acquires(before, h) && Creates(now, h) == Creates(before, h)
            && (!Acquires(now, h) ==> AcquireFault(now, h) == AcquireFault(before, h))
            && (Acquires(now, h) ==> Claimed(before, Create(now, h.op, h.target), hosts, acquired + 1))
  {
    if Acquires(now, hosts[acquired]) {
      ClaimNext(before, now, hosts, acquired);
    }
    hide Consistent, Framed, DistinctHosts;
  }

  lemma NothingClaimed(before: Board, hosts: seq<Host>)
    requires Consistent(before) && DistinctHosts(before, hosts)
    ensures Claimed(before, before, hosts, 0)
  {
  }

  lemma UnwoundIsExecuted(
      before: Board, now: Board, hosts: seq<Host>, body: Option<Fault>, acquired: nat, original: Option<Fault>)
    requires acquired <= |hosts| && HalfUnwound(before, now, hosts, acquired, original, 0)
    requires forall i :: 0 <= i < acquired ==> Acquires(before, hosts[i])
    requires acquired < |hosts| ==> !Acquires(before, hosts[acquired])
    requires original == if acquired < |hosts| then Some(AcquireFault(before, hosts[acquired])) else body
    ensures Executed(before, now, hosts, body, acquired)
  {
    hide Consistent, Framed, RefusedTrace, Recorded, Acquires;
  }

  lemma ClaimRefused(before: Board, now: Board, later: Board, hosts: seq<Host>, acquired: nat, original: Option<Fault>)
    requires acquired < |hosts| && DistinctHosts(before, hosts) && Claimed(before, now, hosts, acquired) && Consistent(later)
    requires forall op :: op in now.ops ==> op in later.ops && later.ops[op] == now.ops[op]
    requires forall op :: op in later.ops ==> op in now.ops || op == hosts[acquired].op
    requires hosts[acquired].op in later.ops <==> Creates(now, hosts[acquired])
    requires hosts[acquired].op in later.ops ==>
               later.ops[hosts[acquired].op] == Operation(hosts[acquired].target, RefusedLog(hosts[acquired]))
    ensures HalfUnwound(before, later, hosts, acquired, original, acquired)
  {
    hide Consistent, RefusedLog;
    forall op | op in later.ops && op !in before.ops
      ensures OpAmong(hosts, acquired + 1, op)
    {
      if op in now.ops {
        assert OpAmong(hosts, acquired, op);
      }
    }
  }

  /** All hosts are claimed: nothing is refused, and nothing is recorded yet. */
  lemma ClaimedAll(before: Board, now: Board, hosts: seq<Host>, original: Option<Fault>)
    requires Claimed(before, now, hosts, |hosts|)
    ensures HalfUnwound(before, now, hosts, |hosts|, original, |hosts|)
  {
    hide Consistent;
    forall op | op in now.ops && op !in before.ops
      ensures OpAmong(hosts, |hosts| + 1, op)
    {
      assert OpAmong(hosts, |hosts|, op);
    }
  }

  class Executor {
    var board: Board

    constructor (initial: Board)
      ensures board == initial
    {
      board := initial;
    }

    /** Enter one reservation; on failure its own Operation, if any, is completed before the fault leaves. */
    method Acquire(h: Host) returns (fault: Option<Fault>)
      requires Consistent(board) && h.op !in board.ops
      modifies this
      ensures Consistent(board)
      ensures fault.None? <==> Acquires(old(board), h)
      ensures fault.None? ==> board == Create(old(board), h.op, h.target)
      ensures fault.Some? ==> fault == Some(AcquireFault(old(board), h))
      ensures fault.Some? ==> forall op :: op in old(board).ops ==> op in board.ops && board.ops[op] == old(board).ops[op]
      ensures fault.Some? ==> forall op :: op in board.ops ==> op in old(board).ops || op == h.op
      ensures fault.Some? ==> (h.op in board.ops <==> Creates(old(board), h))
      ensures fault.Some? && h.op in board.ops ==> board.ops[h.op] == Operation(h.target, RefusedLog(h))
    {
      if h.refresh.Some? {
        return h.refresh;
      }
      if h.seenBusy || h.target in board.owner {
        return Some(Refusal(OperationBusy));
      }
      CreateConsistent(board, h.op, h.target);
      board := Create(board, h.op, h.target);
      if h.create.Some? {
        return h.create;
      }
      if h.entry.Some? {
        fault := Complete(h.op, h.completion, h.entry);
        return;
      }
      return None;
    }

    /** `complete_operation` on the way out of a reservation. */
    method Complete(op: OpId, completion: Completion, fault: Option<Fault>) returns (next: Option<Fault>)
      requires Consistent(board) && op in board.ops && Now(board.ops[op]).Running?
      modifies this
      ensures Consistent(board)
      ensures board == if completion.NotWritten? then old(board) else Put(old(board), op, Conclude(fault))
      ensures next == if completion.Confirmed? then fault else Some(OtherFault)
    {
      if !completion.NotWritten? {
        PutConsistent(board, op, Conclude(fault));
        board := Put(board, op, Conclude(fault));
      }
      return if completion.Confirmed? then fault else Some(OtherFault);
    }

    /** Release in reverse order the claims `hosts[..acquired]`, all of them running. */
    method Unwind(ghost before: Board, hosts: seq<Host>, acquired: nat, original: Option<Fault>)
      returns (fault: Option<Fault>)
      requires acquired <= |hosts| && DistinctHosts(before, hosts)
      requires HalfUnwound(before, board, hosts, acquired, original, acquired)
      modifies this
      ensures HalfUnwound(before, board, hosts, acquired, original, 0)
      ensures fault == InForce(original, hosts, acquired, 0)
    {
      hide HalfUnwound, InForce, DistinctHosts, Consistent;
      fault := original;
      var i := acquired;
      assert InForce(original, hosts, acquired, acquired) == original by { NothingInForce(original, hosts, acquired); }
      while i > 0
        invariant 0 <= i <= acquired && HalfUnwound(before, board, hosts, acquired, original, i)
        invariant fault == InForce(original, hosts, acquired, i)
      {
        i := i - 1;
        UnwindOne(before, board, hosts, acquired, original, i);
        InForceStep(original, hosts, acquired, i);
        fault := Complete(hosts[i].op, hosts[i].completion, fault);
      }
    }

    /** Claim every host in order, run the body when all are claimed, release in reverse order. */
    method Execute(hosts: seq<Host>, body: Body) returns (fault: Option<Fault>, acquired: nat, ran: Option<Fault>)
      requires Consistent(board) && DistinctHosts(board, hosts)
      modifies this
      ensures acquired <= |hosts| && Executed(old(board), board, hosts, ran, acquired)
      ensures if acquired == |hosts| then BodyEnds(body, ran) else ran.None?
      ensures fault == InForce(if acquired < |hosts| then Some(AcquireFault(old(board), hosts[acquired])) else ran,
                               hosts, acquired, 0)
    {
      hide Consistent, Claimed, HalfUnwound, Executed, Acquires, AcquireFault, Creates, RefusedLog, DistinctHosts, InForce;
      ghost var before := board;
      NothingClaimed(board, hosts);
      ran := None;
      acquired := 0;
      var original: Option<Fault> := None;
      while acquired < |hosts| && original.None?
        invariant 0 <= acquired <= |hosts|
        invariant original.None? ==> Claimed(before, board, hosts, acquired)
        invariant forall i :: 0 <= i < acquired ==> Acquires(before, hosts[i])
        invariant original.Some? ==>
                    && acquired < |hosts| && !Acquires(before, hosts[acquired])
                    && original == Some(AcquireFault(before, hosts[acquired]))
                    && HalfUnwound(before, board, hosts, acquired, original, acquired)
        decreases |hosts| - acquired, original.None?
      {
        ghost var now := board;
        ClaimOne(before, now, hosts, acquired);
        original := Acquire(hosts[acquired]);
        if original.None? {
          acquired := acquired + 1;
        } else {
          ClaimRefused(before, now, board, hosts, acquired, original);
        }
      }
      if original.None? {
        ran := RunBody(body);
        original := ran;
        ClaimedAll(before, board, hosts, original);
      }
      fault := Unwind(before, hosts, acquired, original);
      UnwoundIsExecuted(before, board, hosts, ran, acquired, original);
    }
  }

  // ---- What an execution means for its hosts ----

  ghost predicate AllConfirmed(hosts: seq<Host>, n: nat) {
    forall j :: 0 <= j < n && j < |hosts| ==> hosts[j].completion.Confirmed?
  }

  /** The Operation recorded this phase, and its host is free. */
  predicate FreedAs(after: Board, h: Host, phase: OpPhase) {
    && h.op in after.ops && after.ops[h.op] == Operation(h.target, [Running, phase])
    && !(h.target in after.owner && after.owner[h.target] == h.op)
  }

  /** The Operation recorded that its outcome is unknown, and it still owns its host. */
  predicate HeldUncertain(after: Board, h: Host) {
    && h.op in after.ops && after.ops[h.op] == Operation(h.target, [Running, Uncertain])
    && h.target in after.owner && after.owner[h.target] == h.op
  }

  /** Nothing wrong: succeeded and free. A classified refusal: failed and free. Unknown remote work, a timeout or
      any other exception: uncertain and held. */
  predicate EndsWith(after: Board, h: Host, fault: Option<Fault>) {
    match fault
    case None => FreedAs(after, h, Succeeded)
    case Some(Refusal(reason)) =>
      if reason == RemoteWorkUncertain then HeldUncertain(after, h) else FreedAs(after, h, Failed)
    case Some(TimeoutExpired) => HeldUncertain(after, h)
    case Some(OsFault) => HeldUncertain(after, h)
    case Some(OtherFault) => HeldUncertain(after, h)
  }

  /** Every claim ends alike when no completion write fails. */
  lemma HostsEndAlike(before: Board, after: Board, hosts: seq<Host>, body: Option<Fault>, acquired: nat, i: nat)
    requires i < acquired <= |hosts| && Executed(before, after, hosts, body, acquired) && AllConfirmed(hosts, acquired)
    ensures EndsWith(after, hosts[i], if acquired < |hosts| then Some(AcquireFault(before, hosts[acquired])) else body)
  {
    var original := if acquired < |hosts| then Some(AcquireFault(before, hosts[acquired])) else body;
    assert Recorded(original, hosts, acquired, i) == [Running, Conclude(original)];
    assert Now(after.ops[hosts[i].op]) == Conclude(original);
  }

  /** The hosts claimed are those up to the first one that was changed, busy, owned, or lost on the way in. */
  lemma ClaimedUpToFirstRefusal(
      before: Board, after: Board, hosts: seq<Host>, body: Option<Fault>, acquired: nat, i: nat)
    requires acquired <= |hosts| && Executed(before, after, hosts, body, acquired) && i < |hosts|
    ensures i < acquired ==>
              && hosts[i].refresh.None? && !hosts[i].seenBusy && hosts[i].target !in before.owner
              && hosts[i].create.None? && hosts[i].entry.None?
    ensures i == acquired ==>
              || hosts[i].refresh.Some? || hosts[i].seenBusy || hosts[i].target in before.owner
              || hosts[i].create.Some? || hosts[i].entry.Some?
  {
  }

  /** The fault with which the host could not be acquired, read off what happened to it. */
  lemma AcquisitionEnds(before: Board, after: Board, hosts: seq<Host>, body: Option<Fault>, acquired: nat, i: nat)
    requires i < acquired < |hosts| && Executed(before, after, hosts, body, acquired) && AllConfirmed(hosts, acquired)
    ensures var h := hosts[acquired];
            && (h.refresh.Some? ==> EndsWith(after, hosts[i], h.refresh))
            && (h.refresh.None? && (h.seenBusy || h.target in before.owner) ==> FreedAs(after, hosts[i], Failed))
            && (h.refresh.None? && !h.seenBusy && h.target !in before.owner && h.create.Some? ==>
                  EndsWith(after, hosts[i], h.create))
            && (h.refresh.None? && !h.seenBusy && h.target !in before.owner && h.create.None? && h.entry.Some? ==>
                  if h.completion.Confirmed? then EndsWith(after, hosts[i], h.entry) else HeldUncertain(after, hosts[i]))
  {
    HostsEndAlike(before, after, hosts, body, acquired, i);
  }

  /** The whole execution ran undisturbed: every host was claimed and every completion confirmed. */
  ghost predicate RanFully(before: Board, after: Board, hosts: seq<Host>, body: Body, ran: Option<Fault>) {
    Executed(before, after, hosts, ran, |hosts|) && BodyEnds(body, ran) && AllConfirmed(hosts, |hosts|)
  }

  /** A failed recheck of the inputs ends every claim before any command. */
  lemma RecheckEndsAll(before: Board, after: Board, hosts: seq<Host>, body: Body, ran: Option<Fault>, i: nat)
    requires RanFully(before, after, hosts, body, ran) && body.recheck.Some? && i < |hosts|
    ensures EndsWith(after, hosts[i], body.recheck)
  {
    HostsEndAlike(before, after, hosts, ran, |hosts|, i);
  }

  /** A stage that times out, exits with 4, 6 or a negative code, or raises what nobody classified leaves every
      claimed Operation uncertain and every host held. */
  lemma UncertainStageHoldsAll(
      before: Board, after: Board, hosts: seq<Host>, body: Body, ran: Option<Fault>, k: nat, i: nat)
    requires RanFully(before, after, hosts, body, ran) && i < |hosts|
    requires body.recheck.None? && FirstFailure(body.stages, k)
    requires || body.stages[k] in {Exited(4), Exited(6), Raised(TimeoutExpired), Raised(OtherFault)}
             || (body.stages[k].Exited? && body.stages[k].code < 0) || body.stages[k] == Raised(Refusal(RemoteWorkUncertain))
    ensures HeldUncertain(after, hosts[i])
  {
    HostsEndAlike(before, after, hosts, ran, |hosts|, i);
  }

  /** A command that completed and failed, or an OSError, frees every host as failed, unless publishing the
      observations raises: then that decides. */
  lemma FailedStageFreesAll(
      before: Board, after: Board, hosts: seq<Host>, body: Body, ran: Option<Fault>, k: nat, i: nat)
    requires RanFully(before, after, hosts, body, ran) && i < |hosts|
    requires body.recheck.None? && FirstFailure(body.stages, k)
    requires || body.stages[k] in {Raised(OsFault), Raised(Refusal(CommandFailed))}
             || (body.stages[k].Exited? && body.stages[k].code > 0 && body.stages[k].code !in {4, 6})
    ensures if body.publish.None? then FreedAs(after, hosts[i], Failed) else EndsWith(after, hosts[i], body.publish)
  {
    HostsEndAlike(before, after, hosts, ran, |hosts|, i);
  }

  /** Any other refusal raised in a stage, such as changed inputs or lost ownership, frees every host as failed. */
  lemma RefusedStageFreesAll(
      before: Board, after: Board, hosts: seq<Host>, body: Body, ran: Option<Fault>, k: nat, i: nat)
    requires RanFully(before, after, hosts, body, ran) && i < |hosts|
    requires body.recheck.None? && FirstFailure(body.stages, k)
    requires body.stages[k].Raised? && body.stages[k].fault.Refusal?
    requires body.stages[k].fault.reason !in {RemoteWorkUncertain, CommandFailed}
    ensures FreedAs(after, hosts[i], Failed)
  {
    HostsEndAlike(before, after, hosts, ran, |hosts|, i);
  }

  /** Commands that all exit with 0 end as their final checks do: succeeded and free when nothing is wrong. */
  lemma PassedStagesEndAsFinished(
      before: Board, after: Board, hosts: seq<Host>, body: Body, ran: Option<Fault>, i: nat)
    requires RanFully(before, after, hosts, body, ran) && i < |hosts|
    requires body.recheck.None? && forall k :: 0 <= k < |body.stages| ==> body.stages[k] == Exited(0)
    ensures EndsWith(after, hosts[i], body.finish)
    ensures body.finish.None? ==> FreedAs(after, hosts[i], Succeeded)
  {
    HostsEndAlike(before, after, hosts, ran, |hosts|, i);
  }

  /** An API error between the guard and the command is reported as a failed command, and frees every host. */
  lemma ApiErrorFreesAll(
      before: Board, after: Board, hosts: seq<Host>, rest: seq<StageResult>, ran: Option<Fault>, i: nat)
    requires RanFully(before, after, hosts, Body(None, [Exited(0), Raised(OsFault)] + rest, None, None), ran) && i < |hosts|
    ensures FreedAs(after, hosts[i], Failed)
  {
    var body := Body(None, [Exited(0), Raised(OsFault)] + rest, None, None);
    assert body.stages[0] == Exited(0) && body.stages[1] == Raised(OsFault);
    assert FirstFailure(body.stages, 1);
    FailedStageFreesAll(before, after, hosts, body, ran, 1, i);
  }

  /** The refused host still owns its target through an Operation of its own. */
  predicate RefusedHolds(before: Board, h: Host) {
    Creates(before, h) && HeldPhase(RefusedLog(h)[|RefusedLog(h)| - 1])
  }

  /** A classified refusal while claiming host `acquired`, such as a busy target, frees exactly the earlier hosts:
      their Operations fail, no other Operation appears or changes, and the targets are owned as before, but for
      the target of a refused host that left its own Operation held. */
  lemma BusyFreesEarlierHosts(before: Board, after: Board, hosts: seq<Host>, body: Option<Fault>, acquired: nat)
    requires Consistent(before) && DistinctHosts(before, hosts)
    requires acquired < |hosts| && Executed(before, after, hosts, body, acquired) && AllConfirmed(hosts, acquired)
    requires AcquireFault(before, hosts[acquired]).Refusal?
    requires AcquireFault(before, hosts[acquired]).reason != RemoteWorkUncertain
    ensures forall i :: 0 <= i < acquired ==> FreedAs(after, hosts[i], Failed)
    ensures Framed(before, after, hosts, acquired + 1) && RefusedTrace(before, after, hosts, acquired)
    ensures after.owner == if RefusedHolds(before, hosts[acquired])
                           then before.owner[hosts[acquired].target := hosts[acquired].op] else before.owner
  {
    forall i | 0 <= i < acquired
      ensures FreedAs(after, hosts[i], Failed) && !HeldPhase(EndOf(after, hosts[i]))
    {
      HostsEndAlike(before, after, hosts, body, acquired, i);
    }
    OwnersAfterRefusal(before, after, hosts, acquired);
  }

  /** A busy target in particular creates nothing, and leaves every target owned as it was. */
  lemma BusyChangesNoOwner(before: Board, after: Board, hosts: seq<Host>, body: Option<Fault>, acquired: nat)
    requires Consistent(before) && DistinctHosts(before, hosts)
    requires acquired < |hosts| && Executed(before, after, hosts, body, acquired) && AllConfirmed(hosts, acquired)
    requires hosts[acquired].refresh.None? && (hosts[acquired].seenBusy || hosts[acquired].target in before.owner)
    ensures after.owner == before.owner && hosts[acquired].op !in after.ops
    ensures forall i :: 0 <= i < acquired ==> FreedAs(after, hosts[i], Failed)
  {
    BusyFreesEarlierHosts(before, after, hosts, body, acquired);
  }

  /** Every owner after the refusal is an old one or the refused host's own Operation. */
  lemma OwnerIsOldOrRefused(before: Board, after: Board, hosts: seq<Host>, acquired: nat, t: Target)
    requires Consistent(before) && Consistent(after) && acquired < |hosts| && t in after.owner
    requires Framed(before, after, hosts, acquired + 1) && RefusedTrace(before, after, hosts, acquired)
    requires forall i :: 0 <= i < acquired ==> !HeldPhase(EndOf(after, hosts[i]))
    ensures (t in before.owner && before.owner[t] == after.owner[t])
            || (RefusedHolds(before, hosts[acquired]) && t == hosts[acquired].target && after.owner[t] == hosts[acquired].op)
  {
    var op := after.owner[t];
    if op !in before.ops {
      var i :| 0 <= i < acquired + 1 && i < |hosts| && hosts[i].op == op;
      assert HeldPhase(EndOf(after, hosts[i]));
      assert i == acquired;
    }
  }

  /** The phase the host's Operation ended in, Failed when it has none. */
  function EndOf(b: Board, h: Host): OpPhase {
    if h.op in b.ops && |b.ops[h.op].log| > 0 then Now(b.ops[h.op]) else Failed
  }

  lemma OldOwnerStays(before: Board, after: Board, hosts: seq<Host>, n: int, t: Target)
    requires Consistent(before) && Consistent(after) && Framed(before, after, hosts, n) && t in before.owner
    ensures t in after.owner && after.owner[t] == before.owner[t]
  {
    assert before.owner[t] in after.ops;
  }

  lemma RefusedOwns(before: Board, after: Board, hosts: seq<Host>, acquired: nat)
    requires Consistent(after) && acquired < |hosts| && RefusedTrace(before, after, hosts, acquired)
    requires RefusedHolds(before, hosts[acquired])
    ensures hosts[acquired].target in after.owner && after.owner[hosts[acquired].target] == hosts[acquired].op
  {
    assert Now(after.ops[hosts[acquired].op]) == RefusedLog(hosts[acquired])[|RefusedLog(hosts[acquired])| - 1];
  }

  lemma OwnersAfterRefusal(before: Board, after: Board, hosts: seq<Host>, acquired: nat)
    requires Consistent(before) && Consistent(after) && acquired < |hosts|
    requires Framed(before, after, hosts, acquired + 1) && RefusedTrace(before, after, hosts, acquired)
    requires forall i :: 0 <= i < acquired ==> !HeldPhase(EndOf(after, hosts[i]))
    ensures after.owner == if RefusedHolds(before, hosts[acquired])
                           then before.owner[hosts[acquired].target := hosts[acquired].op] else before.owner
  {
    hide Consistent, Framed, RefusedTrace, RefusedHolds, EndOf;
    var h := hosts[acquired];
    if RefusedHolds(before, h) {
      RefusedOwns(before, after, hosts, acquired);
    }
    forall t | t in after.owner
      ensures (t in before.owner && before.owner[t] == after.owner[t])
              || (RefusedHolds(before, h) && t == h.target && after.owner[t] == h.op)
    {
      OwnerIsOldOrRefused(before, after, hosts, acquired, t);
    }
    forall t | t in before.owner
      ensures t in after.owner && after.owner[t] == before.owner[t]
    {
      OldOwnerStays(before, after, hosts, acquired + 1, t);
    }
    if RefusedHolds(before, h) && h.target in before.owner {
      assert after.owner[h.target] == h.op;
    }
  }

  /** A completion that raises leaves every outer claim uncertain and held, or running where its own completion
      is not written either. */
  lemma FailedCompletionHoldsOuterHosts(
      before: Board, after: Board, hosts: seq<Host>, body: Option<Fault>, acquired: nat, i: nat, j: nat)
    requires i < j < acquired <= |hosts| && Executed(before, after, hosts, body, acquired)
    requires !hosts[j].completion.Confirmed?
    ensures hosts[i].op in after.ops && hosts[i].target in after.owner && after.owner[hosts[i].target] == hosts[i].op
    ensures after.ops[hosts[i].op].log == if hosts[i].completion.NotWritten? then [Running] else [Running, Uncertain]
  {
    var original := if acquired < |hosts| then Some(AcquireFault(before, hosts[acquired])) else body;
    assert InForce(original, hosts, acquired, i + 1) == Some(OtherFault);
    assert Recorded(original, hosts, acquired, i) == [Running]
           || Recorded(original, hosts, acquired, i) == [Running] + [Uncertain];
  }
}
