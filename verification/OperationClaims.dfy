/** Exclusive ownership of targets through Operations, claimed and completed by any number of executors. */
module OperationClaims {
  import opened Wrappers

  type Target = nat
  type OpId = nat
  type ClientId = nat

  datatype OpPhase = Running | Uncertain | Succeeded | Failed

  predicate HeldPhase(phase: OpPhase) {
    phase.Running? || phase.Uncertain?
  }

  /** An Operation keeps every version of its phase. */
  datatype Operation = Operation(target: Target, log: seq<OpPhase>)

  function Now(op: Operation): OpPhase
    requires |op.log| > 0
  {
    op.log[|op.log| - 1]
  }

  /** The API's records: which Operation owns each target, and every Operation. */
  datatype Board = Board(owner: map<Target, OpId>, ops: map<OpId, Operation>)

  // ---- The API contract: atomic claim on creation, release with a terminal phase ----

  function Create(b: Board, op: OpId, target: Target): Board
    requires op !in b.ops && target !in b.owner
  {
    Board(b.owner[target := op], b.ops[op := Operation(target, [Running])])
  }

  function Put(b: Board, op: OpId, phase: OpPhase): Board
    requires op in b.ops
  {
    var o := b.ops[op];
    var owner := if !HeldPhase(phase) && o.target in b.owner && b.owner[o.target] == op
                 then b.owner - {o.target} else b.owner;
    Board(owner, b.ops[op := Operation(o.target, o.log + [phase])])
  }

  /** A target names exactly the one held Operation that targets it. */
  ghost predicate Consistent(b: Board) {
    && (forall op :: op in b.ops ==> |b.ops[op].log| > 0)
    && (forall t :: t in b.owner ==>
          b.owner[t] in b.ops && b.ops[b.owner[t]].target == t && HeldPhase(Now(b.ops[b.owner[t]])))
    && (forall op :: op in b.ops && HeldPhase(Now(b.ops[op])) ==>
          b.ops[op].target in b.owner && b.owner[b.ops[op].target] == op)
  }

  // ---- Executors ----

  datatype Pc =
    | Asking
    | Created(op: OpId)
    | Inside(op: OpId)
    | Completing(op: OpId, phase: OpPhase, left: nat)
    | Putting(op: OpId, phase: OpPhase, left: nat, base: nat)
    | Left

  datatype Client = Client(target: Target, pc: Pc)

  datatype OpWrite = OpWrite(op: OpId, base: nat, phase: OpPhase)

  datatype State = State(board: Board, clients: map<ClientId, Client>, writes: set<OpWrite>)

  datatype Reply = Applied | Conflict | Lost

  /** How the guarded body of a `reservation` ended: normally, by a classified refusal, or by anything that does
      not attest what became of the remote work, an uncertain refusal included. */
  datatype Ending = Returned | Refused | Interrupted

  function EndPhase(ending: Ending): OpPhase {
    match ending
    case Returned => Succeeded
    case Refused => Failed
    case Interrupted => Uncertain
  }

  datatype Step =
    | Arrive(id: ClientId, target: Target)
    | Claim(id: ClientId, op: OpId, answered: bool)
    | Busy(id: ClientId)
    | Enter(id: ClientId)
    | Leave(id: ClientId, ending: Ending)
    | ReadOperation(id: ClientId)
    | PutPhase(id: ClientId, reply: Reply)
    | Crash(id: ClientId)
    | Progress(op: OpId)
    | Deliver(late: OpWrite)

  const CONFLICT_LIMIT: nat := 5

  function OpOf(pc: Pc): Option<OpId> {
    match pc
    case Created(op) => Some(op)
    case Inside(op) => Some(op)
    case Completing(op, _, _) => Some(op)
    case Putting(op, _, _, _) => Some(op)
    case _ => None
  }

  predicate Known(s: State, id: ClientId) {
    && id in s.clients
    && match OpOf(s.clients[id].pc)
       case Some(op) => op in s.board.ops && |s.board.ops[op].log| > 0
       case None => true
  }

  predicate Enabled(s: State, step: Step) {
    match step
    case Arrive(id, _) => id !in s.clients
    case Claim(id, op, _) =>
      id in s.clients && s.clients[id].pc.Asking? && op !in s.board.ops && s.clients[id].target !in s.board.owner
    case Busy(id) => id in s.clients && s.clients[id].pc.Asking?
    case Enter(id) =>
      && Known(s, id) && s.clients[id].pc.Created?
      && s.clients[id].target in s.board.owner && s.board.owner[s.clients[id].target] == s.clients[id].pc.op
    case Leave(id, ending) =>
      Known(s, id) && (s.clients[id].pc.Inside? || (s.clients[id].pc.Created? && !ending.Returned?))
    case ReadOperation(id) => Known(s, id) && s.clients[id].pc.Completing?
    case PutPhase(id, reply) =>
      && Known(s, id) && s.clients[id].pc.Putting?
      && (reply.Applied? ==> s.clients[id].pc.base == |s.board.ops[s.clients[id].pc.op].log| - 1)
    case Crash(id) => id in s.clients
    case Progress(op) => op in s.board.ops && |s.board.ops[op].log| > 0
    case Deliver(w) => w in s.writes && w.op in s.board.ops && w.base == |s.board.ops[w.op].log| - 1
  }

  function Go(s: State, id: ClientId, pc: Pc): State
    requires id in s.clients
  {
    s.(clients := s.clients[id := s.clients[id].(pc := pc)])
  }

  function Perform(s: State, step: Step): State
    requires Enabled(s, step)
  {
    match step
    case Arrive(id, target) => s.(clients := s.clients[id := Client(target, Asking)])
    case Claim(id, op, answered) =>
      Go(s.(board := Create(s.board, op, s.clients[id].target)), id, if answered then Created(op) else Left)
    case Busy(id) => Go(s, id, Left)
    case Enter(id) => Go(s, id, Inside(s.clients[id].pc.op))
    case Leave(id, ending) => Go(s, id, Completing(s.clients[id].pc.op, EndPhase(ending), CONFLICT_LIMIT))
    case ReadOperation(id) =>
      var pc := s.clients[id].pc;
      var op := s.board.ops[pc.op];
      Go(s, id, if pc.left > 0 && HeldPhase(Now(op)) then Putting(pc.op, pc.phase, pc.left, |op.log| - 1) else Left)
    case PutPhase(id, reply) =>
      var pc := s.clients[id].pc;
      (match reply
       case Applied => Go(s.(board := Put(s.board, pc.op, pc.phase)), id, Left)
       case Conflict => Go(s, id, Completing(pc.op, pc.phase, if pc.left > 0 then pc.left - 1 else 0))
       case Lost => Go(s.(writes := s.writes + {OpWrite(pc.op, pc.base, pc.phase)}), id, Left))
    case Crash(id) => s.(clients := s.clients - {id})
    case Progress(op) => s.(board := Put(s.board, op, Now(s.board.ops[op])))
    case Deliver(w) => s.(board := Put(s.board, w.op, w.phase))
  }

  ghost predicate Reaches(from: State, steps: seq<Step>, s: State)
    decreases |steps|
  {
    if steps == [] then s == from
    else Enabled(from, steps[0]) && Reaches(Perform(from, steps[0]), steps[1..], s)
  }

  predicate Initial(s: State) {
    s == State(Board(map[], map[]), map[], {})
  }

  // ---- The invariant ----

  /** A terminal phase is the last one that differs. */
  ghost predicate LogOk(op: Operation) {
    && |op.log| > 0 && op.log[0].Running?
    && forall i :: 0 < i < |op.log| ==> HeldPhase(op.log[i - 1]) || op.log[i] == op.log[i - 1]
  }

  ghost predicate ClientOk(s: State, x: Client) {
    match OpOf(x.pc)
    case None => true
    case Some(op) =>
      && op in s.board.ops && s.board.ops[op].target == x.target && |s.board.ops[op].log| > 0
      && (x.pc.Created? || x.pc.Inside? ==>
            Now(s.board.ops[op]).Running? && forall w :: w in s.writes ==> w.op != op)
      && (x.pc.Putting? ==> x.pc.base < |s.board.ops[op].log| && HeldPhase(s.board.ops[op].log[x.pc.base]))
  }

  ghost predicate OpsOk(s: State) {
    forall op :: op in s.board.ops ==> LogOk(s.board.ops[op])
  }

  ghost predicate ClientsOk(s: State) {
    forall id :: id in s.clients ==> ClientOk(s, s.clients[id])
  }

  ghost predicate OwnOps(s: State) {
    forall i, j | i in s.clients && j in s.clients && OpOf(s.clients[i].pc).Some? ::
      OpOf(s.clients[i].pc) == OpOf(s.clients[j].pc) ==> i == j
  }

  ghost predicate WritesOk(s: State) {
    forall w :: w in s.writes ==>
      w.op in s.board.ops && w.base < |s.board.ops[w.op].log| && HeldPhase(s.board.ops[w.op].log[w.base])
  }

  ghost predicate Inv(s: State) {
    Consistent(s.board) && OpsOk(s) && ClientsOk(s) && OwnOps(s) && WritesOk(s)
  }

  lemma PutConsistent(b: Board, op: OpId, phase: OpPhase)
    requires Consistent(b) && op in b.ops && (HeldPhase(Now(b.ops[op])) || phase == Now(b.ops[op]))
    ensures Consistent(Put(b, op, phase))
  {
  }

  lemma PutClientOk(s: State, op: OpId, phase: OpPhase, x: Client)
    requires op in s.board.ops && ClientOk(s, x)
    requires |s.board.ops[op].log| > 0 && (phase == Now(s.board.ops[op]) || !(x.pc.Created? || x.pc.Inside?) || x.pc.op != op)
    ensures ClientOk(s.(board := Put(s.board, op, phase)), x)
  {
  }

  /** A phase put on a held version keeps every other client's knowledge. */
  lemma PutInv(s: State, op: OpId, phase: OpPhase)
    requires Inv(s) && op in s.board.ops && (HeldPhase(Now(s.board.ops[op])) || phase == Now(s.board.ops[op]))
    requires phase == Now(s.board.ops[op]) || forall id :: id in s.clients ==>
               !(s.clients[id].pc.Created? || s.clients[id].pc.Inside?) || s.clients[id].pc.op != op
    ensures Inv(s.(board := Put(s.board, op, phase)))
  {
    PutConsistent(s.board, op, phase);
    hide Consistent;
    var t := s.(board := Put(s.board, op, phase));
    assert ClientsOk(t) by {
      forall id | id in t.clients
        ensures ClientOk(t, t.clients[id])
      {
        PutClientOk(s, op, phase, s.clients[id]);
      }
    }
    hide ClientsOk;
  }

  lemma GoInv(s: State, id: ClientId, pc: Pc)
    requires Inv(s) && id in s.clients
    requires OpOf(pc).None? || OpOf(pc) == OpOf(s.clients[id].pc)
    requires ClientOk(s, s.clients[id].(pc := pc))
    ensures Inv(Go(s, id, pc))
  {
    var t := Go(s, id, pc);
    forall j | j in t.clients
      ensures ClientOk(t, t.clients[j])
    {
      assert j != id ==> ClientOk(s, s.clients[j]);
    }
  }

  lemma CreateConsistent(b: Board, op: OpId, target: Target)
    requires Consistent(b) && op !in b.ops && target !in b.owner
    ensures Consistent(Create(b, op, target))
  {
  }

  lemma CreateClients(s: State, id: ClientId, op: OpId, answered: bool)
    requires OpsOk(s) && ClientsOk(s) && WritesOk(s) && Enabled(s, Claim(id, op, answered))
    ensures var t := Perform(s, Claim(id, op, answered)); OpsOk(t) && ClientsOk(t) && WritesOk(t)
  {
    var t := Perform(s, Claim(id, op, answered));
    forall j | j in t.clients
      ensures ClientOk(t, t.clients[j])
    {
      assert j != id ==> ClientOk(s, s.clients[j]);
    }
  }

  lemma CreateOwn(s: State, id: ClientId, op: OpId, answered: bool)
    requires ClientsOk(s) && OwnOps(s) && Enabled(s, Claim(id, op, answered))
    ensures OwnOps(Perform(s, Claim(id, op, answered)))
  {
    assert forall j :: j in s.clients ==> ClientOk(s, s.clients[j]);
    assert forall j :: j in s.clients ==> OpOf(s.clients[j].pc) != Some(op);
  }

  lemma CreateInv(s: State, id: ClientId, op: OpId, answered: bool)
    requires Inv(s) && Enabled(s, Claim(id, op, answered))
    ensures Inv(Perform(s, Claim(id, op, answered)))
  {
    CreateConsistent(s.board, op, s.clients[id].target);
    CreateClients(s, id, op, answered);
    CreateOwn(s, id, op, answered);
    hide Consistent, OpsOk, ClientsOk, OwnOps, WritesOk;
  }

  lemma PutPhaseInv(s: State, id: ClientId, reply: Reply)
    requires Inv(s) && Enabled(s, PutPhase(id, reply))
    ensures Inv(Perform(s, PutPhase(id, reply)))
  {
    var pc := s.clients[id].pc;
    assert ClientOk(s, s.clients[id]);
    match reply {
      case Applied =>
        GoInv(s, id, Left);
        PutInv(Go(s, id, Left), pc.op, pc.phase);
      case Conflict => GoInv(s, id, Completing(pc.op, pc.phase, if pc.left > 0 then pc.left - 1 else 0));
      case Lost =>
        GoInv(s, id, Left);
        var t := Go(s, id, Left);
        forall j | j in t.clients
          ensures ClientOk(t.(writes := t.writes + {OpWrite(pc.op, pc.base, pc.phase)}), t.clients[j])
        {
          assert ClientOk(t, t.clients[j]);
        }
    }
  }

  lemma LocalStepInv(s: State, step: Step)
    requires Inv(s) && Enabled(s, step)
    requires step.Arrive? || step.Crash? || step.Busy? || step.Enter? || step.Leave? || step.ReadOperation?
    ensures Inv(Perform(s, step))
  {
    hide Consistent, LogOk;
    if !step.Arrive? && !step.Crash? {
      GoInv(s, step.id, Perform(s, step).clients[step.id].pc);
    }
  }

  lemma StepInv(s: State, step: Step)
    requires Inv(s) && Enabled(s, step)
    ensures Inv(Perform(s, step))
  {
    match step {
      case Claim(id, op, answered) => CreateInv(s, id, op, answered);
      case PutPhase(id, reply) => PutPhaseInv(s, id, reply);
      case Progress(op) => PutInv(s, op, Now(s.board.ops[op]));
      case Deliver(w) => PutInv(s, w.op, w.phase);
      case _ => LocalStepInv(s, step);
    }
  }

  lemma {:induction false} ReachableInv(from: State, steps: seq<Step>, s: State)
    requires Inv(from) && Reaches(from, steps, s)
    ensures Inv(s)
    decreases |steps|
  {
    if steps != [] {
      StepInv(from, steps[0]);
      ReachableInv(Perform(from, steps[0]), steps[1..], s);
    }
  }

  lemma ReachableFromStart(from: State, steps: seq<Step>, s: State)
    requires Initial(from) && Reaches(from, steps, s)
    ensures Inv(s)
  {
    ReachableInv(from, steps, s);
  }

  // ---- What the claims promise ----

  /** A body runs only under its own actively running claim, and alone on its target. */
  lemma BodyOwnsItsTarget(from: State, steps: seq<Step>, s: State, i: ClientId, j: ClientId)
    requires Initial(from) && Reaches(from, steps, s) && i in s.clients && s.clients[i].pc.Inside?
    ensures var x := s.clients[i];
            && x.target in s.board.owner && s.board.owner[x.target] == x.pc.op
            && x.pc.op in s.board.ops && |s.board.ops[x.pc.op].log| > 0 && Now(s.board.ops[x.pc.op]).Running?
    ensures j in s.clients && s.clients[j].pc.Inside? && s.clients[j].target == s.clients[i].target ==> j == i
  {
    ReachableFromStart(from, steps, s);
    assert ClientOk(s, s.clients[i]);
    if j in s.clients && s.clients[j].pc.Inside? && s.clients[j].target == s.clients[i].target {
      assert ClientOk(s, s.clients[j]);
    }
  }

  /** No target ever has two held Operations. */
  lemma OneHeldOperation(from: State, steps: seq<Step>, s: State, a: OpId, b: OpId)
    requires Initial(from) && Reaches(from, steps, s)
    requires a in s.board.ops && b in s.board.ops && s.board.ops[a].target == s.board.ops[b].target
    ensures |s.board.ops[a].log| > 0 && |s.board.ops[b].log| > 0
    ensures HeldPhase(Now(s.board.ops[a])) && HeldPhase(Now(s.board.ops[b])) ==> a == b
  {
    ReachableFromStart(from, steps, s);
  }

  predicate OpPrefix(s: State, t: State, op: OpId) {
    op in s.board.ops ==>
      op in t.board.ops && t.board.ops[op].target == s.board.ops[op].target && s.board.ops[op].log <= t.board.ops[op].log
  }

  lemma StepPrefix(s: State, step: Step, op: OpId)
    requires Enabled(s, step)
    ensures OpPrefix(s, Perform(s, step), op)
  {
  }

  lemma {:induction false} RunsPrefix(from: State, steps: seq<Step>, s: State, op: OpId)
    requires Reaches(from, steps, s)
    ensures OpPrefix(from, s, op)
    decreases |steps|
  {
    if steps != [] {
      StepPrefix(from, steps[0], op);
      RunsPrefix(Perform(from, steps[0]), steps[1..], s, op);
    }
  }

  lemma {:induction false} TerminalStays(op: Operation, i: nat, j: nat)
    requires LogOk(op) && i <= j < |op.log| && !HeldPhase(op.log[i])
    ensures op.log[j] == op.log[i]
    decreases j - i
  {
    if i < j {
      TerminalStays(op, i, j - 1);
    }
  }

  /** Whatever completes later, a known outcome is never overwritten. */
  lemma OutcomeIsFinal(from: State, before: seq<Step>, mid: State, after: seq<Step>, s: State, op: OpId)
    requires Initial(from) && Reaches(from, before, mid) && Reaches(mid, after, s)
    requires op in mid.board.ops && |mid.board.ops[op].log| > 0 && !HeldPhase(Now(mid.board.ops[op]))
    ensures op in s.board.ops && |s.board.ops[op].log| > 0 && Now(s.board.ops[op]) == Now(mid.board.ops[op])
  {
    ReachableFromStart(from, before, mid);
    ReachableInv(mid, after, s);
    RunsPrefix(mid, after, s, op);
    var i := |mid.board.ops[op].log| - 1;
    TerminalStays(s.board.ops[op], i, |s.board.ops[op].log| - 1);
    assert s.board.ops[op].log[i] == mid.board.ops[op].log[i];
  }

  /** A held Operation that no executor and no late write refers to any more. */
  ghost predicate Abandoned(s: State, op: OpId) {
    && op in s.board.ops && |s.board.ops[op].log| > 0 && HeldPhase(Now(s.board.ops[op]))
    && (forall id :: id in s.clients ==> OpOf(s.clients[id].pc) != Some(op))
    && (forall w :: w in s.writes ==> w.op != op)
  }

  lemma StepAbandoned(s: State, step: Step, op: OpId)
    requires Abandoned(s, op) && Enabled(s, step)
    ensures Abandoned(Perform(s, step), op)
  {
  }

  /** Unknown remote outcomes retain ownership: no later activity of the operators frees the target. */
  lemma AbandonedIsRetained(from: State, before: seq<Step>, mid: State, after: seq<Step>, s: State, op: OpId)
    requires Initial(from) && Reaches(from, before, mid) && Reaches(mid, after, s) && Abandoned(mid, op)
    ensures Abandoned(s, op)
    ensures s.board.ops[op].target in s.board.owner && s.board.owner[s.board.ops[op].target] == op
  {
    ReachableFromStart(from, before, mid);
    ReachableInv(mid, after, s);
    AbandonedStays(mid, after, s, op);
  }

  lemma {:induction false} AbandonedStays(from: State, steps: seq<Step>, s: State, op: OpId)
    requires Reaches(from, steps, s) && Abandoned(from, op)
    ensures Abandoned(s, op)
    decreases |steps|
  {
    if steps != [] {
      StepAbandoned(from, steps[0], op);
      AbandonedStays(Perform(from, steps[0]), steps[1..], s, op);
    }
  }

  /** A target changes hands only after its Operation ended with a known outcome. */
  lemma ReleasedMeansKnown(from: State, before: seq<Step>, mid: State, after: seq<Step>, s: State, t: Target)
    requires Initial(from) && Reaches(from, before, mid) && Reaches(mid, after, s)
    requires t in mid.board.owner && !(t in s.board.owner && s.board.owner[t] == mid.board.owner[t])
    ensures mid.board.owner[t] in s.board.ops && |s.board.ops[mid.board.owner[t]].log| > 0
    ensures !HeldPhase(Now(s.board.ops[mid.board.owner[t]]))
  {
    ReachableFromStart(from, before, mid);
    ReachableInv(mid, after, s);
    RunsPrefix(mid, after, s, mid.board.owner[t]);
  }

  // ---- How a body ends, and what is recorded ----

  /** Only an uncertain outcome can still be written to this held Operation, and its body is over. */
  ghost predicate OnlyUncertain(s: State, op: OpId) {
    && op in s.board.ops && |s.board.ops[op].log| > 0 && Now(s.board.ops[op]) in {Running, Uncertain}
    && (forall w :: w in s.writes && w.op == op ==> w.phase == Uncertain)
    && forall id :: id in s.clients && OpOf(s.clients[id].pc) == Some(op) ==>
         || (s.clients[id].pc.Completing? && s.clients[id].pc.phase == Uncertain)
         || (s.clients[id].pc.Putting? && s.clients[id].pc.phase == Uncertain)
  }

  lemma StepOnlyUncertain(s: State, step: Step, op: OpId)
    requires OnlyUncertain(s, op) && Enabled(s, step)
    ensures OnlyUncertain(Perform(s, step), op)
  {
  }

  lemma {:induction false} OnlyUncertainStays(from: State, steps: seq<Step>, s: State, op: OpId)
    requires OnlyUncertain(from, op) && Reaches(from, steps, s)
    ensures OnlyUncertain(s, op)
    decreases |steps|
  {
    if steps != [] {
      StepOnlyUncertain(from, steps[0], op);
      OnlyUncertainStays(Perform(from, steps[0]), steps[1..], s, op);
    }
  }

  /** After an interruption, whatever conflicts, crashes, lost replies and late writes follow, the Operation stays
      Running or Uncertain and owns its target. */
  lemma InterruptedIsHeld(from: State, before: seq<Step>, mid: State, id: ClientId, op: OpId, after: seq<Step>, s: State)
    requires Initial(from) && Reaches(from, before, mid) && id in mid.clients
    requires mid.clients[id].pc in {Inside(op), Created(op)} && Enabled(mid, Leave(id, Interrupted))
    requires Reaches(Perform(mid, Leave(id, Interrupted)), after, s)
    ensures op in s.board.ops && |s.board.ops[op].log| > 0 && Now(s.board.ops[op]) in {Running, Uncertain}
    ensures s.board.ops[op].target in s.board.owner && s.board.owner[s.board.ops[op].target] == op
  {
    ReachableFromStart(from, before, mid);
    var next := Perform(mid, Leave(id, Interrupted));
    StepInv(mid, Leave(id, Interrupted));
    ReachableInv(next, after, s);
    assert ClientOk(mid, mid.clients[id]);
    OnlyUncertainStays(next, after, s, op);
  }

  /** The undisturbed way out of a reservation: leave, read the Operation, write its outcome. */
  lemma UndisturbedExit(from: State, before: seq<Step>, s: State, id: ClientId, op: OpId, ending: Ending)
    requires Initial(from) && Reaches(from, before, s) && id in s.clients && s.clients[id].pc == Inside(op)
    ensures Enabled(s, Leave(id, ending))
    ensures var left := Perform(s, Leave(id, ending));
            && Enabled(left, ReadOperation(id))
            && var read := Perform(left, ReadOperation(id));
               && Enabled(read, PutPhase(id, Applied))
               && var done := Perform(read, PutPhase(id, Applied));
                  && op in done.board.ops && |done.board.ops[op].log| > 0
                  && var target := s.clients[id].target;
                     match ending {
                       case Interrupted =>
                         && Now(done.board.ops[op]) == Uncertain
                         && target in done.board.owner && done.board.owner[target] == op
                       case Refused => Now(done.board.ops[op]) == Failed && target !in done.board.owner
                       case Returned => Now(done.board.ops[op]) == Succeeded && target !in done.board.owner
                     }
  {
    ReachableFromStart(from, before, s);
    assert ClientOk(s, s.clients[id]);
  }

  /** A free target is claimed and entered undisturbed: the client's own running Operation becomes its owner. */
  lemma UndisturbedEntry(from: State, before: seq<Step>, s: State, id: ClientId, op: OpId)
    requires Initial(from) && Reaches(from, before, s) && id in s.clients && s.clients[id].pc.Asking?
    requires op !in s.board.ops && s.clients[id].target !in s.board.owner
    ensures Enabled(s, Claim(id, op, true))
    ensures var claimed := Perform(s, Claim(id, op, true));
            && Enabled(claimed, Enter(id))
            && var inside := Perform(claimed, Enter(id));
               && inside.clients[id].pc == Inside(op)
               && op in inside.board.ops && inside.board.ops[op] == Operation(s.clients[id].target, [Running])
               && s.clients[id].target in inside.board.owner && inside.board.owner[s.clients[id].target] == op
  {
  }

  // ---- Refused completions ----

  /** `n` reads of the Operation, each followed by a refused write. */
  function Conflicts(id: ClientId, n: nat): seq<Step> {
    if n == 0 then [] else [ReadOperation(id), PutPhase(id, Conflict)] + Conflicts(id, n - 1)
  }

  predicate Finishing(s: State, id: ClientId, op: OpId, phase: OpPhase, left: nat) {
    && id in s.clients && s.clients[id].pc == Completing(op, phase, left)
    && op in s.board.ops && |s.board.ops[op].log| > 0 && HeldPhase(Now(s.board.ops[op]))
  }

  lemma OneConflict(s: State, id: ClientId, op: OpId, phase: OpPhase, left: nat)
    requires Finishing(s, id, op, phase, left) && left > 0
    ensures Enabled(s, ReadOperation(id)) && Enabled(Perform(s, ReadOperation(id)), PutPhase(id, Conflict))
    ensures Perform(Perform(s, ReadOperation(id)), PutPhase(id, Conflict)) == Go(s, id, Completing(op, phase, left - 1))
  {
  }

  lemma {:induction false} ConflictsRetry(s: State, id: ClientId, op: OpId, phase: OpPhase, left: nat, n: nat)
    requires Finishing(s, id, op, phase, left) && n <= left
    ensures Reaches(s, Conflicts(id, n), Go(s, id, Completing(op, phase, left - n)))
    decreases n
  {
    if n == 0 {
      assert Go(s, id, Completing(op, phase, left)) == s;
    } else {
      OneConflict(s, id, op, phase, left);
      var next := Go(s, id, Completing(op, phase, left - 1));
      ConflictsRetry(next, id, op, phase, left - 1, n - 1);
      assert Go(next, id, Completing(op, phase, left - n)) == Go(s, id, Completing(op, phase, left - n));
      var steps := Conflicts(id, n);
      assert steps[0] == ReadOperation(id) && steps[1..][0] == PutPhase(id, Conflict);
      assert steps[1..][1..] == Conflicts(id, n - 1);
      hide Enabled, Perform;
    }
  }

  /** A completion survives four refused writes and gives up after the fifth, leaving the Operation as it was. */
  lemma CompletionRetries(s: State, id: ClientId, op: OpId, ending: Ending, n: nat)
    requires Known(s, id) && s.clients[id].pc == Inside(op) && HeldPhase(Now(s.board.ops[op])) && n <= 5
    ensures Enabled(s, Leave(id, ending))
    ensures exists t :: Reaches(Perform(s, Leave(id, ending)), Conflicts(id, n), t) && t.board == s.board
                        && Enabled(t, ReadOperation(id))
                        && (n < 5 ==> Enabled(Perform(t, ReadOperation(id)), PutPhase(id, Applied)))
                        && (n == 5 ==> Perform(t, ReadOperation(id)).clients[id].pc.Left?)
  {
    var left := Perform(s, Leave(id, ending));
    ConflictsRetry(left, id, op, left.clients[id].pc.phase, 5, n);
  }
}
