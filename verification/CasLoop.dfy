/** The bounded read-validate-write loops of the operators, run against interfering writers. */
module CasLoop {
  import opened Wrappers

  datatype Reply = Applied | Conflict | Lost

  /** A status record seen by one client: `mine` lists the versions that client wrote, `fetched` those it
      read, and `replies` the answers to all its writes. */
  class Record<T(0)> {
    var log: seq<T>
    ghost var mine: seq<nat>
    ghost var fetched: seq<nat>
    ghost var replies: seq<Reply>

    constructor (first: T)
      ensures log == [first] && mine == [] && fetched == [] && replies == []
    {
      log, mine, fetched, replies := [first], [], [], [];
    }

    /** Any other writers, any number of times. */
    method Interfere()
      modifies this`log
      ensures old(log) <= log
    {
      var others: seq<T> := *;
      log := log + others;
    }

    /** A read returns the newest version. */
    method Read() returns (base: nat, latest: T)
      requires |log| > 0
      modifies this`fetched
      ensures base == |log| - 1 && latest == log[base] && fetched == old(fetched) + [base]
    {
      base, latest := |log| - 1, log[|log| - 1];
      fetched := fetched + [base];
    }

    /** A conditional write on the version last read: it can only take effect while that is the newest. */
    method Write(base: nat, value: T) returns (reply: Reply)
      requires |fetched| > 0 && base == fetched[|fetched| - 1]
      modifies this`log, this`mine, this`replies
      ensures replies == old(replies) + [reply]
      ensures reply.Applied? ==> Wrote(old(log), base, value) && mine == old(mine) + [|old(log)|]
      ensures reply.Conflict? ==> log == old(log) && mine == old(mine)
      ensures reply.Lost? ==>
                || (log == old(log) && mine == old(mine))
                || (Wrote(old(log), base, value) && mine == old(mine) + [|old(log)|])
    {
      var spurious: bool := *;
      var answered: bool := *;
      reply := if !answered then Lost else if base + 1 != |log| || spurious then Conflict else Applied;
      if base + 1 == |log| && !spurious {
        mine := mine + [|log|];
        log := log + [value];
      }
      replies := replies + [reply];
    }

    ghost predicate Wrote(before: seq<T>, base: nat, value: T)
      reads this
    {
      base + 1 == |before| && log == before + [value]
    }

    /** Version `v` is one guarded update: it was computed from the version just before it. */
    ghost predicate Updated(v: nat, guard: T -> bool, change: T -> T)
      reads this
    {
      0 < v < |log| && guard(log[v - 1]) && log[v] == change(log[v - 1])
    }
  }

  function Conflicts(n: nat): seq<Reply> {
    seq(n, _ => Conflict)
  }

  datatype Outcome = Written(version: nat) | Refused(seen: nat) | Exhausted | Unknown

  /** What the client was answered during one loop of `tried` fresh reads: it gives up after `limit` conflicts, and
      otherwise stops at the first reply that is not a conflict or at the first version that the guard refuses. */
  ghost predicate Answered(before: seq<Reply>, after: seq<Reply>, tried: int, limit: nat, outcome: Outcome) {
    match outcome
    case Exhausted => tried == limit && after == before + Conflicts(limit)
    case Written(_) => 0 < tried <= limit && after == before + Conflicts(tried - 1) + [Applied]
    case Unknown => 0 < tried <= limit && after == before + Conflicts(tried - 1) + [Lost]
    case Refused(_) => 0 < tried <= limit && after == before + Conflicts(tried - 1)
  }

  lemma OneMoreConflict(before: seq<Reply>, n: nat)
    ensures before + Conflicts(n) + [Conflict] == before + Conflicts(n + 1)
  {
  }

  /** However others interfere, the loop acts as one atomic guarded update, or does not act at all;
      only an unanswered write leaves the caller not knowing which. */
  method GuardedUpdate<T(0)>(record: Record<T>, guard: T -> bool, change: T -> T, limit: nat)
    returns (outcome: Outcome)
    requires |record.log| > 0
    modifies record
    ensures old(record.log) <= record.log
    ensures Answered(old(record.replies), record.replies, |record.fetched| - |old(record.fetched)|, limit, outcome)
    ensures outcome.Refused? ==> record.fetched[|record.fetched| - 1] == outcome.seen
    ensures outcome.Written? ==>
              && record.mine == old(record.mine) + [outcome.version] && |old(record.log)| <= outcome.version
              && record.Updated(outcome.version, guard, change)
    ensures outcome.Refused? ==>
              && record.mine == old(record.mine)
              && |old(record.log)| - 1 <= outcome.seen < |record.log| && !guard(record.log[outcome.seen])
    ensures outcome.Exhausted? ==> record.mine == old(record.mine)
    ensures outcome.Unknown? ==>
              || record.mine == old(record.mine)
              || exists v :: |old(record.log)| <= v && record.mine == old(record.mine) + [v]
                             && record.Updated(v, guard, change)
  {
    for attempt := 0 to limit
      invariant old(record.log) <= record.log && record.mine == old(record.mine)
      invariant record.replies == old(record.replies) + Conflicts(attempt)
      invariant |record.fetched| == |old(record.fetched)| + attempt
    {
      record.Interfere();
      var base, latest := record.Read();
      if !guard(latest) {
        return Refused(base);
      }
      record.Interfere();
      OneMoreConflict(old(record.replies), attempt);
      var reply := record.Write(base, change(latest));
      match reply {
        case Applied =>
          assert record.Updated(base + 1, guard, change);
          return Written(base + 1);
        case Lost =>
          assert record.mine != old(record.mine) ==> record.Updated(base + 1, guard, change);
          return Unknown;
        case Conflict =>
      }
    }
    return Exhausted;
  }
}
