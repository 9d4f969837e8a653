/** One scheduled pass: plan, execute and report the captured Configurations one after the other. */
module ConfigurationPass {
  import opened ConfigurationPlan
  import opened Pigeonhole
  import opened Wrappers
  import D = DependencyOrder

  function NamesOf(refs: seq<Reference>): seq<string> {
    seq(|refs|, i requires 0 <= i < |refs| => refs[i].name)
  }

  /** The dependency graph of the captured Configurations. */
  function GraphOf(s: Store, captured: seq<string>): D.Graph {
    map name | name in captured && name in s.configurations :: NamesOf(s.configurations[name].spec.dependsOn)
  }

  /** The names in `done` are verified, and depend on nothing outside and not on themselves. */
  ghost predicate Settled(s: Store, done: set<string>) {
    forall d :: d in done ==>
      && Verified(s, d)
      && forall e :: Reaches(s, s.configurations[d], e) ==> e in done && e != d
  }

  /** The Configuration resolves, apart from the state of its prerequisites, and has a generation. */
  predicate Sane(s: Store, name: string) {
    name in s.configurations && Resolvable(s, s.configurations[name]) && s.configurations[name].generation.Some?
  }

  /** Each good name resolves and its command works, and each prerequisite is either settled already, outside the
      captured set, or a good name earlier in the order. Nothing is asked of the other captured names. */
  ghost predicate Supported(s: Store, order: seq<string>, works: set<string>, base: set<string>, good: set<string>) {
    && Settled(s, base) && (forall i :: 0 <= i < |order| ==> order[i] !in base)
    && (forall name :: name in good ==> name in order)
    && forall i :: 0 <= i < |order| && order[i] in good ==>
         && order[i] in works && Sane(s, order[i])
         && forall d :: Needs(s.configurations[order[i]], d) ==> d in base || (d in good && d in order[..i])
  }

  lemma ReachesInside(s: Store, done: set<string>, c: Configuration, d: string)
    requires Settled(s, done) && Reaches(s, c, d) && forall n :: Needs(c, n) ==> n in done
    ensures d in done
  {
    hide Verified;
    var p :| Chain(s, c, p) && p[|p| - 1] == d;
    assert p[0] in done;
    if |p| > 1 {
      var q := p[1..];
      assert Chain(s, s.configurations[p[0]], q) && q[|q| - 1] == d;
      assert Reaches(s, s.configurations[p[0]], d);
    }
  }

  lemma SettledIsSound(s: Store, done: set<string>, c: Configuration)
    requires Settled(s, done) && Resolvable(s, c) && forall d :: Needs(c, d) ==> d in done
    ensures Sound(s, c) && forall d :: Reaches(s, c, d) ==> d in done
  {
    forall ref | ref in c.spec.dependsOn
      ensures Fetch(s, ref).value.status.inputRevision.Some?
    {
      assert Needs(c, ref.name);
      assert Verified(s, ref.name);
    }
    forall d | Reaches(s, c, d)
      ensures d in done && Verified(s, d) && !Reaches(s, s.configurations[d], d)
    {
      ReachesInside(s, done, c, d);
    }
    hide Verified, Resolvable, Reaches, Fetch;
  }

  // ---- Status writes ----

  lemma StaysSane(s: Store, name: string, status: Status, m: string)
    requires name in s.configurations
    ensures Sane(WithStatus(s, name, status), m) <==> Sane(s, m)
  {
    if m in s.configurations {
      StatusKeepsObservations(s, name, status, s.configurations[m].spec.dependsOn);
    }
  }

  lemma MemberStaysSettled(s: Store, done: set<string>, name: string, status: Status, d: string)
    requires Settled(s, done) && name in s.configurations && name !in done && d in done
    ensures var t := WithStatus(s, name, status);
            Verified(t, d) && forall e :: Reaches(t, t.configurations[d], e) ==> e in done && e != d
  {
    var t, member := WithStatus(s, name, status), s.configurations[d];
    assert Verified(s, d);
    if Needs(member, name) {
      NeedsReaches(s, member, name);
      assert false;
    }
    StatusKeepsExpected(s, name, status, member, member);
    hide Expected, Resolvable, Recorded, Reaches, Needs;
    forall e | Reaches(t, t.configurations[d], e)
      ensures e in done && e != d
    {
      StatusKeepsReach(s, name, status, member, t.configurations[d], e);
    }
  }

  /** Whatever is written to the status of another Configuration, settled ones stay settled. */
  lemma StaysSettled(s: Store, done: set<string>, name: string, status: Status)
    requires Settled(s, done) && name in s.configurations && name !in done
    ensures Settled(WithStatus(s, name, status), done)
  {
    hide Reaches, Expected, Resolvable, Recorded;
    forall d | d in done
      ensures var t := WithStatus(s, name, status);
              Verified(t, d) && forall e :: Reaches(t, t.configurations[d], e) ==> e in done && e != d
    {
      MemberStaysSettled(s, done, name, status, d);
    }
  }

  /** Reporting one more Configuration, all of whose prerequisites are settled, settles it. */
  lemma SettleOne(s: Store, done: set<string>, name: string)
    requires Settled(s, done) && Sane(s, name) && name !in done
    requires forall d :: Needs(s.configurations[name], d) ==> d in done
    ensures Plan(s, name, s.configurations[name], []).Ok?
    ensures Settled(Reported(s, name, Plan(s, name, s.configurations[name], []).value), done + {name})
  {
    var c := s.configurations[name];
    SettledIsSound(s, done, c);
    PlanExact(s, name, c, []);
    hide Verified, Needs, Plan, Reaches, Sound, Sane;
    var revision := Plan(s, name, c, []).value;
    ReportIsStable(s, name, revision);
    SaneHasGeneration(s, name);
    var t := Reported(s, name, revision);
    StaysSettled(s, done, name, t.configurations[name].status);
    forall e | Reaches(t, t.configurations[name], e)
      ensures e in done
    {
      StatusKeepsReach(s, name, t.configurations[name].status, c, t.configurations[name], e);
    }
  }

  lemma SaneHasGeneration(s: Store, name: string)
    requires Sane(s, name)
    ensures name in s.configurations && s.configurations[name].generation.Some?
  {
  }

  lemma SettledIsPlanned(s: Store, done: set<string>, name: string)
    requires Settled(s, done) && name in done
    ensures Verified(s, name) && Plan(s, name, s.configurations[name], []).Ok?
    ensures Current(s.configurations[name], Plan(s, name, s.configurations[name], []).value)
  {
    var c := s.configurations[name];
    forall d | Needs(c, d)
      ensures d in done
    {
      NeedsReaches(s, c, d);
    }
    SettledIsSound(s, done, c);
    PlanExact(s, name, c, []);
  }

  // ---- The pass ----

  /** The same Configurations up to their statuses, which only the names in `touched` may have changed. */
  ghost predicate OnlyStatuses(s: Store, t: Store, touched: seq<string>) {
    && t.resolve == s.resolve && t.configurations.Keys == s.configurations.Keys
    && forall n :: n in s.configurations ==>
         && t.configurations[n] == s.configurations[n].(status := t.configurations[n].status)
         && (n !in touched ==> t.configurations[n] == s.configurations[n])
  }

  /** A Configuration that cannot be planned, or whose command fails, is reported as something other than Ready,
      or that report is lost as well. */
  function Noted(s: Store, name: string, aftermath: map<string, Status>): Store
    requires name in s.configurations
  {
    if name in aftermath then WithStatus(s, name, aftermath[name].(ready := false)) else s
  }

  /** `done` are the settled names: those outside, and the good ones among the first `k`. */
  ghost predicate Visited(order: seq<string>, k: nat, base: set<string>, good: set<string>, done: set<string>)
    requires k <= |order|
  {
    forall n :: n in done <==> n in base || (n in good && n in order[..k])
  }

  lemma VisitNext(order: seq<string>, k: nat, base: set<string>, good: set<string>, done: set<string>)
    requires k < |order| && Visited(order, k, base, good, done)
    ensures Visited(order, k + 1, base, good, if order[k] in good then done + {order[k]} else done)
  {
    assert order[..k + 1] == order[..k] + [order[k]];
  }

  /** What the loop keeps for the good names already visited. */
  ghost predicate Going(
      s: Store, t: Store, order: seq<string>, k: nat, base: set<string>, good: set<string>, done: set<string>)
    requires k <= |order|
  {
    && OnlyStatuses(s, t, order[..k]) && Settled(t, done)
    && Visited(order, k, base, good, done) && forall n :: n in good ==> Sane(t, n)
  }

  lemma StatusesAdvance(s: Store, t: Store, order: seq<string>, k: nat, status: Status)
    requires k < |order| && OnlyStatuses(s, t, order[..k]) && order[k] in t.configurations
    ensures OnlyStatuses(s, WithStatus(t, order[k], status), order[..k + 1])
  {
    assert order[..k + 1] == order[..k] + [order[k]];
  }

  lemma AllStaySane(t: Store, name: string, status: Status, good: set<string>)
    requires name in t.configurations && forall n :: n in good ==> Sane(t, n)
    ensures forall n :: n in good ==> Sane(WithStatus(t, name, status), n)
  {
    hide Sane;
    forall n | n in good
      ensures Sane(WithStatus(t, name, status), n)
    {
      StaysSane(t, name, status, n);
    }
  }

  lemma Advance(
      s: Store, t: Store, order: seq<string>, k: nat, works: set<string>, base: set<string>, good: set<string>,
      done: set<string>, status: Status)
    requires Distinct(order) && Supported(s, order, works, base, good) && k < |order|
    requires Going(s, t, order, k, base, good, done) && order[k] in s.configurations && order[k] !in good
    ensures Going(s, WithStatus(t, order[k], status), order, k + 1, base, good, done)
  {
    var name := order[k];
    assert name !in done;
    StaysSettled(t, done, name, status);
    StatusesAdvance(s, t, order, k, status);
    AllStaySane(t, name, status, good);
    VisitNext(order, k, base, good, done);
    hide Settled, Sane, OnlyStatuses, WithStatus, Visited;
  }

  lemma Skip(
      s: Store, t: Store, order: seq<string>, k: nat, base: set<string>, good: set<string>, done: set<string>)
    requires k < |order| && Going(s, t, order, k, base, good, done) && order[k] !in good
    ensures Going(s, t, order, k + 1, base, good, done)
  {
    hide Settled, Sane;
    VisitNext(order, k, base, good, done);
    assert order[..k + 1] == order[..k] + [order[k]];
  }

  /** When the turn of a good name comes, its prerequisites are settled and it is not. */
  lemma GoodIsReady(
      s: Store, t: Store, order: seq<string>, k: nat, works: set<string>, base: set<string>, good: set<string>,
      done: set<string>)
    requires Distinct(order) && Supported(s, order, works, base, good) && k < |order|
    requires Going(s, t, order, k, base, good, done) && order[k] in good
    ensures order[k] in works && order[k] !in done && Settled(t, done) && Sane(t, order[k])
    ensures forall d :: Needs(t.configurations[order[k]], d) ==> d in done
  {
    var name := order[k];
    assert name !in order[..k];
    hide Settled, Resolvable;
    forall d | Needs(t.configurations[name], d)
      ensures d in done
    {
      assert Needs(s.configurations[name], d);
    }
  }

  lemma GoodAdvances(
      s: Store, t: Store, order: seq<string>, k: nat, base: set<string>, good: set<string>, done: set<string>, status: Status)
    requires k < |order| && Going(s, t, order, k, base, good, done) && order[k] in good && order[k] in t.configurations
    requires Settled(WithStatus(t, order[k], status), done + {order[k]})
    ensures Going(s, WithStatus(t, order[k], status), order, k + 1, base, good, done + {order[k]})
  {
    var name := order[k];
    StatusesAdvance(s, t, order, k, status);
    AllStaySane(t, name, status, good);
    VisitNext(order, k, base, good, done);
    hide Settled, Sane, OnlyStatuses, WithStatus, Visited;
  }

  lemma GoodIsPlanned(
      s: Store, t: Store, order: seq<string>, k: nat, works: set<string>, base: set<string>, good: set<string>,
      done: set<string>)
    requires Distinct(order) && Supported(s, order, works, base, good) && k < |order|
    requires Going(s, t, order, k, base, good, done) && order[k] in good
    ensures order[k] in works && order[k] in t.configurations && Plan(t, order[k], t.configurations[order[k]], []).Ok?
    ensures Going(s, Reported(t, order[k], Plan(t, order[k], t.configurations[order[k]], []).value), order, k + 1, base, good,
                  done + {order[k]})
  {
    var name := order[k];
    GoodIsReady(s, t, order, k, works, base, good, done);
    SaneHasGeneration(t, name);
    SettleOne(t, done, name);
    hide Going, Supported, Settled, Sane, Plan, Distinct;
    var next := Reported(t, name, Plan(t, name, t.configurations[name], []).value);
    GoodAdvances(s, t, order, k, base, good, done, next.configurations[name].status);
  }

  /** One pass over the captured Configurations: whatever happens to the others, every good one is planned, executed
      and left verified against its final inputs, and nothing but statuses of captured Configurations changes. */
  method Run(
      s: Store, order: seq<string>, works: set<string>, aftermath: map<string, Status>,
      ghost base: set<string>, ghost good: set<string>)
    returns (t: Store, verified: set<string>)
    requires Distinct(order) && forall i :: 0 <= i < |order| ==> order[i] in s.configurations
    requires Supported(s, order, works, base, good)
    ensures OnlyStatuses(s, t, order) && Outcomes(s, t, order, |order|, works, verified)
    ensures forall name :: name in good ==>
              && name in verified && Verified(t, name) && Plan(t, name, t.configurations[name], []).Ok?
              && Current(t.configurations[name], Plan(t, name, t.configurations[name], []).value)
  {
    hide Going, Supported, Verified, WithStatus, OnlyStatuses, Outcomes, Distinct;
    t, verified := s, {};
    ghost var done := base;
    Starting(s, order, works, base, good);
    for k := 0 to |order|
      invariant Going(s, t, order, k, base, good, done)
      invariant Outcomes(s, t, order, k, works, verified)
      invariant forall n :: n in good && n in order[..k] ==> n in verified
    {
      var name := order[k];
      Present(s, t, order, k, base, good, done);
      if name in good {
        GoodIsPlanned(s, t, order, k, works, base, good, done);
      } else {
        SkipOrAdvance(s, t, order, k, works, base, good, done, aftermath);
      }
      var resolved := PlanConfiguration(t, name, t.configurations[name], []);
      NextOutcome(s, t, order, k, works, verified, resolved, aftermath);
      if resolved.Ok? && name in works {
        verified := verified + {name};
        t := Reported(t, name, resolved.value);
      } else {
        t := Noted(t, name, aftermath);
      }
      done := if name in good then done + {name} else done;
      assert order[..k + 1] == order[..k] + [name];
    }
    Finished(s, t, order, works, base, good, done);
  }

  /** The first `k` names: those in `verified` worked and are Ready, the others are as they were or not Ready. */
  ghost predicate Outcomes(s: Store, t: Store, order: seq<string>, k: nat, works: set<string>, verified: set<string>)
    requires k <= |order|
  {
    && (forall n :: n in verified ==> n in order[..k])
    && forall n :: n in order[..k] ==>
         && n in s.configurations && n in t.configurations
         && if n in verified then n in works && t.configurations[n].status.ready
            else t.configurations[n] == s.configurations[n] || !t.configurations[n].status.ready
  }

  lemma OutcomeNext(
      s: Store, t: Store, order: seq<string>, k: nat, works: set<string>, verified: set<string>, status: Option<Status>,
      ready: bool)
    requires k < |order| && Distinct(order) && Outcomes(s, t, order, k, works, verified)
    requires order[k] in s.configurations && order[k] in t.configurations
    requires t.configurations[order[k]] == s.configurations[order[k]]
    requires if ready then order[k] in works && status.Some? && status.value.ready else status.None? || !status.value.ready
    ensures var next := if status.Some? then WithStatus(t, order[k], status.value) else t;
            Outcomes(s, next, order, k + 1, works, if ready then verified + {order[k]} else verified)
  {
    assert order[..k + 1] == order[..k] + [order[k]] && order[k] !in order[..k];
  }

  lemma Starting(s: Store, order: seq<string>, works: set<string>, base: set<string>, good: set<string>)
    requires Supported(s, order, works, base, good)
    ensures Going(s, s, order, 0, base, good, base) && Outcomes(s, s, order, 0, works, {})
  {
    hide Settled, Sane;
    forall n | n in good
      ensures Sane(s, n)
    {
      var i :| 0 <= i < |order| && order[i] == n;
    }
  }

  lemma Present(s: Store, t: Store, order: seq<string>, k: nat, base: set<string>, good: set<string>, done: set<string>)
    requires k < |order| && Going(s, t, order, k, base, good, done) && order[k] in s.configurations
    ensures order[k] in t.configurations
    ensures Distinct(order) ==> t.configurations[order[k]] == s.configurations[order[k]]
  {
    assert Distinct(order) ==> order[k] !in order[..k];
  }

  lemma NextOutcome(
      s: Store, t: Store, order: seq<string>, k: nat, works: set<string>, verified: set<string>,
      resolved: Result<Revision, Reason>, aftermath: map<string, Status>)
    requires k < |order| && Distinct(order) && Outcomes(s, t, order, k, works, verified)
    requires order[k] in s.configurations && order[k] in t.configurations
    requires t.configurations[order[k]] == s.configurations[order[k]]
    ensures if resolved.Ok? && order[k] in works
            then Outcomes(s, Reported(t, order[k], resolved.value), order, k + 1, works, verified + {order[k]})
            else Outcomes(s, Noted(t, order[k], aftermath), order, k + 1, works, verified)
  {
    var name := order[k];
    if resolved.Ok? && name in works {
      var status := Reported(t, name, resolved.value).configurations[name].status;
      OutcomeNext(s, t, order, k, works, verified, Some(status), true);
    } else if name in aftermath {
      OutcomeNext(s, t, order, k, works, verified, Some(aftermath[name].(ready := false)), false);
    } else {
      OutcomeNext(s, t, order, k, works, verified, None, false);
    }
  }

  lemma SkipOrAdvance(
      s: Store, t: Store, order: seq<string>, k: nat, works: set<string>, base: set<string>, good: set<string>,
      done: set<string>, aftermath: map<string, Status>)
    requires Distinct(order) && Supported(s, order, works, base, good) && k < |order|
    requires Going(s, t, order, k, base, good, done) && order[k] in s.configurations && order[k] !in good
    ensures order[k] in t.configurations && Going(s, Noted(t, order[k], aftermath), order, k + 1, base, good, done)
    ensures forall revision :: Going(s, Reported(t, order[k], revision), order, k + 1, base, good, done)
  {
    var name := order[k];
    Present(s, t, order, k, base, good, done);
    Skip(s, t, order, k, base, good, done);
    if name in aftermath {
      Advance(s, t, order, k, works, base, good, done, aftermath[name].(ready := false));
    }
    forall revision
      ensures Going(s, Reported(t, name, revision), order, k + 1, base, good, done)
    {
      Advance(s, t, order, k, works, base, good, done, Reported(t, name, revision).configurations[name].status);
    }
  }

  lemma Finished(
      s: Store, t: Store, order: seq<string>, works: set<string>, base: set<string>, good: set<string>, done: set<string>)
    requires Supported(s, order, works, base, good) && Going(s, t, order, |order|, base, good, done)
    ensures OnlyStatuses(s, t, order)
    ensures forall name :: name in good ==>
              && name in order[..|order|] && Verified(t, name) && Plan(t, name, t.configurations[name], []).Ok?
              && Current(t.configurations[name], Plan(t, name, t.configurations[name], []).value)
  {
    assert order[..|order|] == order;
    forall name | name in good
      ensures Verified(t, name) && Plan(t, name, t.configurations[name], []).Ok?
      ensures Current(t.configurations[name], Plan(t, name, t.configurations[name], []).value)
    {
      SettledIsPlanned(t, done, name);
    }
  }

  /** In a dependency order, all captured Configurations are good as soon as each resolves and works and every
      prerequisite outside the captured set is settled. */
  lemma OrderSupportsAll(s: Store, order: seq<string>, works: set<string>, base: set<string>)
    requires D.Ordered(GraphOf(s, order), order) && Settled(s, base)
    requires forall i :: 0 <= i < |order| ==>
               && order[i] !in base && order[i] in works && Sane(s, order[i])
               && forall d :: Needs(s.configurations[order[i]], d) ==> d in base || d in order
    ensures Distinct(order) && Supported(s, order, works, base, Elements(order))
  {
    var g := GraphOf(s, order);
    forall i, d | 0 <= i < |order| && Needs(s.configurations[order[i]], d) && d !in base
      ensures d in order[..i]
    {
      assert order[i] in order && order[i] in g && d in order && d in g;
      var refs := s.configurations[order[i]].spec.dependsOn;
      var j :| 0 <= j < |refs| && refs[j].name == d;
      assert g[order[i]][j] == d;
      assert D.Edge(g, order[i], d);
    }
  }
}
