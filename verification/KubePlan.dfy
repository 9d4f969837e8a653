/** Planning a Kubernetes cluster from captured Servers and cluster settings. */
module KubePlan {
  import opened Cidr
  import opened Pigeonhole
  import opened Wrappers

  const CLUSTER_LABEL := "homelab.io/kube-cluster"
  const ROLE_LABEL := "homelab.io/kube-role"
  const CLUSTER_UID_ANNOTATION := "homelab.io/kube-cluster-uid"
  const NODE_NAME_ANNOTATION := "homelab.io/kube-node-name"
  const CGROUP_ANNOTATION := "homelab.io/kube-cgroup-version"
  const IPTABLES_ANNOTATION := "homelab.io/kube-iptables-backend"
  const CONTROL_PLANE := "control-plane"
  const WORKER := "worker"

  datatype Captured = Captured(name: string, uid: string, labels: map<string, string>, annotations: map<string, string>)

  datatype Member = Member(
    name: string, uid: string, nodeName: string, role: string, cgroupVersion: string, iptablesBackend: string)

  function Lookup<V>(values: map<string, V>, key: string): Option<V> {
    if key in values then Some(values[key]) else None
  }

  function LookupOr(values: map<string, string>, key: string, default: string): string {
    if key in values then values[key] else default
  }

  // ---- Node names ----

  predicate LowerAlnum(c: char) {
    'a' <= c <= 'z' || '0' <= c <= '9'
  }

  predicate DnsLabel(part: string) {
    && 0 < |part| <= 63 && LowerAlnum(part[0]) && LowerAlnum(part[|part| - 1])
    && forall i :: 0 <= i < |part| ==> LowerAlnum(part[i]) || part[i] == '-'
  }

  function SplitAt(value: string, separator: char): (parts: seq<string>)
    ensures |parts| > 0
  {
    if value == "" then [""]
    else
      var rest := SplitAt(value[1..], separator);
      if value[0] == separator then [""] + rest else [[value[0]] + rest[0]] + rest[1..]
  }

  function Join(parts: seq<string>, separator: char): string
    requires |parts| > 0
  {
    if |parts| == 1 then parts[0] else parts[0] + [separator] + Join(parts[1..], separator)
  }

  /** Splitting loses nothing and leaves no separator in a part. */
  lemma {:induction false} SplitExact(value: string, separator: char)
    ensures Join(SplitAt(value, separator), separator) == value
    ensures forall part :: part in SplitAt(value, separator) ==> separator !in part
  {
    if value != "" {
      SplitExact(value[1..], separator);
      assert value == [value[0]] + value[1..];
      if value[0] == separator {
        JoinEmpty(SplitAt(value[1..], separator), separator);
      } else {
        JoinCons(value[0], SplitAt(value[1..], separator), separator);
      }
    }
  }

  lemma JoinEmpty(rest: seq<string>, separator: char)
    requires |rest| > 0
    ensures Join([""] + rest, separator) == [separator] + Join(rest, separator)
  {
    assert ([""] + rest)[1..] == rest;
    assert "" + [separator] + Join(rest, separator) == [separator] + Join(rest, separator);
  }

  lemma JoinCons(c: char, rest: seq<string>, separator: char)
    requires |rest| > 0
    ensures Join([[c] + rest[0]] + rest[1..], separator) == [c] + Join(rest, separator)
  {
    var parts := [[c] + rest[0]] + rest[1..];
    assert parts[0] == [c] + rest[0] && parts[1..] == rest[1..];
    if |rest| > 1 {
      var tail := Join(rest[1..], separator);
      assert ([c] + rest[0]) + [separator] + tail == [c] + (rest[0] + [separator] + tail);
    }
  }

  predicate DnsName(value: string) {
    |value| <= 253 && forall part :: part in SplitAt(value, '.') ==> DnsLabel(part)
  }

  // ---- Members ----

  predicate Chosen(node: Captured, cluster: string) {
    Lookup(node.labels, CLUSTER_LABEL) == Some(cluster)
  }

  /** The member a selected Server becomes; None is the ValueError of any invalid part. */
  function MemberOf(node: Captured, uid: string): (member: Option<Member>)
    ensures member.Some? ==>
              && member.value.name == node.name && member.value.uid == node.uid
              && Lookup(node.labels, "homelab.io/kube-role") == Some(member.value.role)
              && member.value.nodeName == LookupOr(node.annotations, "homelab.io/kube-node-name", node.name)
              && member.value.cgroupVersion == LookupOr(node.annotations, "homelab.io/kube-cgroup-version", "2")
              && member.value.iptablesBackend == LookupOr(node.annotations, "homelab.io/kube-iptables-backend", "nft")
    ensures member.Some? <==>
              && node.name != "" && node.uid != ""
              && DnsName(LookupOr(node.annotations, "homelab.io/kube-node-name", node.name))
              && Lookup(node.labels, "homelab.io/kube-role") in {Some("control-plane"), Some("worker")}
              && Lookup(node.annotations, "homelab.io/kube-cluster-uid") in {None, Some(uid)}
              && Lookup(node.annotations, "homelab.io/kube-cgroup-version") in {None, Some("1"), Some("2")}
              && Lookup(node.annotations, "homelab.io/kube-iptables-backend") in {None, Some("legacy"), Some("nft")}
  {
    var binding := Lookup(node.annotations, CLUSTER_UID_ANNOTATION);
    var nodeName := LookupOr(node.annotations, NODE_NAME_ANNOTATION, node.name);
    var role := Lookup(node.labels, ROLE_LABEL);
    var cgroup := LookupOr(node.annotations, CGROUP_ANNOTATION, "2");
    var iptables := LookupOr(node.annotations, IPTABLES_ANNOTATION, "nft");
    if || (binding.Some? && binding != Some(uid)) || node.name == "" || node.uid == ""
       || role !in {Some(CONTROL_PLANE), Some(WORKER)} || !DnsName(nodeName)
       || cgroup !in {"1", "2"} || iptables !in {"legacy", "nft"}
    then None
    else Some(Member(node.name, node.uid, nodeName, role.value, cgroup, iptables))
  }

  function Candidates(nodes: seq<Captured>, cluster: string): seq<Captured> {
    if nodes == [] then []
    else Candidates(nodes[..|nodes| - 1], cluster)
         + if Chosen(nodes[|nodes| - 1], cluster) then [nodes[|nodes| - 1]] else []
  }

  /** Exactly the Servers labelled with the cluster are candidates, each as often as it was captured. */
  lemma {:induction false} CandidatesExactly(nodes: seq<Captured>, cluster: string, node: Captured)
    ensures multiset(Candidates(nodes, cluster))[node]
            == if "homelab.io/kube-cluster" in node.labels && node.labels["homelab.io/kube-cluster"] == cluster
               then multiset(nodes)[node] else 0
  {
    if nodes != [] {
      var shorter, last := nodes[..|nodes| - 1], nodes[|nodes| - 1];
      CandidatesExactly(shorter, cluster, node);
      assert nodes == shorter + [last];
    }
  }

  function NodeNames(members: seq<Member>): seq<string> {
    seq(|members|, i requires 0 <= i < |members| => members[i].nodeName)
  }

  function Roles(members: seq<Member>): seq<string> {
    seq(|members|, i requires 0 <= i < |members| => members[i].role)
  }

  predicate AllValid(candidates: seq<Captured>, uid: string) {
    forall i :: 0 <= i < |candidates| ==> MemberOf(candidates[i], uid).Some?
  }

  function MembersOf(candidates: seq<Captured>, uid: string): seq<Member>
    requires AllValid(candidates, uid)
  {
    seq(|candidates|, i requires 0 <= i < |candidates| => MemberOf(candidates[i], uid).value)
  }

  // ---- Order by Server name ----

  /** Lexicographic order of code points. */
  predicate Precedes(a: string, b: string)
    decreases |a|
  {
    a == "" || (b != "" && (a[0] < b[0] || (a[0] == b[0] && Precedes(a[1..], b[1..]))))
  }

  lemma {:induction false} PrecedesEither(a: string, b: string)
    ensures Precedes(a, b) || Precedes(b, a)
    decreases |a|
  {
    if a != "" && b != "" {
      PrecedesEither(a[1..], b[1..]);
    }
  }

  lemma {:induction false} PrecedesThrough(a: string, b: string, c: string)
    requires Precedes(a, b) && Precedes(b, c)
    ensures Precedes(a, c)
    decreases |a|
  {
    if a != "" && a[0] == b[0] && b[0] == c[0] {
      PrecedesThrough(a[1..], b[1..], c[1..]);
    }
  }

  predicate SmallerAt(a: string, b: string, i: int) {
    0 <= i < |a| && i < |b| && a[..i] == b[..i] && a[i] < b[i]
  }

  lemma SmallerNext(a: string, b: string, i: int)
    requires a != "" && b != "" && a[0] == b[0]
    ensures SmallerAt(a[1..], b[1..], i) <==> i >= 0 && SmallerAt(a, b, i + 1)
  {
    if 0 <= i < |a| - 1 && i < |b| - 1 {
      assert a[..i + 1] == [a[0]] + a[1..][..i] && b[..i + 1] == [b[0]] + b[1..][..i];
      assert a[..i + 1] == b[..i + 1] ==> a[1..][..i] == a[..i + 1][1..] && b[1..][..i] == b[..i + 1][1..];
    }
  }

  lemma SmallerFirst(a: string, b: string, i: int)
    requires a != "" && b != ""
    ensures SmallerAt(a, b, 0) <==> a[0] < b[0]
    ensures SmallerAt(a, b, i) && i != 0 ==> a[0] == b[0]
  {
    assert a[..0] == b[..0];
    if SmallerAt(a, b, i) && i != 0 {
      assert a[..i][0] == a[0] && b[..i][0] == b[0];
    }
  }

  /** One name is a prefix of the other, or smaller at the first place where they differ. */
  lemma {:induction false} PrecedesExactly(a: string, b: string)
    ensures Precedes(a, b) <==> a <= b || exists i :: SmallerAt(a, b, i)
    decreases |a|
  {
    if a != "" && b != "" {
      PrecedesExactly(a[1..], b[1..]);
      PrefixNext(a, b);
      SmallerFirst(a, b, 0);
      hide SmallerAt;
      if i :| SmallerAt(a, b, i) {
        SmallerFirst(a, b, i);
        if i != 0 {
          SmallerNext(a, b, i - 1);
        }
      }
      if a[0] == b[0] {
        if i :| SmallerAt(a[1..], b[1..], i) {
          SmallerNext(a, b, i);
        }
      }
    }
  }

  lemma PrefixNext(a: string, b: string)
    requires a != "" && b != ""
    ensures a <= b <==> a[0] == b[0] && a[1..] <= b[1..]
  {
    assert a == [a[0]] + a[1..] && b == [b[0]] + b[1..];
    if a <= b {
      assert b == a + b[|a|..];
      assert b[1..] == a[1..] + b[|a|..];
    }
  }

  function Insert(sorted: seq<Member>, m: Member): seq<Member> {
    if sorted == [] || Precedes(sorted[|sorted| - 1].name, m.name) then sorted + [m]
    else Insert(sorted[..|sorted| - 1], m) + [sorted[|sorted| - 1]]
  }

  function SortByName(members: seq<Member>): seq<Member> {
    if members == [] then [] else Insert(SortByName(members[..|members| - 1]), members[|members| - 1])
  }

  ghost predicate InOrder(members: seq<Member>) {
    forall i, j :: 0 <= i < j < |members| ==> Precedes(members[i].name, members[j].name)
  }

  lemma {:induction false} InsertKeeps(sorted: seq<Member>, m: Member)
    requires InOrder(sorted)
    ensures multiset(Insert(sorted, m)) == multiset(sorted) + multiset{m} && InOrder(Insert(sorted, m))
  {
    if sorted != [] {
      var shorter, last := sorted[..|sorted| - 1], sorted[|sorted| - 1];
      assert sorted == shorter + [last];
      if Precedes(last.name, m.name) {
        forall i | 0 <= i < |sorted|
          ensures Precedes(sorted[i].name, m.name)
        {
          if i < |sorted| - 1 {
            PrecedesThrough(sorted[i].name, last.name, m.name);
          }
        }
      } else {
        PrecedesEither(last.name, m.name);
        InsertKeeps(shorter, m);
        var inserted := Insert(shorter, m);
        forall i | 0 <= i < |inserted|
          ensures Precedes(inserted[i].name, last.name)
        {
          assert inserted[i] in multiset(inserted);
        }
      }
    }
  }

  /** The members in the order of their Server names, each exactly as often as it was selected. */
  lemma {:induction false} SortedByName(members: seq<Member>)
    ensures multiset(SortByName(members)) == multiset(members) && InOrder(SortByName(members))
  {
    if members != [] {
      var shorter, last := members[..|members| - 1], members[|members| - 1];
      SortedByName(shorter);
      assert members == shorter + [last];
      InsertKeeps(SortByName(shorter), last);
    }
  }

  lemma SameMembers(a: seq<Member>, b: seq<Member>)
    requires multiset(a) == multiset(b)
    ensures |a| == |b| && forall m :: m in a <==> m in b
  {
    assert |multiset(a)| == |multiset(b)|;
    forall m: Member
      ensures m in a <==> m in b
    {
      assert m in a <==> m in multiset(a);
      assert m in b <==> m in multiset(b);
    }
  }

  lemma NamesOfElements(members: seq<Member>)
    ensures Elements(NodeNames(members)) == set m | m in members :: m.nodeName
  {
    var names := NodeNames(members);
    forall n | n in set m | m in members :: m.nodeName
      ensures n in names
    {
      var i :| 0 <= i < |members| && members[i].nodeName == n;
      assert names[i] == n;
    }
  }

  /** Reordering keeps node names distinct and the role unique. */
  lemma SortKeepsSelection(members: seq<Member>)
    requires Distinct(NodeNames(members)) && OccursOnce(Roles(members), CONTROL_PLANE)
    ensures var sorted := SortByName(members);
            && |sorted| == |members| && (forall m :: m in sorted <==> m in members)
            && Distinct(NodeNames(sorted)) && OccursOnce(Roles(sorted), CONTROL_PLANE)
  {
    var sorted := SortByName(members);
    SortedByName(members);
    SameMembers(sorted, members);
    NamesOfElements(members);
    NamesOfElements(sorted);
    DistinctByCount(NodeNames(members));
    DistinctByCount(NodeNames(sorted));
    assert Elements(NodeNames(sorted)) == Elements(NodeNames(members));
    RoleStaysUnique(members, sorted);
  }

  lemma RoleStaysUnique(members: seq<Member>, sorted: seq<Member>)
    requires OccursOnce(Roles(members), CONTROL_PLANE) && Distinct(NodeNames(sorted))
    requires forall m :: m in sorted <==> m in members
    ensures OccursOnce(Roles(sorted), CONTROL_PLANE)
  {
    var first := FirstControlPlane(members);
    var k :| 0 <= k < |sorted| && sorted[k] == first;
    assert Roles(sorted)[k] == CONTROL_PLANE;
    forall i, j | 0 <= i < j < |Roles(sorted)|
      ensures !(Roles(sorted)[i] == CONTROL_PLANE && Roles(sorted)[j] == CONTROL_PLANE)
    {
      assert NodeNames(sorted)[i] != NodeNames(sorted)[j];
      if sorted[i].role == CONTROL_PLANE && sorted[j].role == CONTROL_PLANE {
        OnlyControlPlane(members, sorted[i]);
        OnlyControlPlane(members, sorted[j]);
      }
    }
  }

  /** Every selected Server is valid, and no node name is taken twice. */
  ghost predicate Nameable(candidates: seq<Captured>, uid: string) {
    AllValid(candidates, uid) && Distinct(NodeNames(MembersOf(candidates, uid)))
  }

  lemma {:induction false} ShorterFirst(nodes: seq<Captured>, cluster: string, k: nat)
    requires k <= |nodes|
    ensures Candidates(nodes[..k], cluster) <= Candidates(nodes, cluster)
    decreases |nodes|
  {
    if k == |nodes| {
      assert nodes[..k] == nodes;
    } else {
      var shorter := nodes[..|nodes| - 1];
      assert shorter[..k] == nodes[..k];
      ShorterFirst(shorter, cluster, k);
    }
  }

  lemma NameableShorter(short: seq<Captured>, candidates: seq<Captured>, uid: string)
    requires short <= candidates && Nameable(candidates, uid)
    ensures Nameable(short, uid)
  {
    assert forall i :: 0 <= i < |short| ==> short[i] == candidates[i];
    var names := NodeNames(MembersOf(candidates, uid));
    assert forall i :: 0 <= i < |short| ==> NodeNames(MembersOf(short, uid))[i] == names[i];
  }

  lemma NameableNext(candidates: seq<Captured>, next: Captured, uid: string)
    requires Nameable(candidates, uid)
    ensures Nameable(candidates + [next], uid)
            <==> MemberOf(next, uid).Some? && MemberOf(next, uid).value.nodeName !in NodeNames(MembersOf(candidates, uid))
    ensures MemberOf(next, uid).Some? ==>
              && AllValid(candidates + [next], uid)
              && MembersOf(candidates + [next], uid) == MembersOf(candidates, uid) + [MemberOf(next, uid).value]
  {
    var longer := candidates + [next];
    assert longer[|longer| - 1] == next && forall i :: 0 <= i < |candidates| ==> longer[i] == candidates[i];
    if MemberOf(next, uid).Some? {
      var names, all := NodeNames(MembersOf(candidates, uid)), NodeNames(MembersOf(longer, uid));
      assert all == names + [MemberOf(next, uid).value.nodeName];
      if MemberOf(next, uid).value.nodeName in names {
        var i :| 0 <= i < |names| && names[i] == MemberOf(next, uid).value.nodeName;
        assert all[i] == all[|all| - 1];
      }
    }
  }

  /** Select the labelled Servers: all of them valid, node names unique, exactly one control plane. */
  method SelectMembers(nodes: seq<Captured>, cluster: string, uid: string) returns (result: Option<seq<Member>>)
    ensures result.Some? <==>
              && Nameable(Candidates(nodes, cluster), uid)
              && OccursOnce(Roles(MembersOf(Candidates(nodes, cluster), uid)), CONTROL_PLANE)
    ensures result.Some? ==> result.value == SortByName(MembersOf(Candidates(nodes, cluster), uid))
  {
    hide MemberOf, Distinct, OccursOnce, Count;
    var members: seq<Member> := [];
    var names: set<string> := {};
    NameableNothing(uid);
    for k := 0 to |nodes|
      invariant Nameable(Candidates(nodes[..k], cluster), uid) && members == MembersOf(Candidates(nodes[..k], cluster), uid)
      invariant forall n :: n in names <==> n in NodeNames(members)
    {
      assert nodes[..k + 1][..k] == nodes[..k];
      var node := nodes[k];
      ghost var before, after := Candidates(nodes[..k], cluster), Candidates(nodes[..k + 1], cluster);
      assert after == if Chosen(node, cluster) then before + [node] else before;
      if Chosen(node, cluster) {
        var member := MemberOf(node, uid);
        NameableNext(before, node, uid);
        if member.None? || member.value.nodeName in names {
          ShorterFirst(nodes, cluster, k + 1);
          if Nameable(Candidates(nodes, cluster), uid) {
            NameableShorter(after, Candidates(nodes, cluster), uid);
            assert false;
          }
          return None;
        }
        names := names + {member.value.nodeName};
        assert NodeNames(members + [member.value]) == NodeNames(members) + [member.value.nodeName];
        members := members + [member.value];
      }
    }
    assert nodes[..|nodes|] == nodes;
    CountMeans(Roles(members), CONTROL_PLANE);
    return if Count(Roles(members), CONTROL_PLANE) != 1 then None else Some(SortByName(members));
  }

  lemma NameableNothing(uid: string)
    ensures Nameable([], uid)
  {
  }

  // ---- Settings and the plan ----

  /** Cluster settings; an absent text is the empty one. */
  datatype Spec = Spec(
    kubernetesVersion: string, containerdVersion: string, runcVersion: Option<string>, cniPluginsVersion: Option<string>,
    provider: string, flannelVersion: string, endpoint: string, podCidr: Text, serviceCidr: Text)

  datatype Plan = Plan(
    name: string, uid: string, kubernetesVersion: string, containerdVersion: string, runcVersion: string,
    cniPluginsVersion: string, pod: Network, service: Network, members: seq<Member>, controlPlane: Member,
    apiEndpoint: string)

  predicate Digits(value: string) {
    |value| > 0 && forall i :: 0 <= i < |value| ==> '0' <= value[i] <= '9'
  }

  function Number(value: string): nat
    requires forall i :: 0 <= i < |value| ==> '0' <= value[i] <= '9'
  {
    if value == "" then 0
    else 10 * Number(value[..|value| - 1]) + (value[|value| - 1] - '0') as nat
  }

  predicate ExactRelease(value: string) {
    var parts := SplitAt(value, '.');
    |parts| == 3 && Digits(parts[0]) && Digits(parts[1]) && Digits(parts[2])
  }

  /** Kubernetes 1.31 and later releases of the first major version. */
  predicate SupportedKubernetes(value: string) {
    ExactRelease(value) && SplitAt(value, '.')[0] == "1" && Number(SplitAt(value, '.')[1]) >= 31
  }

  /** A host and an explicit port; a host name holds no colon, so the last colon is the only one. */
  predicate EndpointAddress(value: string) {
    var parts := SplitAt(value, ':');
    |parts| == 2 && DnsName(parts[0]) && Digits(parts[1]) && 1 <= Number(parts[1]) <= 65535
  }

  function OrDefault(value: Option<string>, default: string): string {
    if value.Some? then value.value else default
  }

  const DEFAULT_RUNC := "1.5.2"
  const DEFAULT_CNI := "1.9.1"

  predicate ReleasesOk(spec: Spec) {
    && SupportedKubernetes(spec.kubernetesVersion) && ExactRelease(spec.containerdVersion)
    && spec.provider == "flannel" && ExactRelease(spec.flannelVersion)
    && ExactRelease(OrDefault(spec.runcVersion, DEFAULT_RUNC)) && ExactRelease(OrDefault(spec.cniPluginsVersion, DEFAULT_CNI))
  }

  predicate SettingsOk(spec: Spec) {
    && ReleasesOk(spec) && EndpointAddress(spec.endpoint)
    && Parse(spec.podCidr).Some? && Parse(spec.serviceCidr).Some?
    && var pod, service := Parse(spec.podCidr).value, Parse(spec.serviceCidr).value;
       ParsedIsValid(spec.podCidr); ParsedIsValid(spec.serviceCidr);
       !Overlaps(pod, service)
  }

  /** The accepted members, in order: distinct names, valid roles, and one control plane. */
  ghost predicate MembersOk(members: seq<Member>, controlPlane: Member) {
    && Distinct(NodeNames(members)) && |members| > 0 && controlPlane in members
    && (forall m :: m in members ==>
          m.role in {CONTROL_PLANE, WORKER} && DnsName(m.nodeName) && (m.role == CONTROL_PLANE <==> m == controlPlane))
  }

  function Digit(n: nat): char
    requires n < 10
  {
    '0' + n as char
  }

  /** The decimal notation of a number. */
  function Decimal(n: nat): string {
    if n < 10 then [Digit(n)] else Decimal(n / 10) + [Digit(n % 10)]
  }

  lemma {:induction false} DecimalRoundTrip(n: nat)
    ensures Digits(Decimal(n)) && Number(Decimal(n)) == n
  {
    if n < 10 {
      assert [Digit(n)][..0] == "";
    } else {
      DecimalRoundTrip(n / 10);
      var d := Decimal(n);
      assert d[..|d| - 1] == Decimal(n / 10) && d[|d| - 1] == Digit(n % 10);
    }
  }

  lemma {:induction false} SplitFirst(part: string, rest: string, separator: char)
    requires separator !in part
    ensures SplitAt(part + [separator] + rest, separator) == [part] + SplitAt(rest, separator)
  {
    var whole := part + [separator] + rest;
    if part == "" {
      assert whole[1..] == rest;
    } else {
      assert part == [part[0]] + part[1..] && part[0] in part;
      SplitFirst(part[1..], rest, separator);
      assert whole[1..] == part[1..] + [separator] + rest;
    }
  }

  lemma {:induction false} SplitNone(part: string, separator: char)
    requires separator !in part
    ensures SplitAt(part, separator) == [part]
  {
    if part != "" {
      assert part == [part[0]] + part[1..] && part[0] in part;
      SplitNone(part[1..], separator);
    }
  }

  lemma DigitsHoldNoSeparator(value: string)
    requires Digits(value)
    ensures '.' !in value && ':' !in value
  {
  }

  lemma ThreeParts(x: string, y: string, z: string)
    requires Digits(x) && Digits(y) && Digits(z)
    ensures SplitAt(x + "." + y + "." + z, '.') == [x, y, z]
  {
    DigitsHoldNoSeparator(x);
    DigitsHoldNoSeparator(y);
    DigitsHoldNoSeparator(z);
    hide Digits, SplitAt;
    var tail := y + ['.'] + z;
    SplitNone(z, '.');
    SplitFirst(y, z, '.');
    SplitFirst(x, tail, '.');
    assert x + "." + y + "." + z == x + ['.'] + tail;
    assert [x] + ([y] + [z]) == [x, y, z];
  }

  /** A release of the first major version is supported exactly from minor version 31 on. */
  lemma SupportedFrom31(minor: nat, patch: nat)
    ensures SupportedKubernetes("1" + "." + Decimal(minor) + "." + Decimal(patch)) <==> minor >= 31
  {
    DecimalRoundTrip(minor);
    DecimalRoundTrip(patch);
    ThreeParts("1", Decimal(minor), Decimal(patch));
    hide SplitAt, Decimal, Number;
  }

  /** A host with an explicit port is an endpoint exactly when the port is one. */
  lemma EndpointPorts(host: string, port: nat)
    requires DnsName(host) && ':' !in host
    ensures EndpointAddress(host + ":" + Decimal(port)) <==> 1 <= port <= 65535
  {
    DecimalRoundTrip(port);
    DigitsHoldNoSeparator(Decimal(port));
    SplitNone(Decimal(port), ':');
    SplitFirst(host, Decimal(port), ':');
    assert host + ":" + Decimal(port) == host + [':'] + Decimal(port);
  }

  /** A name without dots is accepted up to 63 characters. */
  lemma OneLabelNames(n: nat)
    ensures DnsName(seq(n, _ => 'a')) <==> 1 <= n <= 63
  {
    var name := seq(n, _ => 'a');
    SplitNone(name, '.');
    assert name in SplitAt(name, '.');
  }

  lemma DefaultReleases()
    ensures ExactRelease(DEFAULT_RUNC) && ExactRelease(DEFAULT_CNI)
  {
    ThreeParts("1", "5", "2");
    ThreeParts("1", "9", "1");
    hide SplitAt;
    assert "1" + "." + "5" + "." + "2" == DEFAULT_RUNC;
    assert "1" + "." + "9" + "." + "1" == DEFAULT_CNI;
  }

  /** When settings are accepted: exact releases, a supported Kubernetes, Flannel, an endpoint, and canonical pod and
      Service networks that share no address. */
  lemma SettingsExactly(spec: Spec)
    ensures SettingsOk(spec)
            <==> && SupportedKubernetes(spec.kubernetesVersion) && ExactRelease(spec.containerdVersion)
                 && spec.provider == "flannel" && ExactRelease(spec.flannelVersion) && EndpointAddress(spec.endpoint)
                 && (spec.runcVersion.Some? ==> ExactRelease(spec.runcVersion.value))
                 && (spec.cniPluginsVersion.Some? ==> ExactRelease(spec.cniPluginsVersion.value))
                 && Parse(spec.podCidr).Some? && Parse(spec.serviceCidr).Some?
                 && var pod, service := Parse(spec.podCidr).value, Parse(spec.serviceCidr).value;
                    && pod.prefix <= 32 && service.prefix <= 32
                    && forall address :: Contains(pod, address) ==> !Contains(service, address)
  {
    DefaultReleases();
    hide ExactRelease, SupportedKubernetes, EndpointAddress;
    if Parse(spec.podCidr).Some? && Parse(spec.serviceCidr).Some? {
      OverlapsMeans(Parse(spec.podCidr).value, Parse(spec.serviceCidr).value);
    }
  }

  /** What an accepted plan guarantees to the playbook. */
  ghost predicate PlanOk(plan: Plan) {
    && Valid(plan.pod) && Valid(plan.service)
    && (forall address :: Contains(plan.pod, address) ==> !Contains(plan.service, address))
    && MembersOk(plan.members, plan.controlPlane)
    && Fits(plan.pod, |plan.members|)
  }

  predicate EndpointOk(apiEndpoint: string) {
    apiEndpoint in {"direct", "service"}
  }

  lemma RoleOfMembers(candidates: seq<Captured>, uid: string)
    requires AllValid(candidates, uid)
    ensures forall m :: m in MembersOf(candidates, uid) ==> m.role in {CONTROL_PLANE, WORKER} && DnsName(m.nodeName)
  {
  }

  function FirstControlPlane(members: seq<Member>): (m: Member)
    requires CONTROL_PLANE in Roles(members)
    ensures m in members && m.role == CONTROL_PLANE
  {
    if members[0].role == CONTROL_PLANE then members[0]
    else
      assert Roles(members) == [members[0].role] + Roles(members[1..]);
      FirstControlPlane(members[1..])
  }

  lemma OnlyControlPlane(members: seq<Member>, m: Member)
    requires OccursOnce(Roles(members), CONTROL_PLANE) && m in members && m.role == CONTROL_PLANE
    ensures m == FirstControlPlane(members)
  {
    var first := FirstControlPlane(members);
    var i :| 0 <= i < |members| && members[i] == m;
    var j :| 0 <= j < |members| && members[j] == first;
    assert Roles(members)[i] == CONTROL_PLANE && Roles(members)[j] == CONTROL_PLANE;
  }

  lemma SelectedAreOk(candidates: seq<Captured>, uid: string)
    requires Nameable(candidates, uid) && OccursOnce(Roles(MembersOf(candidates, uid)), CONTROL_PLANE)
    ensures var sorted := SortByName(MembersOf(candidates, uid));
            |sorted| == |candidates| && CONTROL_PLANE in Roles(sorted) && MembersOk(sorted, FirstControlPlane(sorted))
  {
    var members := MembersOf(candidates, uid);
    var sorted := SortByName(members);
    SortKeepsSelection(members);
    OnceIsPresent(sorted);
    RoleOfMembers(candidates, uid);
    hide Nameable, MembersOf, SortByName, FirstControlPlane, Distinct, DnsName, OccursOnce;
    forall m | m in sorted && m.role == CONTROL_PLANE
      ensures m == FirstControlPlane(sorted)
    {
      OnlyControlPlane(sorted, m);
    }
  }

  lemma AcceptedIsOk(plan: Plan)
    requires Valid(plan.pod) && Valid(plan.service) && !Overlaps(plan.pod, plan.service)
    requires MembersOk(plan.members, plan.controlPlane) && HasCapacity(plan.pod, |plan.members|)
    ensures PlanOk(plan)
  {
    hide MembersOk, Overlaps, HasCapacity, Valid, Fits;
    MembersPresent(plan.members, plan.controlPlane);
    ValidPrefix(plan.pod);
    ValidPrefix(plan.service);
    OverlapsMeans(plan.pod, plan.service);
    CapacityExact(plan.pod, |plan.members|);
  }

  lemma MembersPresent(members: seq<Member>, controlPlane: Member)
    requires MembersOk(members, controlPlane)
    ensures |members| > 0
  {
  }

  lemma NameableIsValid(candidates: seq<Captured>, uid: string)
    requires Nameable(candidates, uid)
    ensures AllValid(candidates, uid) && Distinct(NodeNames(MembersOf(candidates, uid)))
  {
  }

  /** Accepted exactly when the settings are, the selection is, and one disjoint /24 per member fits. */
  method ClusterPlan(
      name: string, uid: string, spec: Spec, apiEndpoint: Option<string>, nodes: seq<Captured>) returns (plan: Option<Plan>)
    ensures var selected := Candidates(nodes, name);
            plan.Some? <==>
              && name != "" && uid != "" && SettingsOk(spec) && Nameable(selected, uid)
              && OccursOnce(Roles(MembersOf(selected, uid)), CONTROL_PLANE)
              && Parse(spec.podCidr).value.prefix <= 32 && Fits(Parse(spec.podCidr).value, |selected|)
              && apiEndpoint in {None, Some("direct"), Some("service")}
    ensures plan.Some? ==>
              && PlanOk(plan.value) && plan.value.name == name && plan.value.uid == uid
              && plan.value.members == SortByName(MembersOf(Candidates(nodes, name), uid))
              && Some(plan.value.pod) == Parse(spec.podCidr) && Some(plan.value.service) == Parse(spec.serviceCidr)
              && plan.value.kubernetesVersion == spec.kubernetesVersion
              && plan.value.containerdVersion == spec.containerdVersion
              && plan.value.runcVersion == OrDefault(spec.runcVersion, "1.5.2")
              && plan.value.cniPluginsVersion == OrDefault(spec.cniPluginsVersion, "1.9.1")
              && plan.value.apiEndpoint == if apiEndpoint.Some? then apiEndpoint.value else "direct"
  {
    hide Nameable, MembersOf, SortByName, Candidates, OccursOnce, Overlaps, Valid, Parse, PlanOk, Fits;
    hide ReleasesOk, EndpointAddress, MembersOk, FirstControlPlane;
    if name == "" || uid == "" || !SettingsOk(spec) {
      return None;
    }
    var members := SelectMembers(nodes, name, uid);
    if members.None? {
      return None;
    }
    ParsedIsValid(spec.podCidr);
    ParsedIsValid(spec.serviceCidr);
    ghost var selected := Candidates(nodes, name);
    NameableIsValid(selected, uid);
    SelectedAreOk(selected, uid);
    MembersPresent(members.value, FirstControlPlane(members.value));
    var pod, service := Parse(spec.podCidr).value, Parse(spec.serviceCidr).value;
    ValidPrefix(pod);
    CapacityExact(pod, |members.value|);
    if !HasCapacity(pod, |members.value|) {
      return None;
    }
    var endpoint := if apiEndpoint.Some? then apiEndpoint.value else "direct";
    if !EndpointOk(endpoint) {
      return None;
    }
    var accepted := Plan(
      name, uid, spec.kubernetesVersion, spec.containerdVersion, OrDefault(spec.runcVersion, DEFAULT_RUNC),
      OrDefault(spec.cniPluginsVersion, DEFAULT_CNI), pod, service, members.value, FirstControlPlane(members.value), endpoint);
    AcceptedIsOk(accepted);
    return Some(accepted);
  }

  lemma ValidPrefix(n: Network)
    requires Valid(n)
    ensures n.prefix <= 32
  {
  }

  lemma OnceIsPresent(members: seq<Member>)
    requires OccursOnce(Roles(members), CONTROL_PLANE)
    ensures CONTROL_PLANE in Roles(members) && |members| > 0
  {
    assert |Roles(members)| == |members|;
  }

  // ---- The hosts' own networks ----

  datatype Interface = Interface(name: string, addresses: seq<Text>)

  predicate ManagedCni(plan: Plan, allowed: bool, name: string, connected: Network)
    requires connected.prefix <= 32 && plan.pod.prefix <= 32
  {
    allowed && name in {"cni0", "flannel.1"} && SubnetOf(connected, plan.pod)
  }

  predicate AddressOk(plan: Plan, allowed: bool, name: string, address: Text)
    requires plan.pod.prefix <= 32 && plan.service.prefix <= 32
  {
    && Connected(address).Some?
    && var connected := Connected(address).value;
       ManagedCni(plan, allowed, name, connected) || (!Overlaps(connected, plan.pod) && !Overlaps(connected, plan.service))
  }

  ghost predicate InterfaceOk(plan: Plan, allowed: bool, interface: Interface)
    requires plan.pod.prefix <= 32 && plan.service.prefix <= 32
  {
    forall i :: 0 <= i < |interface.addresses| ==> AddressOk(plan, allowed, interface.name, interface.addresses[i])
  }

  method ValidateHostNetwork(plan: Plan, allowed: bool, interfaces: seq<Interface>) returns (ok: bool)
    requires plan.pod.prefix <= 32 && plan.service.prefix <= 32
    ensures ok <==> |interfaces| > 0 && forall i :: 0 <= i < |interfaces| ==> InterfaceOk(plan, allowed, interfaces[i])
  {
    if |interfaces| == 0 {
      return false;
    }
    for i := 0 to |interfaces|
      invariant forall k :: 0 <= k < i ==> InterfaceOk(plan, allowed, interfaces[k])
    {
      var interface := interfaces[i];
      for j := 0 to |interface.addresses|
        invariant forall k :: 0 <= k < j ==> AddressOk(plan, allowed, interface.name, interface.addresses[k])
      {
        if !AddressOk(plan, allowed, interface.name, interface.addresses[j]) {
          assert !InterfaceOk(plan, allowed, interfaces[i]);
          return false;
        }
      }
    }
    return true;
  }

  /** A reported address is acceptable exactly when it has a network that holds no pod and no Service address, or
      that the managed bridge or overlay carries within the pod network. */
  lemma AddressOkExactly(plan: Plan, allowed: bool, name: string, address: Text)
    requires plan.pod.prefix <= 32 && plan.service.prefix <= 32
    ensures AddressOk(plan, allowed, name, address)
            <==> && Connected(address).Some?
                 && var n := Connected(address).value;
                    && n.prefix <= 32
                    && (|| (allowed && (name == "cni0" || name == "flannel.1")
                            && forall a :: Contains(n, a) ==> Contains(plan.pod, a))
                        || (forall a :: Contains(n, a) ==> !Contains(plan.pod, a) && !Contains(plan.service, a)))
  {
    if Connected(address).Some? {
      var n := Connected(address).value;
      OverlapsMeans(n, plan.pod);
      OverlapsMeans(n, plan.service);
      SubnetOfMeans(n, plan.pod);
    }
  }

  /** On an accepted host no address on a connected network can be a pod or Service address, except those the
      managed bridge and overlay carry, and these are never Service addresses. */
  lemma HostAddressesStayOutside(plan: Plan, allowed: bool, interfaces: seq<Interface>, i: nat, j: nat, address: int)
    requires PlanOk(plan) && i < |interfaces| && j < |interfaces[i].addresses|
    requires forall k :: 0 <= k < |interfaces| ==> InterfaceOk(plan, allowed, interfaces[k])
    ensures Connected(interfaces[i].addresses[j]).Some? && Connected(interfaces[i].addresses[j]).value.prefix <= 32
    ensures Contains(Connected(interfaces[i].addresses[j]).value, address) ==>
              && !Contains(plan.service, address)
              && (!(allowed && interfaces[i].name in {"cni0", "flannel.1"}) ==> !Contains(plan.pod, address))
  {
    assert InterfaceOk(plan, allowed, interfaces[i]);
    assert AddressOk(plan, allowed, interfaces[i].name, interfaces[i].addresses[j]);
    var connected := Connected(interfaces[i].addresses[j]).value;
    OverlapsMeans(connected, plan.pod);
    OverlapsMeans(connected, plan.service);
  }
}
