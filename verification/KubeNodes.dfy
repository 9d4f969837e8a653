/** Verifying and observing the actual Nodes of a planned cluster. */
module KubeNodes {
  import opened Cidr
  import opened KubePlan
  import opened Pigeonhole
  import opened Wrappers

  const SERVER_UID_LABEL := "homelab.io/server-uid"
  const CLUSTER_UID_LABEL := "homelab.io/kube-cluster-uid"
  const ROLE_PREFIX := "node-role.kubernetes.io/"

  datatype Condition = Condition(kind: string, status: string)

  datatype Address = Address(kind: string, address: string)

  datatype Node = Node(
    name: string, uid: string, labels: map<string, string>, conditions: seq<Condition>, kubelet: string,
    runtime: string, osImage: string, kernelVersion: string, podCidr: Text, addresses: seq<Address>)

  /** Owned labels in the order they are written. */
  function DesiredLabels(plan: Plan, member: Member): seq<(string, string)> {
    [(SERVER_UID_LABEL, member.uid), (CLUSTER_UID_LABEL, plan.uid), (ROLE_PREFIX + member.role, "")]
  }

  predicate CarriesLabels(labels: map<string, string>, desired: seq<(string, string)>) {
    forall i :: 0 <= i < |desired| ==> Lookup(labels, desired[i].0) == Some(desired[i].1)
  }

  predicate IsReady(node: Node) {
    Condition("Ready", "True") in node.conditions
  }

  predicate ValidNode(plan: Plan, member: Member, node: Node) {
    && Lookup(node.labels, SERVER_UID_LABEL) == Some(member.uid)
    && Lookup(node.labels, CLUSTER_UID_LABEL) == Some(plan.uid)
    && (member.role == CONTROL_PLANE <==> ROLE_PREFIX + CONTROL_PLANE in node.labels)
    && node.kubelet == "v" + plan.kubernetesVersion
    && node.runtime == "containerd://" + plan.containerdVersion
    && IsReady(node)
  }

  // ---- Indexes ----

  function MembersByName(members: seq<Member>): map<string, Member> {
    if members == [] then map[]
    else MembersByName(members[..|members| - 1])[members[|members| - 1].nodeName := members[|members| - 1]]
  }

  lemma {:induction false} MembersIndexed(members: seq<Member>)
    ensures MembersByName(members).Keys == Elements(NodeNames(members))
    ensures |MembersByName(members)| == |Elements(NodeNames(members))|
  {
    if members != [] {
      MembersIndexed(members[..|members| - 1]);
      assert NodeNames(members) == NodeNames(members[..|members| - 1]) + [members[|members| - 1].nodeName];
    }
    assert |MembersByName(members)| == |MembersByName(members).Keys|;
  }

  lemma {:induction false} IndexedMember(members: seq<Member>, i: nat)
    requires Distinct(NodeNames(members)) && i < |members|
    ensures members[i].nodeName in MembersByName(members) && MembersByName(members)[members[i].nodeName] == members[i]
    decreases |members|
  {
    var last := |members| - 1;
    if i < last {
      assert NodeNames(members)[i] != NodeNames(members)[last];
      assert NodeNames(members[..last]) == NodeNames(members)[..last];
      IndexedMember(members[..last], i);
    }
  }

  lemma {:induction false} MemberOfName(members: seq<Member>, name: string)
    requires name in MembersByName(members)
    ensures MembersByName(members)[name] in members && MembersByName(members)[name].nodeName == name
  {
    if name != members[|members| - 1].nodeName {
      MemberOfName(members[..|members| - 1], name);
    }
  }

  function Names(nodes: seq<Node>): seq<string> {
    seq(|nodes|, i requires 0 <= i < |nodes| => nodes[i].name)
  }

  function NodesByName(nodes: seq<Node>): map<string, Node> {
    if nodes == [] then map[]
    else NodesByName(nodes[..|nodes| - 1])[nodes[|nodes| - 1].name := nodes[|nodes| - 1]]
  }

  lemma {:induction false} NodesIndexed(nodes: seq<Node>)
    ensures NodesByName(nodes).Keys == Elements(Names(nodes))
  {
    if nodes != [] {
      NodesIndexed(nodes[..|nodes| - 1]);
      assert Names(nodes) == Names(nodes[..|nodes| - 1]) + [nodes[|nodes| - 1].name];
    }
  }

  lemma {:induction false} IndexedNode(nodes: seq<Node>, i: nat)
    requires Distinct(Names(nodes)) && i < |nodes|
    ensures nodes[i].name in NodesByName(nodes) && NodesByName(nodes)[nodes[i].name] == nodes[i]
    decreases |nodes|
  {
    var last := |nodes| - 1;
    if i < last {
      assert Names(nodes)[i] != Names(nodes)[last];
      assert Names(nodes[..last]) == Names(nodes)[..last];
      IndexedNode(nodes[..last], i);
    }
  }

  lemma {:induction false} NodeOfName(nodes: seq<Node>, name: string) returns (i: int)
    requires name in NodesByName(nodes)
    ensures 0 <= i < |nodes| && NodesByName(nodes)[name] == nodes[i] && nodes[i].name == name
  {
    i := |nodes| - 1;
    if name != nodes[i].name {
      i := NodeOfName(nodes[..i], name);
    }
  }

  // ---- Verification ----

  /** One Node in itself: a planned identity, and a canonical subnet of the pod network. */
  predicate Belongs(plan: Plan, node: Node)
    requires plan.pod.prefix <= 32
  {
    && node.name in MembersByName(plan.members) && ValidNode(plan, MembersByName(plan.members)[node.name], node)
    && Parse(node.podCidr).Some? && SubnetOf(Parse(node.podCidr).value, plan.pod)
  }

  predicate Apart(a: Node, b: Node) {
    && Parse(a.podCidr).Some? && Parse(b.podCidr).Some?
    && !Overlaps(Parse(a.podCidr).value, Parse(b.podCidr).value)
  }

  ghost predicate NodesVerified(plan: Plan, nodes: seq<Node>)
    requires plan.pod.prefix <= 32
  {
    && |nodes| == |MembersByName(plan.members)| && Distinct(Names(nodes))
    && (forall i :: 0 <= i < |nodes| ==> Belongs(plan, nodes[i]))
    && (forall i, j :: 0 <= i < j < |nodes| ==> Apart(nodes[i], nodes[j]))
  }

  lemma NamesNext(nodes: seq<Node>, i: nat)
    requires i < |nodes|
    ensures Elements(Names(nodes[..i + 1])) == Elements(Names(nodes[..i])) + {nodes[i].name}
    ensures Distinct(Names(nodes[..i])) && nodes[i].name !in Elements(Names(nodes[..i])) ==> Distinct(Names(nodes[..i + 1]))
    ensures nodes[i].name in Elements(Names(nodes[..i])) ==> !Distinct(Names(nodes))
  {
    assert Names(nodes[..i + 1]) == Names(nodes[..i]) + [nodes[i].name];
    if nodes[i].name in Names(nodes[..i]) {
      var j :| 0 <= j < i && nodes[j].name == nodes[i].name;
      assert Names(nodes)[j] == Names(nodes)[i];
    }
  }

  lemma NoNames(nodes: seq<Node>)
    ensures Elements(Names(nodes[..0])) == {} && Distinct(Names(nodes[..0]))
  {
  }

  method VerifyNodes(plan: Plan, nodes: seq<Node>) returns (ok: bool)
    requires plan.pod.prefix <= 32
    ensures ok <==> NodesVerified(plan, nodes)
  {
    hide Belongs, Apart, Overlaps, Distinct, Elements, Names, Parse;
    NoNames(nodes);
    if |nodes| != |MembersByName(plan.members)| {
      return false;
    }
    var subnets: seq<Network> := [];
    var seen: set<string> := {};
    for i := 0 to |nodes|
      invariant |subnets| == i && seen == Elements(Names(nodes[..i])) && Distinct(Names(nodes[..i]))
      invariant forall k :: 0 <= k < i ==>
                  Belongs(plan, nodes[k]) && Parse(nodes[k].podCidr) == Some(subnets[k]) && subnets[k].prefix <= 32
      invariant forall j, k :: 0 <= j < k < i ==> Apart(nodes[j], nodes[k])
    {
      var node := nodes[i];
      NamesNext(nodes, i);
      if node.name in seen || !Belongs(plan, node) {
        return false;
      }
      SubnetOfNode(plan, node);
      var subnet := Parse(node.podCidr).value;
      for j := 0 to i
        invariant forall k :: 0 <= k < j ==> Apart(nodes[k], node)
      {
        ApartMeans(nodes[j], node, subnets[j], subnet);
        if Overlaps(subnet, subnets[j]) {
          assert !Apart(nodes[j], nodes[i]);
          return false;
        }
      }
      seen := seen + {node.name};
      subnets := subnets + [subnet];
    }
    assert nodes[..|nodes|] == nodes;
    return true;
  }

  lemma SubnetOfNode(plan: Plan, node: Node)
    requires plan.pod.prefix <= 32 && Belongs(plan, node)
    ensures Parse(node.podCidr).Some? && Parse(node.podCidr).value.prefix <= 32
  {
  }

  lemma ApartMeans(a: Node, b: Node, x: Network, y: Network)
    requires Parse(a.podCidr) == Some(x) && Parse(b.podCidr) == Some(y)
    ensures x.prefix <= 32 && y.prefix <= 32 && (Apart(a, b) <==> !Overlaps(y, x))
  {
  }

  /** Every Node is a member, and there are as many: the names are the same. */
  lemma SameNames(plan: Plan, nodes: seq<Node>)
    requires plan.pod.prefix <= 32 && NodesVerified(plan, nodes)
    ensures NodesByName(nodes).Keys == MembersByName(plan.members).Keys == Elements(NodeNames(plan.members))
    ensures Elements(Names(nodes)) == Elements(NodeNames(plan.members))
  {
    MembersIndexed(plan.members);
    NodesIndexed(nodes);
    DistinctByCount(Names(nodes));
    forall n | n in Names(nodes)
      ensures n in MembersByName(plan.members)
    {
      var i :| 0 <= i < |nodes| && nodes[i].name == n;
      assert Belongs(plan, nodes[i]);
    }
    SameSizeSubset(Elements(Names(nodes)), MembersByName(plan.members).Keys);
  }

  /** The one Node of that name is valid for the member. */
  predicate HasNode(plan: Plan, nodes: seq<Node>, member: Member) {
    member.nodeName in NodesByName(nodes) && ValidNode(plan, member, NodesByName(nodes)[member.nodeName])
  }

  lemma NodeOfMember(plan: Plan, nodes: seq<Node>, i: nat)
    requires plan.pod.prefix <= 32 && NodesVerified(plan, nodes) && i < |plan.members| && Distinct(NodeNames(plan.members))
    ensures HasNode(plan, nodes, plan.members[i])
  {
    SameNames(plan, nodes);
    assert NodeNames(plan.members)[i] == plan.members[i].nodeName;
    IndexedMember(plan.members, i);
    var j := NodeOfName(nodes, plan.members[i].nodeName);
    assert Belongs(plan, nodes[j]);
  }

  lemma PlanNamesDistinct(plan: Plan)
    requires PlanOk(plan)
    ensures Distinct(NodeNames(plan.members)) && |MembersByName(plan.members)| == |plan.members|
  {
    MembersIndexed(plan.members);
    DistinctByCount(NodeNames(plan.members));
  }

  /** Verified Nodes are the members of an accepted plan, one to one. */
  lemma NodesMatchMembers(plan: Plan, nodes: seq<Node>)
    requires PlanOk(plan) && plan.pod.prefix <= 32 && NodesVerified(plan, nodes)
    ensures |nodes| == |plan.members| && Distinct(Names(nodes))
    ensures Elements(Names(nodes)) == Elements(NodeNames(plan.members))
    ensures forall i :: 0 <= i < |plan.members| ==> HasNode(plan, nodes, plan.members[i])
  {
    SameNames(plan, nodes);
    PlanNamesDistinct(plan);
    hide PlanOk, HasNode;
    forall i | 0 <= i < |plan.members|
      ensures HasNode(plan, nodes, plan.members[i])
    {
      NodeOfMember(plan, nodes, i);
    }
  }

  /** What verification establishes of the Node of one member, property by property. */
  lemma VerifiedNode(plan: Plan, nodes: seq<Node>, i: nat)
    requires PlanOk(plan) && plan.pod.prefix <= 32 && NodesVerified(plan, nodes) && i < |plan.members|
    ensures var m := plan.members[i];
            && m.nodeName in NodesByName(nodes)
            && var node := NodesByName(nodes)[m.nodeName];
               && Lookup(node.labels, "homelab.io/server-uid") == Some(m.uid)
               && Lookup(node.labels, "homelab.io/kube-cluster-uid") == Some(plan.uid)
               && ("node-role.kubernetes.io/control-plane" in node.labels <==> m == plan.controlPlane)
               && node.kubelet == "v" + plan.kubernetesVersion
               && node.runtime == "containerd://" + plan.containerdVersion
               && Condition("Ready", "True") in node.conditions
  {
    NodesMatchMembers(plan, nodes);
    assert HasNode(plan, nodes, plan.members[i]) && plan.members[i] in plan.members;
    assert ROLE_PREFIX + CONTROL_PLANE == "node-role.kubernetes.io/control-plane";
    hide NodesVerified, Fits;
  }

  ghost predicate Serves(node: Node, address: int) {
    Parse(node.podCidr).Some? && Contains(Parse(node.podCidr).value, address)
  }

  /** An address belongs to the pods of at most one verified Node, and then to the pod network and not to
      the Service network. */
  lemma PodAddressesSeparate(plan: Plan, nodes: seq<Node>, i: nat, j: nat, address: int)
    requires PlanOk(plan) && plan.pod.prefix <= 32 && NodesVerified(plan, nodes)
    requires i < |nodes| && j < |nodes| && Serves(nodes[i], address)
    ensures Contains(plan.pod, address) && !Contains(plan.service, address)
    ensures Serves(nodes[j], address) ==> i == j
  {
    assert Belongs(plan, nodes[i]);
    SubnetOfMeans(Parse(nodes[i].podCidr).value, plan.pod);
    if Serves(nodes[j], address) && i != j {
      assert if i < j then Apart(nodes[i], nodes[j]) else Apart(nodes[j], nodes[i]);
      OverlapsMeans(Parse(nodes[i].podCidr).value, Parse(nodes[j].podCidr).value);
    }
  }

  // ---- Observations ----

  datatype Observation = Observation(
    server: string, serverUid: string, nodeName: string, nodeUid: string, role: string, internalIp: string,
    podCidr: Text, kubeletVersion: string, containerdVersion: string, operatingSystem: string, kernelVersion: string)

  function InternalAddresses(addresses: seq<Address>): seq<string> {
    if addresses == [] then []
    else
      InternalAddresses(addresses[..|addresses| - 1])
      + if addresses[|addresses| - 1].kind == "InternalIP" then [addresses[|addresses| - 1].address] else []
  }

  /** `ip` is the address of the only entry of its kind. */
  ghost predicate OnlyInternal(addresses: seq<Address>, ip: string) {
    exists k :: 0 <= k < |addresses| && addresses[k] == Address("InternalIP", ip)
                && forall j :: 0 <= j < |addresses| && j != k ==> addresses[j].kind != "InternalIP"
  }

  lemma {:induction false} NoInternal(addresses: seq<Address>)
    ensures InternalAddresses(addresses) == [] <==> forall j :: 0 <= j < |addresses| ==> addresses[j].kind != "InternalIP"
  {
    if addresses != [] {
      NoInternal(addresses[..|addresses| - 1]);
    }
  }

  lemma {:induction false} InternalExactly(addresses: seq<Address>, ip: string)
    ensures InternalAddresses(addresses) == [ip] <==> OnlyInternal(addresses, ip)
  {
    if addresses != [] {
      var shorter, last := addresses[..|addresses| - 1], addresses[|addresses| - 1];
      InternalExactly(shorter, ip);
      NoInternal(shorter);
      if last.kind == "InternalIP" {
        var all := InternalAddresses(addresses);
        assert all == InternalAddresses(shorter) + [last.address] && all[|all| - 1] == last.address;
        assert OnlyInternal(addresses, ip) <==> last.address == ip && InternalAddresses(shorter) == [];
      } else {
        assert OnlyInternal(addresses, ip) <==> OnlyInternal(shorter, ip);
      }
    }
  }

  /** One nonempty InternalIP, and every text the observation copies. */
  predicate Observable(node: Node) {
    && |InternalAddresses(node.addresses)| == 1 && InternalAddresses(node.addresses)[0] != ""
    && node.uid != "" && node.osImage != "" && node.kernelVersion != ""
  }

  function RemovePrefix(value: string, prefix: string): string {
    if prefix <= value then value[|prefix|..] else value
  }

  /** The observation of a member is of its own Node, and reports exactly the planned versions. */
  predicate Observes(o: Observation, plan: Plan, member: Member, node: Node) {
    && node.name == member.nodeName && o.nodeName == member.nodeName
    && o.server == member.name && o.serverUid == member.uid && o.role == member.role
    && o.nodeUid == node.uid && InternalAddresses(node.addresses) == [o.internalIp] && o.podCidr == node.podCidr
    && o.kubeletVersion == "v" + plan.kubernetesVersion && o.containerdVersion == plan.containerdVersion
    && o.operatingSystem == node.osImage && o.kernelVersion == node.kernelVersion
  }

  /** One observation per member, in the members' order; the lookup by node name always succeeds. */
  method NodeObservations(plan: Plan, nodes: seq<Node>) returns (observed: Option<seq<Observation>>)
    requires plan.pod.prefix <= 32
    ensures observed.Some? <==> NodesVerified(plan, nodes) && forall i :: 0 <= i < |nodes| ==> Observable(nodes[i])
    ensures observed.Some? ==>
              && |observed.value| == |plan.members|
              && forall i :: 0 <= i < |plan.members| ==>
                   && plan.members[i].nodeName in NodesByName(nodes)
                   && Observes(observed.value[i], plan, plan.members[i], NodesByName(nodes)[plan.members[i].nodeName])
  {
    hide Belongs, Apart;
    var ok := VerifyNodes(plan, nodes);
    if !ok {
      return None;
    }
    EveryMemberHasNode(plan, nodes);
    var indexed := NodesByName(nodes);
    var values: seq<Observation> := [];
    for i := 0 to |plan.members|
      invariant |values| == i
      invariant forall k :: 0 <= k < i ==>
                  && plan.members[k].nodeName in indexed && Observable(indexed[plan.members[k].nodeName])
                  && Observes(values[k], plan, plan.members[k], indexed[plan.members[k].nodeName])
    {
      var member := plan.members[i];
      var node := indexed[member.nodeName];
      var internal := InternalAddresses(node.addresses);
      ghost var j := NodeOfName(nodes, member.nodeName);
      if |internal| != 1 || internal[0] == "" || node.uid == "" || node.osImage == "" || node.kernelVersion == "" {
        assert !Observable(nodes[j]);
        return None;
      }
      assert internal == [internal[0]];
      PlannedVersions(plan, nodes, j);
      values := values + [Observation(
        member.name, member.uid, member.nodeName, node.uid, member.role, internal[0], node.podCidr, node.kubelet,
        RemovePrefix(node.runtime, "containerd://"), node.osImage, node.kernelVersion)];
    }
    forall i | 0 <= i < |nodes|
      ensures Observable(nodes[i])
    {
      NodeHasMember(plan, nodes, i);
      IndexedNode(nodes, i);
    }
    return Some(values);
  }

  lemma PlannedVersions(plan: Plan, nodes: seq<Node>, j: int)
    requires plan.pod.prefix <= 32 && NodesVerified(plan, nodes) && 0 <= j < |nodes|
    ensures nodes[j].kubelet == "v" + plan.kubernetesVersion
    ensures RemovePrefix(nodes[j].runtime, "containerd://") == plan.containerdVersion
  {
    assert Belongs(plan, nodes[j]);
    var prefix := "containerd://";
    assert nodes[j].runtime == prefix + plan.containerdVersion;
    assert (prefix + plan.containerdVersion)[|prefix|..] == plan.containerdVersion;
  }

  lemma EveryMemberHasNode(plan: Plan, nodes: seq<Node>)
    requires plan.pod.prefix <= 32 && NodesVerified(plan, nodes)
    ensures forall i :: 0 <= i < |plan.members| ==> plan.members[i].nodeName in NodesByName(nodes)
    ensures forall n :: n in NodesByName(nodes) ==> NodesByName(nodes)[n].name == n
  {
    SameNames(plan, nodes);
    forall i | 0 <= i < |plan.members|
      ensures plan.members[i].nodeName in NodesByName(nodes)
    {
      assert NodeNames(plan.members)[i] == plan.members[i].nodeName;
    }
    forall n | n in NodesByName(nodes)
      ensures NodesByName(nodes)[n].name == n
    {
      var _ := NodeOfName(nodes, n);
    }
  }

  lemma NodeHasMember(plan: Plan, nodes: seq<Node>, i: nat)
    requires plan.pod.prefix <= 32 && NodesVerified(plan, nodes) && i < |nodes|
    ensures exists k :: 0 <= k < |plan.members| && plan.members[k].nodeName == nodes[i].name
  {
    assert Belongs(plan, nodes[i]);
    MemberOfName(plan.members, nodes[i].name);
  }

  // ---- Membership, verified or not ----

  datatype Membership = Membership(
    ready: bool, missing: set<string>, notReady: set<string>, unexpected: set<string>, conflicts: set<string>)

  predicate Conflicts(plan: Plan, member: Member, node: Node) {
    !CarriesLabels(node.labels, DesiredLabels(plan, member))
  }

  /** What the report must say about each name. */
  ghost predicate Describes(m: Membership, plan: Plan, nodes: seq<Node>) {
    var expected, actual := MembersByName(plan.members), NodesByName(nodes);
    && (forall n :: n in m.missing <==> n in expected && n !in actual)
    && (forall n :: n in m.unexpected <==> n in actual && n !in expected)
    && (forall n :: n in m.notReady <==> n in actual && n in expected && !IsReady(actual[n]))
    && (forall n :: n in m.conflicts <==> n in actual && n in expected && Conflicts(plan, expected[n], actual[n]))
    && (m.ready <==> m.missing == {} && m.unexpected == {} && m.notReady == {} && m.conflicts == {})
  }

  method MembershipObservation(plan: Plan, nodes: seq<Node>) returns (result: Option<Membership>)
    ensures result.Some? <==> Distinct(Names(nodes))
    ensures result.Some? ==> Describes(result.value, plan, nodes)
  {
    hide Distinct, Elements, Names;
    NoNames(nodes);
    var expected := MembersByName(plan.members);
    var actual: map<string, Node> := map[];
    for i := 0 to |nodes|
      invariant actual == NodesByName(nodes[..i]) && Distinct(Names(nodes[..i]))
    {
      assert nodes[..i + 1][..i] == nodes[..i];
      NamesNext(nodes, i);
      NodesIndexed(nodes[..i]);
      if nodes[i].name in actual {
        return None;
      }
      actual := actual[nodes[i].name := nodes[i]];
    }
    assert nodes[..|nodes|] == nodes;
    var missing := expected.Keys - actual.Keys;
    var unexpected := actual.Keys - expected.Keys;
    var common := expected.Keys * actual.Keys;
    var notReady := set n | n in common && !IsReady(actual[n]);
    var conflicts := set n | n in common && Conflicts(plan, expected[n], actual[n]);
    return Some(Membership(missing == {} && unexpected == {} && notReady == {} && conflicts == {},
                           missing, notReady, unexpected, conflicts));
  }

  /** The member's role label is present with the empty value that registration writes. */
  predicate RoleLabelled(member: Member, node: Node) {
    Lookup(node.labels, ROLE_PREFIX + member.role) == Some("")
  }

  lemma ConflictIsRole(plan: Plan, member: Member, node: Node)
    requires ValidNode(plan, member, node)
    ensures Conflicts(plan, member, node) <==> !RoleLabelled(member, node)
  {
    var desired := DesiredLabels(plan, member);
    assert desired[0] == (SERVER_UID_LABEL, member.uid) && desired[1] == (CLUSTER_UID_LABEL, plan.uid);
    assert desired[2] == (ROLE_PREFIX + member.role, "");
  }

  /** The node of a member name, and what verification leaves open about it. */
  lemma ReportedNode(plan: Plan, nodes: seq<Node>, name: string)
    requires PlanOk(plan) && plan.pod.prefix <= 32 && NodesVerified(plan, nodes) && name in MembersByName(plan.members)
    ensures name in NodesByName(nodes) && IsReady(NodesByName(nodes)[name])
    ensures var member, node := MembersByName(plan.members)[name], NodesByName(nodes)[name];
            && member in plan.members && member.nodeName == name
            && (Conflicts(plan, member, node) <==> !RoleLabelled(member, node))
  {
    SameNames(plan, nodes);
    MemberOfName(plan.members, name);
    var i := NodeOfName(nodes, name);
    assert Belongs(plan, nodes[i]);
    ConflictIsRole(plan, MembersByName(plan.members)[name], nodes[i]);
  }

  /** Every member of the plan carries its exact role label. */
  ghost predicate AllRoleLabelled(plan: Plan, nodes: seq<Node>) {
    forall n :: n in MembersByName(plan.members) && n in NodesByName(nodes) ==>
      RoleLabelled(MembersByName(plan.members)[n], NodesByName(nodes)[n])
  }

  /** Right after a successful verification the report lists nothing missing, unexpected or not ready, but it
      is ready exactly when every member's role label also has its exact value, which verification leaves out. */
  lemma ObservationAfterVerification(plan: Plan, nodes: seq<Node>, m: Membership)
    requires PlanOk(plan) && plan.pod.prefix <= 32 && NodesVerified(plan, nodes) && Describes(m, plan, nodes)
    ensures m.missing == {} && m.unexpected == {} && m.notReady == {}
    ensures m.ready <==> AllRoleLabelled(plan, nodes)
  {
    SameNames(plan, nodes);
    hide NodesVerified, Conflicts, RoleLabelled, MembersByName, NodesByName, IsReady, PlanOk;
    forall n | n in MembersByName(plan.members)
      ensures n in NodesByName(nodes) && IsReady(NodesByName(nodes)[n])
      ensures Conflicts(plan, MembersByName(plan.members)[n], NodesByName(nodes)[n])
              <==> !RoleLabelled(MembersByName(plan.members)[n], NodesByName(nodes)[n])
    {
      ReportedNode(plan, nodes, n);
    }
  }

  // ---- A verified cluster that is not ready ----

  /** A control plane and a worker on one /23. */
  function TwoMembers(): Plan {
    var master := Member("alpha", "uid-a", "a", CONTROL_PLANE, "2", "nft");
    var worker := Member("beta", "uid-b", "b", WORKER, "2", "nft");
    Plan("lab", "uid-lab", "1.31.0", "2.0.0", DEFAULT_RUNC, DEFAULT_CNI, Network(0, 23), Network(512, 24),
         [master, worker], master, "direct")
  }

  function NodeLike(name: string, labels: map<string, string>, address: int): Node {
    Node(name, "uid-node", labels, [Condition("Ready", "True")], "v" + TwoMembers().kubernetesVersion,
         "containerd://" + TwoMembers().containerdVersion, "linux", "6.1", V4(address, 24), [])
  }

  /** Both Nodes carry their identities; the worker's role label is missing. */
  function TwoNodes(): seq<Node> {
    [NodeLike("a", map[SERVER_UID_LABEL := "uid-a", CLUSTER_UID_LABEL := "uid-lab", ROLE_PREFIX + CONTROL_PLANE := ""], 0),
     NodeLike("b", map[SERVER_UID_LABEL := "uid-b", CLUSTER_UID_LABEL := "uid-lab"], 256)]
  }

  lemma LabelsApart()
    ensures SERVER_UID_LABEL != CLUSTER_UID_LABEL
    ensures forall role :: ROLE_PREFIX + role != SERVER_UID_LABEL && ROLE_PREFIX + role != CLUSTER_UID_LABEL
  {
    assert |SERVER_UID_LABEL| != |CLUSTER_UID_LABEL|;
    assert SERVER_UID_LABEL[0] == 'h' && CLUSTER_UID_LABEL[0] == 'h' && ROLE_PREFIX[0] == 'n';
    forall role: string
      ensures (ROLE_PREFIX + role)[0] == 'n'
    {
    }
  }

  lemma SmallNetworks()
    ensures Size(24) == 256 && Size(23) == 512 && Pow2(1) == 2
  {
    PowOf8();
  }

  lemma OneLetterName(c: char)
    requires LowerAlnum(c)
    ensures DnsName([c])
  {
    var rest := SplitAt([c][1..], '.');
    assert rest == [""] && [c] + rest[0] == [c];
    assert SplitAt([c], '.') == [[c]];
  }

  lemma TwoMembersOk()
    ensures PlanOk(TwoMembers())
  {
    SmallNetworks();
    hide Pow2, Size;
    var plan := TwoMembers();
    assert NodeNames(plan.members) == ["a", "b"];
    OneLetterName('a');
    OneLetterName('b');
    assert |CONTROL_PLANE| != |WORKER|;
    assert Valid(plan.pod) && HasCapacity(plan.pod, 2);
    Construction(plan.pod, 2);
  }

  lemma TwoNodesIndexed()
    ensures MembersByName(TwoMembers().members) == map["a" := TwoMembers().members[0], "b" := TwoMembers().members[1]]
    ensures NodesByName(TwoNodes()) == map["a" := TwoNodes()[0], "b" := TwoNodes()[1]]
    ensures Names(TwoNodes()) == ["a", "b"]
  {
    var members, nodes := TwoMembers().members, TwoNodes();
    assert members[..1] == [members[0]] && [members[0]][..0] == [];
    assert nodes[..1] == [nodes[0]] && [nodes[0]][..0] == [];
    assert MembersByName([members[0]]) == map["a" := members[0]];
    assert NodesByName([nodes[0]]) == map["a" := nodes[0]];
  }

  lemma TwoNodesValid()
    ensures ValidNode(TwoMembers(), TwoMembers().members[0], TwoNodes()[0])
    ensures ValidNode(TwoMembers(), TwoMembers().members[1], TwoNodes()[1])
  {
    LabelsApart();
    assert |CONTROL_PLANE| != |WORKER|;
    assert TwoNodes()[0].conditions[0] == Condition("Ready", "True");
    assert TwoNodes()[1].conditions[0] == Condition("Ready", "True");
  }

  /** A verified cluster whose membership report is not ready: verification accepts a worker without its role. */
  lemma VerifiedButNotReady() returns (plan: Plan, nodes: seq<Node>)
    ensures plan.pod.prefix <= 32 && PlanOk(plan) && NodesVerified(plan, nodes) && !AllRoleLabelled(plan, nodes)
    ensures forall m :: Describes(m, plan, nodes) ==> !m.ready
  {
    plan, nodes := TwoMembers(), TwoNodes();
    TwoMembersOk();
    TwoNodesIndexed();
    TwoNodesValid();
    SmallNetworks();
    LabelsApart();
    hide Pow2, Size, PlanOk, ValidNode;
    assert Belongs(plan, nodes[0]) && Belongs(plan, nodes[1]) && Apart(nodes[0], nodes[1]);
    assert Distinct(["a", "b"]);
    assert NodesVerified(plan, nodes);
    assert !RoleLabelled(MembersByName(plan.members)["b"], NodesByName(nodes)["b"]);
    forall m | Describes(m, plan, nodes)
      ensures !m.ready
    {
      ObservationAfterVerification(plan, nodes, m);
    }
  }
}
