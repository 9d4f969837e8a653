/** Repairing the managed labels of a registered Node with one guarded JSON Patch. */
module KubeRegistration {
  import opened JsonPatch
  import opened KubeNodes
  import opened KubePlan
  import opened Wrappers

  // ---- The Node document ----

  predicate HasMetadata(doc: Json) {
    doc.Object? && "metadata" in doc.members && doc.members["metadata"].Object?
  }

  function Metadata(doc: Json): map<string, Json>
    requires HasMetadata(doc)
  {
    doc.members["metadata"].members
  }

  function WithMetadata(doc: Json, metadata: map<string, Json>): Json
    requires HasMetadata(doc)
  {
    Object(doc.members["metadata" := Object(metadata)])
  }

  predicate HasLabels(doc: Json) {
    HasMetadata(doc) && "labels" in Metadata(doc) && Metadata(doc)["labels"].Object?
  }

  /** The labels of the document, none when it has no label map. */
  function Labels(doc: Json): map<string, Json>
    requires HasMetadata(doc)
  {
    if HasLabels(doc) then Metadata(doc)["labels"].members else map[]
  }

  function WithLabels(doc: Json, labels: map<string, Json>): Json
    requires HasMetadata(doc)
  {
    WithMetadata(doc, Metadata(doc)["labels" := Object(labels)])
  }

  // ---- The patch ----

  function UidPath(): string {
    "/metadata/uid"
  }

  function LabelsPath(): string {
    "/metadata/labels"
  }

  function VersionPath(): string {
    "/metadata/resourceVersion"
  }

  function LabelPath(key: string): string {
    "/metadata/labels/" + Escape(key)
  }

  /** The removal path escapes only slashes. */
  function OppositePath(opposite: string): string {
    "/metadata/labels/" + ReplaceChar(opposite, '/', "~1")
  }

  function Guards(metadata: map<string, Json>): seq<Operation>
    requires "uid" in metadata && ("labels" in metadata || "resourceVersion" in metadata)
  {
    [Test(UidPath(), metadata["uid"])]
    + if "labels" in metadata then [Test(LabelsPath(), metadata["labels"])]
      else [Test(VersionPath(), metadata["resourceVersion"]), Add(LabelsPath(), Object(map[]))]
  }

  function Additions(desired: seq<(string, string)>): seq<Operation> {
    seq(|desired|, i requires 0 <= i < |desired| => Add(LabelPath(desired[i].0), Text(desired[i].1)))
  }

  function Removal(labels: map<string, Json>, opposite: string): seq<Operation> {
    if opposite in labels then [Remove(OppositePath(opposite))] else []
  }

  /** A Node whose labels can be patched: an identity, and labels or a version to guard them with. */
  predicate Patchable(doc: Json) {
    && HasMetadata(doc) && "uid" in Metadata(doc)
    && if "labels" in Metadata(doc) then HasLabels(doc)
       else
         && "resourceVersion" in Metadata(doc) && Metadata(doc)["resourceVersion"].Text?
         && Metadata(doc)["resourceVersion"] != Text("")
  }

  function LabelPatch(doc: Json, desired: seq<(string, string)>, opposite: string): seq<Operation>
    requires Patchable(doc)
  {
    Guards(Metadata(doc)) + Additions(desired) + Removal(Labels(doc), opposite)
  }

  method ManagedLabelPatch(doc: Json, desired: seq<(string, string)>, opposite: string) returns (patch: seq<Operation>)
    requires Patchable(doc)
    ensures patch == LabelPatch(doc, desired, opposite)
  {
    hide LabelPath, OppositePath, UidPath, LabelsPath, VersionPath;
    var metadata := Metadata(doc);
    patch := [Test(UidPath(), metadata["uid"])];
    var labels: map<string, Json> := map[];
    if "labels" in metadata {
      labels := metadata["labels"].members;
      patch := patch + [Test(LabelsPath(), metadata["labels"])];
    } else {
      patch := patch + [Test(VersionPath(), metadata["resourceVersion"]), Add(LabelsPath(), Object(map[]))];
    }
    ghost var guards := patch;
    assert guards == Guards(metadata) && labels == Labels(doc);
    for i := 0 to |desired|
      invariant patch == guards + Additions(desired)[..i]
    {
      patch := patch + [Add(LabelPath(desired[i].0), Text(desired[i].1))];
    }
    assert patch == guards + Additions(desired);
    if opposite in labels {
      patch := patch + [Remove(OppositePath(opposite))];
    }
  }

  // ---- Its effect ----

  function WithAll(labels: map<string, Json>, desired: seq<(string, string)>): map<string, Json>
    decreases |desired|
  {
    if desired == [] then labels else WithAll(labels[desired[0].0 := Text(desired[0].1)], desired[1..])
  }

  lemma FieldPaths()
    ensures Parse(UidPath()) == Some(["metadata", "uid"])
    ensures Parse(VersionPath()) == Some(["metadata", "resourceVersion"])
    ensures Parse(LabelsPath()) == Some(["metadata", "labels"])
  {
    hide Parse, UidPath, LabelsPath, VersionPath;
    LiteralPaths();
    FieldPath("uid", "/uid");
    FieldPath("resourceVersion", "/resourceVersion");
    FieldPath("labels", "/labels");
  }

  lemma LiteralPaths()
    ensures "/metadata" + "/uid" == UidPath()
    ensures "/metadata" + "/resourceVersion" == VersionPath()
    ensures "/metadata" + "/labels" == LabelsPath()
  {
  }

  lemma FieldPath(field: string, rest: string)
    requires '~' !in field && '/' !in field && rest == "/" + field
    ensures Parse("/metadata" + rest) == Some(["metadata", field])
  {
    hide Parse;
    ParseNothing();
    ParsePlain(field, "");
    assert "/" + field + "" == rest;
    ParsePlain("metadata", rest);
    assert "/" + "metadata" == "/metadata";
    assert [field] + [] == [field];
    assert ["metadata"] + [field] == ["metadata", field];
  }

  lemma ParseNothing()
    ensures Parse("") == Some([])
  {
  }

  lemma LabelPathTokens(key: string)
    ensures Parse(LabelPath(key)) == Some(["metadata", "labels", key])
  {
    hide Parse, Escape;
    ParseNothing();
    ParseStep(key, "");
    var rest := "/" + Escape(key);
    assert rest + "" == rest && [key] + [] == [key];
    ParsePlain("labels", rest);
    assert "/" + "labels" == "/labels" && ["labels"] + [key] == ["labels", key];
    ParsePlain("metadata", "/labels" + rest);
    assert "/" + "metadata" == "/metadata" && ["metadata"] + ["labels", key] == ["metadata", "labels", key];
    assert "/metadata" + ("/labels" + rest) == "/metadata/labels" + rest;
    assert "/metadata/labels/" == "/metadata/labels" + "/";
    assert LabelPath(key) == "/metadata/labels" + rest;
  }

  lemma {:induction false} NoTilde(key: string)
    requires '~' !in key
    ensures ReplaceChar(key, '~', "~0") == key
  {
    if key != "" {
      NoTilde(key[1..]);
      assert key == [key[0]] + key[1..] && key[0] in key;
    }
  }

  lemma OppositePathIsLabelPath(key: string)
    requires '~' !in key
    ensures OppositePath(key) == LabelPath(key)
  {
    NoTilde(key);
  }

  lemma PutLabel(doc: Json, key: string, value: Json)
    requires HasLabels(doc)
    ensures Put(doc, ["metadata", "labels", key], value) == Some(WithLabels(doc, Labels(doc)[key := value]))
  {
    var labels := Metadata(doc)["labels"];
    assert Put(labels, [key], value) == Some(Object(labels.members[key := value]));
    assert ["labels", key][1..] == [key];
    assert Put(doc.members["metadata"], ["labels", key], value)
        == Some(Object(Metadata(doc)["labels" := Object(labels.members[key := value])]));
    assert ["metadata", "labels", key][1..] == ["labels", key];
  }

  lemma DeleteLabel(doc: Json, key: string)
    requires HasLabels(doc) && key in Labels(doc)
    ensures Delete(doc, ["metadata", "labels", key]) == Some(WithLabels(doc, Labels(doc) - {key}))
  {
    var labels := Metadata(doc)["labels"];
    assert Delete(labels, [key]) == Some(Object(labels.members - {key}));
    assert ["labels", key][1..] == [key];
    assert Delete(doc.members["metadata"], ["labels", key])
        == Some(Object(Metadata(doc)["labels" := Object(labels.members - {key})]));
    assert ["metadata", "labels", key][1..] == ["labels", key];
  }

  lemma AddLabel(doc: Json, key: string, value: Json)
    requires HasLabels(doc)
    ensures Apply(doc, Add(LabelPath(key), value)) == Some(WithLabels(doc, Labels(doc)[key := value]))
  {
    LabelPathTokens(key);
    PutLabel(doc, key, value);
    hide Put, Parse, LabelPath, WithLabels, HasLabels, Labels;
  }

  lemma RemoveLabel(doc: Json, key: string)
    requires HasLabels(doc) && key in Labels(doc) && '~' !in key
    ensures Apply(doc, Remove(OppositePath(key))) == Some(WithLabels(doc, Labels(doc) - {key}))
  {
    LabelPathTokens(key);
    OppositePathIsLabelPath(key);
    DeleteLabel(doc, key);
    hide Delete, Parse, LabelPath, OppositePath, WithLabels, HasLabels, Labels;
  }

  lemma LabelsSet(doc: Json, labels: map<string, Json>)
    requires HasMetadata(doc)
    ensures HasLabels(WithLabels(doc, labels)) && Labels(WithLabels(doc, labels)) == labels
    ensures HasLabels(doc) && labels == Labels(doc) ==> WithLabels(doc, labels) == doc
  {
    if HasLabels(doc) && labels == Labels(doc) {
      assert Metadata(doc)["labels" := Object(labels)] == Metadata(doc);
      assert doc.members["metadata" := Object(Metadata(doc))] == doc.members;
    }
  }

  lemma WithLabelsTwice(doc: Json, a: map<string, Json>, b: map<string, Json>)
    requires HasMetadata(doc)
    ensures WithLabels(WithLabels(doc, a), b) == WithLabels(doc, b)
  {
    assert Metadata(doc)["labels" := Object(a)]["labels" := Object(b)] == Metadata(doc)["labels" := Object(b)];
    var m := Object(Metadata(doc)["labels" := Object(b)]);
    assert WithLabels(doc, a).members["metadata" := m] == doc.members["metadata" := m];
  }

  lemma {:induction false} AddLabels(doc: Json, desired: seq<(string, string)>)
    requires HasLabels(doc)
    ensures ApplyAll(doc, Additions(desired)) == Some(WithLabels(doc, WithAll(Labels(doc), desired)))
    decreases |desired|
  {
    assert HasMetadata(doc);
    hide Apply, LabelPath, WithLabels, HasLabels, Labels;
    if desired == [] {
      LabelsSet(doc, Labels(doc));
    } else {
      var (key, value) := desired[0];
      var labels := Labels(doc)[key := Text(value)];
      AddLabel(doc, key, Text(value));
      LabelsSet(doc, labels);
      var next := WithLabels(doc, labels);
      AddLabels(next, desired[1..]);
      assert Additions(desired)[0] == Add(LabelPath(key), Text(value)) && Additions(desired)[1..] == Additions(desired[1..]);
      WithLabelsTwice(doc, labels, WithAll(labels, desired[1..]));
    }
  }

  lemma {:induction false} WithAllKeys(labels: map<string, Json>, desired: seq<(string, string)>, key: string)
    requires forall i :: 0 <= i < |desired| ==> desired[i].0 != key
    ensures Lookup(WithAll(labels, desired), key) == Lookup(labels, key)
    decreases |desired|
  {
    if desired != [] {
      WithAllKeys(labels[desired[0].0 := Text(desired[0].1)], desired[1..], key);
    }
  }

  /** The stored Node still is what was read, as far as the guards look. */
  predicate StillGuarded(read: Json, stored: Json)
    requires Patchable(read)
  {
    && HasMetadata(stored) && Lookup(Metadata(stored), "uid") == Some(Metadata(read)["uid"])
    && if "labels" in Metadata(read) then Lookup(Metadata(stored), "labels") == Some(Metadata(read)["labels"])
       else Lookup(Metadata(stored), "resourceVersion") == Some(Metadata(read)["resourceVersion"])
  }

  function NewLabels(read: Json, desired: seq<(string, string)>, opposite: string): map<string, Json>
    requires HasMetadata(read)
  {
    WithAll(Labels(read), desired) - {opposite}
  }

  lemma GetField(doc: Json, field: string)
    ensures Get(doc, ["metadata", field]) == if HasMetadata(doc) then Lookup(Metadata(doc), field) else None
  {
    assert ["metadata", field][1..] == [field] && [field][1..] == [];
    if doc.Object? && "metadata" in doc.members {
      var m := doc.members["metadata"];
      assert Get(m, [field]) == if m.Object? && field in m.members then Get(m.members[field], []) else None;
    }
  }

  lemma PutLabelMap(doc: Json)
    requires HasMetadata(doc)
    ensures Put(doc, ["metadata", "labels"], Object(map[])) == Some(WithLabels(doc, map[]))
  {
    assert ["metadata", "labels"][1..] == ["labels"];
  }

  predicate FieldIs(doc: Json, field: string, value: Json) {
    HasMetadata(doc) && Lookup(Metadata(doc), field) == Some(value)
  }

  lemma TestField(doc: Json, path: string, field: string, value: Json)
    requires Parse(path) == Some(["metadata", field])
    ensures Apply(doc, Test(path, value)) == if FieldIs(doc, field, value) then Some(doc) else None
  {
    GetField(doc, field);
    hide Parse, Get;
  }

  lemma AddLabelMap(doc: Json)
    requires HasMetadata(doc)
    ensures Apply(doc, Add(LabelsPath(), Object(map[]))) == Some(WithLabels(doc, map[]))
  {
    FieldPaths();
    PutLabelMap(doc);
    hide Parse, Put, LabelsPath, WithLabels;
  }

  lemma LabelGuardsApply(stored: Json, uid: Json, labels: Json)
    ensures ApplyAll(stored, [Test(UidPath(), uid), Test(LabelsPath(), labels)])
            == if FieldIs(stored, "uid", uid) && FieldIs(stored, "labels", labels) then Some(stored) else None
  {
    FieldPaths();
    hide Apply, ApplyAll, UidPath, LabelsPath, Parse, FieldIs;
    TestField(stored, UidPath(), "uid", uid);
    TestField(stored, LabelsPath(), "labels", labels);
    ApplyTwo(stored, Test(UidPath(), uid), Test(LabelsPath(), labels));
  }

  lemma VersionGuardsApply(stored: Json, uid: Json, version: Json)
    ensures ApplyAll(stored, [Test(UidPath(), uid), Test(VersionPath(), version), Add(LabelsPath(), Object(map[]))])
            == if FieldIs(stored, "uid", uid) && FieldIs(stored, "resourceVersion", version)
               then Some(WithLabels(stored, map[])) else None
  {
    FieldPaths();
    if FieldIs(stored, "uid", uid) {
      AddLabelMap(stored);
    }
    hide Apply, ApplyAll, UidPath, LabelsPath, VersionPath, WithLabels, Parse;
    var first, second, third := Test(UidPath(), uid), Test(VersionPath(), version), Add(LabelsPath(), Object(map[]));
    TestField(stored, UidPath(), "uid", uid);
    TestField(stored, VersionPath(), "resourceVersion", version);
    ApplyThree(stored, first, second, third);
    ApplyTwo(stored, second, third);
  }

  lemma GuardsApply(read: Json, stored: Json)
    requires Patchable(read)
    ensures ApplyAll(stored, Guards(Metadata(read)))
            == if !StillGuarded(read, stored) then None
               else if "labels" in Metadata(read) then Some(stored) else Some(WithLabels(stored, map[]))
  {
    hide ApplyAll, WithLabels, UidPath, LabelsPath, VersionPath;
    var metadata := Metadata(read);
    if "labels" in metadata {
      LabelGuardsApply(stored, metadata["uid"], metadata["labels"]);
      assert Guards(metadata) == [Test(UidPath(), metadata["uid"]), Test(LabelsPath(), metadata["labels"])];
    } else {
      VersionGuardsApply(stored, metadata["uid"], metadata["resourceVersion"]);
      assert Guards(metadata)
          == [Test(UidPath(), metadata["uid"]), Test(VersionPath(), metadata["resourceVersion"]),
              Add(LabelsPath(), Object(map[]))];
    }
  }

  /** The guarded document carries exactly the labels that were read. */
  lemma GuardedLabels(read: Json, stored: Json)
    requires Patchable(read) && StillGuarded(read, stored)
    ensures ApplyAll(stored, Guards(Metadata(read))).Some?
    ensures var guarded := ApplyAll(stored, Guards(Metadata(read))).value;
            && HasLabels(guarded) && Labels(guarded) == Labels(read)
            && forall labels :: WithLabels(guarded, labels) == WithLabels(stored, labels)
  {
    GuardsApply(read, stored);
    forall labels: map<string, Json>
      ensures WithLabels(ApplyAll(stored, Guards(Metadata(read))).value, labels) == WithLabels(stored, labels)
    {
      WithLabelsTwice(stored, map[], labels);
    }
  }

  lemma RemovalApplies(stored: Json, read: Json, all: map<string, Json>, opposite: string)
    requires HasMetadata(stored) && HasMetadata(read) && '~' !in opposite
    requires Lookup(all, opposite) == Lookup(Labels(read), opposite)
    ensures ApplyAll(WithLabels(stored, all), Removal(Labels(read), opposite)) == Some(WithLabels(stored, all - {opposite}))
  {
    LabelsSet(stored, all);
    if opposite in Labels(read) {
      RemoveLabel(WithLabels(stored, all), opposite);
      WithLabelsTwice(stored, all, all - {opposite});
    } else {
      assert all - {opposite} == all;
    }
  }

  /** Applied to any stored Node, the patch succeeds exactly when the guarded parts are still those that were
      read, and then the labels are the read ones without the opposite role and with the desired values, and
      nothing else in the document differs. Otherwise it alters nothing. */
  lemma PatchEffect(read: Json, stored: Json, desired: seq<(string, string)>, opposite: string)
    requires Patchable(read) && '~' !in opposite && forall i :: 0 <= i < |desired| ==> desired[i].0 != opposite
    ensures ApplyAll(stored, LabelPatch(read, desired, opposite))
            == if StillGuarded(read, stored) then Some(WithLabels(stored, NewLabels(read, desired, opposite))) else None
  {
    hide Apply, ApplyAll, WithAll, Guards, Additions, Removal, WithLabels, Labels, HasLabels;
    var guards, additions, removal := Guards(Metadata(read)), Additions(desired), Removal(Labels(read), opposite);
    ApplyConcat(stored, guards + additions, removal);
    ApplyConcat(stored, guards, additions);
    GuardsApply(read, stored);
    if StillGuarded(read, stored) {
      GuardedLabels(read, stored);
      AddLabels(ApplyAll(stored, guards).value, desired);
      WithAllKeys(Labels(read), desired, opposite);
      RemovalApplies(stored, read, WithAll(Labels(read), desired), opposite);
    }
  }

  // ---- Planning the repair ----

  /** What the play knows about one host and the Node it registered; `node` is empty when there is none. */
  datatype Request = Request(nodeName: string, serverUid: string, role: string, address: string, node: Json)

  datatype Action = Action(missing: bool, labelsChanged: bool, patch: seq<Operation>)

  function OppositeLabel(role: string): string {
    ROLE_PREFIX + if role == CONTROL_PLANE then WORKER else CONTROL_PLANE
  }

  /** The identity labels are absent or already this member's. */
  predicate Adoptable(labels: map<string, Json>, desired: seq<(string, string)>) {
    forall i :: 0 <= i < 2 && i < |desired| ==> Lookup(labels, desired[i].0) in {None, Some(Text(desired[i].1))}
  }

  predicate LabelsDiffer(labels: map<string, Json>, desired: seq<(string, string)>, opposite: string) {
    || (exists i :: 0 <= i < |desired| && Lookup(labels, desired[i].0) != Some(Text(desired[i].1)))
    || opposite in labels
  }

  /** Everything `registration_action` demands of a Node that exists; `status` decodes the InternalIP addresses
      in the part of the document it is given. */
  predicate Accepted(plan: Plan, member: Member, request: Request, status: Option<Json> -> seq<string>) {
    && Patchable(request.node)
    && Lookup(Metadata(request.node), "name") == Some(Text(request.nodeName))
    && Metadata(request.node)["uid"] != Text("")
    && Adoptable(Labels(request.node), DesiredLabels(plan, member))
    && status(Get(request.node, ["status"])) == [request.address]
  }

  function RegistrationAction(plan: Plan, request: Request, status: Option<Json> -> seq<string>): Option<Action> {
    var members := MembersByName(plan.members);
    if request.nodeName !in members then None
    else
      var member := members[request.nodeName];
      if member.uid != request.serverUid || member.role != request.role then None
      else if request.node == Object(map[]) then Some(Action(true, false, []))
      else if !Accepted(plan, member, request, status) then None
      else
        var desired, opposite := DesiredLabels(plan, member), OppositeLabel(member.role);
        Some(Action(false, LabelsDiffer(Labels(request.node), desired, opposite), LabelPatch(request.node, desired, opposite)))
  }

  predicate Carries(labels: map<string, Json>, desired: seq<(string, string)>) {
    forall i :: 0 <= i < |desired| ==> Lookup(labels, desired[i].0) == Some(Text(desired[i].1))
  }

  predicate DistinctKeys(desired: seq<(string, string)>) {
    forall j, k :: 0 <= j < k < |desired| ==> desired[j].0 != desired[k].0
  }

  lemma {:induction false} WithAllCarries(labels: map<string, Json>, desired: seq<(string, string)>)
    requires DistinctKeys(desired)
    ensures Carries(WithAll(labels, desired), desired)
    decreases |desired|
  {
    if desired != [] {
      var next := labels[desired[0].0 := Text(desired[0].1)];
      WithAllCarries(next, desired[1..]);
      WithAllKeys(next, desired[1..], desired[0].0);
      forall i | 0 < i < |desired|
        ensures Lookup(WithAll(labels, desired), desired[i].0) == Some(Text(desired[i].1))
      {
        assert desired[1..][i - 1] == desired[i];
      }
    }
  }

  lemma {:induction false} CarriedIsKept(labels: map<string, Json>, desired: seq<(string, string)>)
    requires Carries(labels, desired)
    ensures WithAll(labels, desired) == labels
    decreases |desired|
  {
    if desired != [] {
      assert Lookup(labels, desired[0].0) == Some(Text(desired[0].1));
      assert labels[desired[0].0 := Text(desired[0].1)] == labels;
      forall i | 0 <= i < |desired| - 1
        ensures Lookup(labels, desired[1..][i].0) == Some(Text(desired[1..][i].1))
      {
        assert desired[1..][i] == desired[i + 1];
      }
      CarriedIsKept(labels, desired[1..]);
    }
  }

  predicate GoodKeys(desired: seq<(string, string)>, opposite: string) {
    DistinctKeys(desired) && '~' !in opposite && forall i :: 0 <= i < |desired| ==> desired[i].0 != opposite
  }

  lemma DesiredKeys(plan: Plan, member: Member)
    requires member.role in {CONTROL_PLANE, WORKER}
    ensures GoodKeys(DesiredLabels(plan, member), OppositeLabel(member.role))
  {
    var desired, opposite := DesiredLabels(plan, member), OppositeLabel(member.role);
    assert |desired| == 3;
    assert SERVER_UID_LABEL[0] == 'h' && CLUSTER_UID_LABEL[0] == 'h' && desired[2].0[0] == 'n' && opposite[0] == 'n';
    assert |SERVER_UID_LABEL| != |CLUSTER_UID_LABEL|;
    assert |CONTROL_PLANE| != |WORKER|;
    assert |desired[2].0| == |ROLE_PREFIX| + |member.role|;
  }

  /** The labels after the patch carry the desired values, and patching them once more changes nothing. */
  lemma NewLabelsStable(node: Json, desired: seq<(string, string)>, opposite: string)
    requires HasMetadata(node) && GoodKeys(desired, opposite)
    ensures var labels := NewLabels(node, desired, opposite);
            Carries(labels, desired) && opposite !in labels && WithAll(labels, desired) - {opposite} == labels
  {
    WithAllCarries(Labels(node), desired);
    var labels := NewLabels(node, desired, opposite);
    CarriedIsKept(labels, desired);
    assert labels - {opposite} == labels;
  }

  /** Key by key: the opposite role is gone, the desired values are there, every other label is as it was. */
  lemma NewLabelsExact(read: Json, desired: seq<(string, string)>, opposite: string, key: string)
    requires HasMetadata(read) && GoodKeys(desired, opposite)
    ensures key == opposite ==> key !in NewLabels(read, desired, opposite)
    ensures forall i :: 0 <= i < |desired| && desired[i].0 == key ==>
              Lookup(NewLabels(read, desired, opposite), key) == Some(Text(desired[i].1))
    ensures key != opposite && (forall i :: 0 <= i < |desired| ==> desired[i].0 != key) ==>
              Lookup(NewLabels(read, desired, opposite), key) == Lookup(Labels(read), key)
  {
    WithAllCarries(Labels(read), desired);
    if forall i :: 0 <= i < |desired| ==> desired[i].0 != key {
      WithAllKeys(Labels(read), desired, key);
    }
  }

  lemma StatusKept(node: Json, labels: map<string, Json>)
    requires HasMetadata(node)
    ensures Get(WithLabels(node, labels), ["status"]) == Get(node, ["status"])
  {
    assert ["status"][1..] == [];
    var patched := WithLabels(node, labels);
    assert "status" in node.members <==> "status" in patched.members;
    assert "status" in node.members ==> patched.members["status"] == node.members["status"];
  }

  lemma AcceptedAgain(
      plan: Plan, member: Member, request: Request, status: Option<Json> -> seq<string>, labels: map<string, Json>)
    requires Accepted(plan, member, request, status) && Carries(labels, DesiredLabels(plan, member))
    ensures Accepted(plan, member, request.(node := WithLabels(request.node, labels)), status)
    ensures WithLabels(request.node, labels) != Object(map[])
  {
    LabelsSet(request.node, labels);
    StatusKept(request.node, labels);
    hide Get, DesiredLabels;
    var patched := WithLabels(request.node, labels);
    assert "metadata" in patched.members;
    assert Metadata(patched) == Metadata(request.node)["labels" := Object(labels)];
  }

  /** Once the planned patch has been applied to the Node that was read, nothing is left to change: planning
      again reports unchanged labels, and its patch would leave the document as it is. */
  lemma RegistrationConverges(plan: Plan, request: Request, status: Option<Json> -> seq<string>)
    requires forall m :: m in plan.members ==> m.role in {CONTROL_PLANE, WORKER}
    requires RegistrationAction(plan, request, status).Some? && !RegistrationAction(plan, request, status).value.missing
    ensures var action := RegistrationAction(plan, request, status).value;
            var patched := ApplyAll(request.node, action.patch);
            && patched.Some?
            && var again := RegistrationAction(plan, request.(node := patched.value), status);
               && again.Some? && !again.value.missing && !again.value.labelsChanged
               && ApplyAll(patched.value, again.value.patch) == patched
  {
    var member := MembersByName(plan.members)[request.nodeName];
    MemberOfName(plan.members, request.nodeName);
    var desired, opposite := DesiredLabels(plan, member), OppositeLabel(member.role);
    var node := request.node;
    assert Accepted(plan, member, request, status) && Patchable(node) && StillGuarded(node, node);
    DesiredKeys(plan, member);
    PatchEffect(node, node, desired, opposite);
    NewLabelsStable(node, desired, opposite);
    var labels := NewLabels(node, desired, opposite);
    var patched := WithLabels(node, labels);
    AcceptedAgain(plan, member, request, status, labels);
    LabelsSet(node, labels);
    assert Patchable(patched) && StillGuarded(patched, patched) && Labels(patched) == labels;
    PatchEffect(patched, patched, desired, opposite);
    WithLabelsTwice(node, labels, labels);
    assert NewLabels(patched, desired, opposite) == labels;
    assert !LabelsDiffer(labels, desired, opposite);
    hide ApplyAll, LabelPatch, WithLabels, DesiredLabels, OppositeLabel;
    hide Accepted, LabelsDiffer, MembersByName, Patchable, Labels;
  }

  lemma ChangeShows(node: Json, desired: seq<(string, string)>, opposite: string)
    requires Patchable(node) && GoodKeys(desired, opposite) && |desired| > 0
    ensures LabelsDiffer(Labels(node), desired, opposite) <==> WithLabels(node, NewLabels(node, desired, opposite)) != node
  {
    var labels := NewLabels(node, desired, opposite);
    NewLabelsStable(node, desired, opposite);
    LabelsSet(node, labels);
    if !LabelsDiffer(Labels(node), desired, opposite) {
      CarriedIsKept(Labels(node), desired);
      assert Labels(node) - {opposite} == Labels(node);
      assert Lookup(Labels(node), desired[0].0) == Some(Text(desired[0].1));
      assert HasLabels(node);
      LabelsSet(node, Labels(node));
    }
  }

  /** A repair is reported as a change exactly when its patch would change the Node that was read. */
  lemma LabelsChangedExactly(plan: Plan, request: Request, status: Option<Json> -> seq<string>)
    requires forall m :: m in plan.members ==> m.role in {CONTROL_PLANE, WORKER}
    requires RegistrationAction(plan, request, status).Some? && !RegistrationAction(plan, request, status).value.missing
    ensures var action := RegistrationAction(plan, request, status).value;
            action.labelsChanged <==> ApplyAll(request.node, action.patch) != Some(request.node)
  {
    var member := MembersByName(plan.members)[request.nodeName];
    MemberOfName(plan.members, request.nodeName);
    var desired, opposite := DesiredLabels(plan, member), OppositeLabel(member.role);
    assert Patchable(request.node) && StillGuarded(request.node, request.node) && |desired| == 3;
    DesiredKeys(plan, member);
    hide LabelsDiffer, DesiredLabels, OppositeLabel, ApplyAll, LabelPatch, WithLabels;
    PatchEffect(request.node, request.node, desired, opposite);
    ChangeShows(request.node, desired, opposite);
  }

  /** The labels that registration writes or removes. */
  predicate OwnedKey(key: string) {
    || key == "homelab.io/server-uid" || key == "homelab.io/kube-cluster-uid"
    || key == "node-role.kubernetes.io/control-plane" || key == "node-role.kubernetes.io/worker"
  }

  /** The labels of a repaired Node: its Server, its cluster and its role, not the other role, and any other label as
      it was. */
  lemma RepairedLabels(plan: Plan, request: Request, status: Option<Json> -> seq<string>, key: string)
    requires forall m :: m in plan.members ==> m.role in {CONTROL_PLANE, WORKER}
    requires RegistrationAction(plan, request, status).Some? && !RegistrationAction(plan, request, status).value.missing
    ensures var repaired := ApplyAll(request.node, RegistrationAction(plan, request, status).value.patch);
            && repaired.Some? && HasMetadata(repaired.value) && HasMetadata(request.node)
            && Identified(plan, request, Labels(repaired.value))
            && (!OwnedKey(key) ==> Lookup(Labels(repaired.value), key) == Lookup(Labels(request.node), key))
  {
    var member := MembersByName(plan.members)[request.nodeName];
    MemberOfName(plan.members, request.nodeName);
    var desired, opposite := DesiredLabels(plan, member), OppositeLabel(member.role);
    var node := request.node;
    assert Patchable(node) && StillGuarded(node, node);
    DesiredKeys(plan, member);
    hide ApplyAll, LabelPatch, WithLabels, NewLabels, DesiredLabels, OppositeLabel, GoodKeys, Identified, OwnedKey;
    PatchEffect(node, node, desired, opposite);
    var labels := NewLabels(node, desired, opposite);
    LabelsSet(node, labels);
    MemberLabels(plan, request, member, key);
  }

  /** The labels carry the identity that registration gives the Node, and only its own role. */
  predicate Identified(plan: Plan, request: Request, labels: map<string, Json>) {
    && Lookup(labels, "homelab.io/server-uid") == Some(Text(request.serverUid))
    && Lookup(labels, "homelab.io/kube-cluster-uid") == Some(Text(plan.uid))
    && if request.role == "control-plane" then
         && Lookup(labels, "node-role.kubernetes.io/control-plane") == Some(Text(""))
         && "node-role.kubernetes.io/worker" !in labels
       else
         && Lookup(labels, "node-role.kubernetes.io/worker") == Some(Text(""))
         && "node-role.kubernetes.io/control-plane" !in labels
  }

  lemma MemberLabels(plan: Plan, request: Request, member: Member, key: string)
    requires HasMetadata(request.node) && GoodKeys(DesiredLabels(plan, member), OppositeLabel(member.role))
    requires member.role in {CONTROL_PLANE, WORKER} && member.role == request.role && member.uid == request.serverUid
    ensures var labels := NewLabels(request.node, DesiredLabels(plan, member), OppositeLabel(member.role));
            && Identified(plan, request, labels)
            && (!OwnedKey(key) ==> Lookup(labels, key) == Lookup(Labels(request.node), key))
  {
    hide NewLabels, GoodKeys, Labels;
    var desired, opposite := DesiredLabels(plan, member), OppositeLabel(member.role);
    RoleKeys();
    assert desired[0] == ("homelab.io/server-uid", member.uid) && desired[1] == ("homelab.io/kube-cluster-uid", plan.uid);
    assert desired[2] == (ROLE_PREFIX + member.role, "");
    NewLabelsExact(request.node, desired, opposite, key);
    NewLabelsExact(request.node, desired, opposite, "homelab.io/server-uid");
    NewLabelsExact(request.node, desired, opposite, "homelab.io/kube-cluster-uid");
    NewLabelsExact(request.node, desired, opposite, desired[2].0);
    NewLabelsExact(request.node, desired, opposite, opposite);
  }

  lemma RoleKeys()
    ensures ROLE_PREFIX + CONTROL_PLANE == "node-role.kubernetes.io/control-plane"
    ensures ROLE_PREFIX + WORKER == "node-role.kubernetes.io/worker"
  {
  }

  /** A value of an identity label that does not belong to someone else. */
  predicate FreeOrOwn(labels: map<string, Json>, key: string, value: string) {
    key !in labels || labels[key] == Text(value)
  }

  /** A Node whose identity and labels can be guarded: a label map, or a version where there is no label field. */
  predicate Guardable(node: Json) {
    && node.Object? && "metadata" in node.members && node.members["metadata"].Object?
    && var metadata := node.members["metadata"].members;
       && "uid" in metadata
       && if "labels" in metadata then metadata["labels"].Object?
          else "resourceVersion" in metadata && metadata["resourceVersion"].Text? && metadata["resourceVersion"].text != ""
  }

  /** Whom a repair is planned for: a host that is the selected member with this uid and role, and a Node of its
      name with an identity, its address, and identity labels that nobody else owns. */
  lemma RepairsOnlyItsOwn(plan: Plan, request: Request, status: Option<Json> -> seq<string>)
    requires request.nodeName in MembersByName(plan.members) && request.node != Object(map[])
    ensures var member := MembersByName(plan.members)[request.nodeName];
            RegistrationAction(plan, request, status).Some?
            <==> && member.uid == request.serverUid && member.role == request.role && Guardable(request.node)
                 && Lookup(Metadata(request.node), "name") == Some(Text(request.nodeName))
                 && Metadata(request.node)["uid"] != Text("")
                 && FreeOrOwn(Labels(request.node), "homelab.io/server-uid", member.uid)
                 && FreeOrOwn(Labels(request.node), "homelab.io/kube-cluster-uid", plan.uid)
                 && status(Get(request.node, ["status"])) == [request.address]
  {
    var member := MembersByName(plan.members)[request.nodeName];
    var desired := DesiredLabels(plan, member);
    assert desired[0] == ("homelab.io/server-uid", member.uid) && desired[1] == ("homelab.io/kube-cluster-uid", plan.uid);
  }

  /** A host that is not that member is refused, and a member without a Node asks for a registration only. */
  lemma MissingNodeIsRegistered(plan: Plan, request: Request, status: Option<Json> -> seq<string>)
    ensures request.nodeName !in MembersByName(plan.members) ==> RegistrationAction(plan, request, status).None?
    ensures request.node == Object(map[]) && request.nodeName in MembersByName(plan.members) ==>
              var member := MembersByName(plan.members)[request.nodeName];
              RegistrationAction(plan, request, status)
              == if member.uid == request.serverUid && member.role == request.role then Some(Action(true, false, [])) else None
  {
  }
}
