/** The pinned partition layout, its check before the erase and its attestation on the installed disk. */
module Storage {
  import opened Pigeonhole
  import opened Wrappers

  const MIB := 1048576

  /** One entry of the API-pinned layout. */
  datatype Entry = Entry(
    number: int, role: string, filesystem: string, mountPoint: Option<string>, startMiB: int, endMiB: int)

  /** The normalized form handed to the installer. */
  datatype Partition = Partition(
    number: int, role: string, filesystem: string, mountPoint: string, startMiB: int, endMiB: int)

  /** What inspection of the installed disk reports about one partition. */
  datatype Actual = Actual(
    number: int, startBytes: int, size: int, filesystem: string, uuid: string, partUuid: string,
    activeSwap: bool, mountPoints: seq<string>)

  datatype Refusal = InvalidGeometry | MissingRole | DifferentSet | DifferentPartition(number: int)

  function Mount(entry: Entry): string {
    if entry.mountPoint.Some? then entry.mountPoint.value else ""
  }

  function Normalize(entry: Entry): Partition {
    Partition(entry.number, entry.role, entry.filesystem, Mount(entry), entry.startMiB, entry.endMiB)
  }

  function Planned(entries: seq<Entry>): seq<Partition> {
    seq(|entries|, i requires 0 <= i < |entries| => Normalize(entries[i]))
  }

  // ---- Before the erase ----

  function Start(entries: seq<Entry>, i: int): int
    requires 0 <= i < |entries|
  {
    if i == 0 then 1 else entries[i - 1].endMiB
  }

  /** A nonempty extent that begins where the one before it ends, or at 1 MiB, and leaves the last MiB free. */
  ghost predicate Extends(entries: seq<Entry>, size: int, i: int)
    requires 0 <= i < |entries|
  {
    && entries[i].startMiB == Start(entries, i) && entries[i].startMiB < entries[i].endMiB
    && (entries[i].endMiB + 1) * MIB <= size
  }

  ghost predicate Tiles(entries: seq<Entry>, size: int) {
    forall i :: 0 <= i < |entries| ==> Extends(entries, size, i)
  }

  predicate Clash(a: Entry, b: Entry) {
    a.number == b.number || (Mount(a) != "" && Mount(a) == Mount(b))
  }

  /** Numbers are unique, and so are the mount points that are not empty. */
  ghost predicate NoClash(entries: seq<Entry>) {
    forall i, j :: 0 <= i < j < |entries| ==> !Clash(entries[i], entries[j])
  }

  function Roles(parts: seq<Partition>): seq<string> {
    seq(|parts|, i requires 0 <= i < |parts| => parts[i].role)
  }

  ghost predicate Installable(entries: seq<Entry>, size: int) {
    && Tiles(entries, size) && NoClash(entries)
    && OccursOnce(Roles(Planned(entries)), "root") && OccursOnce(Roles(Planned(entries)), "efi")
  }

  lemma WholeMiBs(end: int, size: int)
    ensures end <= size / MIB - 1 <==> (end + 1) * MIB <= size
  {
  }

  /** What the loop has seen of the numbers and mount points. */
  ghost predicate Seen(entries: seq<Entry>, numbers: set<int>, mounts: set<string>) {
    && (forall e :: e in entries ==> e.number in numbers && (Mount(e) != "" ==> Mount(e) in mounts))
    && (forall n :: n in numbers ==> exists e :: e in entries && e.number == n)
    && (forall m :: m in mounts ==> m != "" && exists e :: e in entries && Mount(e) == m)
  }

  lemma SeenNext(
      entries: seq<Entry>, k: nat, numbers: set<int>, mounts: set<string>, nextNumbers: set<int>, nextMounts: set<string>)
    requires k < |entries| && Seen(entries[..k], numbers, mounts)
    requires nextNumbers == numbers + {entries[k].number}
    requires nextMounts == if Mount(entries[k]) != "" then mounts + {Mount(entries[k])} else mounts
    ensures Seen(entries[..k + 1], nextNumbers, nextMounts)
  {
    assert entries[..k + 1] == entries[..k] + [entries[k]];
  }

  ghost predicate ClashesBefore(entries: seq<Entry>, k: int)
    requires 0 <= k < |entries|
  {
    exists i :: 0 <= i < k && Clash(entries[i], entries[k])
  }

  predicate Refused(entry: Entry, size: int, previousEnd: int, numbers: set<int>, mounts: set<string>) {
    || entry.startMiB != previousEnd || entry.endMiB <= entry.startMiB || entry.endMiB > size / MIB - 1
    || entry.number in numbers || (entry.mountPoint.Some? && entry.mountPoint.value in mounts)
  }

  lemma RefusedMeans(entries: seq<Entry>, k: nat, size: int, numbers: set<int>, mounts: set<string>)
    requires k < |entries| && Seen(entries[..k], numbers, mounts)
    ensures Refused(entries[k], size, Start(entries, k), numbers, mounts)
            <==> !Extends(entries, size, k) || ClashesBefore(entries, k)
  {
    WholeMiBs(entries[k].endMiB, size);
    ClashesWithSeen(entries, k, numbers, mounts);
    hide Seen, Clash, ClashesBefore;
  }

  lemma ClashesWithSeen(entries: seq<Entry>, k: nat, numbers: set<int>, mounts: set<string>)
    requires k < |entries| && Seen(entries[..k], numbers, mounts)
    ensures ClashesBefore(entries, k) <==> entries[k].number in numbers || Mount(entries[k]) in mounts
    ensures "" !in mounts
  {
    if i :| 0 <= i < k && Clash(entries[i], entries[k]) {
      assert entries[i] in entries[..k];
    }
    if e :| e in entries[..k] && Clash(e, entries[k]) {
      var i :| 0 <= i < k && entries[i] == e;
      assert Clash(entries[i], entries[k]);
    }
  }

  /** The entries before `k` are in order and do not clash. */
  ghost predicate GoodBefore(entries: seq<Entry>, size: int, k: int) {
    forall i :: 0 <= i < k && i < |entries| ==> Extends(entries, size, i) && !ClashesBefore(entries, i)
  }

  lemma GoodMeans(entries: seq<Entry>, size: int)
    ensures GoodBefore(entries, size, |entries|) <==> Tiles(entries, size) && NoClash(entries)
  {
    if Tiles(entries, size) && NoClash(entries) {
      forall i | 0 <= i < |entries|
        ensures Extends(entries, size, i) && !ClashesBefore(entries, i)
      {
      }
    }
    if GoodBefore(entries, size, |entries|) {
      forall i, j | 0 <= i < j < |entries|
        ensures !Clash(entries[i], entries[j])
      {
        assert !ClashesBefore(entries, j);
      }
    }
  }

  method ValidateStorage(entries: seq<Entry>, size: int) returns (result: Result<seq<Partition>, Refusal>)
    ensures result.Ok? <==> Installable(entries, size)
    ensures result.Ok? ==> result.value == Planned(entries)
    ensures result == Err(InvalidGeometry) <==> !(Tiles(entries, size) && NoClash(entries))
  {
    hide Seen, Tiles, NoClash, Extends, ClashesBefore, Refused, GoodBefore, OccursOnce, Count;
    GoodMeans(entries, size);
    NothingSeen(entries, size);
    var partitions: seq<Partition> := [];
    var previousEnd := 1;
    var numbers: set<int> := {};
    var mounts: set<string> := {};
    for k := 0 to |entries|
      invariant partitions == Planned(entries)[..k]
      invariant k < |entries| ==> previousEnd == Start(entries, k)
      invariant GoodBefore(entries, size, k)
      invariant Seen(entries[..k], numbers, mounts)
    {
      var entry := entries[k];
      RefusedMeans(entries, k, size, numbers, mounts);
      GoodNext(entries, size, k);
      if Refused(entry, size, previousEnd, numbers, mounts) {
        return Err(InvalidGeometry);
      }
      ghost var oldNumbers, oldMounts := numbers, mounts;
      numbers := numbers + {entry.number};
      if entry.mountPoint.Some? && entry.mountPoint.value != "" {
        mounts := mounts + {entry.mountPoint.value};
      }
      SeenNext(entries, k, oldNumbers, oldMounts, numbers, mounts);
      assert Planned(entries)[k] == Normalize(entry);
      partitions := partitions + [Normalize(entry)];
      previousEnd := entry.endMiB;
    }
    assert partitions == Planned(entries);
    CountMeans(Roles(partitions), "root");
    CountMeans(Roles(partitions), "efi");
    if Count(Roles(partitions), "root") != 1 || Count(Roles(partitions), "efi") != 1 {
      return Err(MissingRole);
    }
    return Ok(partitions);
  }

  lemma NothingSeen(entries: seq<Entry>, size: int)
    ensures Seen(entries[..0], {}, {}) && GoodBefore(entries, size, 0)
  {
  }

  lemma GoodNext(entries: seq<Entry>, size: int, k: nat)
    requires k < |entries| && GoodBefore(entries, size, k)
    ensures GoodBefore(entries, size, k + 1) <==> Extends(entries, size, k) && !ClashesBefore(entries, k)
    ensures GoodBefore(entries, size, |entries|) ==> GoodBefore(entries, size, k + 1)
  {
  }

  // ---- After the reboot ----

  predicate Mounted(planned: Partition, actual: Actual) {
    if planned.role == "swap" then actual.activeSwap else planned.mountPoint in actual.mountPoints
  }

  predicate Matches(planned: Partition, actual: Actual) {
    && actual.startBytes == planned.startMiB * MIB && actual.size == (planned.endMiB - planned.startMiB) * MIB
    && actual.filesystem == planned.filesystem && actual.uuid != "" && actual.partUuid != ""
    && Mounted(planned, actual)
  }

  function Numbers(observed: seq<Actual>): seq<int> {
    seq(|observed|, i requires 0 <= i < |observed| => observed[i].number)
  }

  ghost predicate Shows(observed: seq<Actual>, planned: Partition, j: int) {
    0 <= j < |observed| && observed[j].number == planned.number && Matches(planned, observed[j])
  }

  ghost predicate Shown(observed: seq<Actual>, planned: Partition) {
    exists j :: Shows(observed, planned, j)
  }

  ghost predicate SameSize(planned: seq<Partition>, observed: seq<Actual>) {
    |observed| == |planned| && Distinct(Numbers(observed))
  }

  ghost predicate Attested(planned: seq<Partition>, observed: seq<Actual>) {
    && SameSize(planned, observed)
    && forall i :: 0 <= i < |planned| ==> Shown(observed, planned[i])
  }

  /** Index the inspection by partition number; a repeated number leaves fewer keys than entries. */
  method IndexByNumber(observed: seq<Actual>) returns (indexed: map<int, Actual>)
    ensures forall n :: n in indexed ==>
              exists j :: 0 <= j < |observed| && observed[j].number == n && indexed[n] == observed[j]
    ensures indexed.Keys == Elements(Numbers(observed))
    ensures |indexed| <= |observed| && (|indexed| == |observed| <==> Distinct(Numbers(observed)))
  {
    indexed := map[];
    for k := 0 to |observed|
      invariant forall n :: n in indexed ==> exists j :: 0 <= j < k && observed[j].number == n && indexed[n] == observed[j]
      invariant indexed.Keys == Elements(Numbers(observed[..k]))
    {
      assert Numbers(observed[..k + 1]) == Numbers(observed[..k]) + [observed[k].number];
      indexed := indexed[observed[k].number := observed[k]];
    }
    assert observed[..|observed|] == observed;
    DistinctByCount(Numbers(observed));
    assert |indexed| == |indexed.Keys|;
  }

  method VerifyInstalledStorage(planned: seq<Partition>, observed: seq<Actual>) returns (refusal: Option<Refusal>)
    ensures refusal.None? <==> Attested(planned, observed)
    ensures refusal == Some(DifferentSet) <==> !SameSize(planned, observed)
    ensures refusal.Some? && refusal.value.DifferentPartition? ==>
              exists i :: 0 <= i < |planned| && planned[i].number == refusal.value.number && !Shown(observed, planned[i])
  {
    var indexed := IndexByNumber(observed);
    if |indexed| != |planned| || |indexed| != |observed| {
      return Some(DifferentSet);
    }
    for i := 0 to |planned|
      invariant forall k :: 0 <= k < i ==> Shown(observed, planned[k])
    {
      var number := planned[i].number;
      if number !in indexed || !Matches(planned[i], indexed[number]) {
        forall j
          ensures !Shows(observed, planned[i], j)
        {
          IndexedOnly(observed, indexed, j);
        }
        return Some(DifferentPartition(number));
      }
      ghost var j :| 0 <= j < |observed| && observed[j].number == number && indexed[number] == observed[j];
      assert Shows(observed, planned[i], j);
    }
    return None;
  }

  lemma IndexedOnly(observed: seq<Actual>, indexed: map<int, Actual>, j: int)
    requires forall n :: n in indexed ==>
               exists j :: 0 <= j < |observed| && observed[j].number == n && indexed[n] == observed[j]
    requires indexed.Keys == Elements(Numbers(observed)) && Distinct(Numbers(observed))
    ensures 0 <= j < |observed| ==> observed[j].number in indexed && indexed[observed[j].number] == observed[j]
  {
    if 0 <= j < |observed| {
      var number := Numbers(observed)[j];
      var k :| 0 <= k < |observed| && observed[k].number == number && indexed[number] == observed[k];
      assert Numbers(observed)[k] == number;
    }
  }

  // ---- Both checks together ----

  ghost predicate Covers(actual: Actual, byte: int) {
    actual.startBytes <= byte < actual.startBytes + actual.size
  }

  ghost predicate Covered(observed: seq<Actual>, byte: int) {
    exists j :: 0 <= j < |observed| && Covers(observed[j], byte)
  }

  ghost function Place(entries: seq<Entry>, observed: seq<Actual>, i: int): (j: int)
    requires Attested(Planned(entries), observed) && 0 <= i < |entries|
    ensures Shows(observed, Normalize(entries[i]), j)
  {
    assert Shown(observed, Planned(entries)[i]);
    var j :| Shows(observed, Normalize(entries[i]), j);
    j
  }

  /** Where inspection lists each planned partition. */
  ghost function Places(entries: seq<Entry>, observed: seq<Actual>): seq<int>
    requires Attested(Planned(entries), observed)
  {
    seq(|entries|, i requires 0 <= i < |entries| => Place(entries, observed, i))
  }

  /** An accepted plan and an accepted inspection have the same partitions, one to one. */
  lemma NumbersCoincide(entries: seq<Entry>, size: int, observed: seq<Actual>)
    requires Installable(entries, size) && Attested(Planned(entries), observed)
    ensures |Places(entries, observed)| == |observed| && Distinct(Places(entries, observed))
    ensures forall j :: 0 <= j < |observed| ==> j in Places(entries, observed)
  {
    var places := Places(entries, observed);
    forall i, k | 0 <= i < k < |entries|
      ensures places[i] != places[k]
    {
      assert Shows(observed, Normalize(entries[i]), places[i]) && Shows(observed, Normalize(entries[k]), places[k]);
    }
    forall j | 0 <= j < |observed|
      ensures j in places
    {
      AllUsed(places, |entries|, j);
    }
  }

  /** Extents that tile stand in order, between 1 MiB and the last MiB of the disk. */
  lemma {:induction false} ExtentsOrdered(entries: seq<Entry>, size: int, i: nat, k: nat)
    requires Tiles(entries, size) && i <= k < |entries|
    ensures 1 <= entries[i].startMiB < entries[i].endMiB && entries[i].endMiB <= entries[k].endMiB
    ensures i < k ==> entries[i].endMiB <= entries[k].startMiB
    decreases k
  {
    assert Extends(entries, size, k);
    if i < k {
      ExtentsOrdered(entries, size, i, k - 1);
    } else if i > 0 {
      ExtentsOrdered(entries, size, i - 1, i - 1);
    }
  }

  lemma {:induction false} ByteIsPlanned(entries: seq<Entry>, size: int, byte: int, n: nat) returns (i: int)
    requires Tiles(entries, size) && 0 < n <= |entries| && MIB <= byte < entries[n - 1].endMiB * MIB
    ensures 0 <= i < |entries| && entries[i].startMiB * MIB <= byte < entries[i].endMiB * MIB
  {
    i := n - 1;
    assert Extends(entries, size, i);
    if byte < entries[i].startMiB * MIB {
      i := ByteIsPlanned(entries, size, byte, n - 1);
    }
  }

  /** The observed partition `j` is the planned extent `i`, in bytes. */
  lemma PlannedExtent(entries: seq<Entry>, size: int, observed: seq<Actual>, j: int) returns (i: nat)
    requires Installable(entries, size) && Attested(Planned(entries), observed) && 0 <= j < |observed|
    ensures i < |entries| && Place(entries, observed, i) == j
    ensures forall byte :: Covers(observed[j], byte) <==> entries[i].startMiB * MIB <= byte < entries[i].endMiB * MIB
  {
    NumbersCoincide(entries, size, observed);
    var places := Places(entries, observed);
    assert j in places;
    i :| 0 <= i < |places| && places[i] == j;
    assert Shows(observed, Normalize(entries[i]), j);
  }

  lemma ObservedDisjoint(entries: seq<Entry>, size: int, observed: seq<Actual>, j: int, k: int, byte: int)
    requires Installable(entries, size) && Attested(Planned(entries), observed)
    requires 0 <= j < |observed| && 0 <= k < |observed| && j != k && Covers(observed[j], byte)
    ensures !Covers(observed[k], byte)
  {
    var x := PlannedExtent(entries, size, observed, j);
    var y := PlannedExtent(entries, size, observed, k);
    if x < y {
      ExtentsOrdered(entries, size, x, y);
    } else {
      assert y < x;
      ExtentsOrdered(entries, size, y, x);
    }
  }

  lemma CoveredExactly(entries: seq<Entry>, size: int, observed: seq<Actual>, byte: int)
    requires Installable(entries, size) && Attested(Planned(entries), observed)
    ensures |entries| > 0
    ensures Covered(observed, byte) <==> MIB <= byte < entries[|entries| - 1].endMiB * MIB
  {
    assert "root" in Roles(Planned(entries));
    var last := |entries| - 1;
    if j :| 0 <= j < |observed| && Covers(observed[j], byte) {
      var i := PlannedExtent(entries, size, observed, j);
      ExtentsOrdered(entries, size, i, last);
    }
    if MIB <= byte < entries[last].endMiB * MIB {
      var i := ByteIsPlanned(entries, size, byte, |entries|);
      assert Shows(observed, Normalize(entries[i]), Place(entries, observed, i));
      assert Covers(observed[Place(entries, observed, i)], byte);
    }
  }

  /** On an attested disk the observed partitions are disjoint, and together they cover every byte from
      1 MiB to the end of the last planned one, which leaves the disk's last MiB free, and no other byte. */
  lemma AttestedDiskIsTiled(entries: seq<Entry>, size: int, observed: seq<Actual>)
    requires Installable(entries, size) && Attested(Planned(entries), observed)
    ensures forall j, k, byte ::
              0 <= j < |observed| && 0 <= k < |observed| && j != k && Covers(observed[j], byte) ==>
                !Covers(observed[k], byte)
    ensures |entries| > 0 && (entries[|entries| - 1].endMiB + 1) * MIB <= size
    ensures forall byte :: Covered(observed, byte) <==> MIB <= byte < entries[|entries| - 1].endMiB * MIB
  {
    forall j, k, byte | 0 <= j < |observed| && 0 <= k < |observed| && j != k && Covers(observed[j], byte)
      ensures !Covers(observed[k], byte)
    {
      ObservedDisjoint(entries, size, observed, j, k, byte);
    }
    CoveredExactly(entries, size, observed, 0);
    assert Extends(entries, size, |entries| - 1);
    forall byte
      ensures Covered(observed, byte) <==> MIB <= byte < entries[|entries| - 1].endMiB * MIB
    {
      CoveredExactly(entries, size, observed, byte);
    }
  }

  /** What attestation establishes of one planned partition, property by property. */
  lemma AttestedPartition(entries: seq<Entry>, observed: seq<Actual>, i: nat)
    requires Attested(Planned(entries), observed) && i < |entries|
    ensures exists j ::
              && 0 <= j < |observed| && observed[j].number == entries[i].number
              && observed[j].startBytes == entries[i].startMiB * 1048576
              && observed[j].startBytes + observed[j].size == entries[i].endMiB * 1048576
              && observed[j].filesystem == entries[i].filesystem && observed[j].uuid != "" && observed[j].partUuid != ""
              && (entries[i].role == "swap" ==> observed[j].activeSwap)
              && (entries[i].role != "swap" && entries[i].mountPoint.Some? ==>
                    entries[i].mountPoint.value in observed[j].mountPoints)
  {
    var j := Place(entries, observed, i);
    assert observed[j].number == entries[i].number;
  }

  // ---- Which accepted plans can be attested ----

  /** Inspection reports no empty mount point. */
  ghost predicate NamedMounts(observed: seq<Actual>) {
    forall j :: 0 <= j < |observed| ==> "" !in observed[j].mountPoints
  }

  ghost predicate Attestable(entries: seq<Entry>) {
    exists observed :: NamedMounts(observed) && Attested(Planned(entries), observed)
  }

  /** Every partition is swap or has somewhere to be mounted. */
  predicate AllMountable(entries: seq<Entry>) {
    forall i :: 0 <= i < |entries| ==> entries[i].role == "swap" || Mount(entries[i]) != ""
  }

  /** What inspection reports of a partition that was installed exactly as planned. */
  function AsPlanned(planned: Partition): Actual {
    Actual(planned.number, planned.startMiB * MIB, (planned.endMiB - planned.startMiB) * MIB, planned.filesystem,
           "uuid", "part-uuid", planned.role == "swap", if planned.mountPoint == "" then [] else [planned.mountPoint])
  }

  lemma UnmountedIsNeverAttested(entries: seq<Entry>, observed: seq<Actual>, i: nat)
    requires i < |entries| && entries[i].role != "swap" && Mount(entries[i]) == "" && NamedMounts(observed)
    ensures !Attested(Planned(entries), observed)
  {
    if Attested(Planned(entries), observed) {
      var j := Place(entries, observed, i);
      assert false;
    }
  }

  lemma MountableIsAttestable(entries: seq<Entry>)
    requires NoClash(entries) && AllMountable(entries)
    ensures Attestable(entries)
  {
    var planned := Planned(entries);
    var observed := seq(|planned|, i requires 0 <= i < |planned| => AsPlanned(planned[i]));
    forall i | 0 <= i < |planned|
      ensures Shown(observed, planned[i])
    {
      assert Shows(observed, planned[i], i);
    }
    assert Attested(planned, observed);
  }

  /** A plan accepted before the erase can be attested after it, without an inspection that reports empty mount
      points, if and only if every partition other than swap has a mount point. */
  lemma AttestableExactly(entries: seq<Entry>, size: int)
    requires Installable(entries, size)
    ensures Attestable(entries) <==> AllMountable(entries)
  {
    if AllMountable(entries) {
      MountableIsAttestable(entries);
    } else {
      var i :| 0 <= i < |entries| && entries[i].role != "swap" && Mount(entries[i]) == "";
      forall observed | NamedMounts(observed)
        ensures !Attested(Planned(entries), observed)
      {
        UnmountedIsNeverAttested(entries, observed, i);
      }
    }
  }

  /** An unmounted data partition beside EFI and root: accepted for the erase, impossible to attest. */
  lemma AcceptedButNeverAttested() returns (entries: seq<Entry>, size: int)
    ensures Installable(entries, size) && !Attestable(entries)
  {
    entries := [Entry(1, "efi", "vfat", Some("/boot/efi"), 1, 513), Entry(2, "root", "ext4", Some("/"), 513, 4097),
                Entry(3, "data", "ext4", None, 4097, 8193)];
    size := 8194 * MIB;
    var roles := Roles(Planned(entries));
    assert roles == ["efi", "root", "data"];
    assert roles[0] == "efi" && roles[1] == "root";
    assert Mount(entries[0]) == "/boot/efi" && |Mount(entries[0])| != |Mount(entries[1])|;
    assert Mount(entries[2]) == "" && !AllMountable(entries);
    AttestableExactly(entries, size);
  }
}
