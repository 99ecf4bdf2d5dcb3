/**
 Node ids: the initializer derives a pod's id from its hostname, the index of its
 datanode group and a start id, in 64-bit arithmetic that wraps around.
 */
module NodeIds {
  import opened Text
  import Names

  datatype Result<+T> = Ok(value: T) | Err(message: string)

  const TOML_INT_MAX: nat := 0x7fff_ffff_ffff_ffff

  /** Conversion of a signed 32-bit number to uint64: sign extension, modulo 2^64. */
  function ToUint64(x: int32): nat
  {
    if x >= 0 then x as int else UINT64_LIMIT + x as int
  }

  /** Bitwise or, bit by bit from the lowest. */
  function BitOr(a: nat, b: nat): nat
  {
    if a == 0 && b == 0 then 0
    else 2 * BitOr(a / 2, b / 2) + (if a % 2 == 1 || b % 2 == 1 then 1 else 0)
  }

  /** `uint64(group)<<32 | index`, then the start id, modulo 2^64. */
  function NodeId(group: int32, index: nat, start: int32): nat
    requires index < UINT64_LIMIT
  {
    var id := if group >= 0 then BitOr(group as int * TWO32 % UINT64_LIMIT, index) else index;
    (id + ToUint64(start)) % UINT64_LIMIT
  }

  /** allocateNodeID, with the hostname as the system call returned it. */
  method AllocateNodeId(hostname: Result<string>, group: int32, start: int32) returns (r: Result<nat>)
    ensures r.Ok? <==> hostname.Ok? && hostname.value != "" && ParseUint64(LastToken(hostname.value, '-')).Some?
    ensures r.Ok? ==> r.value == NodeId(group, ParseUint64(LastToken(hostname.value, '-')).value, start)
  {
    if hostname.Err? {
      return Err(hostname.message);
    }
    var name := hostname.value;
    if name == "" {
      return Err("the hostname is empty");
    }
    var tokens := Split(name, '-');
    var index := ParseUint64(tokens[|tokens| - 1]);
    if index.None? {
      return Err("invalid hostname format");
    }
    var nodeId := index.value;
    if group >= 0 {
      nodeId := BitOr(group as int * TWO32 % UINT64_LIMIT, nodeId);
    }
    r := Ok((nodeId + ToUint64(start)) % UINT64_LIMIT);
  }

  // ----- The hostname -----

  /** A StatefulSet names its pods after itself and their ordinal; the name may itself hold hyphens. */
  function PodHostname(statefulSet: string, ordinal: nat): string
  {
    statefulSet + "-" + Decimal(ordinal)
  }

  /** The ordinal survives the resource name, the pod name and the splitting. */
  lemma OrdinalRoundTrip(statefulSet: string, ordinal: nat)
    requires ordinal < UINT64_LIMIT
    ensures PodHostname(statefulSet, ordinal) != ""
    ensures ParseUint64(LastToken(PodHostname(statefulSet, ordinal), '-')) == Some(ordinal)
  {
    DecimalDigits(ordinal);
    assert '-' !in Decimal(ordinal);
    assert PodHostname(statefulSet, ordinal) == statefulSet + ['-'] + Decimal(ordinal);
    LastTokenOfSuffix(statefulSet, '-', Decimal(ordinal));
    DecimalRoundTrip(ordinal);
  }

  // ----- The arithmetic -----

  function Pow2(k: nat): nat
  {
    if k == 0 then 1 else 2 * Pow2(k - 1)
  }

  lemma {:induction false} BitOrZero(b: nat)
    ensures BitOr(0, b) == b
    decreases b
  {
    if b > 0 {
      BitOrZero(b / 2);
    }
  }

  /** Or-ing a number into the zero bits below a shifted one adds it. */
  lemma {:induction false} OrIsPlusBelow(a: nat, k: nat, b: nat)
    requires b < Pow2(k)
    ensures BitOr(a * Pow2(k), b) == a * Pow2(k) + b
    decreases k
  {
    if k == 0 {
      OrWithZero(a);
    } else {
      var half := a * Pow2(k - 1);
      assert a * Pow2(k) == 2 * half;
      OrIsPlusBelow(a, k - 1, b / 2);
    }
  }

  lemma {:induction false} OrWithZero(a: nat)
    ensures BitOr(a, 0) == a
    decreases a
  {
    if a > 0 {
      OrWithZero(a / 2);
    }
  }

  lemma Pow2Of32()
    ensures Pow2(32) == TWO32
  {
    assert Pow2(8) == 256;
    assert Pow2(16) == 65536 by { assert Pow2(12) == 4096; }
    assert Pow2(24) == 0x100_0000 by { assert Pow2(20) == 0x10_0000; }
    assert Pow2(28) == 0x1000_0000;
  }

  /** A start id is added, whatever its sign, modulo 2^64. */
  lemma StartIsAdded(n: nat, start: int32)
    ensures (n + ToUint64(start)) % UINT64_LIMIT == (n + start as int) % UINT64_LIMIT
  {
  }

  /** An id of a datanode group, for a pod ordinal of a 32-bit replica count and any 32-bit start id. */
  lemma GroupIdIsSum(group: int32, index: nat, start: int32)
    requires group >= 0 && index < 0x7fff_ffff
    ensures NodeId(group, index, start)
         == (group as int * TWO32 + index + start as int) % UINT64_LIMIT
    ensures group as int * TWO32 + index + start as int < UINT64_LIMIT
  {
    var shifted := group as int * TWO32;
    Pow2Of32();
    OrIsPlusBelow(group as int, 32, index);
    assert shifted % UINT64_LIMIT == shifted;
    StartIsAdded(shifted + index, start);
  }

  /** The ids fit the signed 64-bit integers of TOML exactly when the start id does not pull them below zero. */
  lemma FitsTomlExactly(group: int32, index: nat, start: int32)
    requires group >= 0 && index < 0x7fff_ffff
    ensures NodeId(group, index, start) <= TOML_INT_MAX <==> group as int * TWO32 + index + start as int >= 0
  {
    GroupIdIsSum(group, index, start);
  }

  /** For start ids that are not negative every id is at most 2^63 - 3, whatever the group and the ordinal. */
  lemma IdBound(group: int32, index: nat, start: int32)
    requires group >= 0 && start >= 0 && index < 0x7fff_ffff
    ensures NodeId(group, index, start) == group as int * TWO32 + index + start as int
    ensures NodeId(group, index, start) <= TOML_INT_MAX - 2
  {
    GroupIdIsSum(group, index, start);
  }

  /** The bound is met by the last pod of the last group. */
  lemma IdBoundIsTight()
    ensures NodeId(0x7fff_ffff, 0x7fff_fffe, 0x7fff_ffff) == TOML_INT_MAX - 2
  {
    GroupIdIsSum(0x7fff_ffff, 0x7fff_fffe, 0x7fff_ffff);
  }

  /** An id determines the group and, with the group's start id, the ordinal. */
  lemma IdsDistinct(g: int32, i: nat, s: int32, h: int32, j: nat, r: int32)
    requires g >= 0 && h >= 0 && s >= 0 && r >= 0 && i < 0x7fff_ffff && j < 0x7fff_ffff
    requires g == h ==> s == r
    requires NodeId(g, i, s) == NodeId(h, j, r)
    ensures g == h && i == j
  {
    IdBound(g, i, s);
    IdBound(h, j, r);
  }

  // ----- Pods without a group -----

  /** Without a group, which is a negative one, the id is the ordinal and the start id, modulo 2^64. */
  lemma UngroupedIdIsSum(group: int32, index: nat, start: int32)
    requires group < 0 && index < UINT64_LIMIT
    ensures NodeId(group, index, start) == (index + start as int) % UINT64_LIMIT
    ensures index + start as int >= 0 && index < 0x7fff_ffff ==> NodeId(group, index, start) == index + start as int
  {
    StartIsAdded(index, start);
  }

  /** Such an id fits TOML exactly when the start id does not pull it below zero. */
  lemma UngroupedFitsExactly(group: int32, index: nat, start: int32)
    requires group < 0 && index < 0x7fff_ffff
    ensures NodeId(group, index, start) <= TOML_INT_MAX <==> index + start as int >= 0
  {
    UngroupedIdIsSum(group, index, start);
  }

  /** The pods of an ungrouped datanode, or of a flownode, have distinct ids, for every start id. */
  lemma UngroupedIdsDistinct(i: nat, j: nat, start: int32)
    requires i < 0x7fff_ffff && j < 0x7fff_ffff && i != j
    ensures NodeId(-1, i, start) != NodeId(-1, j, start)
  {
    UngroupedIdIsSum(-1, i, start);
    UngroupedIdIsSum(-1, j, start);
  }

  /** Scaling up gives no new pod the id of an old one; the old ones depend on nothing that has changed. */
  lemma ScalingKeepsIds(before: int32, after: int32, start: int32, i: nat, j: nat)
    requires i < before as int <= j < after as int
    ensures NodeId(-1, i, start) != NodeId(-1, j, start)
    ensures NodeId(-1, i, start) == (i + start as int) % UINT64_LIMIT
  {
    UngroupedIdsDistinct(i, j, start);
    UngroupedIdIsSum(-1, i, start);
  }

  const NO_GROUP: int32 := -1

  /** The id that a pod of an ungrouped datanode, or of a flownode, allocates for itself: no group is given to it. */
  method UngroupedPodAllocates(cluster: string, component: string, ordinal: nat, start: int32) returns (r: Result<nat>)
    requires ordinal < 0x7fff_ffff
    ensures r == Ok((ordinal + start as int) % UINT64_LIMIT)
  {
    var name := Names.BuildResourceName(cluster, component, []);
    OrdinalRoundTrip(name, ordinal);
    UngroupedIdIsSum(NO_GROUP, ordinal, start);
    r := AllocateNodeId(Ok(PodHostname(name, ordinal)), NO_GROUP, start);
  }

  // ----- The hostnames that are accepted -----

  /**
   Allocation fails exactly if the hostname cannot be read, or does not end in the digits of a 64-bit number that are
   all of it or follow a hyphen; and the number is the ordinal.
   */
  lemma OrdinalExactly(hostname: string, ordinal: nat)
    ensures hostname != "" && ParseUint64(LastToken(hostname, '-')) == Some(ordinal) <==>
        EndsIn(hostname, '-', ordinal) && ordinal < UINT64_LIMIT
  {
    LastNumberExactly(hostname, '-', ordinal);
  }

  // ----- A whole cluster -----

  datatype Group = Group(name: string, replicas: int32, start: int32)

  /** The group index is the position in the list, as a 32-bit number. */
  predicate ValidGroups(groups: seq<Group>)
  {
    |groups| <= 0x8000_0000 && forall g :: g in groups ==> g.start >= 0
  }

  predicate IsPod(groups: seq<Group>, g: nat, ordinal: nat)
  {
    g < |groups| && ordinal < groups[g].replicas as int
  }

  function PodId(groups: seq<Group>, g: nat, ordinal: nat): nat
    requires ValidGroups(groups) && IsPod(groups, g, ordinal)
  {
    NodeId(g as int32, ordinal, groups[g].start)
  }

  /** A pod's id is its group's position, and below 2^32 its ordinal and start id. */
  lemma IdOfPod(groups: seq<Group>, g: nat, i: nat)
    requires ValidGroups(groups) && IsPod(groups, g, i)
    ensures PodId(groups, g, i) == g * TWO32 + (i + groups[g].start as int)
    ensures 0 <= i + groups[g].start as int < TWO32
  {
    assert groups[g] in groups;
    IdBound(g as int32, i, groups[g].start);
  }

  lemma PositionsAreApart(g: nat, a: nat, h: nat, b: nat)
    requires a < TWO32 && b < TWO32 && g < h
    ensures g * TWO32 + a != h * TWO32 + b
  {
    assert h * TWO32 >= (g + 1) * TWO32;
  }

  /** No two pods of a cluster share an id, for any number of groups and any replica counts. */
  lemma AllIdsDistinct(groups: seq<Group>, g: nat, i: nat, h: nat, j: nat)
    requires ValidGroups(groups) && IsPod(groups, g, i) && IsPod(groups, h, j)
    requires (g, i) != (h, j)
    ensures PodId(groups, g, i) != PodId(groups, h, j)
  {
    IdOfPod(groups, g, i);
    IdOfPod(groups, h, j);
    if g < h {
      PositionsAreApart(g, i + groups[g].start as int, h, j + groups[h].start as int);
    } else if h < g {
      PositionsAreApart(h, j + groups[h].start as int, g, i + groups[g].start as int);
    }
  }

  /** The two lists agree on start ids as far as the shorter one goes, and no group shrank. */
  predicate Grows(before: seq<Group>, after: seq<Group>)
  {
    && |before| <= |after|
    && forall g :: 0 <= g < |before| ==> after[g].start == before[g].start && after[g].replicas >= before[g].replicas
  }

  /** Appending groups and scaling up leaves every existing pod its id, and no new pod takes one of those. */
  lemma GrowthKeepsIds(before: seq<Group>, after: seq<Group>, g: nat, i: nat, h: nat, j: nat)
    requires ValidGroups(before) && ValidGroups(after) && Grows(before, after)
    requires IsPod(before, g, i) && IsPod(after, h, j) && !IsPod(before, h, j)
    ensures IsPod(after, g, i) && PodId(after, g, i) == PodId(before, g, i)
    ensures PodId(after, h, j) != PodId(before, g, i)
  {
    AllIdsDistinct(after, g, i, h, j);
  }

  /** A group that is moved to another position takes the ids of that position: positions are what ids depend on. */
  lemma PositionDecides(groups: seq<Group>, moved: seq<Group>, g: nat, h: nat, i: nat)
    requires ValidGroups(groups) && ValidGroups(moved) && IsPod(groups, g, i) && IsPod(moved, h, i)
    requires groups[g] == moved[h]
    ensures PodId(moved, h, i) == PodId(groups, g, i) <==> h == g
  {
    assert groups[g] in groups;
    IdBound(g as int32, i, groups[g].start);
    IdBound(h as int32, i, groups[g].start);
  }

  /** The id that a pod of a group allocates for itself, from its hostname alone. */
  method PodAllocates(cluster: string, groups: seq<Group>, g: nat, ordinal: nat) returns (r: Result<nat>)
    requires ValidGroups(groups) && IsPod(groups, g, ordinal)
    ensures r == Ok(PodId(groups, g, ordinal))
  {
    var name := Names.BuildResourceName(cluster, Names.DATANODE, [groups[g].name]);
    OrdinalRoundTrip(name, ordinal);
    r := AllocateNodeId(Ok(PodHostname(name, ordinal)), g as int32, groups[g].start);
  }
}
