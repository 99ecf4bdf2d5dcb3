/**
 Readiness checks and the replica counts they report. Counts are 32-bit numbers
 that wrap around, so that every equality below says what becomes of an overflow.
 */
module Readiness {
  import opened Text
  import opened Names
  import opened Resources

  const FRONTEND := "frontend"
  const TWO31: int := 0x8000_0000

  /** The 32-bit number that is congruent to `x`. */
  function Wrap(x: int): int32
  {
    ((x + TWO31) % TWO32 - TWO31) as int32
  }

  /** 32-bit addition. */
  function Plus(a: int32, b: int32): int32
  {
    Wrap(a as int + b as int)
  }

  // ----- The objects that are looked at -----

  datatype DeploymentCondition = DeploymentCondition(kind: string, reason: string)

  datatype Deployment = Deployment(
    generation: int, observedGeneration: int, replicas: int32, readyReplicas: int32,
        conditions: seq<DeploymentCondition>)

  /** The answer to a get. */
  datatype Read<+T> = Found(item: T) | NotFound | ReadFailed

  predicate IsProgressed(c: DeploymentCondition)
  {
    c.kind == "Progressing" && c.reason == "NewReplicaSetAvailable"
  }

  ghost predicate DeploymentReady(d: Deployment)
  {
    && d.observedGeneration == d.generation && d.readyReplicas == d.replicas
    && exists c :: c in d.conditions && IsProgressed(c)
  }

  method IsDeploymentReady(d: Deployment) returns (ready: bool)
    ensures ready <==> DeploymentReady(d)
  {
    if d.observedGeneration != d.generation {
      return false;
    }
    for i := 0 to |d.conditions|
      invariant forall j :: 0 <= j < i ==> !(IsProgressed(d.conditions[j]) && d.readyReplicas == d.replicas)
    {
      var c := d.conditions[i];
      if c.kind == "Progressing" {
        if c.reason == "NewReplicaSetAvailable" && d.readyReplicas == d.replicas {
          assert c in d.conditions;
          return true;
        }
      }
    }
    return false;
  }

  // ----- The cluster -----

  datatype Component = Component(name: string, replicas: Option<int32>)

  datatype Cluster = Cluster(
    name: string,
    datanode: Option<Component>, datanodeGroups: seq<Component>,
    frontend: Option<Component>, frontendGroups: seq<Component>)

  /** The objects of a role: the ungrouped one has the plain name, whatever its own name field says. */
  function ObjectNames(cluster: string, kind: string, single: Option<Component>, groups: seq<Component>): seq<string>
  {
    (if single.Some? then [ResourceName(cluster, kind, [])] else []) + GroupNames(cluster, kind, groups)
  }

  function GroupNames(cluster: string, kind: string, groups: seq<Component>): (r: seq<string>)
    ensures |r| == |groups|
    ensures forall i :: 0 <= i < |groups| ==> r[i] == ResourceName(cluster, kind, [groups[i].name])
  {
    if groups == [] then []
    else GroupNames(cluster, kind, groups[..|groups| - 1]) + [ResourceName(cluster, kind, [groups[|groups| - 1].name])]
  }

  /** The StatefulSets that are checked: an ungrouped datanode hides the groups. */
  function DatanodeNames(c: Cluster): seq<string>
  {
    if c.datanode.Some? then [ResourceName(c.name, DATANODE, [])] else GroupNames(c.name, DATANODE, c.datanodeGroups)
  }

  function FrontendNames(c: Cluster): seq<string>
  {
    ObjectNames(c.name, FRONTEND, c.frontend, c.frontendGroups)
  }

  /** Replicas as declared, group by group, undeclared ones as none. */
  function DeclaredSum(groups: seq<Component>): int
  {
    if groups == [] then 0
    else
      var last := groups[|groups| - 1];
      DeclaredSum(groups[..|groups| - 1]) + (if last.replicas.Some? then last.replicas.value as int else 0)
  }

  function DeclaredReplicas(c: Cluster): int32
  {
    if c.datanode.Some? && c.datanode.value.replicas.Some? then c.datanode.value.replicas.value
    else Wrap(DeclaredSum(c.datanodeGroups))
  }

  method GetDatanodeReplicas(c: Cluster) returns (count: int32)
    ensures count == DeclaredReplicas(c)
  {
    if c.datanode.Some? && c.datanode.value.replicas.Some? {
      return c.datanode.value.replicas.value;
    }
    count := 0;
    for i := 0 to |c.datanodeGroups|
      invariant count == Wrap(DeclaredSum(c.datanodeGroups[..i]))
    {
      assert c.datanodeGroups[..i + 1][..i] == c.datanodeGroups[..i];
      if c.datanodeGroups[i].replicas.Some? {
        WrapStep(DeclaredSum(c.datanodeGroups[..i]), c.datanodeGroups[i].replicas.value);
        count := Plus(count, c.datanodeGroups[i].replicas.value);
      }
    }
    assert c.datanodeGroups[..|c.datanodeGroups|] == c.datanodeGroups;
  }

  /** Wrapping at each addition is wrapping once. */
  lemma WrapStep(x: int, y: int32)
    ensures Plus(Wrap(x), y) == Wrap(x + y as int)
  {
    var q := (x + TWO31) / TWO32;
    assert x == Wrap(x) as int + q * TWO32;
    WrapPeriodic(Wrap(x) as int + y as int, q);
  }

  lemma WrapPeriodic(x: int, q: int)
    ensures Wrap(x + q * TWO32) == Wrap(x)
  {
    assert (x + q * TWO32 + TWO31) % TWO32 == (x + TWO31) % TWO32;
  }

  lemma WrapEqual(x: int, y: int)
    ensures Wrap(x) == Wrap(y) <==> (y - x) % TWO32 == 0
  {
    if (y - x) % TWO32 == 0 {
      WrapPeriodic(x, (y - x) / TWO32);
    }
  }

  lemma SmallCountsWrapApart(n: nat, m: nat)
    requires n <= m < TWO32
    ensures Wrap(n) == Wrap(m) <==> n == m
  {
    WrapEqual(n, m);
    SmallRemainder(m - n);
  }

  lemma SmallRemainder(d: nat)
    requires d < TWO32
    ensures d % TWO32 == 0 <==> d == 0
  {
  }

  // ----- The datanode check -----

  datatype Verdict = Ready | NotReady | Failed

  function ReadyReplicasOf(r: Read<Object>): int32
  {
    if r.Found? then r.item.live.readyReplicas else 0
  }

  function ReadySum(names: seq<string>, read: string -> Read<Object>): int
  {
    if names == [] then 0 else ReadySum(names[..|names| - 1], read) + ReadyReplicasOf(read(names[|names| - 1])) as int
  }

  function StoredSum(names: seq<string>, read: string -> Read<Object>): int
  {
    if names == [] then 0
    else
      var r := read(names[|names| - 1]);
      StoredSum(names[..|names| - 1], read) + (if r.Found? then r.item.live.replicas as int else 0)
  }

  /** The StatefulSet is there, its latest generation is rolled out, and all its replicas are current and ready. */
  predicate IsReady(r: Read<Object>)
  {
    && r.Found?
    && var l := r.item.live;
       l.observedGeneration == l.generation && l.readyReplicas == l.replicas && l.currentReplicas == l.replicas
  }

  function ReadyCount(names: seq<string>, read: string -> Read<Object>): (n: nat)
    ensures n <= |names|
  {
    if names == [] then 0
    else ReadyCount(names[..|names| - 1], read) + (if IsReady(read(names[|names| - 1])) then 1 else 0)
  }

  ghost predicate AllReady(names: seq<string>, read: string -> Read<Object>)
  {
    forall name :: name in names ==> IsReady(read(name))
  }

  ghost predicate NoneFailed(names: seq<string>, read: string -> Read<Object>)
  {
    forall name :: name in names ==> !read(name).ReadFailed?
  }

  lemma {:induction false} CountMeansAll(names: seq<string>, read: string -> Read<Object>)
    ensures ReadyCount(names, read) == |names| <==> AllReady(names, read)
    decreases |names|
  {
    if names != [] {
      var front, last := names[..|names| - 1], names[|names| - 1];
      CountMeansAll(front, read);
      assert names == front + [last];
    }
  }

  /** The 32-bit count of ready objects equals the 32-bit count of objects. */
  predicate CountsAgree(names: seq<string>, read: string -> Read<Object>)
  {
    Wrap(ReadyCount(names, read)) == Wrap(|names|)
  }

  /** In practice the counts agree exactly when every object is ready. */
  lemma AgreementIsAll(names: seq<string>, read: string -> Read<Object>)
    requires |names| < TWO32
    ensures CountsAgree(names, read) <==> AllReady(names, read)
  {
    CountMeansAll(names, read);
    SmallCountsWrapApart(ReadyCount(names, read), |names|);
  }

  /** But 2^32 of them, or a multiple, could be missing unnoticed. */
  lemma AgreementModulo(names: seq<string>, read: string -> Read<Object>)
    ensures CountsAgree(names, read) <==> (|names| - ReadyCount(names, read)) % TWO32 == 0
  {
    WrapEqual(ReadyCount(names, read), |names|);
  }

  /** What has to be ready: an ungrouped datanode alone, or every group. */
  lemma DatanodesExactly(c: Cluster, read: string -> Read<Object>)
    ensures AllReady(DatanodeNames(c), read) <==>
      if c.datanode.Some? then IsReady(read(c.name + "-datanode"))
      else forall g :: g in c.datanodeGroups ==> IsReady(read(ResourceName(c.name, "datanode", [g.name])))
  {
    var names := DatanodeNames(c);
    if c.datanode.Some? {
      assert c.name + "-" + DATANODE == c.name + "-datanode";
      assert names == [c.name + "-datanode"] && names[0] in names;
    } else {
      forall g | g in c.datanodeGroups && AllReady(names, read)
        ensures IsReady(read(ResourceName(c.name, "datanode", [g.name])))
      {
        var i :| 0 <= i < |c.datanodeGroups| && c.datanodeGroups[i] == g;
        assert names[i] in names;
      }
    }
  }

  lemma SingleDatanode(name: string, read: string -> Read<Object>)
    ensures ReadySum([name], read) == ReadyReplicasOf(read(name)) as int
    ensures Wrap(ReadySum([name], read)) == ReadyReplicasOf(read(name))
  {
    assert [name][..0] == [];
    assert ReadySum([name][..0], read) == 0;
  }

  lemma TallyStep(names: seq<string>, read: string -> Read<Object>, i: nat)
    requires i < |names|
    ensures var before, after, sts := names[..i], names[..i + 1], read(names[i]);
      && Wrap(ReadySum(after, read)) == Plus(Wrap(ReadySum(before, read)), ReadyReplicasOf(sts))
      && Wrap(ReadyCount(after, read))
         == (if IsReady(sts) then Plus(Wrap(ReadyCount(before, read)), 1) else Wrap(ReadyCount(before, read)))
      && after == before + [names[i]]
  {
    assert names[..i + 1][..i] == names[..i];
    WrapStep(ReadySum(names[..i], read), ReadyReplicasOf(read(names[i])));
    WrapStep(ReadyCount(names[..i], read), 1);
  }

  /** The loop over the groups counts the ready ones and adds up their ready replicas; None if a read fails. */
  method TallyDatanodeGroups(c: Cluster, read: string -> Read<Object>) returns (r: Option<(int32, int32)>)
    ensures var names := GroupNames(c.name, DATANODE, c.datanodeGroups);
            && (r.Some? <==> NoneFailed(names, read))
            && (r.Some? ==> r.value == (Wrap(ReadyCount(names, read)), Wrap(ReadySum(names, read))))
  {
    ghost var names := GroupNames(c.name, DATANODE, c.datanodeGroups);
    var readyCount: int32, totalReadyReplicas: int32 := 0, 0;
    for i := 0 to |c.datanodeGroups|
      invariant readyCount == Wrap(ReadyCount(names[..i], read))
      invariant totalReadyReplicas == Wrap(ReadySum(names[..i], read))
      invariant NoneFailed(names[..i], read)
    {
      var resourceName := BuildResourceName(c.name, DATANODE, [c.datanodeGroups[i].name]);
      var sts := read(resourceName);
      if sts.ReadFailed? {
        assert names[i] in names;
        return None;
      }
      TallyStep(names, read, i);
      totalReadyReplicas := Plus(totalReadyReplicas, ReadyReplicasOf(sts));
      if sts.Found? && IsStatefulSetReady(sts.item) {
        readyCount := Plus(readyCount, 1);
      }
    }
    assert names[..|c.datanodeGroups|] == names;
    r := Some((readyCount, totalReadyReplicas));
  }

  /** The component part of a cluster's status, updated in place. */
  class Status {
    var datanodeReplicas: int32
    var datanodeReadyReplicas: int32
    var frontendReplicas: int32
    var frontendReadyReplicas: int32

    constructor ()
    {
      datanodeReplicas, datanodeReadyReplicas, frontendReplicas, frontendReadyReplicas := 0, 0, 0, 0;
    }

    method CheckDatanodeGroups(c: Cluster, read: string -> Read<Object>) returns (r: Verdict)
      requires c.datanode.None?
      modifies this`datanodeReplicas, this`datanodeReadyReplicas
      ensures var names := DatanodeNames(c);
        && (r == Failed <==> !NoneFailed(names, read))
        && (r == Ready <==> NoneFailed(names, read) && CountsAgree(names, read))
        && (r != Failed ==>
              datanodeReplicas == DeclaredReplicas(c) && datanodeReadyReplicas == Wrap(ReadySum(names, read)))
      ensures r == Failed ==> unchanged(this)
    {
      var tally := TallyDatanodeGroups(c, read);
      if tally.None? {
        return Failed;
      }
      var (readyCount, totalReadyReplicas) := tally.value;
      datanodeReplicas := GetDatanodeReplicas(c);
      datanodeReadyReplicas := totalReadyReplicas;
      r := if readyCount == Wrap(|c.datanodeGroups|) then Ready else NotReady;
    }

    method CheckDatanode(c: Cluster, read: string -> Read<Object>) returns (r: Verdict)
      modifies this`datanodeReplicas, this`datanodeReadyReplicas
      ensures var names := DatanodeNames(c);
        && (r == Failed <==> !NoneFailed(names, read))
        && (|names| < TWO32 ==> (r == Ready <==> AllReady(names, read)))
        && (r != Failed && names != [] ==>
              datanodeReplicas == DeclaredReplicas(c) && datanodeReadyReplicas == Wrap(ReadySum(names, read)))
      ensures r == Failed || DatanodeNames(c) == [] ==> unchanged(this)
    {
      ghost var names := DatanodeNames(c);
      if |names| < TWO32 {
        AgreementIsAll(names, read);
      }
      if c.datanode.Some? {
        var name := BuildResourceName(c.name, DATANODE, []);
        assert names == [name];
        SingleDatanode(name, read);
        var sts := read(name);
        if sts.ReadFailed? {
          return Failed;
        }
        datanodeReplicas := GetDatanodeReplicas(c);
        datanodeReadyReplicas := if sts.Found? then sts.item.live.readyReplicas else 0;
        return if sts.Found? && IsStatefulSetReady(sts.item) then Ready else NotReady;
      }
      if |c.datanodeGroups| > 0 {
        r := CheckDatanodeGroups(c, read);
        return;
      }
      return Ready;
    }

    method CheckFrontend(c: Cluster, read: string -> Read<Deployment>) returns (r: Verdict)
      modifies this`frontendReplicas, this`frontendReadyReplicas
      ensures r == Ready <==> FrontendsReady(FrontendNames(c), read)
      ensures r == Failed <==> FirstObstacleIsFailure(FrontendNames(c), read)
      ensures r == Ready ==> frontendReplicas == frontendReadyReplicas == Wrap(FrontendSum(FrontendNames(c), read))
      ensures r != Ready ==> unchanged(this)
    {
      var replicas, readyReplicas;
      r, replicas, readyReplicas := TallyFrontends(c, read);
      if r == Ready {
        frontendReplicas, frontendReadyReplicas := replicas, readyReplicas;
      }
    }
  }

  // ----- The frontend check -----

  /** One Deployment: missing, unreadable, not ready, or ready with its counts. */
  method CheckDeployment(r: Read<Deployment>) returns (verdict: Verdict, replicas: int32, readyReplicas: int32)
    ensures verdict == Ready <==> FrontendReady(r)
    ensures verdict == Failed <==> r.ReadFailed?
    ensures verdict == Ready ==> replicas == readyReplicas == r.item.replicas
  {
    replicas, readyReplicas := 0, 0;
    if r.NotFound? {
      return NotReady, 0, 0;
    }
    if r.ReadFailed? {
      return Failed, 0, 0;
    }
    var ready := IsDeploymentReady(r.item);
    return if ready then Ready else NotReady, r.item.replicas, r.item.readyReplicas;
  }

  /** The loop over the groups; it gives up at the first object that is missing, unreadable or not ready. */
  method TallyFrontendGroups(cluster: string, groups: seq<Component>, read: string -> Read<Deployment>)
    returns (r: Verdict, replicas: int32, readyReplicas: int32)
    ensures r == Ready <==> FrontendsReady(GroupNames(cluster, FRONTEND, groups), read)
    ensures r == Failed <==> FirstObstacleIsFailure(GroupNames(cluster, FRONTEND, groups), read)
    ensures r == Ready ==> replicas == readyReplicas == Wrap(FrontendSum(GroupNames(cluster, FRONTEND, groups), read))
  {
    ghost var names := GroupNames(cluster, FRONTEND, groups);
    r, replicas, readyReplicas := Ready, 0, 0;
    for i := 0 to |groups|
      invariant r == Ready && ReadyUpTo(names, i, read)
      invariant replicas == readyReplicas == Wrap(FrontendSum(names[..i], read))
    {
      var name := BuildResourceName(cluster, FRONTEND, [groups[i].name]);
      var more, moreReady;
      r, more, moreReady := CheckDeployment(read(name));
      if r != Ready {
        NotReadyAt(names, read, i);
        return;
      }
      FrontendSumStep(names, read, i);
      replicas, readyReplicas := Plus(replicas, more), Plus(readyReplicas, moreReady);
    }
    assert names[..|names|] == names;
  }

  method TallyFrontends(c: Cluster, read: string -> Read<Deployment>)
      returns (r: Verdict, replicas: int32, readyReplicas: int32)
    ensures r == Ready <==> FrontendsReady(FrontendNames(c), read)
    ensures r == Failed <==> FirstObstacleIsFailure(FrontendNames(c), read)
    ensures r == Ready ==> replicas == readyReplicas == Wrap(FrontendSum(FrontendNames(c), read))
  {
    ghost var groups := GroupNames(c.name, FRONTEND, c.frontendGroups);
    if c.frontend.None? {
      assert FrontendNames(c) == groups;
      r, replicas, readyReplicas := TallyFrontendGroups(c.name, c.frontendGroups, read);
      return;
    }
    var name := BuildResourceName(c.name, FRONTEND, []);
    assert FrontendNames(c) == [name] + groups;
    r, replicas, readyReplicas := CheckDeployment(read(name));
    if r != Ready {
      NotReadyAt([name] + groups, read, 0);
      return;
    }
    var more, moreReady;
    r, more, moreReady := TallyFrontendGroups(c.name, c.frontendGroups, read);
    ReadyFirst(name, groups, read);
    replicas, readyReplicas := Plus(replicas, more), Plus(readyReplicas, moreReady);
  }

  lemma ReadyUpToFirst(name: string, rest: seq<string>, i: nat, read: string -> Read<Deployment>)
    requires FrontendReady(read(name)) && i <= |rest|
    ensures ReadyUpTo([name] + rest, i + 1, read) <==> ReadyUpTo(rest, i, read)
  {
    var names := [name] + rest;
    assert forall j :: 0 <= j < |rest| ==> names[j + 1] == rest[j];
  }

  /** A ready object in front changes nothing but the sum. */
  lemma ReadyFirst(name: string, rest: seq<string>, read: string -> Read<Deployment>)
    requires FrontendReady(read(name))
    ensures FrontendsReady([name] + rest, read) <==> FrontendsReady(rest, read)
    ensures FirstObstacleIsFailure([name] + rest, read) <==> FirstObstacleIsFailure(rest, read)
    ensures Wrap(FrontendSum([name] + rest, read)) == Plus(read(name).item.replicas, Wrap(FrontendSum(rest, read)))
  {
    var names := [name] + rest;
    ReadyUpToFirst(name, rest, |rest|, read);
    if i :| 0 <= i < |names| && read(names[i]).ReadFailed? && ReadyUpTo(names, i, read) {
      ReadyUpToFirst(name, rest, i - 1, read);
    }
    if i :| 0 <= i < |rest| && read(rest[i]).ReadFailed? && ReadyUpTo(rest, i, read) {
      ReadyUpToFirst(name, rest, i, read);
      assert names[i + 1] == rest[i];
    }
    SumFirst(name, rest, read);
  }

  lemma SumFirst(name: string, rest: seq<string>, read: string -> Read<Deployment>)
    requires FrontendReady(read(name))
    ensures Wrap(FrontendSum([name] + rest, read)) == Plus(read(name).item.replicas, Wrap(FrontendSum(rest, read)))
  {
    FrontendSumFirst(name, rest, read);
    WrapStep(FrontendSum(rest, read), read(name).item.replicas);
  }

  lemma {:induction false} FrontendSumFirst(name: string, rest: seq<string>, read: string -> Read<Deployment>)
    requires read(name).Found?
    ensures FrontendSum([name] + rest, read) == read(name).item.replicas as int + FrontendSum(rest, read)
    decreases |rest|
  {
    var names := [name] + rest;
    if rest == [] {
      assert names[..0] == [] && FrontendSum(names[..0], read) == 0;
    } else {
      assert names[..|names| - 1] == [name] + rest[..|rest| - 1];
      FrontendSumFirst(name, rest[..|rest| - 1], read);
    }
  }

  ghost predicate FrontendReady(r: Read<Deployment>)
  {
    r.Found? && DeploymentReady(r.item)
  }

  /** The first `n` objects are ready. */
  ghost predicate ReadyUpTo(names: seq<string>, n: nat, read: string -> Read<Deployment>)
    requires n <= |names|
  {
    forall i :: 0 <= i < n ==> FrontendReady(read(names[i]))
  }

  ghost predicate FrontendsReady(names: seq<string>, read: string -> Read<Deployment>)
  {
    ReadyUpTo(names, |names|, read)
  }

  ghost predicate FirstObstacleIsFailure(names: seq<string>, read: string -> Read<Deployment>)
  {
    exists i :: 0 <= i < |names| && read(names[i]).ReadFailed? && ReadyUpTo(names, i, read)
  }

  /** The frontends that have to be ready: the ungrouped one, if it is there, and every group. */
  lemma FrontendsExactly(c: Cluster, read: string -> Read<Deployment>)
    ensures FrontendsReady(FrontendNames(c), read) <==>
      && (c.frontend.Some? ==> FrontendReady(read(c.name + "-frontend")))
      && forall g :: g in c.frontendGroups ==> FrontendReady(read(ResourceName(c.name, "frontend", [g.name])))
  {
    var names, n := FrontendNames(c), if c.frontend.Some? then 1 else 0;
    forall i | 0 <= i < |c.frontendGroups|
      ensures names[n + i] == ResourceName(c.name, FRONTEND, [c.frontendGroups[i].name])
    {
    }
    if c.frontend.Some? {
      assert c.name + "-" + FRONTEND == c.name + "-frontend" == names[0];
    }
    forall g | g in c.frontendGroups && FrontendsReady(names, read)
      ensures FrontendReady(read(ResourceName(c.name, "frontend", [g.name])))
    {
      var i :| 0 <= i < |c.frontendGroups| && c.frontendGroups[i] == g;
      assert FrontendReady(read(names[n + i]));
    }
    forall i | 0 <= i < |names| && forall g :: g in c.frontendGroups ==>
        FrontendReady(read(ResourceName(c.name, "frontend", [g.name])))
      ensures (c.frontend.Some? ==> FrontendReady(read(c.name + "-frontend"))) ==> FrontendReady(read(names[i]))
    {
      if i >= n {
        assert c.frontendGroups[i - n] in c.frontendGroups;
      }
    }
  }

  lemma NotReadyAt(names: seq<string>, read: string -> Read<Deployment>, n: nat)
    requires n < |names| && ReadyUpTo(names, n, read) && !FrontendReady(read(names[n]))
    ensures !FrontendsReady(names, read)
    ensures FirstObstacleIsFailure(names, read) <==> read(names[n]).ReadFailed?
  {
  }

  lemma FrontendSumStep(names: seq<string>, read: string -> Read<Deployment>, n: nat)
    requires n < |names| && FrontendReady(read(names[n]))
    ensures Wrap(FrontendSum(names[..n + 1], read)) == Plus(Wrap(FrontendSum(names[..n], read)),
        read(names[n]).item.replicas)
  {
    assert names[..n + 1][..n] == names[..n];
    WrapStep(FrontendSum(names[..n], read), read(names[n]).item.replicas);
  }

  function FrontendSum(names: seq<string>, read: string -> Read<Deployment>): int
  {
    if names == [] then 0
    else
      var r := read(names[|names| - 1]);
      FrontendSum(names[..|names| - 1], read) + (if r.Found? then r.item.replicas as int else 0)
  }

  // ----- What the reported numbers mean -----

  lemma {:induction false} ReadyMeansStored(names: seq<string>, read: string -> Read<Object>)
    requires AllReady(names, read)
    ensures ReadySum(names, read) == StoredSum(names, read)
    decreases |names|
  {
    if names != [] {
      assert names[|names| - 1] in names;
      ReadyMeansStored(names[..|names| - 1], read);
    }
  }

  /** The stored StatefulSets have the replicas that the groups declare. */
  ghost predicate StoredAsDeclared(c: Cluster, groups: seq<Component>, read: string -> Read<Object>)
  {
    forall i :: 0 <= i < |groups| ==>
      var r := read(ResourceName(c.name, DATANODE, [groups[i].name]));
      r.Found? && groups[i].replicas == Some(r.item.live.replicas)
  }

  lemma {:induction false} StoredIsDeclared(c: Cluster, groups: seq<Component>, read: string -> Read<Object>)
    requires StoredAsDeclared(c, groups, read)
    ensures StoredSum(GroupNames(c.name, DATANODE, groups), read) == DeclaredSum(groups)
    decreases |groups|
  {
    if groups != [] {
      var front := groups[..|groups| - 1];
      StoredIsDeclared(c, front, read);
      var names := GroupNames(c.name, DATANODE, groups);
      assert names[..|names| - 1] == GroupNames(c.name, DATANODE, front);
    }
  }

  /** When every datanode StatefulSet is ready, the reported ready replicas are the stored replicas. */
  lemma ReportedIsStored(c: Cluster, read: string -> Read<Object>)
    requires AllReady(DatanodeNames(c), read)
    ensures ReadySum(DatanodeNames(c), read) == StoredSum(DatanodeNames(c), read)
  {
    ReadyMeansStored(DatanodeNames(c), read);
  }

  /**
   If the stored replicas are the declared ones, the two numbers reported for ready groups agree,
   overflow or not, and they are the true total whenever that is a 32-bit number.
   */
  lemma ReportedGroupReplicas(c: Cluster, read: string -> Read<Object>)
    requires c.datanode.None? && AllReady(DatanodeNames(c), read) && StoredAsDeclared(c, c.datanodeGroups, read)
    ensures Wrap(ReadySum(DatanodeNames(c), read)) == DeclaredReplicas(c)
    ensures 0 <= DeclaredSum(c.datanodeGroups) < TWO31 ==> DeclaredReplicas(c) as int == DeclaredSum(c.datanodeGroups)
  {
    ReadyMeansStored(DatanodeNames(c), read);
    StoredIsDeclared(c, c.datanodeGroups, read);
  }

  lemma ReportedSingleReplicas(c: Cluster, read: string -> Read<Object>)
    requires c.datanode.Some? && AllReady(DatanodeNames(c), read)
    requires c.datanode.value.replicas == Some(read(DatanodeNames(c)[0]).item.live.replicas)
    ensures Wrap(ReadySum(DatanodeNames(c), read)) == DeclaredReplicas(c)
  {
    assert DatanodeNames(c)[0] in DatanodeNames(c);
    SingleDatanode(DatanodeNames(c)[0], read);
  }
}
