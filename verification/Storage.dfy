/**
 Persistent volume claims: the labels they are generated with, the selectors they
 are found by, and the clean-up that deletes some of them with their cluster.
 */
module Storage {
  import opened Text
  import opened Names

  const TYPE_KEY := "app.greptime.io/fileStorageType"
  const COMPONENT_KEY := "app.greptime.io/component"
  const WAL := "wal"
  const CACHE := "cache"

  type Labels = map<string, string>

  datatype StorageType = Data | Wal | Cache

  datatype Policy = Unset | Retain | Delete

  datatype FileStorage = FileStorage(useEmptyDir: bool, policy: Policy, labels: Labels)

  datatype Datanode = Datanode(name: string, storage: Option<FileStorage>)

  datatype Cluster = Cluster(
    namespace: string, name: string, datanode: Option<Datanode>, groups: seq<Datanode>,
    wal: Option<FileStorage>, cache: Option<FileStorage>)

  datatype ClaimKey = ClaimKey(namespace: string, name: string)

  function DatanodeName(cluster: string, group: string): string
  {
    ResourceName(cluster, DATANODE, [group])
  }

  /** The ungrouped name is the name of the empty group. */
  lemma UngroupedName(cluster: string)
    ensures ResourceName(cluster, DATANODE, []) == DatanodeName(cluster, "") == cluster + "-datanode"
    ensures forall g :: g != "" ==> DatanodeName(cluster, g) == cluster + "-datanode-" + g
  {
    forall g: string
      ensures DatanodeName(cluster, g) == if g == "" then cluster + "-datanode" else cluster + "-datanode" + "-" + g
    {
      assert [g][..0] == [];
    }
  }

  // ----- Labels -----

  method MergeStringMap(origin: Labels, new': Labels) returns (r: Labels)
    ensures r == origin + new'
  {
    r := origin;
    var keys := new'.Keys;
    while keys != {}
      invariant keys <= new'.Keys
      invariant r == origin + map k | k in new'.Keys - keys :: new'[k]
    {
      var k :| k in keys;
      r := r[k := new'[k]];
      keys := keys - {k};
    }
    assert new' == map k | k in new'.Keys - keys :: new'[k];
  }

  function OperatorLabels(cluster: string, group: string, t: StorageType): Labels
  {
    match t
    case Data => map[COMPONENT_KEY := DatanodeName(cluster, group)]
    case Wal => map[TYPE_KEY := WAL, COMPONENT_KEY := DatanodeName(cluster, group)]
    case Cache => map[TYPE_KEY := CACHE, COMPONENT_KEY := DatanodeName(cluster, group)]
  }

  /** The labels of the claim that is generated for a file storage. */
  method FileStorageToPvc(cluster: string, group: string, fs: FileStorage, t: StorageType) returns (labels: Labels)
    ensures labels == OperatorLabels(cluster, group, t) + fs.labels
  {
    var name := BuildResourceName(cluster, DATANODE, [group]);
    match t {
      case Wal => labels := map[TYPE_KEY := WAL, COMPONENT_KEY := name];
      case Cache => labels := map[TYPE_KEY := CACHE, COMPONENT_KEY := name];
      case Data => labels := map[COMPONENT_KEY := name];
    }
    labels := MergeStringMap(labels, fs.labels);
  }

  /** The selectors. A claim without a type label passes the selector that excludes two types. */
  predicate Selects(resource: string, t: StorageType, labels: Labels)
  {
    && COMPONENT_KEY in labels && labels[COMPONENT_KEY] == resource
    && match t
       case Data => TYPE_KEY !in labels || (labels[TYPE_KEY] != WAL && labels[TYPE_KEY] != CACHE)
       case Wal => TYPE_KEY in labels && labels[TYPE_KEY] == WAL
       case Cache => TYPE_KEY in labels && labels[TYPE_KEY] == CACHE
  }

  /** What a type label says. */
  function TypeOf(labels: Labels): StorageType
  {
    if TYPE_KEY !in labels then Data
    else if labels[TYPE_KEY] == WAL then Wal
    else if labels[TYPE_KEY] == CACHE then Cache
    else Data
  }

  /** Every claim of a component is found by exactly one of the three selectors, every other claim by none. */
  lemma SelectorsPartition(resource: string, labels: Labels)
    ensures forall t :: Selects(resource, t, labels) <==>
              COMPONENT_KEY in labels && labels[COMPONENT_KEY] == resource && t == TypeOf(labels)
  {
    forall t
      ensures Selects(resource, t, labels)
         <==> COMPONENT_KEY in labels && labels[COMPONENT_KEY] == resource && t == TypeOf(labels)
    {
      assert WAL[0] != CACHE[0];
    }
  }

  predicate AvoidsOperatorKeys(user: Labels)
  {
    TYPE_KEY !in user && COMPONENT_KEY !in user
  }

  datatype Target = Target(resource: string, t: StorageType)

  /** As what a generated claim is found: a user label with one of the operator's keys wins. */
  function FoundAs(cluster: string, group: string, t: StorageType, user: Labels): Target
  {
    Target(
      if COMPONENT_KEY in user then user[COMPONENT_KEY] else DatanodeName(cluster, group),
      if TYPE_KEY in user then TypeOf(user) else t)
  }

  /** For any user labels, a generated claim is found as that and as nothing else. */
  lemma GeneratedIsFoundAs(cluster: string, group: string, t: StorageType, user: Labels, x: Target)
    ensures Selects(x.resource, x.t, OperatorLabels(cluster, group, t) + user) <==>
        x == FoundAs(cluster, group, t, user)
  {
    var labels := OperatorLabels(cluster, group, t) + user;
    assert |TYPE_KEY| != |COMPONENT_KEY| && WAL[0] != CACHE[0];
    assert TypeOf(labels) == if TYPE_KEY in user then TypeOf(user) else t;
    SelectorsPartition(x.resource, labels);
  }

  /** The user labels do not pass the claim off as another one. */
  predicate FindsOwn(cluster: string, group: string, t: StorageType, user: Labels)
  {
    FoundAs(cluster, group, t, user) == Target(DatanodeName(cluster, group), t)
  }

  /** With user labels of its own keys, a generated claim is found under exactly its own name and type. */
  lemma GeneratedMatchesOwn(cluster: string, group: string, t: StorageType, user: Labels, resource: string,
      u: StorageType)
    requires AvoidsOperatorKeys(user)
    ensures FindsOwn(cluster, group, t, user)
    ensures Selects(resource, u, OperatorLabels(cluster, group, t) + user)
       <==> resource == DatanodeName(cluster, group) && u == t
  {
    GeneratedIsFoundAs(cluster, group, t, user, Target(resource, u));
  }

  // ----- Clean-up -----

  predicate IsDelete(fs: Option<FileStorage>)
  {
    fs.Some? && fs.value.policy == Delete
  }

  predicate UsesEmptyDir(fs: Option<FileStorage>)
  {
    fs.Some? && fs.value.useEmptyDir
  }

  predicate GroupIsDeleted(g: Datanode)
  {
    IsDelete(g.storage) && !UsesEmptyDir(g.storage)
  }

  predicate SkipsAll(c: Cluster)
  {
    c.datanode.Some? && UsesEmptyDir(c.datanode.value.storage)
  }

  /** Whether clean-up deletes what a target selects, read as a rule. */
  ghost predicate IsTarget(c: Cluster, x: Target)
  {
    && !SkipsAll(c)
    && match x.t
       case Data =>
         || (c.datanode.Some? && IsDelete(c.datanode.value.storage) && x.resource == DatanodeName(c.name, ""))
         || exists g :: g in c.groups && GroupIsDeleted(g) && x.resource == DatanodeName(c.name, g.name)
       case Wal => IsDelete(c.wal) && x.resource == DatanodeName(c.name, "")
       case Cache => IsDelete(c.cache) && x.resource == DatanodeName(c.name, "")
  }

  ghost predicate IsDoomed(c: Cluster, labels: Labels)
  {
    exists x: Target :: IsTarget(c, x) && Selects(x.resource, x.t, labels)
  }

  ghost predicate Shrunk(before: map<ClaimKey, Labels>, after: map<ClaimKey, Labels>)
  {
    after.Keys <= before.Keys && forall k :: k in after ==> after[k] == before[k]
  }

  /** The claims of the API server. Only the first failure matters, so it is given by the number of calls before it. */
  class ClaimServer {
    var claims: map<ClaimKey, Labels>
    var callsLeft: nat

    constructor (claims: map<ClaimKey, Labels>, callsLeft: nat)
      ensures this.claims == claims && this.callsLeft == callsLeft
    {
      this.claims, this.callsLeft := claims, callsLeft;
    }

    method List(namespace: string, x: Target) returns (r: Option<set<ClaimKey>>)
      modifies this`callsLeft
      ensures r.Some? <==> old(callsLeft) > 0
      ensures r == None ==> callsLeft == 0
      ensures r.Some? ==>
        r.value == set k | k in claims && k.namespace == namespace && Selects(x.resource, x.t, claims[k])
    {
      if callsLeft == 0 {
        return None;
      }
      callsLeft := callsLeft - 1;
      r := Some(set k | k in claims && k.namespace == namespace && Selects(x.resource, x.t, claims[k]));
    }

    method DeleteClaim(k: ClaimKey) returns (ok: bool)
      modifies this
      ensures ok <==> old(callsLeft) > 0
      ensures !ok ==> callsLeft == 0
      ensures claims == if ok then old(claims) - {k} else old(claims)
    {
      if callsLeft == 0 {
        return false;
      }
      callsLeft := callsLeft - 1;
      claims := claims - {k};
      ok := true;
    }

    /** Deletes the selected claims, or some of them if a call fails. */
    method DeleteStorage(namespace: string, x: Target) returns (ok: bool)
      modifies this
      ensures Shrunk(old(claims), claims)
      ensures forall k :: k in old(claims) && k !in claims ==>
        k.namespace == namespace && Selects(x.resource, x.t, old(claims)[k])
      ensures ok ==> forall k :: k in claims ==> !(k.namespace == namespace && Selects(x.resource, x.t, claims[k]))
      ensures !ok ==> callsLeft == 0
    {
      var listed := List(namespace, x);
      if listed.None? {
        return false;
      }
      var rest := listed.value;
      while rest != {}
        invariant rest <= listed.value
        invariant claims == old(claims) - (listed.value - rest)
      {
        var k :| k in rest;
        ok := DeleteClaim(k);
        if !ok {
          return;
        }
        rest := rest - {k};
      }
      ok := true;
    }

    /** The clean-up of the datanode deployer: the ungrouped storage, every group, then WAL and cache. */
    method CleanUp(c: Cluster) returns (ok: bool)
      modifies this
      ensures Shrunk(old(claims), claims)
      ensures forall k :: k in old(claims) && k !in claims ==> k.namespace == c.namespace && IsDoomed(c, old(claims)[k])
      ensures ok ==> forall k :: k in claims ==> !(k.namespace == c.namespace && IsDoomed(c, claims[k]))
      ensures !ok ==> callsLeft == 0
    {
      ghost var done: seq<Target> := [];
      UngroupedName(c.name);
      if c.datanode.Some? && c.datanode.value.storage.Some? {
        var fs := c.datanode.value.storage.value;
        if fs.useEmptyDir {
          return true;
        }
        if fs.policy == Delete {
          ok := DeleteFor(c, Target(ResourceName(c.name, DATANODE, []), Data));
          if !ok { return; }
        }
      }
      for i := 0 to |c.groups|
        invariant OnlyDoomed(c, old(claims), claims)
        invariant c.datanode.Some? && IsDelete(c.datanode.value.storage) ==>
          Cleared(c, Target(DatanodeName(c.name, ""), Data), claims)
        invariant forall j :: 0 <= j < i && GroupIsDeleted(c.groups[j]) ==>
          Cleared(c, Target(DatanodeName(c.name, c.groups[j].name), Data), claims)
      {
        var g := c.groups[i];
        if g.storage.Some? {
          if g.storage.value.useEmptyDir {
            continue;
          }
          if g.storage.value.policy == Delete {
            ok := DeleteFor(c, Target(DatanodeName(c.name, g.name), Data));
            if !ok { return; }
          }
        }
      }
      if IsDelete(c.wal) {
        ok := DeleteFor(c, Target(ResourceName(c.name, DATANODE, []), Wal));
        if !ok { return; }
      }
      if IsDelete(c.cache) {
        ok := DeleteFor(c, Target(ResourceName(c.name, DATANODE, []), Cache));
        if !ok { return; }
      }
      ok := true;
    }

    /** One deletion of the clean-up: it does more of what may be done and undoes nothing. */
    method DeleteFor(c: Cluster, x: Target) returns (ok: bool)
      requires IsTarget(c, x)
      modifies this
      ensures OnlyDoomed(c, old(claims), claims)
      ensures ok ==> Cleared(c, x, claims)
      ensures !ok ==> callsLeft == 0
    {
      ok := DeleteStorage(c.namespace, x);
    }
  }

  ghost predicate OnlyDoomed(c: Cluster, before: map<ClaimKey, Labels>, after: map<ClaimKey, Labels>)
  {
    && Shrunk(before, after)
    && forall k :: k in before && k !in after ==> k.namespace == c.namespace && IsDoomed(c, before[k])
  }

  ghost predicate Cleared(c: Cluster, x: Target, claims: map<ClaimKey, Labels>)
  {
    forall k :: k in claims ==> !(k.namespace == c.namespace && Selects(x.resource, x.t, claims[k]))
  }

  // ----- Which claims go with which cluster -----

  /**
   A generated claim is deleted by a clean-up, its own cluster's or another's, exactly if what it is found as
   is a target.
   */
  lemma DoomedExactly(c: Cluster, cluster: string, group: string, t: StorageType, user: Labels)
    ensures IsDoomed(c, OperatorLabels(cluster, group, t) + user) <==> IsTarget(c, FoundAs(cluster, group, t, user))
  {
    var labels := OperatorLabels(cluster, group, t) + user;
    var own := FoundAs(cluster, group, t, user);
    GeneratedIsFoundAs(cluster, group, t, user, own);
    if IsDoomed(c, labels) {
      var x: Target :| IsTarget(c, x) && Selects(x.resource, x.t, labels);
      GeneratedIsFoundAs(cluster, group, t, user, x);
    }
  }

  /** The ungrouped datanode, which has no group name, or one of the groups. */
  predicate IsMember(c: Cluster, d: Datanode)
  {
    (c.datanode == Some(d) && d.name == "") || d in c.groups
  }

  /** The storage policy that a claim of the cluster was generated under. */
  function PolicyOf(c: Cluster, d: Datanode, t: StorageType): Option<FileStorage>
  {
    match t case Data => d.storage case Wal => c.wal case Cache => c.cache
  }

  /** The storage is not to be deleted: the policy is another one, or unset, or there is no file storage. */
  predicate IsRetained(fs: Option<FileStorage>)
  {
    fs.Some? ==> fs.value.policy == Retain || fs.value.policy == Unset
  }

  /** Members with the same group name share their claims, so any of them can give them away. */
  ghost predicate DataIsDeleted(c: Cluster, group: string)
  {
    || (group == "" && c.datanode.Some? && !IsRetained(c.datanode.value.storage))
    || exists g :: g in c.groups && g.name == group && !IsRetained(g.storage) && !g.storage.value.useEmptyDir
  }

  /**
   A cluster's own clean-up, exactly: a data claim goes if a member of its group name has policy Delete and no
   empty directory, a WAL or cache claim if its policy is Delete and it is not that of a group. Nothing goes if
   the ungrouped datanode uses an empty directory.
   */
  lemma OwnCleanUp(c: Cluster, group: string, t: StorageType, user: Labels)
    requires FindsOwn(c.name, group, t, user)
    ensures IsDoomed(c, OperatorLabels(c.name, group, t) + user) <==>
              && !(c.datanode.Some? && c.datanode.value.storage.Some? && c.datanode.value.storage.value.useEmptyDir)
              && match t
                 case Data => DataIsDeleted(c, group)
                 case Wal => group == "" && !IsRetained(c.wal)
                 case Cache => group == "" && !IsRetained(c.cache)
  {
    DoomedExactly(c, c.name, group, t, user);
    forall g | DatanodeName(c.name, g) == DatanodeName(c.name, group)
      ensures g == group
    {
      GroupNameInjective(c.name, DATANODE, g, group);
    }
  }

  /** Members of one name agree on their storage; distinct names are the usual case. */
  ghost predicate NamesAgree(c: Cluster)
  {
    forall d, e :: IsMember(c, d) && IsMember(c, e) && d.name == e.name ==> d.storage == e.storage
  }

  // ----- Other clusters of the namespace -----

  /** The name of one cluster continues the datanode name of the other. */
  predicate Extends(a: string, b: string)
  {
    b == a + "-datanode" || a + "-datanode-" <= b
  }

  /** Two clusters can have datanode objects of the same name exactly if one name extends the other so. */
  lemma CollisionExactly(a: string, b: string)
    ensures (exists g, h :: DatanodeName(a, g) == DatanodeName(b, h)) <==> a == b || Extends(a, b) || Extends(b, a)
  {
    if a == b {
      assert DatanodeName(a, "") == DatanodeName(b, "");
    } else if Extends(a, b) {
      Collide(a, b);
    } else if Extends(b, a) {
      Collide(b, a);
    }
    if g, h :| DatanodeName(a, g) == DatanodeName(b, h) {
      if |a| <= |b| {
        OnlyExtensionsCollide(a, g, b, h);
      } else {
        OnlyExtensionsCollide(b, h, a, g);
      }
    }
  }

  lemma Collide(a: string, b: string)
    requires Extends(a, b)
    ensures exists g :: DatanodeName(a, g) == DatanodeName(b, "")
  {
    UngroupedName(a);
    UngroupedName(b);
    if b == a + "-datanode" {
      assert DatanodeName(a, "datanode") == DatanodeName(b, "");
    } else {
      var g := b[|a + "-datanode-"|..] + "-datanode";
      assert b == a + "-datanode-" + b[|a + "-datanode-"|..];
      assert DatanodeName(a, g) == DatanodeName(b, "");
    }
  }

  lemma OnlyExtensionsCollide(a: string, g: string, b: string, h: string)
    requires DatanodeName(a, g) == DatanodeName(b, h) && |a| <= |b|
    ensures a == b || Extends(a, b)
  {
    UngroupedName(a);
    UngroupedName(b);
    var n, d := DatanodeName(a, g), "-datanode";
    assert a + d <= n && b + d <= n;
    assert a == n[..|a|] && b == n[..|b|];
    if |a| < |b| {
      assert n[|b|] == d[0] == '-';
      assert forall i :: 0 <= i < |d| ==> n[|a| + i] == d[i];
      assert forall i :: 1 <= i < |d| ==> d[i] != '-';
      assert |b| >= |a| + |d|;
      assert b[..|a| + |d|] == n[..|a| + |d|] == a + d;
      assert |b| > |a| + |d| ==> b[|a| + |d|] == '-';
    }
  }

  /** `c` is one cluster and `owner` another of the same namespace, or both are the same. */
  predicate MayMeet(c: Cluster, owner: Cluster)
  {
    if c.name == owner.name then c == owner else !Extends(c.name, owner.name) && !Extends(owner.name, c.name)
  }

  /**
   Retention: over any content of the namespace, clean-up deletes no claim that a cluster generated
   under a policy other than Delete, as long as no cluster name extends another's datanode name.
   */
  lemma RetainedClaimsSurvive(c: Cluster, owner: Cluster, d: Datanode, t: StorageType, user: Labels)
    requires FindsOwn(owner.name, d.name, t, user) && IsMember(owner, d) && IsRetained(PolicyOf(owner, d, t))
    requires MayMeet(c, owner) && NamesAgree(owner)
    requires owner.datanode.Some? ==> owner.datanode.value.name == ""
    ensures !IsDoomed(c, OperatorLabels(owner.name, d.name, t) + user)
  {
    if c.name == owner.name {
      OwnCleanUp(c, d.name, t, user);
      if c.datanode.Some? {
        assert IsMember(c, c.datanode.value);
      }
      assert forall g :: g in c.groups ==> IsMember(c, g);
    } else {
      DoomedExactly(c, owner.name, d.name, t, user);
      CollisionExactly(c.name, owner.name);
    }
  }

  /** Clean-up of `c` deletes a claim that `owner` generated, under its own name, under a policy other than Delete. */
  ghost predicate LosesRetained(c: Cluster, owner: Cluster)
  {
    exists d, t, user ::
      && IsMember(owner, d) && IsRetained(PolicyOf(owner, d, t)) && FindsOwn(owner.name, d.name, t, user)
      && IsDoomed(c, OperatorLabels(owner.name, d.name, t) + user)
  }

  /** What validation demands: groups have names, and are not set together with an ungrouped datanode. */
  predicate IsValid(c: Cluster)
  {
    && (c.datanode.Some? ==> c.groups == [] && c.datanode.value.name == "")
    && forall g :: g in c.groups ==> g.name != ""
  }

  ghost predicate CanLose(a: string, b: string)
  {
    exists c: Cluster, owner: Cluster ::
      c.name == a && owner.name == b && IsValid(c) && IsValid(owner) && LosesRetained(c, owner)
  }

  /**
   Retention between two clusters, exactly by their names: there are specs with which deleting the one takes
   retained claims of the other exactly if one name extends the other's datanode name.
   */
  lemma RetentionExactly(a: string, b: string)
    requires a != b
    ensures CanLose(a, b) <==> Extends(a, b) || Extends(b, a)
  {
    CollisionExactly(a, b);
    if Extends(a, b) || Extends(b, a) {
      var g, h :| DatanodeName(a, g) == DatanodeName(b, h);
      Loses(a, g, b, h);
    }
    if CanLose(a, b) {
      var c: Cluster, owner: Cluster :|
        c.name == a && owner.name == b && IsValid(c) && IsValid(owner) && LosesRetained(c, owner);
      TargetsCollide(c, owner);
    }
  }

  /** A cluster with one datanode, ungrouped if it has no group name. */
  function Single(name: string, group: string, policy: Policy): (c: Cluster)
    ensures IsValid(c) && c.name == name
  {
    var d := Datanode(group, Some(FileStorage(false, policy, map[])));
    if group == "" then Cluster("", name, Some(d), [], None, None) else Cluster("", name, None, [d], None, None)
  }

  /** With colliding names, a datanode that is deleted takes the retained data of the other cluster with it. */
  lemma Loses(a: string, g: string, b: string, h: string)
    requires DatanodeName(a, g) == DatanodeName(b, h)
    ensures CanLose(a, b)
  {
    var deleted := Datanode(g, Some(FileStorage(false, Delete, map[])));
    var kept := Datanode(h, Some(FileStorage(false, Retain, map[])));
    var c, owner := Single(a, g, Delete), Single(b, h, Retain);
    DoomedExactly(c, b, h, Data, map[]);
    assert g != "" ==> deleted in c.groups && GroupIsDeleted(deleted);
    assert IsMember(owner, kept) && FindsOwn(b, h, Data, map[]);
    assert LosesRetained(c, owner);
  }

  lemma TargetsCollide(c: Cluster, owner: Cluster)
    requires LosesRetained(c, owner)
    ensures exists g, h :: DatanodeName(c.name, g) == DatanodeName(owner.name, h)
  {
    var d, t, user :|
      && IsMember(owner, d) && IsRetained(PolicyOf(owner, d, t)) && FindsOwn(owner.name, d.name, t, user)
      && IsDoomed(c, OperatorLabels(owner.name, d.name, t) + user);
    DoomedExactly(c, owner.name, d.name, t, user);
  }

  /** For instance, deleting cluster `a` with a group `datanode` takes the retained data of cluster `a-datanode`. */
  lemma RetentionFailsAcrossClusters(fs: FileStorage, user: Labels)
    requires fs.policy == Delete && !fs.useEmptyDir && AvoidsOperatorKeys(user)
    ensures var c := Cluster("ns", "a", None, [Datanode("datanode", Some(fs))], None, None);
            IsDoomed(c, OperatorLabels("a-datanode", "", Data) + user)
  {
    var group := Datanode("datanode", Some(fs));
    var c := Cluster("ns", "a", None, [group], None, None);
    DoomedExactly(c, "a-datanode", "", Data, user);
    UngroupedName("a");
    UngroupedName("a-datanode");
    assert group in c.groups && GroupIsDeleted(group);
    assert DatanodeName("a", "datanode") == DatanodeName("a-datanode", "");
  }

  /** Nor are user labels harmless: retained data that its labels pass off as a WAL goes with the cluster's WAL. */
  lemma RelabelledClaimIsLost(c: Cluster, fs: FileStorage)
    requires c.datanode == Some(Datanode("", Some(fs))) && fs.policy == Retain && !fs.useEmptyDir && !IsRetained(c.wal)
    requires TYPE_KEY in fs.labels && fs.labels[TYPE_KEY] == WAL && COMPONENT_KEY !in fs.labels
    ensures IsDoomed(c, OperatorLabels(c.name, "", Data) + fs.labels)
  {
    DoomedExactly(c, c.name, "", Data, fs.labels);
    assert FoundAs(c.name, "", Data, fs.labels) == Target(DatanodeName(c.name, ""), Wal);
  }

  /**
   The WAL and the cache of a group are never deleted, whatever their policy: they are looked for under the
   ungrouped name.
   */
  lemma GroupWalOutlivesDeletion(c: Cluster, group: string, t: StorageType, user: Labels)
    requires group != "" && t != Data && FindsOwn(c.name, group, t, user)
    ensures !IsDoomed(c, OperatorLabels(c.name, group, t) + user)
  {
    OwnCleanUp(c, group, t, user);
  }
}
