/**
 `SetDefaults` of a cluster. The defaults are computed from the very object that they are
 merged into, and the groups get theirs from the object after that merge. One
 application nevertheless reaches a fixpoint, for every object.
 */
module Defaults {
  import opened Text
  import opened Merging

  // ----- The spec -----

  /** The spec of a cluster; components are pointers to structs, groups are lists of such pointers. */
  datatype Spec = Spec(
    version: string, base: Value, initializer: Value, ports: Value,
    meta: Value, frontend: Value, frontendGroups: seq<Value>, flownode: Value,
    datanode: Value, datanodeGroups: seq<Value>,
    logging: Value, tracing: Value, monitoring: Value, enableIPv6: bool, strategy: string)

  const REPLICAS: nat := 0
  const AUDIT_LOG: nat := 1
  const IMAGE: nat := 0
  const MAIN_CONTAINER: nat := 0
  const ENABLED: nat := 0
  const TTL: nat := 1

  /** A field behind a pointer; Nil if the pointer is nil. */
  function Field(v: Value, i: nat): Value
  {
    if v.Ref? && v.target.Struct? && i < |v.target.fields| then v.target.fields[i] else Nil
  }

  function StringOf(v: Value): string
  {
    if v.Atom? && v.scalar.Str? then v.scalar.s else ""
  }

  predicate IsTrue(v: Value)
  {
    v == Atom(Bool(true))
  }

  function Image(s: Spec): string
  {
    StringOf(Field(Field(s.base, MAIN_CONTAINER), IMAGE))
  }

  predicate MonitoringEnabled(s: Spec)
  {
    IsTrue(Field(s.monitoring, ENABLED))
  }

  function MonitoringTtl(s: Spec): string
  {
    StringOf(Field(s.monitoring, TTL))
  }

  predicate AuditLogEnabled(s: Spec)
  {
    IsTrue(Field(Field(s.frontend, AUDIT_LOG), ENABLED))
  }

  /** The replicas of a component, if the pointer is not nil. */
  function Replicas(v: Value): Option<int>
  {
    var r := Field(v, REPLICAS);
    if r.Ref? && r.target.Atom? && r.target.scalar.Int? then Some(r.target.scalar.n) else None
  }

  // ----- The version -----

  const DEFAULT_VERSION := "Unknown"
  const DEFAULT_IMAGE := "greptime/greptimedb:latest"

  function VersionFromImage(image: string): string
  {
    var tokens := Split(LastToken(image, '/'), ':');
    if |tokens| == 2 then tokens[1] else DEFAULT_VERSION
  }

  /** A registry and repository path, if any: everything up to the last slash. */
  predicate IsPrefix(prefix: string)
  {
    prefix == "" || prefix[|prefix| - 1] == '/'
  }

  lemma LastOfImage(prefix: string, image: string)
    requires IsPrefix(prefix) && '/' !in image
    ensures LastToken(prefix + image, '/') == image
  {
    if prefix == "" {
      assert prefix + image == image && Split(image, '/') == [image];
    } else {
      var registry := prefix[..|prefix| - 1];
      assert prefix + image == registry + ['/'] + image;
      LastTokenOfSuffix(registry, '/', image);
    }
  }

  /** A tagged image gives its tag, with or without a registry, also when that has a port. */
  lemma VersionOfTaggedImage(prefix: string, name: string, tag: string)
    requires IsPrefix(prefix) && '/' !in name && ':' !in name && '/' !in tag && ':' !in tag
    ensures VersionFromImage(prefix + name + ":" + tag) == tag
  {
    var image := name + [':'] + tag;
    assert prefix + name + ":" + tag == prefix + image;
    LastOfImage(prefix, image);
    SplitOnce(name, ':', tag);
    assert Split(tag, ':') == [tag];
  }

  /** Without a tag it does not. */
  lemma VersionOfUntaggedImage(prefix: string, name: string)
    requires IsPrefix(prefix) && '/' !in name && ':' !in name
    ensures VersionFromImage(prefix + name) == DEFAULT_VERSION
  {
    LastOfImage(prefix, name);
    assert Split(name, ':') == [name];
  }

  /** Nor with a tag and a digest. */
  lemma VersionOfPinnedImage(prefix: string, name: string, tag: string, digest: string)
    requires IsPrefix(prefix) && '/' !in name && ':' !in name
    requires '/' !in tag && ':' !in tag && '/' !in digest && ':' !in digest
    ensures VersionFromImage(prefix + (name + ":" + (tag + ":" + digest))) == DEFAULT_VERSION
  {
    var rest := tag + [':'] + digest;
    LastOfImage(prefix, name + [':'] + rest);
    SplitOnce(name, ':', rest);
    SplitOnce(tag, ':', digest);
    assert Split(digest, ':') == [digest];
  }

  // ----- The defaults -----

  const DEFAULT_TTL := "30d"
  const INJECTED_DATA_FIRST := "InjectedDataFirst"

  function Number(n: int): Value { Atom(Int(n)) }

  function Word(s: string): Value { Atom(Str(s)) }

  function Flag(b: bool): Value { Ref(Atom(Bool(b))) }

  function Probe(failureThreshold: int): Value
  {
    Ref(Struct([Ref(Struct([Word("/health"), IntOrString(Count(4000))])), Number(5), Number(failureThreshold), Nil]))
  }

  const BASE: Value := Ref(Struct([Ref(Struct([Nil, Probe(60), Probe(10), Probe(10), Nil])), Nil]))
  const INITIALIZER: Value := Ref(Struct([Word("greptime/greptimedb-initializer:latest")]))
  const PORTS: Value := Struct([Number(4000), Number(4001), Number(4002), Number(4003)])
  const TEMPLATE: Value := Ref(Struct([Nil, Nil]))
  const NO_LOGGING: Value := Ref(Struct([Nil, Nil, Nil, Nil, Nil, Nil, Nil, Nil]))
  const NO_TRACING: Value := Ref(Struct([Nil, Nil, Nil]))
  const SERVICE: Value := Ref(Struct([Word("ClusterIP"), Nil]))
  const SLOW_QUERY: Value :=
    Ref(Struct([Atom(Bool(true)), Word("30s"), Word("1.0"), Word("90d"), Word("system_table")]))
  const AUDIT: Value :=
    Ref(Struct([Atom(Bool(true)), Word("/data/greptimedb/audit-logs"), Word("all"), Word("all"), Word("all"),
                Word("all"), Ref(Number(30)), Nil]))
  const ROLLING_DEPLOYMENT: Value := Ref(Struct([Ref(IntOrString(Text("25%"))), Ref(IntOrString(Text("25%")))]))
  const ROLLING_STATEFUL_SET: Value := Ref(Struct([Ref(Number(0)), Ref(IntOrString(Count(1)))]))

  function Storage(size: string): Value
  {
    var file := Ref(Struct([Word("datanode"), Word(size), Word("/data/greptimedb"), Word("Retain"), Nil]));
    Ref(Struct([Word("/data/greptimedb"), file, Nil]))
  }

  function Logging(format: string): Value
  {
    Ref(Struct([Word("info"), Word("/data/greptimedb/logs"), Word(format), Flag(false), Flag(false),
                Ref(Number(720)), Word("0B"), Nil]))
  }

  /** Only a component that does not say how many replicas it wants is given one. */
  function DefaultReplicas(component: Value): Value
  {
    if Field(component, REPLICAS) == Nil then Ref(Number(1)) else Nil
  }

  function DefaultFrontend(s: Spec): Value
  {
    Ref(Struct([DefaultReplicas(s.frontend), if AuditLogEnabled(s) then AUDIT else Nil,
                TEMPLATE, NO_LOGGING, NO_TRACING,
                Number(4001), Number(4000), Number(4006), Number(4002), Number(4003), Number(4010),
                SERVICE, ROLLING_DEPLOYMENT, SLOW_QUERY, Nil]))
  }

  function DefaultMeta(s: Spec): Value
  {
    Ref(Struct([DefaultReplicas(s.meta), TEMPLATE, NO_LOGGING, NO_TRACING, Number(3002), Number(4000), Flag(false),
                ROLLING_DEPLOYMENT, Nil]))
  }

  function DefaultDatanode(s: Spec): Value
  {
    Ref(Struct([DefaultReplicas(s.datanode), TEMPLATE, NO_LOGGING, NO_TRACING, Number(4001), Number(4000),
                Storage("10Gi"), ROLLING_STATEFUL_SET, Nil]))
  }

  function DefaultFlownode(s: Spec): Value
  {
    Ref(Struct([DefaultReplicas(s.flownode), TEMPLATE, NO_LOGGING, NO_TRACING, Number(4001), Number(4000), Nil]))
  }

  /** The monitoring instance runs the image of the cluster. */
  function DefaultStandalone(s: Spec): Value
  {
    var image := if Image(s) != "" then Image(s) else DEFAULT_IMAGE;
    var base := Ref(Struct([Ref(Struct([Word(image), Probe(60), Probe(10), Probe(10), Nil])), Nil]));
    Ref(Struct([Ref(Number(1)), base, Number(4000), Number(4006), Number(4001), Number(4002), Number(4003),
                Word(VersionFromImage(image)), SERVICE, Logging("text"), Storage("30Gi"), ROLLING_STATEFUL_SET,
                SLOW_QUERY, if s.enableIPv6 then Atom(Bool(true)) else Nil, Nil]))
  }

  function DefaultMonitoring(s: Spec): Value
  {
    Ref(Struct([Nil, Word(DEFAULT_TTL), DefaultStandalone(s), Ref(Struct([Nil])),
                Ref(Struct([Word("timberio/vector:0.49.0-debian"), Nil]))]))
  }

  const HINT := "x-greptime-hint-ttl"

  function DefaultTracing(s: Spec): Value
  {
    var ttl := if MonitoringTtl(s) != "" then MonitoringTtl(s) else DEFAULT_TTL;
    Ref(Struct([Dict(map[HINT := ttl]), Word("http"), Nil]))
  }

  /** The default spec, without the groups: a group list that is there is kept as a whole. */
  function DefaultSpec(s: Spec): Spec
  {
    Spec(
      DEFAULT_VERSION, BASE, INITIALIZER, PORTS,
      DefaultMeta(s),
      if s.frontend != Nil then DefaultFrontend(s) else Nil, [],
      if s.flownode != Nil then DefaultFlownode(s) else Nil,
      if s.datanode != Nil then DefaultDatanode(s) else Nil, [],
      Logging(if MonitoringEnabled(s) then "json" else "text"),
      if MonitoringEnabled(s) then DefaultTracing(s) else Nil,
      if MonitoringEnabled(s) then DefaultMonitoring(s) else Nil,
      false, "")
  }

  function MergeSpec(s: Spec, d: Spec): Spec
  {
    Spec(
      if s.version == "" then d.version else s.version,
      Merge(s.base, d.base, true), Merge(s.initializer, d.initializer, true), Merge(s.ports, d.ports, true),
      Merge(s.meta, d.meta, true), Merge(s.frontend, d.frontend, true), s.frontendGroups,
      Merge(s.flownode, d.flownode, true),
      Merge(s.datanode, d.datanode, true), s.datanodeGroups,
      Merge(s.logging, d.logging, true), Merge(s.tracing, d.tracing, true), Merge(s.monitoring, d.monitoring, true),
      s.enableIPv6, s.strategy)
  }

  function MergeEach(groups: seq<Value>, default': Value): seq<Value>
  {
    seq(|groups|, i requires 0 <= i < |groups| => Merge(groups[i], default', false))
  }

  /** The object after the merge of the spec, before the groups. */
  function Filled(s: Spec): Spec
  {
    MergeSpec(s.(version := VersionFromImage(Image(s))), DefaultSpec(s))
  }

  function Defaulted(s: Spec): Spec
  {
    var m := Filled(s);
    m.(frontendGroups := MergeEach(m.frontendGroups, DefaultFrontend(m)),
       datanodeGroups := MergeEach(m.datanodeGroups, DefaultDatanode(m)),
       strategy := INJECTED_DATA_FIRST)
  }

  /** The custom resource, whose spec is changed in place. */
  class Resource {
    var spec: Spec

    constructor (spec: Spec)
      ensures this.spec == spec
    {
      this.spec := spec;
    }

    method SetDefaults()
      modifies this
      ensures spec == Defaulted(old(spec))
    {
      spec := spec.(version := VersionFromImage(Image(spec)));
      spec := MergeSpec(spec, DefaultSpec(spec));
      assert spec == Filled(old(spec)) by {
        SameButVersion(old(spec), VersionFromImage(Image(old(spec))));
      }
      MergeDefaultGroups();
      spec := spec.(strategy := INJECTED_DATA_FIRST);
    }

    method MergeDefaultGroups()
      modifies this
      ensures spec == old(spec).(frontendGroups := MergeEach(old(spec).frontendGroups, DefaultFrontend(old(spec))),
                                 datanodeGroups := MergeEach(old(spec).datanodeGroups, DefaultDatanode(old(spec))))
    {
      ghost var was := spec;
      var n := |spec.datanodeGroups|;
      for i := 0 to n
        invariant |spec.datanodeGroups| == n && spec == was.(datanodeGroups := spec.datanodeGroups)
        invariant forall j :: 0 <= j < i ==>
            spec.datanodeGroups[j] == Merge(was.datanodeGroups[j], DefaultDatanode(was), false)
        invariant forall j :: i <= j < n ==> spec.datanodeGroups[j] == was.datanodeGroups[j]
      {
        assert DefaultDatanode(spec) == DefaultDatanode(was);
        var merged := Merge(spec.datanodeGroups[i], DefaultDatanode(spec), false);
        spec := spec.(datanodeGroups := spec.datanodeGroups[i := merged]);
      }
      assert spec.datanodeGroups == MergeEach(was.datanodeGroups, DefaultDatanode(was));
      ghost var half := spec;
      var m := |spec.frontendGroups|;
      for i := 0 to m
        invariant |spec.frontendGroups| == m && spec == half.(frontendGroups := spec.frontendGroups)
        invariant forall j :: 0 <= j < i ==>
            spec.frontendGroups[j] == Merge(was.frontendGroups[j], DefaultFrontend(was), false)
        invariant forall j :: i <= j < m ==> spec.frontendGroups[j] == was.frontendGroups[j]
      {
        assert DefaultFrontend(spec) == DefaultFrontend(was);
        var merged := Merge(spec.frontendGroups[i], DefaultFrontend(spec), false);
        spec := spec.(frontendGroups := spec.frontendGroups[i := merged]);
      }
      assert spec.frontendGroups == MergeEach(was.frontendGroups, DefaultFrontend(was));
    }
  }

  lemma SameButVersion(s: Spec, version: string)
    ensures DefaultSpec(s.(version := version)) == DefaultSpec(s)
  {
  }

  // ----- What the defaults look at, the merge does not change -----

  /** A merge reaches a field behind the pointer, or leaves it alone if the shapes differ. */
  lemma FieldOfMerge(v: Value, d: Value, i: nat, transform: bool)
    requires d.Ref? && d.target.Struct? && i < |d.target.fields|
    ensures var f, g := Field(v, i), Field(Merge(v, d, transform), i);
            g == f || g == Merge(f, d.target.fields[i], transform)
    ensures v == Nil || v.Ref? ==> (Field(v, i) != Nil ==> Field(Merge(v, d, transform), i) != Nil)
  {
  }

  lemma FieldOfLike(v: Value, d: Value, i: nat, transform: bool)
    requires v.Ref? && v.target.Struct? && d.Ref? && d.target.Struct? && i < |v.target.fields| == |d.target.fields|
    ensures Field(Merge(v, d, transform), i) == Merge(v.target.fields[i], d.target.fields[i], transform)
  {
  }

  lemma BaseImageStays(base: Value)
    ensures StringOf(Field(Field(Merge(base, BASE, true), MAIN_CONTAINER), IMAGE))
         == StringOf(Field(Field(base, MAIN_CONTAINER), IMAGE))
  {
    var container := Field(base, MAIN_CONTAINER);
    FieldOfMerge(base, BASE, MAIN_CONTAINER, true);
    FieldOfMerge(container, BASE.target.fields[MAIN_CONTAINER], IMAGE, true);
    NilChangesNothing(Field(container, IMAGE), true);
  }

  lemma ReplicasAreGivenOnce(component: Value, d: Value)
    requires d.Ref? && d.target.Struct? && |d.target.fields| > 0 && Field(d, REPLICAS) == DefaultReplicas(component)
    ensures Fewer(DefaultReplicas(Merge(component, d, true)), DefaultReplicas(component))
  {
    FieldOfMerge(component, d, REPLICAS, true);
    NilChangesNothing(Field(component, REPLICAS), true);
  }

  lemma AuditLogStays(s: Spec)
    requires s.frontend != Nil
    ensures AuditLogEnabled(s.(frontend := Merge(s.frontend, DefaultFrontend(s), true))) <==> AuditLogEnabled(s)
  {
    var log := Field(s.frontend, AUDIT_LOG);
    FieldOfMerge(s.frontend, DefaultFrontend(s), AUDIT_LOG, true);
    NilChangesNothing(log, true);
    FieldOfMerge(log, AUDIT, ENABLED, true);
  }

  lemma MonitoringStays(s: Spec)
    ensures var m := s.(monitoring := Merge(s.monitoring, DefaultSpec(s).monitoring, true));
            && MonitoringEnabled(m) == MonitoringEnabled(s)
            && (MonitoringEnabled(s) ==> DefaultTracing(m) == DefaultTracing(s))
  {
    NilChangesNothing(s.monitoring, true);
    if MonitoringEnabled(s) {
      FieldOfMerge(s.monitoring, DefaultMonitoring(s), ENABLED, true);
      FieldOfMerge(s.monitoring, DefaultMonitoring(s), TTL, true);
      NilChangesNothing(Field(s.monitoring, ENABLED), true);
    }
  }

  // ----- The fixpoint -----

  lemma FewerComponent(some: seq<Value>, all: seq<Value>)
    requires |some| == |all| > 0 && some[1..] == all[1..] && Fewer(some[0], all[0])
    ensures Fewer(Ref(Struct(some)), Ref(Struct(all)))
  {
    forall i | 0 <= i < |some|
      ensures Fewer(some[i], all[i])
    {
      if i > 0 {
        assert some[1..][i - 1] == all[1..][i - 1];
      }
    }
  }

  lemma MonitoringDefaultsStay(s: Spec)
    ensures var d, e := DefaultSpec(s), DefaultSpec(Filled(s));
            e.logging == d.logging && e.tracing == d.tracing && e.monitoring == d.monitoring
  {
    BaseImageStays(s.base);
    MonitoringStays(s);
    assert DefaultStandalone(Filled(s)) == DefaultStandalone(s);
  }

  /** The defaults of the filled object are those of the object itself, except that replicas are not defaulted again. */
  lemma DefaultsShrink(s: Spec)
    ensures FewerSpec(DefaultSpec(Filled(s)), DefaultSpec(s))
  {
    MonitoringDefaultsStay(s);
    MetaShrinks(s);
    if s.frontend != Nil {
      FrontendShrinks(s);
    }
    FlownodeShrinks(s);
    DatanodeShrinks(s);
  }

  lemma MetaShrinks(s: Spec)
    ensures Fewer(DefaultMeta(s.(meta := Merge(s.meta, DefaultMeta(s), true))), DefaultMeta(s))
  {
    var m := s.(meta := Merge(s.meta, DefaultMeta(s), true));
    ReplicasAreGivenOnce(s.meta, DefaultMeta(s));
    assert DefaultMeta(m).target.fields[1..] == DefaultMeta(s).target.fields[1..];
    FewerComponent(DefaultMeta(m).target.fields, DefaultMeta(s).target.fields);
  }

  lemma FrontendShrinks(s: Spec)
    requires s.frontend != Nil
    ensures Fewer(DefaultFrontend(s.(frontend := Merge(s.frontend, DefaultFrontend(s), true))), DefaultFrontend(s))
  {
    var m := s.(frontend := Merge(s.frontend, DefaultFrontend(s), true));
    AuditLogStays(s);
    ReplicasAreGivenOnce(s.frontend, DefaultFrontend(s));
    assert DefaultFrontend(m).target.fields[1..] == DefaultFrontend(s).target.fields[1..];
    FewerComponent(DefaultFrontend(m).target.fields, DefaultFrontend(s).target.fields);
  }

  lemma FlownodeShrinks(s: Spec)
    ensures Fewer(DefaultFlownode(s.(flownode := Merge(s.flownode, DefaultFlownode(s), true))), DefaultFlownode(s))
  {
    var m := s.(flownode := Merge(s.flownode, DefaultFlownode(s), true));
    ReplicasAreGivenOnce(s.flownode, DefaultFlownode(s));
    assert DefaultFlownode(m).target.fields[1..] == DefaultFlownode(s).target.fields[1..];
    FewerComponent(DefaultFlownode(m).target.fields, DefaultFlownode(s).target.fields);
  }

  lemma DatanodeShrinks(s: Spec)
    ensures Fewer(DefaultDatanode(s.(datanode := Merge(s.datanode, DefaultDatanode(s), true))), DefaultDatanode(s))
  {
    var m := s.(datanode := Merge(s.datanode, DefaultDatanode(s), true));
    ReplicasAreGivenOnce(s.datanode, DefaultDatanode(s));
    assert DefaultDatanode(m).target.fields[1..] == DefaultDatanode(s).target.fields[1..];
    FewerComponent(DefaultDatanode(m).target.fields, DefaultDatanode(s).target.fields);
  }

  /** What a merge filled, fewer of the same defaults do not change. */
  lemma FilledStays(v: Value, some: Value, all: Value)
    requires Fewer(some, all)
    ensures Merge(Merge(v, all, true), some, true) == Merge(v, all, true)
  {
    MergeIdempotent(v, all, true);
    FewerChangeNothing(Merge(v, all, true), some, all, true);
  }

  predicate FewerSpec(e: Spec, d: Spec)
  {
    && e.version == d.version
    && Fewer(e.base, d.base) && Fewer(e.initializer, d.initializer) && Fewer(e.ports, d.ports) && Fewer(e.meta, d.meta)
    && Fewer(e.frontend, d.frontend) && Fewer(e.flownode, d.flownode) && Fewer(e.datanode, d.datanode)
    && Fewer(e.logging, d.logging) && Fewer(e.tracing, d.tracing) && Fewer(e.monitoring, d.monitoring)
  }

  lemma MergedSpecStays(s: Spec, e: Spec, d: Spec)
    requires FewerSpec(e, d)
    ensures MergeSpec(MergeSpec(s, d), e) == MergeSpec(s, d)
  {
    FilledStays(s.base, e.base, d.base);
    FilledStays(s.initializer, e.initializer, d.initializer);
    FilledStays(s.ports, e.ports, d.ports);
    FilledStays(s.meta, e.meta, d.meta);
    FilledStays(s.frontend, e.frontend, d.frontend);
    FilledStays(s.flownode, e.flownode, d.flownode);
    FilledStays(s.datanode, e.datanode, d.datanode);
    FilledStays(s.logging, e.logging, d.logging);
    FilledStays(s.tracing, e.tracing, d.tracing);
    FilledStays(s.monitoring, e.monitoring, d.monitoring);
  }

  /** The version is computed from the image again, which gives the same, or the same nothing to be filled. */
  lemma FilledIsFixed(s: Spec)
    ensures Filled(Filled(s)) == Filled(s)
  {
    var version := VersionFromImage(Image(s));
    var t, d, m := s.(version := version), DefaultSpec(s), Filled(s);
    var e := DefaultSpec(m);
    DefaultsShrink(s);
    BaseImageStays(s.base);
    assert Image(m) == Image(s);
    MergedSpecStays(t, e, d);
    assert MergeSpec(m.(version := version), e) == MergeSpec(m, e);
  }

  lemma MergeEachIdempotent(groups: seq<Value>, d: Value)
    ensures MergeEach(MergeEach(groups, d), d) == MergeEach(groups, d)
  {
    forall i | 0 <= i < |groups|
      ensures Merge(Merge(groups[i], d, false), d, false) == Merge(groups[i], d, false)
    {
      MergeIdempotent(groups[i], d, false);
    }
  }

  /** The groups and the strategy do not enter into the defaults. */
  lemma FilledIgnoresGroups(s: Spec, f: seq<Value>, d: seq<Value>, strategy: string)
    ensures Filled(s.(frontendGroups := f, datanodeGroups := d, strategy := strategy))
         == Filled(s).(frontendGroups := f, datanodeGroups := d, strategy := strategy)
    ensures DefaultFrontend(s.(frontendGroups := f, datanodeGroups := d, strategy := strategy)) == DefaultFrontend(s)
    ensures DefaultDatanode(s.(frontendGroups := f, datanodeGroups := d, strategy := strategy)) == DefaultDatanode(s)
  {
  }

  /** One application reaches a fixpoint, so a cluster that nobody edits is updated at most once. */
  lemma Fixpoint(s: Spec)
    ensures Defaulted(Defaulted(s)) == Defaulted(s)
  {
    var m := Filled(s);
    var f, d := MergeEach(m.frontendGroups, DefaultFrontend(m)), MergeEach(m.datanodeGroups, DefaultDatanode(m));
    FilledIsFixed(s);
    FilledIgnoresGroups(m, f, d, INJECTED_DATA_FIRST);
    MergeEachIdempotent(m.frontendGroups, DefaultFrontend(m));
    MergeEachIdempotent(m.datanodeGroups, DefaultDatanode(m));
  }

  // ----- What the user set -----

  /** Nothing that the user set in an ungrouped component is lost. */
  lemma SettingsSurvive(s: Spec)
    ensures var t := Defaulted(s);
      && Kept(s.base, t.base) && Kept(s.meta, t.meta) && Kept(s.frontend, t.frontend)
      && Kept(s.flownode, t.flownode) && Kept(s.datanode, t.datanode)
  {
    HarmlessBase();
    HarmlessMeta(s, true);
    HarmlessFrontend(s, true);
    HarmlessFlownode(s, true);
    HarmlessDatanode(s, true);
    HarmlessKeeps(s.base, BASE);
    HarmlessKeeps(s.meta, DefaultMeta(s));
    HarmlessKeeps(s.frontend, DefaultSpec(s).frontend);
    HarmlessKeeps(s.flownode, DefaultSpec(s).flownode);
    HarmlessKeeps(s.datanode, DefaultSpec(s).datanode);
  }

  lemma HarmlessKeeps(v: Value, d: Value)
    requires Harmless(d, true)
    ensures Kept(v, Merge(v, d, true))
  {
    HarmlessNeverClash(v, d, true);
    MergeKeepsExactly(v, d, true);
  }

  lemma HarmlessStruct(fields: seq<Value>, transform: bool)
    requires forall v :: v in fields ==> Harmless(v, transform)
    ensures Harmless(Struct(fields), transform) && Harmless(Ref(Struct(fields)), transform)
  {
  }

  lemma HarmlessProbe(n: int)
    ensures Harmless(Probe(n), true)
  {
    var get := Struct([Word("/health"), IntOrString(Count(4000))]);
    HarmlessStruct(get.fields, true);
    HarmlessStruct([Ref(get), Number(5), Number(n), Nil], true);
  }

  lemma HarmlessBase()
    ensures Harmless(BASE, true)
  {
    HarmlessProbe(60);
    HarmlessProbe(10);
    HarmlessStruct(BASE.target.fields[0].target.fields, true);
    HarmlessStruct(BASE.target.fields, true);
  }

  lemma HarmlessParts(transform: bool)
    ensures Harmless(TEMPLATE, transform) && Harmless(NO_LOGGING, transform) && Harmless(NO_TRACING, transform)
  {
    HarmlessStruct(TEMPLATE.target.fields, transform);
    HarmlessStruct(NO_LOGGING.target.fields, transform);
    HarmlessStruct(NO_TRACING.target.fields, transform);
  }

  lemma HarmlessRolling(transform: bool)
    requires transform
    ensures Harmless(ROLLING_DEPLOYMENT, transform)
  {
    HarmlessStruct(ROLLING_DEPLOYMENT.target.fields, transform);
  }

  lemma HarmlessAudit(transform: bool)
    ensures Harmless(AUDIT, transform)
  {
    HarmlessStruct(AUDIT.target.fields, transform);
  }

  lemma HarmlessServing(transform: bool)
    ensures Harmless(SERVICE, transform) && Harmless(SLOW_QUERY, transform)
  {
    HarmlessStruct(SERVICE.target.fields, transform);
    HarmlessStruct(SLOW_QUERY.target.fields, transform);
  }

  lemma HarmlessScalars(component: Value, transform: bool)
    ensures Harmless(DefaultReplicas(component), transform)
    ensures forall n :: Harmless(Number(n), transform)
    ensures forall b :: Harmless(Flag(b), transform)
  {
    assert forall n :: Harmless(Number(n), transform);
    assert forall b :: Harmless(Atom(Bool(b)), transform);
  }

  lemma HarmlessMetaFields(
      replicas: Value, template: Value, logging: Value, tracing: Value, failover: Value, rolling: Value,
      transform: bool)
    requires Harmless(replicas, transform) && Harmless(template, transform) && Harmless(logging, transform)
    requires Harmless(tracing, transform) && Harmless(failover, transform) && Harmless(rolling, transform)
    ensures Harmless(Ref(Struct([replicas, template, logging, tracing, Number(3002), Number(4000), failover,
                                 rolling, Nil])), transform)
  {
  }

  lemma HarmlessMeta(s: Spec, transform: bool)
    requires transform
    ensures Harmless(DefaultMeta(s), transform)
  {
    HarmlessScalars(s.meta, transform);
    HarmlessParts(transform);
    HarmlessRolling(transform);
    HarmlessMetaFields(DefaultReplicas(s.meta), TEMPLATE, NO_LOGGING, NO_TRACING, Flag(false), ROLLING_DEPLOYMENT,
        transform);
  }

  lemma HarmlessFrontendFields(
      replicas: Value, audit: Value, template: Value, logging: Value, tracing: Value, service: Value, rolling: Value,
      slow: Value,
      transform: bool)
    requires Harmless(replicas, transform) && Harmless(audit, transform) && Harmless(template, transform)
    requires Harmless(logging, transform) && Harmless(tracing, transform) && Harmless(service, transform)
    requires Harmless(rolling, transform) && Harmless(slow, transform)
    ensures Harmless(Ref(Struct([replicas, audit, template, logging, tracing, Number(4001), Number(4000), Number(4006),
                                 Number(4002),
                                 Number(4003), Number(4010), service, rolling, slow, Nil])), transform)
  {
  }

  lemma HarmlessFrontend(s: Spec, transform: bool)
    requires transform
    ensures Harmless(DefaultFrontend(s), transform)
  {
    HarmlessScalars(s.frontend, transform);
    HarmlessAudit(transform);
    HarmlessParts(transform);
    HarmlessServing(transform);
    HarmlessRolling(transform);
    HarmlessFrontendFields(
      DefaultReplicas(s.frontend), if AuditLogEnabled(s) then AUDIT else Nil, TEMPLATE, NO_LOGGING, NO_TRACING,
      SERVICE, ROLLING_DEPLOYMENT, SLOW_QUERY, transform);
  }

  lemma HarmlessFlownode(s: Spec, transform: bool)
    requires transform
    ensures Harmless(DefaultFlownode(s), transform)
  {
    HarmlessParts(transform);
    HarmlessStruct(DefaultFlownode(s).target.fields, transform);
  }

  lemma HarmlessDatanode(s: Spec, transform: bool)
    ensures Harmless(DefaultDatanode(s), transform)
  {
    HarmlessParts(transform);
    HarmlessStruct(ROLLING_STATEFUL_SET.target.fields, transform);
    HarmlessStruct(Storage("10Gi").target.fields[1].target.fields, transform);
    HarmlessStruct(Storage("10Gi").target.fields, transform);
    HarmlessStruct(DefaultDatanode(s).target.fields, transform);
  }

  /**
   Groups are merged without the custom rule. A datanode group still loses nothing; a frontend
   group loses a setting exactly if a number in it meets a default of type String.
   */
  lemma GroupSettingsSurviveExactly(s: Spec)
    ensures forall i :: 0 <= i < |s.datanodeGroups| ==> Kept(s.datanodeGroups[i], Defaulted(s).datanodeGroups[i])
    ensures forall i :: 0 <= i < |s.frontendGroups| ==>
      (Kept(s.frontendGroups[i], Defaulted(s).frontendGroups[i]) <==>
         !Clashes(s.frontendGroups[i], DefaultFrontend(Filled(s)), false))
  {
    var m := Filled(s);
    forall i | 0 <= i < |s.datanodeGroups|
      ensures Kept(s.datanodeGroups[i], Defaulted(s).datanodeGroups[i])
    {
      HarmlessDatanode(m, false);
      HarmlessNeverClash(s.datanodeGroups[i], DefaultDatanode(m), false);
      MergeKeepsExactly(s.datanodeGroups[i], DefaultDatanode(m), false);
    }
    forall i | 0 <= i < |s.frontendGroups|
      ensures Kept(s.frontendGroups[i], Defaulted(s).frontendGroups[i])
         <==> !Clashes(s.frontendGroups[i], DefaultFrontend(m), false)
    {
      MergeKeepsExactly(s.frontendGroups[i], DefaultFrontend(m), false);
    }
  }

  lemma GivenReplicasStay(component: Value, d: Value)
    requires Replicas(component).Some? ==>
      d.Ref? && d.target.Struct? && |d.target.fields| > 0 && d.target.fields[REPLICAS] == Nil
    ensures SameIfGiven(component, Merge(component, d, true))
  {
    if Replicas(component).Some? {
      FieldOfMerge(component, d, REPLICAS, true);
      NilChangesNothing(Field(component, REPLICAS), true);
    }
  }

  /** The replicas of an ungrouped component stay what the user said, zero included. */
  lemma ExplicitReplicasSurvive(s: Spec)
    ensures var t := Defaulted(s);
      && SameIfGiven(s.meta, t.meta) && SameIfGiven(s.frontend, t.frontend)
      && SameIfGiven(s.flownode, t.flownode) && SameIfGiven(s.datanode, t.datanode)
  {
    ExplicitMetaReplicas(s);
    ExplicitFrontendReplicas(s);
    ExplicitFlownodeReplicas(s);
    ExplicitDatanodeReplicas(s);
  }

  lemma ExplicitMetaReplicas(s: Spec)
    ensures SameIfGiven(s.meta, Defaulted(s).meta)
  {
    GivenReplicasStay(s.meta, DefaultMeta(s));
  }

  lemma ExplicitFrontendReplicas(s: Spec)
    ensures SameIfGiven(s.frontend, Defaulted(s).frontend)
  {
    GivenReplicasStay(s.frontend, DefaultSpec(s).frontend);
  }

  lemma ExplicitFlownodeReplicas(s: Spec)
    ensures SameIfGiven(s.flownode, Defaulted(s).flownode)
  {
    GivenReplicasStay(s.flownode, DefaultSpec(s).flownode);
  }

  lemma ExplicitDatanodeReplicas(s: Spec)
    ensures SameIfGiven(s.datanode, Defaulted(s).datanode)
  {
    GivenReplicasStay(s.datanode, DefaultSpec(s).datanode);
  }

  predicate SameIfGiven(before: Value, after: Value)
  {
    Replicas(before).Some? ==> Replicas(after) == Replicas(before)
  }

  /** A pointer to a struct of the type of `d`, whose replicas, if given, are a number. */
  predicate IsLike(v: Value, d: Value)
    requires d.Ref? && d.target.Struct?
  {
    && v.Ref? && v.target.Struct? && |v.target.fields| == |d.target.fields|
    && (Field(v, REPLICAS) == Nil || Replicas(v).Some?)
  }

  /** In a group it is different: without an ungrouped datanode, zero counts as not given and becomes one. */
  lemma GroupReplicas(s: Spec, i: nat)
    requires i < |s.datanodeGroups| && IsLike(s.datanodeGroups[i], DefaultDatanode(s))
    requires s.datanode == Nil || IsLike(s.datanode, DefaultDatanode(s))
    ensures var r := Replicas(s.datanodeGroups[i]);
      Replicas(Defaulted(s).datanodeGroups[i])
        == if s.datanode == Nil && (r == None || r == Some(0)) then Some(1) else r
  {
    var m := Filled(s);
    DatanodeIsFilled(s);
    FieldOfLike(s.datanodeGroups[i], DefaultDatanode(m), REPLICAS, false);
    NilChangesNothing(Field(s.datanodeGroups[i], REPLICAS), false);
  }

  /** The same for frontend groups. */
  lemma FrontendGroupReplicas(s: Spec, i: nat)
    requires i < |s.frontendGroups| && IsLike(s.frontendGroups[i], DefaultFrontend(s))
    requires s.frontend == Nil || IsLike(s.frontend, DefaultFrontend(s))
    ensures var r := Replicas(s.frontendGroups[i]);
      Replicas(Defaulted(s).frontendGroups[i])
        == if s.frontend == Nil && (r == None || r == Some(0)) then Some(1) else r
  {
    var m := Filled(s);
    FrontendIsFilled(s);
    FieldOfLike(s.frontendGroups[i], DefaultFrontend(m), REPLICAS, false);
    NilChangesNothing(Field(s.frontendGroups[i], REPLICAS), false);
  }

  lemma FrontendIsFilled(s: Spec)
    requires s.frontend == Nil || IsLike(s.frontend, DefaultFrontend(s))
    ensures DefaultReplicas(Filled(s).frontend) == if s.frontend == Nil then Ref(Number(1)) else Nil
  {
    if s.frontend != Nil {
      FieldOfLike(s.frontend, DefaultFrontend(s), REPLICAS, true);
      NilChangesNothing(Field(s.frontend, REPLICAS), true);
    }
  }

  lemma DatanodeIsFilled(s: Spec)
    requires s.datanode == Nil || IsLike(s.datanode, DefaultDatanode(s))
    ensures DefaultReplicas(Filled(s).datanode) == if s.datanode == Nil then Ref(Number(1)) else Nil
  {
    if s.datanode != Nil {
      FieldOfLike(s.datanode, DefaultDatanode(s), REPLICAS, true);
      NilChangesNothing(Field(s.datanode, REPLICAS), true);
    }
  }

  /** Neither enters into the first merge. */
  lemma FilledIgnoresVersion(s: Spec, version: string, strategy: string)
    ensures Filled(s.(version := version, strategy := strategy)) == Filled(s).(strategy := strategy)
  {
  }

  /** The strategy and the version are not the user's to choose: both are set on every application. */
  lemma StrategyAndVersionAreOverwritten(s: Spec, version: string, strategy: string)
    ensures Defaulted(s).strategy == INJECTED_DATA_FIRST
    ensures Defaulted(s).version
         == if VersionFromImage(Image(s)) == "" then DEFAULT_VERSION else VersionFromImage(Image(s))
    ensures Defaulted(s.(version := version, strategy := strategy)) == Defaulted(s)
  {
    var m := Filled(s);
    FilledIgnoresVersion(s, version, strategy);
    FilledIgnoresGroups(m, m.frontendGroups, m.datanodeGroups, strategy);
  }

  const FRONTEND_ROLLING_UPDATE: nat := 12
  const MAX_UNAVAILABLE: nat := 0
  const MAX_SURGE: nat := 1

  /**
   A frontend group that asks for a surge, or for an unavailability, of a number of pods gets 25% instead,
   because groups are merged without the custom rule; the other of the two may be anything.
   */
  lemma GroupCountIsReplaced(s: Spec, i: nat, field: nat, n: int)
    requires i < |s.frontendGroups| && IsLike(s.frontendGroups[i], DefaultFrontend(s)) && n != 0
    requires field == MAX_UNAVAILABLE || field == MAX_SURGE
    requires var r := Field(s.frontendGroups[i], FRONTEND_ROLLING_UPDATE);
             r.Ref? && r.target.Struct? && |r.target.fields| == 2 && Field(r, field) == Ref(IntOrString(Count(n)))
    ensures Field(Field(Defaulted(s).frontendGroups[i], FRONTEND_ROLLING_UPDATE), field)
         == Ref(IntOrString(Text("25%")))
  {
    var g, d := s.frontendGroups[i], DefaultFrontend(Filled(s));
    FieldOfLike(g, d, FRONTEND_ROLLING_UPDATE, false);
    FieldOfLike(g.target.fields[FRONTEND_ROLLING_UPDATE], ROLLING_DEPLOYMENT, field, false);
  }
}
