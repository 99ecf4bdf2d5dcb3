/**
 What defaulting makes of a spec, part by part: a component that the user left out stays out, a setting that the user
 made stays, and a setting left out in a part that is there takes the default.
 */
module Filling {
  import opened Text
  import opened Merging
  import opened Defaults

  // ----- What a merge leaves at a path -----

  /** A scalar or a list, reached by field numbers; pointers are followed. */
  function Leaf(v: Value, path: seq<nat>): Option<Value>
    decreases v
  {
    match v
    case Ref(t) => Leaf(t, path)
    case Struct(fs) => if path != [] && path[0] < |fs| then Leaf(fs[path[0]], path[1..]) else None
    case Atom(_) => if path == [] then Some(v) else None
    case Slice(_) => if path == [] then Some(v) else None
    case _ => None
  }

  /** An entry of a map, reached in the same way. */
  function Entry(v: Value, path: seq<nat>, key: string): Option<string>
    decreases v
  {
    match v
    case Ref(t) => Entry(t, path, key)
    case Struct(fs) => if path != [] && path[0] < |fs| then Entry(fs[path[0]], path[1..], key) else None
    case Dict(d) => if path == [] && key in d then Some(d[key]) else None
    case _ => None
  }

  /** The zero value of its Go type. */
  predicate IsEmpty(v: Value)
  {
    v == Atom(Int(0)) || v == Atom(Str("")) || v == Atom(Bool(false)) || v == Slice([])
  }

  /** The two values have the same Go type, as far as both are there. */
  predicate SameType(v: Value, d: Value)
    decreases v
  {
    || v == Nil || d == Nil
    || (v.Ref? && d.Ref? && SameType(v.target, d.target))
    || (v.Struct? && d.Struct? && |v.fields| == |d.fields|
        && forall i :: 0 <= i < |v.fields| ==> SameType(v.fields[i], d.fields[i]))
    || (v.Atom? && d.Atom?) || (v.Slice? && d.Slice?) || (v.Dict? && d.Dict?) || (v.IntOrString? && d.IntOrString?)
  }

  /** What the user set, and the default where nothing or the zero value was set. */
  function Choice(user: Option<Value>, default': Option<Value>): Option<Value>
  {
    if user.Some? && !IsEmpty(user.value) then user else if default'.Some? then default' else user
  }

  function EntryChoice(user: Option<string>, default': Option<string>): Option<string>
  {
    if user.Some? && user.value != "" then user else if default'.Some? then default' else user
  }

  /** A merge leaves at every path what the user set there, or else the default. */
  lemma {:induction false} MergeFills(v: Value, d: Value, transform: bool, path: seq<nat>)
    requires SameType(v, d)
    ensures Leaf(Merge(v, d, transform), path) == Choice(Leaf(v, path), Leaf(d, path))
    decreases v
  {
    match v
    case Ref(t) =>
      if d.Ref? {
        MergeFills(t, d.target, transform, path);
      }
    case Struct(fs) =>
      if d.Struct? && path != [] && path[0] < |fs| {
        MergeFills(fs[path[0]], d.fields[path[0]], transform, path[1..]);
      }
    case _ =>
  }

  /** The same for the entries of maps. */
  lemma {:induction false} MergeFillsEntries(v: Value, d: Value, transform: bool, path: seq<nat>, key: string)
    requires SameType(v, d)
    ensures Entry(Merge(v, d, transform), path, key) == EntryChoice(Entry(v, path, key), Entry(d, path, key))
    decreases v
  {
    match v
    case Ref(t) =>
      if d.Ref? {
        MergeFillsEntries(t, d.target, transform, path, key);
      }
    case Struct(fs) =>
      if d.Struct? && path != [] && path[0] < |fs| {
        MergeFillsEntries(fs[path[0]], d.fields[path[0]], transform, path[1..], key);
      }
    case _ =>
  }

  /** Every scalar, list and map entry of a part is the user's, or the default's. */
  ghost predicate IsFilled(before: Value, after: Value, default': Value)
  {
    && (forall path :: Leaf(after, path) == Choice(Leaf(before, path), Leaf(default', path)))
    && (forall path, key ::
          Entry(after, path, key) == EntryChoice(Entry(before, path, key), Entry(default', path, key)))
  }

  lemma MergeIsFilled(v: Value, d: Value, transform: bool)
    requires SameType(v, d)
    ensures IsFilled(v, Merge(v, d, transform), d)
  {
    forall path
      ensures Leaf(Merge(v, d, transform), path) == Choice(Leaf(v, path), Leaf(d, path))
    {
      MergeFills(v, d, transform, path);
    }
    forall path, key
      ensures Entry(Merge(v, d, transform), path, key) == EntryChoice(Entry(v, path, key), Entry(d, path, key))
    {
      MergeFillsEntries(v, d, transform, path, key);
    }
  }

  // ----- Which parts are there -----

  /**
   Defaulting adds the metasrv, which every cluster has, and no other component: what the user left out stays out. A
   pointer that is set stays set.
   */
  lemma ComponentsStayOut(s: Spec)
    ensures var t := Defaulted(s);
      && t.meta != Nil
      && (t.frontend == Nil <==> s.frontend == Nil)
      && (t.flownode == Nil <==> s.flownode == Nil)
      && (t.datanode == Nil <==> s.datanode == Nil)
      && |t.frontendGroups| == |s.frontendGroups| && |t.datanodeGroups| == |s.datanodeGroups|
  {
    NilStaysNil(s.frontend, DefaultSpec(s).frontend);
    NilStaysNil(s.flownode, DefaultSpec(s).flownode);
    NilStaysNil(s.datanode, DefaultSpec(s).datanode);
  }

  lemma NilStaysNil(v: Value, d: Value)
    ensures Merge(v, d, true) == Nil <==> v == Nil && d == Nil
  {
  }

  /** Without monitoring, monitoring and tracing are what the user made them, set or not. */
  lemma MonitoringIsOptional(s: Spec)
    requires !MonitoringEnabled(s)
    ensures Defaulted(s).monitoring == s.monitoring && Defaulted(s).tracing == s.tracing
  {
    NilChangesNothing(s.monitoring, true);
    NilChangesNothing(s.tracing, true);
  }

  /** With it, both are there. */
  lemma MonitoringIsDefaulted(s: Spec)
    requires MonitoringEnabled(s)
    ensures MonitoringEnabled(Defaulted(s)) && Defaulted(s).tracing != Nil
  {
    MonitoringStays(s);
    NilStaysNil(s.tracing, DefaultTracing(s));
  }

  /** The two parts are given defaults exactly if monitoring is enabled. */
  lemma TracingExactly(s: Spec)
    requires s.tracing == Nil
    ensures Defaulted(s).tracing != Nil <==> MonitoringEnabled(s)
  {
    if MonitoringEnabled(s) {
      MonitoringIsDefaulted(s);
    } else {
      MonitoringIsOptional(s);
    }
  }

  // ----- What is in them -----

  /** A component that is there and says nothing about replicas gets one; one that is not there gets none. */
  predicate IsCounted(before: Value, after: Value)
  {
    Replicas(after) == if before == Nil then None else if Replicas(before) == None then Some(1) else Replicas(before)
  }

  lemma ReplicasAreDefaulted(v: Value, d: Value)
    requires d.Ref? && d.target.Struct? && |d.target.fields| > 0 && IsLike(v, d)
    requires d.target.fields[REPLICAS] == DefaultReplicas(v)
    ensures IsCounted(v, Merge(v, d, true))
  {
    FieldOfLike(v, d, REPLICAS, true);
    NilChangesNothing(Field(v, REPLICAS), true);
  }

  lemma FrontendReplicas(s: Spec)
    requires s.frontend != Nil ==> IsLike(s.frontend, DefaultFrontend(s))
    ensures IsCounted(s.frontend, Defaulted(s).frontend)
  {
    if s.frontend != Nil {
      ReplicasAreDefaulted(s.frontend, DefaultFrontend(s));
    }
  }

  lemma FlownodeReplicas(s: Spec)
    requires s.flownode != Nil ==> IsLike(s.flownode, DefaultFlownode(s))
    ensures IsCounted(s.flownode, Defaulted(s).flownode)
  {
    if s.flownode != Nil {
      ReplicasAreDefaulted(s.flownode, DefaultFlownode(s));
    }
  }

  lemma DatanodeReplicas(s: Spec)
    requires s.datanode != Nil ==> IsLike(s.datanode, DefaultDatanode(s))
    ensures IsCounted(s.datanode, Defaulted(s).datanode)
  {
    if s.datanode != Nil {
      ReplicasAreDefaulted(s.datanode, DefaultDatanode(s));
    }
  }

  lemma MetaReplicas(s: Spec)
    requires s.meta != Nil ==> IsLike(s.meta, DefaultMeta(s))
    ensures if s.meta == Nil then Replicas(Defaulted(s).meta) == Some(1) else IsCounted(s.meta, Defaulted(s).meta)
  {
    if s.meta != Nil {
      ReplicasAreDefaulted(s.meta, DefaultMeta(s));
    }
  }

  /** The replicas of the ungrouped components, exactly; a metasrv that the user left out gets one, too. */
  lemma OneReplicaByDefault(s: Spec)
    requires s.frontend != Nil ==> IsLike(s.frontend, DefaultFrontend(s))
    requires s.flownode != Nil ==> IsLike(s.flownode, DefaultFlownode(s))
    requires s.datanode != Nil ==> IsLike(s.datanode, DefaultDatanode(s))
    requires s.meta != Nil ==> IsLike(s.meta, DefaultMeta(s))
    ensures IsCounted(s.frontend, Defaulted(s).frontend)
    ensures IsCounted(s.flownode, Defaulted(s).flownode)
    ensures IsCounted(s.datanode, Defaulted(s).datanode)
    ensures if s.meta == Nil then Replicas(Defaulted(s).meta) == Some(1) else IsCounted(s.meta, Defaulted(s).meta)
  {
    FrontendReplicas(s);
    FlownodeReplicas(s);
    DatanodeReplicas(s);
    MetaReplicas(s);
  }

  /** The parts of a spec have the Go types that its defaults have. */
  predicate IsTyped(s: Spec)
  {
    && SameType(s.base, BASE) && SameType(s.initializer, INITIALIZER) && SameType(s.ports, PORTS)
    && SameType(s.meta, DefaultMeta(s)) && SameType(s.frontend, DefaultFrontend(s))
    && SameType(s.flownode, DefaultFlownode(s)) && SameType(s.datanode, DefaultDatanode(s))
    && SameType(s.logging, Logging("text")) && SameType(s.logging, Logging("json"))
    && SameType(s.tracing, DefaultTracing(s)) && SameType(s.monitoring, DefaultMonitoring(s))
  }

  /** The defaults of a part that is only given some if it is there, or if something is enabled. */
  function Optional(given: bool, d: Value): Value
  {
    if given then d else Nil
  }

  /**
   Every part of the spec is filled: each scalar, list and map entry is the user's, or the default if the user set none,
   in the parts that have defaults.
   */
  lemma EveryPartIsFilled(s: Spec)
    requires IsTyped(s)
    ensures var t, on := Defaulted(s), MonitoringEnabled(s);
      && IsFilled(s.base, t.base, BASE) && IsFilled(s.initializer, t.initializer, INITIALIZER)
      && IsFilled(s.ports, t.ports, PORTS) && IsFilled(s.meta, t.meta, DefaultMeta(s))
      && IsFilled(s.frontend, t.frontend, Optional(s.frontend != Nil, DefaultFrontend(s)))
      && IsFilled(s.flownode, t.flownode, Optional(s.flownode != Nil, DefaultFlownode(s)))
      && IsFilled(s.datanode, t.datanode, Optional(s.datanode != Nil, DefaultDatanode(s)))
      && IsFilled(s.logging, t.logging, Logging(if on then "json" else "text"))
      && IsFilled(s.tracing, t.tracing, Optional(on, DefaultTracing(s)))
      && IsFilled(s.monitoring, t.monitoring, Optional(on, DefaultMonitoring(s)))
      && t.enableIPv6 == s.enableIPv6
  {
    var d := DefaultSpec(s);
    MergeIsFilled(s.base, BASE, true);
    MergeIsFilled(s.initializer, INITIALIZER, true);
    MergeIsFilled(s.ports, PORTS, true);
    MergeIsFilled(s.meta, d.meta, true);
    MergeIsFilled(s.frontend, d.frontend, true);
    MergeIsFilled(s.flownode, d.flownode, true);
    MergeIsFilled(s.datanode, d.datanode, true);
    MergeIsFilled(s.logging, d.logging, true);
    MergeIsFilled(s.tracing, d.tracing, true);
    MergeIsFilled(s.monitoring, d.monitoring, true);
  }

  const FORMAT: nat := 2

  lemma DefaultFormat(format: string)
    ensures Leaf(Logging(format), [FORMAT]) == Some(Word(format))
  {
    assert [FORMAT][1..] == [] && Leaf(Word(format), []) == Some(Word(format));
  }

  /** Logs are JSON by default if monitoring is enabled, and text otherwise; what the user chose stays. */
  lemma LogFormatExactly(s: Spec)
    requires IsTyped(s)
    ensures Leaf(Defaulted(s).logging, [FORMAT])
         == Choice(Leaf(s.logging, [FORMAT]), Some(Word(if MonitoringEnabled(s) then "json" else "text")))
  {
    var format := if MonitoringEnabled(s) then "json" else "text";
    MergeFills(s.logging, Logging(format), true, [FORMAT]);
    DefaultFormat(format);
  }

  function TimeToLive(s: Spec): string
  {
    if MonitoringTtl(s) != "" then MonitoringTtl(s) else DEFAULT_TTL
  }

  lemma DefaultHint(s: Spec)
    ensures Entry(DefaultTracing(s), [0], HINT) == Some(TimeToLive(s))
  {
    var headers := DefaultTracing(s).target.fields[0];
    assert [0][1..] == [] && Entry(headers, [], HINT) == Some(TimeToLive(s));
  }

  /** With monitoring, traces carry its time to live as a hint, unless the user set the hint. */
  lemma TraceHintExactly(s: Spec)
    requires IsTyped(s) && MonitoringEnabled(s)
    ensures Entry(Defaulted(s).tracing, [0], HINT)
         == EntryChoice(Entry(s.tracing, [0], HINT), Some(TimeToLive(s)))
  {
    MergeFillsEntries(s.tracing, DefaultTracing(s), true, [0], HINT);
    DefaultHint(s);
  }

  /** An audit log that is not enabled is left as it is. */
  lemma AuditLogIsOptional(s: Spec)
    requires s.frontend != Nil && IsLike(s.frontend, DefaultFrontend(s)) && !AuditLogEnabled(s)
    ensures Field(Defaulted(s).frontend, AUDIT_LOG) == Field(s.frontend, AUDIT_LOG)
  {
    FieldOfLike(s.frontend, DefaultFrontend(s), AUDIT_LOG, true);
    NilChangesNothing(Field(s.frontend, AUDIT_LOG), true);
  }

  /** Where the image of the monitoring instance is. */
  const STANDALONE_IMAGE: seq<nat> := [2, 1, 0, 0]

  lemma DefaultImage(s: Spec)
    ensures Leaf(DefaultMonitoring(s), STANDALONE_IMAGE)
         == Some(Word(if Image(s) != "" then Image(s) else "greptime/greptimedb:latest"))
  {
    var p := STANDALONE_IMAGE;
    assert p[1..] == [1, 0, 0] && p[1..][1..] == [0, 0] && p[1..][1..][1..] == [0] && p[1..][1..][1..][1..] == [];
    var standalone := DefaultStandalone(s);
    var base := standalone.target.fields[1];
    var container := base.target.fields[0];
    assert Leaf(container.target.fields[0], []) == Some(container.target.fields[0]);
    assert Leaf(container, [0]) == Leaf(container.target.fields[0], [0][1..]);
    assert Leaf(base, [0, 0]) == Leaf(container, [0, 0][1..]);
    assert Leaf(standalone, [1, 0, 0]) == Leaf(base, [1, 0, 0][1..]);
  }

  /** The monitoring instance runs the image of the cluster, unless the user chose another one for it. */
  lemma MonitoringRunsTheImage(s: Spec)
    requires IsTyped(s) && MonitoringEnabled(s)
    ensures Leaf(Defaulted(s).monitoring, STANDALONE_IMAGE)
         == Choice(Leaf(s.monitoring, STANDALONE_IMAGE),
                   Some(Word(if Image(s) != "" then Image(s) else "greptime/greptimedb:latest")))
  {
    MergeFills(s.monitoring, DefaultMonitoring(s), true, STANDALONE_IMAGE);
    DefaultImage(s);
  }

  /** The groups are filled with the defaults of the object that the first merge has made. */
  lemma EveryGroupIsFilled(s: Spec, i: nat)
    ensures i < |s.datanodeGroups| && SameType(s.datanodeGroups[i], DefaultDatanode(Filled(s))) ==>
      IsFilled(s.datanodeGroups[i], Defaulted(s).datanodeGroups[i], DefaultDatanode(Filled(s)))
    ensures i < |s.frontendGroups| && SameType(s.frontendGroups[i], DefaultFrontend(Filled(s))) ==>
      IsFilled(s.frontendGroups[i], Defaulted(s).frontendGroups[i], DefaultFrontend(Filled(s)))
  {
    var d, f := DefaultDatanode(Filled(s)), DefaultFrontend(Filled(s));
    if i < |s.datanodeGroups| && SameType(s.datanodeGroups[i], d) {
      MergeIsFilled(s.datanodeGroups[i], d, false);
    }
    if i < |s.frontendGroups| && SameType(s.frontendGroups[i], f) {
      MergeIsFilled(s.frontendGroups[i], f, false);
    }
  }

  // ----- Numbers or percentages -----

  /** Behind a pointer the custom rule keeps the type that the user chose, and fills in only a zero of that type. */
  lemma UngroupedTypeStays(v: Value, d: Value)
    requires v.Ref? && v.target.IntOrString?
    ensures var w := Merge(v, d, true);
      && w.Ref? && w.target.IntOrString? && w.target.content.Count? == v.target.content.Count?
      && (v.target.content != Count(0) && v.target.content != Text("") ==> w == v)
  {
  }
}
