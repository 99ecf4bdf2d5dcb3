/**
 The control protocol of the operator as a state machine. One process reconciles
 any number of clusters, one pass per cluster at a time, passes of different
 clusters interleaved. A step is one observable action of a pass (a read, a status
 write, a create or patch, a maintenance call) or one action of the environment.

 A pass works on the copy of the cluster that it read; what is persisted is kept
 apart, because some status writes may fail without ending the pass.
 */
module Machine {
  import opened Text
  import opened Names
  import opened Resources
  import opened Apply

  datatype Phase = Unset | Starting | Running | Updating | Error | Terminating

  datatype Role = Monitoring | Meta | Datanode | Frontend | Flownode

  /** The order in which the deployers run. */
  function Rank(r: Role): nat
  {
    match r case Monitoring => 0 case Meta => 1 case Datanode => 2 case Frontend => 3 case Flownode => 4
  }

  function NextRole(r: Role): (n: Role)
    requires r != Flownode
    ensures Rank(n) == Rank(r) + 1
  {
    match r case Monitoring => Meta case Meta => Datanode case Datanode => Frontend case Frontend => Flownode
  }

  /**
   What the protocol needs of a cluster spec: the objects each deployer generates from it, two flags,
   and whether it already holds all its defaults.
   */
  datatype RawSpec = RawSpec(hasMeta: bool, failover: bool, complete: bool, objects: map<Role, seq<Desired>>)
  {
    function Objects(r: Role): seq<Desired> { if r in objects then objects[r] else [] }
  }

  /** Region failover is a field of the meta spec, which is defaulted, and the meta deployer always has objects. */
  type Spec = s: RawSpec | (s.failover || s.complete ==> s.hasMeta) && s.Objects(Meta) != []
    witness RawSpec(false, false, false, map[Meta := [SOME_DESIRED]])

  const SOME_CONTAINER := Container("", [], [], JNull, JNull, JNull, JNull)
  const SOME_TEMPLATE := PodTemplate(map[], "", JNull, JNull, JNull, SOME_CONTAINER, JNull)
  const SOME_DESIRED := Desired(ObjectKey("Service", "default", "basic-meta"), JNull, map[], SOME_TEMPLATE)

  function Defaulted(s: Spec): Spec
  {
    s.(hasMeta := true, complete := true)
  }

  /** The StatefulSets whose readiness the datanode deployer checks. */
  function StatefulSetKeys(ds: seq<Desired>): seq<ObjectKey>
  {
    if ds == [] then []
    else (if ds[0].IsStatefulSet() then [ds[0].key] else []) + StatefulSetKeys(ds[1..])
  }

  function Watched(s: Spec): seq<ObjectKey>
  {
    StatefulSetKeys(s.Objects(Datanode))
  }

  /** The post-sync hook of the datanode deployer runs and is willing to switch maintenance off. */
  predicate HookRuns(s: Spec)
  {
    s.failover && s.Objects(Datanode) != []
  }

  /** The persisted custom resource. */
  datatype Cluster = Cluster(spec: Spec, phase: Phase, maintenance: bool, deleting: bool, finalizer: bool)

  datatype Pc =
    | AddingFinalizer
    | Validating
    | SavingSpec
    | MarkingStarting
    | Preparing
    | Generating(role: Role)
    | Hooking(role: Role)
    | Applying(role: Role, i: nat, updated: bool)
    | Arming(i: nat, updated: bool)
    | Patching(role: Role, i: nat, updated: bool, compared: Option<Comparison>)
    | Checking(role: Role, i: nat, allReady: bool)
    | SavingStatus(role: Role, ready: bool)
    | Disarming
    | Waiting
    | Closing
    | MarkingRunning
    | MarkingError
    | MarkingTerminating
    | Cleaning(role: Role)
    | Releasing

  predicate IsPrologue(pc: Pc)
  {
    pc.AddingFinalizer? || pc.Validating? || pc.SavingSpec? || pc.MarkingStarting? || pc.Preparing?
  }

  predicate IsEpilogue(pc: Pc)
  {
    pc.Waiting? || pc.Closing? || pc.MarkingRunning? || pc.MarkingError?
  }

  predicate IsDeletion(pc: Pc)
  {
    pc.MarkingTerminating? || pc.Cleaning? || pc.Releasing?
  }

  /** The in-memory copy that a pass works on, and where it is. */
  datatype Pass = Pass(spec: Spec, phase: Phase, maintenance: bool, finalizer: bool, pc: Pc)

  datatype Caller = MetaDeployer | DatanodeDeployer | Controller

  /** A patch says whether region failover is on and which pod templates were compared before it, if any. */
  datatype WriteKind = Creation | Patch(failover: bool, compared: Option<Comparison>)

  /** What happened to one cluster, in order. */
  datatype Event =
    | Admitted
    | Edited
    | Updated
    | Began(phase: Phase, deleting: bool)
    | On(caller: Caller)
    | Off(caller: Caller, watched: seq<ObjectKey>)
    | Wrote(role: Role, desired: Desired, kind: WriteKind)
    | Observed(key: ObjectKey, found: Option<Object>)
    | Succeeded(role: Role)
    | Moved(from: Phase, to: Phase)
    | Cleaned(role: Role)
    | Released

  /**
   How the environment answers one step of a pass: reads and validation, the maintenance
   request, the write if there is one, an observed readiness, and the live part of a written object.
   */
  datatype Answer = Answer(ok: bool, call: bool, write: Outcome, ready: bool, live: Live)

  /** Everything that belongs to one cluster. */
  datatype View = View(cluster: Option<Cluster>, pass: Option<Pass>, armed: bool, on: bool, history: seq<Event>)

  const FRESH := View(None, None, false, false, [])

  // ----- Building blocks of a step -----

  function Stop(v: View): View { v.(pass := None) }

  function Goto(v: View, p: Pass, pc: Pc): View { v.(pass := Some(p.(pc := pc))) }

  function Log(v: View, e: Event): View { v.(history := v.history + [e]) }

  /** Status update: the whole in-memory status replaces the persisted one. */
  function Save(v: View, p: Pass, write: Outcome): View
  {
    if write == Failed || v.cluster == None then v
    else
      var c := v.cluster.value;
      var w := v.(cluster := Some(c.(phase := p.phase, maintenance := p.maintenance)));
      if c.phase == p.phase then w else Log(w, Moved(c.phase, p.phase))
  }

  predicate Acknowledged(v: View, write: Outcome)
  {
    write == Done && v.cluster != None
  }

  /** An update of the whole resource succeeds only if nobody changed it since it was read. */
  predicate Unchanged(v: View, p: Pass)
  {
    v.cluster.Some? && v.cluster.value.spec == p.spec
  }

  /** A deployer returned success: the next one runs, or the pass draws its conclusion. */
  function Advance(v: View, p: Pass, role: Role): View
  {
    var w := Log(v, Succeeded(role));
    if role != Flownode then Goto(w, p, Generating(NextRole(role)))
    else if p.phase == Starting || p.phase == Updating then Goto(w, p, Closing)
    else Stop(w)
  }

  // ----- The steps of a pass, in program order -----

  /** addFinalizer: only for a cluster that has a meta spec, and only if it is not there. */
  function FinalizerStep(v: View, p: Pass, a: Answer): View
  {
    var q := p.(finalizer := true);
    if !p.spec.hasMeta || p.finalizer then Goto(v, p, Validating)
    else if a.write == Failed || !Unchanged(v, p) || v.cluster.value.deleting then Goto(v, q, MarkingError)
    else
      var w := v.(cluster := Some(v.cluster.value.(finalizer := true)));
      Goto(w, q, if a.write == Done then Validating else MarkingError)
  }

  /** Defaults are written back if they change the spec. */
  function DefaultsStep(v: View, p: Pass, a: Answer): View
  {
    var q := p.(spec := Defaulted(p.spec));
    if q.spec == p.spec then Goto(v, p, MarkingStarting)
    else if a.write == Failed || !Unchanged(v, p) then Goto(v, q, MarkingError)
    else
      var w := Log(v.(cluster := Some(v.cluster.value.(spec := q.spec))), Updated);
      Goto(w, q, if a.write == Done then MarkingStarting else MarkingError)
  }

  function MarkStartingStep(v: View, p: Pass, a: Answer): View
  {
    if p.phase != Unset then Goto(v, p, Preparing)
    else
      var q := p.(phase := Starting);
      Goto(Save(v, q, a.write), q, if Acknowledged(v, a.write) then Preparing else MarkingError)
  }

  /**
   From the read to the start of the deployers. Errors up to the first phase lead to phase Error, later ones do
   not.
   */
  function PrologueStep(v: View, p: Pass, a: Answer): View
    requires IsPrologue(p.pc)
  {
    match p.pc
    case AddingFinalizer => FinalizerStep(v, p, a)
    case Validating => Goto(v, p, if a.ok then SavingSpec else MarkingError)
    case SavingSpec => DefaultsStep(v, p, a)
    case MarkingStarting => MarkStartingStep(v, p, a)
    case Preparing => if a.ok then Goto(v, p, Generating(Monitoring)) else Stop(v)
  }

  /** Generate and the pre-sync hooks; only the meta deployer has one that can fail. */
  function SyncStartStep(v: View, p: Pass, a: Answer): View
    requires p.pc.Generating? || p.pc.Hooking?
  {
    if p.pc.Generating? then
      if !a.ok then Stop(v)
      else if p.spec.Objects(p.pc.role) == [] then Advance(v, p, p.pc.role)
      else Goto(v, p, Hooking(p.pc.role))
    else if p.pc.role == Meta && !a.ok then Stop(v)
    else Goto(v, p, Applying(p.pc.role, 0, false))
  }

  /** One object of the apply loop: look it up, create it, or decide to patch it. */
  function ApplyStep(v: View, p: Pass, store: Store, a: Answer): (View, Store)
    requires p.pc.Applying?
  {
    var Applying(role, i, updated) := p.pc;
    var ds := p.spec.Objects(role);
    if i >= |ds| then (Goto(v, p, if updated then Waiting else Checking(role, 0, true)), store)
    else if !a.ok then (Stop(v), store)
    else
      match Compare(store, ds[i])
      case Unreadable => (Stop(v), store)
      case Same => (Goto(v, p, Applying(role, i + 1, updated)), store)
      case Absent => WriteStep(v, p, store, role, i, updated, Creation, a)
      case Differs =>
        if role == Datanode && ds[i].IsStatefulSet() && p.spec.failover then (Goto(v, p, Arming(i, updated)), store)
        else (Goto(v, p, Patching(role, i, updated, None)), store)
  }

  function WriteStep(v: View, p: Pass, store: Store, role: Role, i: nat, updated: bool, kind: WriteKind,
      a: Answer): (View, Store)
    requires i < |p.spec.Objects(role)|
  {
    var d := p.spec.Objects(role)[i];
    if a.write == Failed then (Stop(v), store)
    else
      var w := Log(v, Wrote(role, d, kind));
      (if a.write == Done then Goto(w, p, Applying(role, i + 1, updated || kind.Patch?)) else Stop(w),
       Written(store, d, a.live))
  }

  /** turnOnMaintenanceMode: the old StatefulSet is read again, judged, and the flag stored after the call. */
  function ArmStep(v: View, p: Pass, store: Store, a: Answer): View
    requires p.pc.Arming? && p.pc.i < |p.spec.Objects(Datanode)|
  {
    var d := p.spec.Objects(Datanode)[p.pc.i];
    if !a.ok || d.key !in store then Stop(v)
    else
      var compared := Some(Comparison(d.template, store[d.key].live.template));
      var next := Patching(Datanode, p.pc.i, p.pc.updated, compared);
      if v.armed || !Restarts(compared) then Goto(v, p, next)
      else if !a.call then Stop(v)
      else Goto(Log(v.(on := true, armed := true), On(DatanodeDeployer)), p, next)
  }

  function PatchStep(v: View, p: Pass, store: Store, a: Answer): (View, Store)
    requires p.pc.Patching? && p.pc.i < |p.spec.Objects(p.pc.role)|
  {
    var Patching(role, i, updated, compared) := p.pc;
    if p.spec.Objects(role)[i].key !in store then (Stop(v), store)
    else WriteStep(v, p, store, role, i, updated, Patch(p.spec.failover, compared), a)
  }

  /**
   CheckAndUpdateStatus up to its status write. Where the source returns before writing,
   the write that follows here can fail, which comes to the same.
   */
  function CheckStep(v: View, p: Pass, store: Store, a: Answer): View
    requires p.pc.Checking?
  {
    match p.pc.role
    case Datanode =>
      var keys := Watched(p.spec);
      if p.pc.i >= |keys| then Goto(v, p, SavingStatus(Datanode, p.pc.allReady))
      else if !a.ok then Stop(v)
      else
        var key := keys[p.pc.i];
        var found := if key in store then Some(store[key]) else None;
        var ready := found.Some? && IsStatefulSetReady(found.value);
        Goto(Log(v, Observed(key, found)), p, Checking(Datanode, p.pc.i + 1, p.pc.allReady && ready))
    case Meta =>
      if !a.ok then Stop(v)
      else if a.ready && p.phase == Starting && !p.maintenance then
        // The call that puts a cluster under creation into maintenance.
        if !a.call then Stop(v)
        else Goto(Log(v.(on := true), On(MetaDeployer)), p.(maintenance := true), SavingStatus(Meta, true))
      else Goto(v, p, SavingStatus(Meta, a.ready))
    case _ => if a.ok then Goto(v, p, SavingStatus(p.pc.role, a.ready)) else Stop(v)
  }

  /** The status write of a deployer: a failure is only logged. */
  function SaveStatusStep(v: View, p: Pass, a: Answer): View
    requires p.pc.SavingStatus?
  {
    var w := Save(v, p, a.write);
    if !p.pc.ready then Goto(w, p, Waiting)
    else if p.pc.role == Datanode then Goto(w, p, Disarming)
    else Advance(w, p, p.pc.role)
  }

  /**
   turnOffMaintenanceMode, the datanode deployer's post-sync hook; once the flag is clear the deployer has
   succeeded.
   */
  function DisarmStep(v: View, p: Pass, a: Answer): View
    requires p.pc.Disarming?
  {
    if !(v.armed && p.spec.failover) then Advance(v, p, Datanode)
    else if !a.call then Stop(v)
    else Log(v.(on := false, armed := false), Off(DatanodeDeployer, Watched(p.spec)))
  }

  /** Some deployer was not ready: a running cluster is updating, an erroneous one starts again. */
  function WaitStep(v: View, p: Pass, a: Answer): View
  {
    var next := if p.phase == Running then Updating else if p.phase == Error then Starting else p.phase;
    Stop(if next == p.phase then v else Save(v, p.(phase := next), a.write))
  }

  /** All deployers succeeded on a cluster that was starting or updating: creation-time maintenance ends. */
  function CloseStep(v: View, p: Pass, a: Answer): View
  {
    if !p.maintenance then Goto(v, p, MarkingRunning)
    else if !a.call then Stop(v)
    else Goto(Log(v.(on := false), Off(Controller, Watched(p.spec))), p.(maintenance := false), MarkingRunning)
  }

  /** The ends of a pass: not ready, all ready, or failed before the deployers ran. */
  function EpilogueStep(v: View, p: Pass, a: Answer): View
    requires IsEpilogue(p.pc)
  {
    match p.pc
    case Waiting => WaitStep(v, p, a)
    case Closing => CloseStep(v, p, a)
    case MarkingRunning => Stop(Save(v, p.(phase := Running), a.write))
    case MarkingError => Stop(if p.phase == Error then v else Save(v, p.(phase := Error), a.write))
  }

  /** The deletion branch; only the datanode deployer's clean-up can fail. */
  function DeletionStep(v: View, p: Pass, a: Answer): View
    requires IsDeletion(p.pc)
  {
    match p.pc
    case MarkingTerminating => Stop(Save(v, p.(phase := Terminating), a.write))
    case Cleaning(role) =>
      if role == Datanode && !a.ok then Stop(v)
      else Goto(Log(v, Cleaned(role)), p, if role == Flownode then Releasing else Cleaning(NextRole(role)))
    case Releasing =>
      if a.write == Failed || !Unchanged(v, p) then Stop(v)
      else Stop(Log(v.(cluster := Some(v.cluster.value.(finalizer := false))), Released))
  }

  predicate InBounds(p: Pass)
  {
    match p.pc
    case Arming(i, _) => i < |p.spec.Objects(Datanode)|
    case Patching(role, i, _, _) => i < |p.spec.Objects(role)|
    case _ => true
  }

  function PassStep(v: View, store: Store, a: Answer): (View, Store)
    requires v.pass.Some? && InBounds(v.pass.value)
  {
    var p := v.pass.value;
    if IsPrologue(p.pc) then (PrologueStep(v, p, a), store)
    else if IsEpilogue(p.pc) then (EpilogueStep(v, p, a), store)
    else if IsDeletion(p.pc) then (DeletionStep(v, p, a), store)
    else if p.pc.Applying? then ApplyStep(v, p, store, a)
    else if p.pc.Arming? then (ArmStep(v, p, store, a), store)
    else if p.pc.Patching? then PatchStep(v, p, store, a)
    else if p.pc.Checking? then (CheckStep(v, p, store, a), store)
    else if p.pc.SavingStatus? then (SaveStatusStep(v, p, a), store)
    else if p.pc.Disarming? then (DisarmStep(v, p, a), store)
    else (SyncStartStep(v, p, a), store)
  }

  /** The read that opens a pass. */
  function BeginStep(v: View): View
    requires v.pass == None && v.cluster.Some?
  {
    var c := v.cluster.value;
    var w := Log(v, Began(c.phase, c.deleting));
    var p := Pass(c.spec, c.phase, c.maintenance, c.finalizer, AddingFinalizer);
    if !c.deleting then Goto(w, p, AddingFinalizer)
    else if !c.finalizer then w
    else if c.phase != Terminating then Goto(w, p, MarkingTerminating)
    else Goto(w, p, Cleaning(Monitoring))
  }

  // ----- The whole system -----

  datatype State = State(
    clusters: map<Key, Cluster>, passes: map<Key, Pass>, armed: set<Key>,
    maintained: set<string>, histories: map<Key, seq<Event>>, store: Store)

  datatype Action =
    | Create(k: Key, spec: Spec)
    | Edit(k: Key, spec: Spec)
    | RequestDeletion(k: Key)
    | Vanish(k: Key)
    | Begin(k: Key)
    | Step(k: Key, answer: Answer)
    | Mutate(store: Store)

  const EMPTY := State(map[], map[], {}, {}, map[], map[])

  function ViewOf(s: State, k: Key): View
  {
    View(
      if k in s.clusters then Some(s.clusters[k]) else None,
      if k in s.passes then Some(s.passes[k]) else None,
      k in s.armed,
      MetaHost(k) in s.maintained,
      if k in s.histories then s.histories[k] else [])
  }

  function Update<T>(m: map<Key, T>, k: Key, o: Option<T>): map<Key, T>
  {
    match o
    case Some(x) => m[k := x]
    case None => m - {k}
  }

  function PutView(s: State, k: Key, v: View): State
  {
    State(
      Update(s.clusters, k, v.cluster),
      Update(s.passes, k, v.pass),
      if v.armed then s.armed + {k} else s.armed - {k},
      if v.on then s.maintained + {MetaHost(k)} else s.maintained - {MetaHost(k)},
      s.histories[k := v.history],
      s.store)
  }

  /** What an action does to its own cluster; an action that is not possible does nothing. */
  function ViewStep(v: View, store: Store, a: Action): (View, Store)
    requires !a.Mutate?
  {
    match a
    case Create(_, spec) =>
      // A key is used once: a cluster is not created again under the key of a deleted one.
      (if v.history == [] && v.cluster == None
       then Log(v.(cluster := Some(Cluster(spec, Unset, false, false, false))), Admitted) else v, store)
    case Edit(_, spec) =>
      (if v.cluster.Some? then Log(v.(cluster := Some(v.cluster.value.(spec := spec))), Edited) else v, store)
    case RequestDeletion(_) =>
      (if v.cluster.Some? then v.(cluster := Some(v.cluster.value.(deleting := true))) else v, store)
    case Vanish(_) =>
      (if v.cluster.Some? && v.cluster.value.deleting && !v.cluster.value.finalizer then v.(cluster := None) else v,
       store)
    case Begin(_) => (if v.pass == None && v.cluster.Some? then BeginStep(v) else v, store)
    case Step(_, answer) => if v.pass.Some? && InBounds(v.pass.value) then PassStep(v, store, answer) else (v, store)
  }

  function Next(s: State, a: Action): State
  {
    match a
    case Mutate(store) => s.(store := store)
    case _ =>
      var (v, store) := ViewStep(ViewOf(s, a.k), s.store, a);
      PutView(s, a.k, v).(store := store)
  }

  /** The state after any finite sequence of actions, in any interleaving. */
  function Run(actions: seq<Action>): State
  {
    if actions == [] then EMPTY else Next(Run(actions[..|actions| - 1]), actions[|actions| - 1])
  }

  /** The history of one cluster after a run. */
  function HistoryOf(actions: seq<Action>, k: Key): seq<Event>
  {
    ViewOf(Run(actions), k).history
  }
}
