/**
 The reconcile loop in its own form: one object whose methods change it step by step,
 with loops over the deployers and over the objects, and early returns. Between any two
 of its steps the environment may act. Every pass is proved to be a run of the state
 machine, so that what holds of all runs holds of this program.
 */
module Reconciler {
  import opened Text
  import opened Names
  import opened Resources
  import opened Apply
  import opened Machine
  import Theorems

  // ----- A pass among the actions of the environment -----

  /** One step of a pass: what others do before it, and how the environment answers it. */
  datatype Turn = Turn(before: seq<Action>, answer: Answer)

  /** What others can reach: the resource, the stored objects, and the history that records their edits. */
  datatype World = World(cluster: Option<Cluster>, store: Store, history: seq<Event>)

  /** Users may edit and delete the resource; others may change the stored objects. */
  function Disturb(w: World, a: Action): World
  {
    var c := w.cluster;
    match a
    case Mutate(objects) => w.(store := objects)
    case Edit(_, spec) =>
      if c.Some? then w.(cluster := Some(c.value.(spec := spec)), history := w.history + [Edited]) else w
    case RequestDeletion(_) => if c.Some? then w.(cluster := Some(c.value.(deleting := true))) else w
    case Vanish(_) => if c.Some? && c.value.deleting && !c.value.finalizer then w.(cluster := None) else w
    case _ => w
  }

  function DisturbAll(w: World, actions: seq<Action>): World
  {
    if actions == [] then w
    else Disturb(DisturbAll(w, actions[..|actions| - 1]), actions[|actions| - 1])
  }

  /** The machine's account of a pass: its steps, with the environment in between. */
  function Drive(v: View, store: Store, turns: seq<Turn>): (View, Store)
  {
    if turns == [] then (v, store)
    else
      var (w, objects) := Drive(v, store, turns[..|turns| - 1]);
      TakeTurn(w, objects, turns[|turns| - 1])
  }

  function TakeTurn(v: View, store: Store, t: Turn): (View, Store)
  {
    var (w, objects) := Disturbed(v, store, t.before);
    if w.pass.Some? && InBounds(w.pass.value) then PassStep(w, objects, t.answer) else (w, objects)
  }

  function Disturbed(v: View, store: Store, actions: seq<Action>): (View, Store)
  {
    var w := DisturbAll(World(v.cluster, store, v.history), actions);
    (v.(cluster := w.cluster, history := w.history), w.store)
  }

  /**
   A key for hiding facts. It is always true, so a fact under `forall key :: Shown(key) ==> ...` is just the fact;
   but its only trigger is a mention of `Shown`, so the verifier does not unfold the fact anywhere else. Where it
   is needed, `assert Shown(true)` brings it out. This keeps whole runs of the machine out of the proofs of steps.
   */
  predicate Shown(key: bool)
  {
    true
  }

  /** The turns that a script holds for a pass. */
  function Window(script: nat -> Turn, begun: nat, taken: nat): seq<Turn>
  {
    seq(taken, i requires 0 <= i < taken => script(begun + i))
  }

  /** A run of the machine: where it began, how much of the script it took, and where it is. */
  datatype RawTrace = Trace(from: View, fromStore: Store, script: nat -> Turn, begun: nat, taken: nat, view: View,
      store: Store)

  ghost predicate IsTrace(r: RawTrace)
  {
    forall key {:trigger Shown(key)} :: Shown(key) ==>
      Drive(r.from, r.fromStore, Window(r.script, r.begun, r.taken)) == (r.view, r.store)
  }

  type Trace = r: RawTrace | IsTrace(r)
    ghost witness Trace(FRESH, map[], (n: nat) => Turn([], QUIET), 0, 0, FRESH, map[])

  /** A turn that has been answered but not yet taken: the environment has acted. */
  datatype RawAsked = Asked(trace: Trace, view: View, store: Store)
  {
    function Turn(): Turn { trace.script(trace.begun + trace.taken) }
  }

  ghost predicate IsAsked(r: RawAsked)
  {
    forall key {:trigger Shown(key)} :: Shown(key) ==>
      Disturbed(r.trace.view, r.trace.store, r.Turn().before) == (r.view, r.store)
  }

  type Asked = r: RawAsked | IsAsked(r)
    ghost witness Asked(Trace(FRESH, map[], (n: nat) => Turn([], QUIET), 0, 0, FRESH, map[]), FRESH, map[])

  lemma DriveOneMore(v: View, store: Store, front: seq<Turn>, t: Turn)
    ensures var (w, objects) := Drive(v, store, front);
            Drive(v, store, front + [t]) == TakeTurn(w, objects, t)
  {
    assert (front + [t])[..|front|] == front;
  }

  lemma TurnPasses(v: View, store: Store, t: Turn, w: View, objects: Store)
    requires Disturbed(v, store, t.before) == (w, objects) && w.pass.Some? && InBounds(w.pass.value)
    ensures TakeTurn(v, store, t) == PassStep(w, objects, t.answer)
  {
  }

  lemma AskedTurn(r: Asked)
    requires r.view.pass.Some? && InBounds(r.view.pass.value)
    ensures TakeTurn(r.trace.view, r.trace.store, r.Turn()) == PassStep(r.view, r.store, r.Turn().answer)
  {
    assert Shown(true);
    TurnPasses(r.trace.view, r.trace.store, r.Turn(), r.view, r.store);
  }

  lemma TakenIsTrace(t: Trace, w: View, objects: Store)
    requires TakeTurn(t.view, t.store, t.script(t.begun + t.taken)) == (w, objects)
    ensures IsTrace(t.(taken := t.taken + 1, view := w, store := objects))
  {
    var before, after := Window(t.script, t.begun, t.taken), Window(t.script, t.begun, t.taken + 1);
    assert Shown(true) && after == before + [t.script(t.begun + t.taken)];
    DriveOneMore(t.from, t.fromStore, before, t.script(t.begun + t.taken));
  }

  ghost function AskedOf(t: Trace, view: View, store: Store): (r: Asked)
    requires Disturbed(t.view, t.store, t.script(t.begun + t.taken).before) == (view, store)
    ensures r == Asked(t, view, store)
  {
    Asked(t, view, store)
  }

  // ----- The program -----

  const QUIET := Answer(true, true, Done, true, Live(SOME_TEMPLATE, 0, 0, 0, 0, 0))

  /** What a deployer generates. */
  datatype Generated = Objects | Nothing | Broken

  class Operator {
    // The world: the resource, its metasrv, the stored objects, and what happened so far.
    var resource: Option<Cluster>
    var on: bool
    var store: Store
    ghost var history: seq<Event>

    // The operator's memory: the flag of the datanode deployer, and the copy of the resource that a pass works on.
    var armed: bool
    var spec: Spec
    var phase: Phase
    var maintenance: bool
    var finalizer: bool

    // What the environment is going to do.
    const script: nat -> Turn
    var clock: nat

    // The machine beside the program: where the pass began, the run so far, where it is, and the turn being taken.
    ghost var from: (View, Store, nat)
    ghost var trace: Trace
    ghost var pc: Option<Pc>
    ghost var asked: Option<Asked>

    constructor (script: nat -> Turn, resource: Option<Cluster>, store: Store, ghost history: seq<Event>,
        armed: bool, on: bool)
      ensures Now() == View(resource, None, armed, on, history) && this.store == store && pc == None
    {
      this.script, this.clock := script, 0;
      this.resource, this.store, this.history, this.armed, this.on := resource, store, history, armed, on;
      this.spec := RawSpec(false, false, false, map[Meta := [SOME_DESIRED]]);
      this.phase, this.maintenance, this.finalizer := Unset, false, false;
      this.from, this.trace := (FRESH, map[], 0), Trace(FRESH, map[], script, 0, 0, FRESH, map[]);
      this.pc, this.asked := None, None;
    }

    ghost function PassAt(at: Option<Pc>): Option<Pass>
      reads this
    {
      if at.None? then None else Some(Pass(spec, phase, maintenance, finalizer, at.value))
    }

    ghost function ViewAt(at: Option<Pc>): View
      reads this
    {
      View(resource, PassAt(at), armed, on, history)
    }

    ghost function Now(): View
      reads this
    {
      ViewAt(pc)
    }

    /** Program and machine agree, and no turn is being taken. */
    ghost predicate Valid()
      reads this
    {
      && asked == None && trace == Trace(from.0, from.1, script, from.2, trace.taken, Now(), store)
      && from.2 + trace.taken == clock
      && (pc.Some? ==> InBounds(PassAt(pc).value))
    }

    ghost predicate IsAt(at: Pc)
      reads this
    {
      Valid() && pc == Some(at)
    }

    ghost predicate IsOver()
      reads this
    {
      Valid() && pc == None
    }

    /** The turn being taken has been answered by `a`; the machine still is where the step began. */
    ghost predicate Begun(a: Answer)
      reads this
    {
      && asked.Some? && asked.value.view.pass.Some? && InBounds(asked.value.view.pass.value)
      && var t := asked.value.trace;
      && t == Trace(from.0, from.1, script, from.2, t.taken, t.view, t.store)
      && asked.value.Turn().answer == a && from.2 + asked.value.trace.taken + 1 == clock
    }

    method Suffer(actions: seq<Action>)
      modifies this`resource, this`store, this`history
      ensures Disturbed(old(Now()), old(store), actions) == (Now(), store)
    {
      ghost var w := World(resource, store, history);
      for i := 0 to |actions|
        invariant World(resource, store, history) == DisturbAll(w, actions[..i])
      {
        assert actions[..i + 1][..i] == actions[..i];
        match actions[i] {
          case Mutate(objects) => store := objects;
          case Edit(_, edited) =>
            if resource.Some? {
              resource := Some(resource.value.(spec := edited));
              history := history + [Edited];
            }
          case RequestDeletion(_) => if resource.Some? { resource := Some(resource.value.(deleting := true)); }
          case Vanish(_) =>
            if resource.Some? && resource.value.deleting && !resource.value.finalizer { resource := None; }
          case _ =>
        }
      }
      assert actions[..|actions|] == actions;
    }

    /** Takes the next turn: the environment acts, then answers. */
    method Ask() returns (a: Answer)
      requires Valid() && pc.Some?
      modifies this`resource, this`store, this`history, this`clock, this`asked
      ensures Begun(a) && asked.value.view == Now() && asked.value.store == store
    {
      var turn := script(clock);
      clock := clock + 1;
      Suffer(turn.before);
      asked := Some(AskedOf(trace, Now(), store));
      a := turn.answer;
    }

    /** The step is over: what the program did is what the machine does. */
    ghost method Tick(a: Answer, next: Option<Pc>)
      requires Begun(a)
      requires PassStep(asked.value.view, asked.value.store, a) == (ViewAt(next), store)
      requires next.Some? ==> InBounds(PassAt(next).value)
      modifies this`pc, this`asked, this`trace
      ensures Valid() && pc == next
    {
      AskedTurn(asked.value);
      TakenIsTrace(asked.value.trace, ViewAt(next), store);
      trace := asked.value.trace.(taken := asked.value.trace.taken + 1, view := ViewAt(next), store := store);
      pc, asked := next, None;
    }

    // ----- The steps before the deployers -----

    /** Replaces the persisted status by the one in memory. */
    method UpdateStatus(write: Outcome) returns (ok: bool)
      modifies this`resource, this`history
      ensures ok == (write == Done && old(resource) != None)
      ensures resource == if write == Failed || old(resource) == None then old(resource)
                          else Some(old(resource).value.(phase := phase, maintenance := maintenance))
      ensures history == if resource == None || old(resource).value.phase == resource.value.phase then old(history)
                         else old(history) + [Moved(old(resource).value.phase, phase)]
    {
      if write == Failed || resource == None {
        return false;
      }
      if resource.value.phase != phase {
        history := history + [Moved(resource.value.phase, phase)];
      }
      resource := Some(resource.value.(phase := phase, maintenance := maintenance));
      ok := write == Done;
    }

    method AddFinalizer() returns (ok: bool)
      requires IsAt(AddingFinalizer)
      modifies this`resource, this`store, this`history, this`clock, this`asked, this`trace, this`pc, this`finalizer
      ensures IsAt(if ok then Validating else MarkingError)
    {
      var a := Ask();
      ok := TryFinalizer(a);
      Tick(a, Some(if ok then Validating else MarkingError));
    }

    method TryFinalizer(a: Answer) returns (ok: bool)
      modifies this`resource, this`finalizer
      ensures var v := old(ViewAt(Some(AddingFinalizer)));
              FinalizerStep(v, v.pass.value, a) == ViewAt(Some(if ok then Validating else MarkingError))
    {
      ok := true;
      if spec.hasMeta && !finalizer {
        finalizer := true;
        if a.write == Failed || resource == None || resource.value.spec != spec || resource.value.deleting {
          return false;
        }
        resource := Some(resource.value.(finalizer := true));
        ok := a.write == Done;
      }
    }

    method Validate() returns (ok: bool)
      requires IsAt(Validating)
      modifies this`resource, this`store, this`history, this`clock, this`asked, this`trace, this`pc
      ensures IsAt(if ok then SavingSpec else MarkingError)
    {
      var a := Ask();
      ok := a.ok;
      Tick(a, Some(if ok then SavingSpec else MarkingError));
    }

    method SetDefaults() returns (ok: bool)
      requires IsAt(SavingSpec)
      modifies this`resource, this`store, this`clock, this`asked, this`trace, this`pc, this`spec, this`history
      ensures IsAt(if ok then MarkingStarting else MarkingError)
    {
      var a := Ask();
      ok := TryDefaults(a);
      Tick(a, Some(if ok then MarkingStarting else MarkingError));
    }

    method TryDefaults(a: Answer) returns (ok: bool)
      modifies this`resource, this`spec, this`history
      ensures var v := old(ViewAt(Some(SavingSpec)));
              DefaultsStep(v, v.pass.value, a) == ViewAt(Some(if ok then MarkingStarting else MarkingError))
    {
      var original := spec;
      spec := Defaulted(spec);
      if spec == original {
        return true;
      }
      if a.write == Failed || resource == None || resource.value.spec != original {
        return false;
      }
      resource := Some(resource.value.(spec := spec));
      history := history + [Updated];
      ok := a.write == Done;
    }

    method StartCluster() returns (ok: bool)
      requires IsAt(MarkingStarting)
      modifies this`resource, this`store, this`clock, this`asked, this`trace, this`pc, this`phase, this`history
      ensures IsAt(if ok then Preparing else MarkingError)
    {
      var a := Ask();
      ok := TryStarting(a);
      Tick(a, Some(if ok then Preparing else MarkingError));
    }

    method TryStarting(a: Answer) returns (ok: bool)
      modifies this`resource, this`phase, this`history
      ensures var v := old(ViewAt(Some(MarkingStarting)));
              MarkStartingStep(v, v.pass.value, a) == ViewAt(Some(if ok then Preparing else MarkingError))
    {
      if phase != Unset {
        return true;
      }
      phase := Starting;
      ok := UpdateStatus(a.write);
    }

    /** The merges into the in-memory copy and the removal of the monitoring instance. */
    method Prepare() returns (ok: bool)
      requires IsAt(Preparing)
      modifies this`resource, this`store, this`history, this`clock, this`asked, this`trace, this`pc
      ensures if ok then IsAt(Generating(Monitoring)) else Valid() && pc == None
    {
      var a := Ask();
      ok := a.ok;
      Tick(a, if ok then Some(Generating(Monitoring)) else None);
    }

    // ----- One deployer -----

    /** Where a pass goes when a deployer has succeeded. */
    ghost function After(role: Role): Option<Pc>
      reads this`phase
    {
      if role != Flownode then Some(Generating(NextRole(role)))
      else if phase == Starting || phase == Updating then Some(Closing)
      else None
    }

    method Generate(role: Role) returns (g: Generated)
      requires IsAt(Generating(role))
      modifies this`resource, this`store, this`clock, this`asked, this`trace, this`pc, this`history
      ensures match g
              case Objects => IsAt(Hooking(role))
              case Nothing => Valid() && pc == After(role)
              case Broken => IsOver()
    {
      var a := Ask();
      g := TryGenerate(role, a);
      Tick(a, GeneratedAt(role, g));
    }

    ghost function GeneratedAt(role: Role, g: Generated): Option<Pc>
      reads this`phase
    {
      match g case Objects => Some(Hooking(role)) case Nothing => After(role) case Broken => None
    }

    method TryGenerate(role: Role, a: Answer) returns (g: Generated)
      modifies this`history
      ensures var v := old(ViewAt(Some(Generating(role))));
              SyncStartStep(v, v.pass.value, a) == ViewAt(GeneratedAt(role, g))
    {
      if !a.ok {
        return Broken;
      }
      if spec.Objects(role) == [] {
        history := history + [Succeeded(role)];
        return Nothing;
      }
      g := Objects;
    }

    method PreSync(role: Role) returns (ok: bool)
      requires IsAt(Hooking(role))
      modifies this`resource, this`store, this`history, this`clock, this`asked, this`trace, this`pc
      ensures if ok then IsAt(Applying(role, 0, false)) else IsOver()
    {
      var a := Ask();
      ok := role != Meta || a.ok;
      Tick(a, if ok then Some(Applying(role, 0, false)) else None);
    }

    /** The API server's part of a create or a patch; `ok` is what the caller is told. */
    method Submit(role: Role, d: Desired, kind: WriteKind, a: Answer) returns (ok: bool)
      modifies this`store, this`history
      ensures ok == (a.write == Done)
      ensures store == if a.write == Failed then old(store) else Written(old(store), d, a.live)
      ensures history == if a.write == Failed then old(history) else old(history) + [Wrote(role, d, kind)]
    {
      if a.write != Failed {
        store := Written(store, d, a.live);
        history := history + [Wrote(role, d, kind)];
      }
      ok := a.write == Done;
    }

    /** The loop over the generated objects: create what is missing, patch what differs. */
    method ApplyObjects(role: Role) returns (r: Result)
      requires IsAt(Applying(role, 0, false))
      modifies this`resource, this`store, this`clock, this`asked, this`trace, this`pc, this`history, this`armed, this`on
      ensures match r case Synced => IsAt(Checking(role, 0, true)) case NotReady => IsAt(Waiting) case Fault => IsOver()
    {
      var objects, updateObject := spec.Objects(role), false;
      for i := 0 to |objects|
        invariant IsAt(Applying(role, i, updateObject))
      {
        var finding := CreateIfNotExist(role, i, updateObject);
        if finding == Unreadable {
          return Fault;
        }
        if finding == Differs {
          var ok := UpdateObject(role, i, updateObject);
          if !ok {
            return Fault;
          }
          updateObject := true;
        }
      }
      FinishApply(role, |objects|, updateObject);
      r := if updateObject then NotReady else Synced;
    }

    /** Nothing is left to apply: time passes, and the machine moves on. */
    method FinishApply(role: Role, ghost i: nat, updated: bool)
      requires IsAt(Applying(role, i, updated)) && i >= |spec.Objects(role)|
      modifies this`resource, this`store, this`history, this`clock, this`asked, this`trace, this`pc
      ensures IsAt(if updated then Waiting else Checking(role, 0, true))
    {
      var a := Ask();
      Tick(a, Some(if updated then Waiting else Checking(role, 0, true)));
    }

    /** Looks one object up, creates it if it is missing, and compares it otherwise; any failure is Unreadable. */
    method CreateIfNotExist(role: Role, i: nat, updated: bool) returns (f: Finding)
      requires IsAt(Applying(role, i, updated)) && i < |spec.Objects(role)|
      modifies this`resource, this`store, this`clock, this`asked, this`trace, this`pc, this`history
      ensures match f
              case Unreadable => IsOver()
              case Differs => IsAt(UpdatePoint(role, i, updated))
              case _ => IsAt(Applying(role, i + 1, updated))
    {
      var a := Ask();
      f := TryCreate(role, i, updated, a);
      Tick(a, FoundAt(role, i, updated, f));
    }

    ghost function FoundAt(role: Role, i: nat, updated: bool, f: Finding): Option<Pc>
      requires i < |spec.Objects(role)|
      reads this`spec
    {
      match f
      case Unreadable => None
      case Differs => Some(UpdatePoint(role, i, updated))
      case _ => Some(Applying(role, i + 1, updated))
    }

    method TryCreate(role: Role, i: nat, ghost updated: bool, a: Answer) returns (f: Finding)
      requires i < |spec.Objects(role)|
      modifies this`store, this`history
      ensures var v := old(ViewAt(Some(Applying(role, i, updated))));
              ApplyStep(v, v.pass.value, old(store), a) == (ViewAt(FoundAt(role, i, updated, f)), store)
    {
      var d := spec.Objects(role)[i];
      if !a.ok {
        return Unreadable;
      }
      f := Compare(store, d);
      if f == Absent {
        var ok := Submit(role, d, Creation, a);
        if !ok {
          return Unreadable;
        }
      }
    }

    /** Before the patch comes the decision on maintenance, for a StatefulSet of the datanodes. */
    ghost function UpdatePoint(role: Role, i: nat, updated: bool): Pc
      requires i < |spec.Objects(role)|
      reads this`spec
    {
      if UsesMaintenance(role, i) then Arming(i, updated) else Patching(role, i, updated, None)
    }

    predicate UsesMaintenance(role: Role, i: nat)
      requires i < |spec.Objects(role)|
      reads this`spec
    {
      role == Datanode && spec.Objects(role)[i].IsStatefulSet() && spec.failover
    }

    method UpdateObject(role: Role, i: nat, updated: bool) returns (ok: bool)
      requires i < |spec.Objects(role)| && IsAt(UpdatePoint(role, i, updated))
      modifies this`resource, this`store, this`clock, this`asked, this`trace, this`pc, this`history, this`armed, this`on
      ensures if ok then IsAt(Applying(role, i + 1, true)) else IsOver()
    {
      var compared: Option<Comparison> := None;
      if UsesMaintenance(role, i) {
        ok, compared := TurnOnMaintenanceMode(i, updated);
        if !ok {
          return;
        }
      }
      ok := PatchObject(role, i, updated, compared);
    }

    method PatchObject(role: Role, i: nat, updated: bool, compared: Option<Comparison>) returns (ok: bool)
      requires IsAt(Patching(role, i, updated, compared))
      modifies this`resource, this`store, this`clock, this`asked, this`trace, this`pc, this`history
      ensures if ok then IsAt(Applying(role, i + 1, true)) else IsOver()
    {
      var a := Ask();
      ok := TryPatch(role, i, updated, compared, a);
      Tick(a, if ok then Some(Applying(role, i + 1, true)) else None);
    }

    method TryPatch(role: Role, i: nat, ghost updated: bool, compared: Option<Comparison>, a: Answer) returns (ok: bool)
      requires i < |spec.Objects(role)|
      modifies this`store, this`history
      ensures var v := old(ViewAt(Some(Patching(role, i, updated, compared))));
              var next := if ok then Some(Applying(role, i + 1, true)) else None;
              PatchStep(v, v.pass.value, old(store), a) == (ViewAt(next), store)
    {
      var d := spec.Objects(role)[i];
      if d.key !in store {
        return false;
      }
      ok := Submit(role, d, Patch(spec.failover, compared), a);
    }

    /** The flag is armed after the call, and only if running pods would be restarted. */
    method TurnOnMaintenanceMode(i: nat, updated: bool) returns (ok: bool, compared: Option<Comparison>)
      requires IsAt(Arming(i, updated))
      modifies this`resource, this`store, this`clock, this`asked, this`trace, this`pc, this`history, this`armed, this`on
      ensures if ok then IsAt(Patching(Datanode, i, updated, compared)) else IsOver()
    {
      var a := Ask();
      ok, compared := TryArm(spec.Objects(Datanode)[i], a, i, updated);
      Tick(a, if ok then Some(Patching(Datanode, i, updated, compared)) else None);
    }

    method TryArm(d: Desired, a: Answer, ghost i: nat, ghost updated: bool)
        returns (ok: bool, compared: Option<Comparison>)
      requires i < |spec.Objects(Datanode)| && d == spec.Objects(Datanode)[i]
      modifies this`armed, this`on, this`history
      ensures var v := old(ViewAt(Some(Arming(i, updated))));
              var next := if ok then Some(Patching(Datanode, i, updated, compared)) else None;
              ArmStep(v, v.pass.value, store, a) == ViewAt(next)
    {
      if !a.ok || d.key !in store {
        return false, None;
      }
      compared := Some(Comparison(d.template, store[d.key].live.template));
      if !armed && IsOldPodRestart(d.template, store[d.key].live.template) {
        if !a.call {
          return false, None;
        }
        on, armed := true, true;
        history := history + [On(DatanodeDeployer)];
      }
      ok := true;
    }

    // ----- Readiness and status -----

    /** The deployer's check and its status write, whose failure is only logged. */
    method CheckAndUpdateStatus(role: Role) returns (r: Result)
      requires IsAt(Checking(role, 0, true))
      modifies this`resource, this`store, this`clock, this`asked, this`trace, this`pc, this`history, this`on,
               this`maintenance
      ensures match r
              case Synced => Valid() && pc == Checked(role)
              case NotReady => IsAt(Waiting)
              case Fault => IsOver()
    {
      var ok, ready;
      match role {
        case Datanode => ok, ready := CheckDatanodes();
        case Meta => ok, ready := CheckMeta();
        case _ => ok, ready := CheckDeployments(role);
      }
      if !ok {
        return Fault;
      }
      SaveStatus(role, ready);
      r := if ready then Synced else NotReady;
    }

    /** Only the datanode deployer has a post-sync hook. */
    ghost function Checked(role: Role): Option<Pc>
      reads this`phase
    {
      if role == Datanode then Some(Disarming) else After(role)
    }

    method CheckDatanodes() returns (ok: bool, ready: bool)
      requires IsAt(Checking(Datanode, 0, true))
      modifies this`resource, this`store, this`clock, this`asked, this`trace, this`pc, this`history
      ensures if ok then IsAt(SavingStatus(Datanode, ready)) else IsOver()
    {
      var keys := Watched(spec);
      ok, ready := CheckStatefulSets(keys);
      if ok {
        FinishCheck(|keys|, ready);
      }
    }

    method CheckStatefulSets(keys: seq<ObjectKey>) returns (ok: bool, ready: bool)
      requires IsAt(Checking(Datanode, 0, true)) && keys == Watched(spec)
      modifies this`resource, this`store, this`clock, this`asked, this`trace, this`pc, this`history
      ensures if ok then IsAt(Checking(Datanode, |keys|, ready)) else IsOver()
    {
      ok, ready := true, true;
      var i := 0;
      while i < |keys|
        invariant i <= |keys| && ok && IsAt(Checking(Datanode, i, ready))
      {
        ok, ready := CheckStatefulSet(keys[i], i, ready);
        if !ok {
          return;
        }
        i := i + 1;
      }
    }

    method FinishCheck(ghost i: nat, ready: bool)
      requires IsAt(Checking(Datanode, i, ready)) && i >= |Watched(spec)|
      modifies this`resource, this`store, this`history, this`clock, this`asked, this`trace, this`pc
      ensures IsAt(SavingStatus(Datanode, ready))
    {
      var a := Ask();
      Tick(a, Some(SavingStatus(Datanode, ready)));
    }

    method CheckStatefulSet(key: ObjectKey, ghost i: nat, before: bool) returns (ok: bool, ready: bool)
      requires IsAt(Checking(Datanode, i, before)) && i < |Watched(spec)| && key == Watched(spec)[i]
      modifies this`resource, this`store, this`clock, this`asked, this`trace, this`pc, this`history
      ensures if ok then IsAt(Checking(Datanode, i + 1, ready)) else IsOver()
    {
      var a := Ask();
      ok, ready := TryObserve(key, i, before, a);
      Tick(a, if ok then Some(Checking(Datanode, i + 1, ready)) else None);
    }

    method TryObserve(key: ObjectKey, ghost i: nat, before: bool, a: Answer) returns (ok: bool, ready: bool)
      requires i < |Watched(spec)| && key == Watched(spec)[i]
      modifies this`history
      ensures var v := old(ViewAt(Some(Checking(Datanode, i, before))));
              var next := if ok then Some(Checking(Datanode, i + 1, ready)) else None;
              CheckStep(v, v.pass.value, store, a) == ViewAt(next)
    {
      if !a.ok {
        return false, false;
      }
      var found := if key in store then Some(store[key]) else None;
      history := history + [Observed(key, found)];
      ok, ready := true, before && found.Some? && IsStatefulSetReady(found.value);
    }

    method CheckMeta() returns (ok: bool, ready: bool)
      requires IsAt(Checking(Meta, 0, true))
      modifies this`resource, this`store, this`clock, this`asked, this`trace, this`pc, this`history, this`on,
               this`maintenance
      ensures if ok then IsAt(SavingStatus(Meta, ready)) else IsOver()
    {
      var a := Ask();
      ok, ready := TryMeta(a);
      Tick(a, if ok then Some(SavingStatus(Meta, ready)) else None);
    }

    /** A cluster under creation is put into maintenance as soon as its metasrv is ready. */
    method TryMeta(a: Answer) returns (ok: bool, ready: bool)
      modifies this`history, this`on, this`maintenance
      ensures var v := old(ViewAt(Some(Checking(Meta, 0, true))));
              CheckStep(v, v.pass.value, store, a) == ViewAt(if ok then Some(SavingStatus(Meta, ready)) else None)
    {
      if !a.ok {
        return false, false;
      }
      ready := a.ready;
      if phase == Starting && ready && !maintenance {
        if !a.call {
          return false, ready;
        }
        on, maintenance := true, true;
        history := history + [On(MetaDeployer)];
      }
      ok := true;
    }

    method CheckDeployments(role: Role) returns (ok: bool, ready: bool)
      requires IsAt(Checking(role, 0, true)) && role != Datanode && role != Meta
      modifies this`resource, this`store, this`history, this`clock, this`asked, this`trace, this`pc
      ensures if ok then IsAt(SavingStatus(role, ready)) else IsOver()
    {
      var a := Ask();
      ok, ready := a.ok, a.ready;
      Tick(a, if ok then Some(SavingStatus(role, ready)) else None);
    }

    method SaveStatus(role: Role, ready: bool)
      requires IsAt(SavingStatus(role, ready))
      modifies this`resource, this`store, this`clock, this`asked, this`trace, this`pc, this`history
      ensures Valid() && pc == if ready then Checked(role) else Some(Waiting)
    {
      var a := Ask();
      TryStatus(role, ready, a);
      Tick(a, if ready then Checked(role) else Some(Waiting));
    }

    method TryStatus(ghost role: Role, ghost ready: bool, a: Answer)
      modifies this`resource, this`history
      ensures var v := old(ViewAt(Some(SavingStatus(role, ready))));
              SaveStatusStep(v, v.pass.value, a) == ViewAt(if ready then Checked(role) else Some(Waiting))
    {
      ghost var at := Some(SavingStatus(role, ready));
      ghost var v := ViewAt(at);
      var _ := UpdateStatus(a.write);
      assert Save(v, v.pass.value, a.write) == ViewAt(at);
      if ready && role != Datanode {
        history := history + [Succeeded(role)];
      }
    }

    /** The post-sync hook of the datanode deployer; the flag is cleared after the call. */
    method TurnOffMaintenanceMode() returns (ok: bool)
      requires IsAt(Disarming)
      modifies this`resource, this`store, this`clock, this`asked, this`trace, this`pc, this`history, this`on, this`armed
      ensures if ok then Valid() && pc == After(Datanode) else IsOver()
    {
      if armed && spec.failover {
        ok := CallOff();
        if !ok {
          return;
        }
      }
      FinishHook();
      ok := true;
    }

    method CallOff() returns (ok: bool)
      requires IsAt(Disarming) && armed && spec.failover
      modifies this`resource, this`store, this`history, this`clock, this`asked, this`trace, this`pc, this`on, this`armed
      ensures if ok then IsAt(Disarming) && !armed else IsOver()
    {
      var a := Ask();
      ok := TryDisarm(a);
      Tick(a, if ok then Some(Disarming) else None);
    }

    method TryDisarm(a: Answer) returns (ok: bool)
      requires armed && spec.failover
      modifies this`on, this`armed, this`history
      ensures var v := old(ViewAt(Some(Disarming)));
              DisarmStep(v, v.pass.value, a) == ViewAt(if ok then Some(Disarming) else None)
      ensures ok ==> !armed
    {
      ok := a.call;
      if ok {
        on, armed := false, false;
        history := history + [Off(DatanodeDeployer, Watched(spec))];
      }
    }

    method FinishHook()
      requires IsAt(Disarming) && !(armed && spec.failover)
      modifies this`resource, this`store, this`clock, this`asked, this`trace, this`pc, this`history
      ensures Valid() && pc == After(Datanode)
    {
      var a := Ask();
      history := history + [Succeeded(Datanode)];
      Tick(a, After(Datanode));
    }

    // ----- The passes -----

    /** One deployer: generate, pre-sync hooks, apply, check, post-sync hooks, with early exits. */
    method SyncDeployer(role: Role) returns (r: Result)
      requires IsAt(Generating(role))
      modifies this`resource, this`store, this`clock, this`asked, this`trace, this`pc, this`history, this`on,
               this`armed, this`maintenance
      ensures match r
              case Synced => Valid() && pc == After(role)
              case NotReady => IsAt(Waiting)
              case Fault => IsOver()
    {
      var g := Generate(role);
      if g == Broken {
        return Fault;
      }
      if g == Nothing {
        return Synced;
      }
      var ok := PreSync(role);
      if !ok {
        return Fault;
      }
      r := ApplyObjects(role);
      if r != Synced {
        return;
      }
      r := CheckAndUpdateStatus(role);
      if r == Synced && role == Datanode {
        ok := TurnOffMaintenanceMode();
        if !ok {
          return Fault;
        }
      }
    }

    /** The loop over the deployers, and what follows it. */
    method Sync()
      requires IsAt(Generating(Monitoring))
      modifies this`resource, this`store, this`clock, this`asked, this`trace, this`pc, this`history, this`on,
               this`armed, this`maintenance, this`phase
      ensures IsOver()
    {
      for i := 0 to |DEPLOYERS|
        invariant if i < |DEPLOYERS| then IsAt(Generating(DEPLOYERS[i])) else Valid() && pc == After(Flownode)
      {
        var r := SyncDeployer(DEPLOYERS[i]);
        if r == NotReady {
          WaitForReady();
          return;
        }
        if r == Fault {
          return;
        }
      }
      if phase == Starting || phase == Updating {
        CloseCreation();
      }
    }

    /** Some deployer was not ready: a running cluster is updating, an erroneous one starts again. */
    method WaitForReady()
      requires IsAt(Waiting)
      modifies this`resource, this`store, this`clock, this`asked, this`trace, this`pc, this`history, this`phase
      ensures IsOver()
    {
      var a := Ask();
      TryWait(a);
      Tick(a, None);
    }

    method TryWait(a: Answer)
      modifies this`resource, this`history, this`phase
      ensures var v := old(ViewAt(Some(Waiting))); WaitStep(v, v.pass.value, a) == ViewAt(None)
    {
      var nextPhase := phase;
      if phase == Running {
        nextPhase := Updating;
      }
      if phase == Error {
        nextPhase := Starting;
      }
      UpdateClusterStatus(nextPhase, a.write);
    }

    /** Writes the status only if the phase changes. */
    method UpdateClusterStatus(next: Phase, write: Outcome)
      modifies this`resource, this`history, this`phase
      ensures phase == next
      ensures next == old(phase) ==> resource == old(resource) && history == old(history)
      ensures next != old(phase) ==>
        && resource == (if write == Failed || old(resource) == None then old(resource)
                        else Some(old(resource).value.(phase := next, maintenance := maintenance)))
        && history == (if resource == None || old(resource).value.phase == resource.value.phase then old(history)
                       else old(history) + [Moved(old(resource).value.phase, next)])
    {
      if phase == next {
        return;
      }
      phase := next;
      var _ := UpdateStatus(write);
    }

    /** Everything is ready: creation-time maintenance ends, and the cluster runs. */
    method CloseCreation()
      requires IsAt(Closing)
      modifies this`resource, this`store, this`clock, this`asked, this`trace, this`pc, this`history, this`on,
               this`maintenance, this`phase
      ensures IsOver()
    {
      if maintenance {
        var ok := EndMaintenance();
        if !ok {
          return;
        }
      } else {
        FinishClose();
      }
      RecordRunning();
    }

    method EndMaintenance() returns (ok: bool)
      requires IsAt(Closing) && maintenance
      modifies this`resource, this`store, this`clock, this`asked, this`trace, this`pc, this`history, this`on,
               this`maintenance
      ensures if ok then IsAt(MarkingRunning) else IsOver()
    {
      var a := Ask();
      ok := a.call;
      if ok {
        on, maintenance := false, false;
        history := history + [Off(Controller, Watched(spec))];
      }
      Tick(a, if ok then Some(MarkingRunning) else None);
    }

    method FinishClose()
      requires IsAt(Closing) && !maintenance
      modifies this`resource, this`store, this`history, this`clock, this`asked, this`trace, this`pc
      ensures IsAt(MarkingRunning)
    {
      var a := Ask();
      Tick(a, Some(MarkingRunning));
    }

    method RecordRunning()
      requires IsAt(MarkingRunning)
      modifies this`resource, this`store, this`clock, this`asked, this`trace, this`pc, this`history, this`phase
      ensures IsOver()
    {
      var a := Ask();
      TryRunning(a);
      Tick(a, None);
    }

    method TryRunning(a: Answer)
      modifies this`resource, this`history, this`phase
      ensures var v := old(ViewAt(Some(MarkingRunning))); EpilogueStep(v, v.pass.value, a) == ViewAt(None)
    {
      phase := Running;
      var _ := UpdateStatus(a.write);
    }

    method RecordError()
      requires IsAt(MarkingError)
      modifies this`resource, this`store, this`clock, this`asked, this`trace, this`pc, this`history, this`phase
      ensures IsOver()
    {
      var a := Ask();
      UpdateClusterStatus(Error, a.write);
      Tick(a, None);
    }

    /** The deletion branch: first the phase, in a later pass the clean-up and the finalizer. */
    method Delete()
      requires IsAt(if phase != Terminating then MarkingTerminating else Cleaning(Monitoring))
      modifies this`resource, this`store, this`clock, this`asked, this`trace, this`pc, this`history, this`phase
      ensures IsOver()
    {
      if phase != Terminating {
        RecordTerminating();
        return;
      }
      for i := 0 to |DEPLOYERS|
        invariant IsAt(if i < |DEPLOYERS| then Cleaning(DEPLOYERS[i]) else Releasing)
      {
        var ok := CleanUp(DEPLOYERS[i]);
        if !ok {
          return;
        }
      }
      ReleaseFinalizer();
    }

    method RecordTerminating()
      requires IsAt(MarkingTerminating) && phase != Terminating
      modifies this`resource, this`store, this`clock, this`asked, this`trace, this`pc, this`history, this`phase
      ensures IsOver()
    {
      var a := Ask();
      UpdateClusterStatus(Terminating, a.write);
      Tick(a, None);
    }

    /** Only the datanode deployer has something to clean up that can fail. */
    method CleanUp(role: Role) returns (ok: bool)
      requires IsAt(Cleaning(role))
      modifies this`resource, this`store, this`clock, this`asked, this`trace, this`pc, this`history
      ensures if ok then IsAt(if role == Flownode then Releasing else Cleaning(NextRole(role))) else IsOver()
    {
      var a := Ask();
      ok := role != Datanode || a.ok;
      if !ok {
        Tick(a, None);
        return;
      }
      history := history + [Cleaned(role)];
      Tick(a, Some(if role == Flownode then Releasing else Cleaning(NextRole(role))));
    }

    method ReleaseFinalizer()
      requires IsAt(Releasing)
      modifies this`resource, this`store, this`clock, this`asked, this`trace, this`pc, this`history
      ensures IsOver()
    {
      var a := Ask();
      if a.write != Failed && resource != None && resource.value.spec == spec {
        resource := Some(resource.value.(finalizer := false));
        history := history + [Released];
      }
      Tick(a, None);
    }

    /** The branch for a cluster that is not being deleted. */
    method CreateOrUpdate()
      requires IsAt(AddingFinalizer)
      modifies this`resource, this`store, this`clock, this`asked, this`trace, this`pc, this`history, this`on,
               this`armed, this`maintenance, this`phase, this`spec, this`finalizer
      ensures IsOver()
    {
      var ok := AddFinalizer();
      if ok { ok := Validate(); }
      if ok { ok := SetDefaults(); }
      if ok { ok := StartCluster(); }
      if !ok {
        RecordError();
        return;
      }
      ok := Prepare();
      if ok {
        Sync();
      }
    }

    /** The read that opens a pass. */
    method Open() returns (deleting: bool)
      requires pc == None && resource.Some?
      modifies this`history, this`pc, this`maintenance, this`phase, this`spec, this`finalizer
      ensures Now() == BeginStep(old(Now()))
      ensures deleting == resource.value.deleting
      ensures if !deleting then pc == Some(AddingFinalizer)
              else if !finalizer then pc == None
              else pc == Some(if phase != Terminating then MarkingTerminating else Cleaning(Monitoring))
    {
      var c := resource.value;
      spec, phase, maintenance, finalizer, deleting := c.spec, c.phase, c.maintenance, c.finalizer, c.deleting;
      history := history + [Began(phase, deleting)];
      pc := if !deleting then Some(AddingFinalizer)
            else if !finalizer then None
            else Some(if phase != Terminating then MarkingTerminating else Cleaning(Monitoring));
    }

    ghost method StartTrace()
      requires pc.Some? ==> InBounds(PassAt(pc).value)
      modifies this`from, this`trace, this`asked
      ensures Valid() && from == (Now(), store, clock)
    {
      from, asked := (Now(), store, clock), None;
      trace := Trace(Now(), store, script, clock, 0, Now(), store);
    }

    /**
     One pass, from the read of the resource to its end. What becomes of the world and of the memory
     is what the machine makes of the same script, from the step that opens a pass to its end.
     */
    method Reconcile()
      requires pc == None
      modifies this
      ensures pc == None && clock >= old(clock)
      ensures old(resource) == None ==> Now() == old(Now()) && store == old(store)
      ensures old(resource) != None ==>
        Drive(BeginStep(old(Now())), old(store), Window(script, old(clock), clock - old(clock))) == (Now(), store)
    {
      if resource == None {
        return;
      }
      ReconcileExisting();
      OverMeansDriven();
    }

    method ReconcileExisting()
      requires pc == None && resource.Some?
      modifies this
      ensures IsOver() && from == (BeginStep(old(Now())), old(store), old(clock))
    {
      var deleting := Open();
      StartTrace();
      if !deleting {
        CreateOrUpdate();
      } else if finalizer {
        Delete();
      }
    }

    lemma OverMeansDriven()
      requires IsOver()
      ensures Drive(from.0, from.1, Window(script, from.2, clock - from.2)) == (Now(), store) && Now().pass == None
    {
      assert Shown(true);
    }
  }

  const DEPLOYERS: seq<Role> := [Monitoring, Meta, Datanode, Frontend, Flownode]

  // ----- A pass is part of a run of the whole system -----

  /** The actions of the environment that concern cluster `k`. */
  function Rekey(a: Action, k: Key): Action
  {
    match a
    case Edit(_, spec) => Edit(k, spec)
    case RequestDeletion(_) => RequestDeletion(k)
    case Vanish(_) => Vanish(k)
    case _ => a
  }

  predicate Ignored(a: Action)
  {
    a.Create? || a.Begin? || a.Step?
  }

  function Rekeyed(actions: seq<Action>, k: Key): seq<Action>
  {
    if actions == [] then []
    else
      var before, a := Rekeyed(actions[..|actions| - 1], k), actions[|actions| - 1];
      if Ignored(a) then before else before + [Rekey(a, k)]
  }

  function ActionsOf(turns: seq<Turn>, k: Key): seq<Action>
  {
    if turns == [] then []
    else
      var t := turns[|turns| - 1];
      ActionsOf(turns[..|turns| - 1], k) + (Rekeyed(t.before, k) + [Step(k, t.answer)])
  }

  /** What a run of the whole system has made of cluster `k`. */
  datatype RawPlace = Place(run: seq<Action>, k: Key, view: View, store: Store)

  ghost predicate IsPlace(p: RawPlace)
  {
    forall key {:trigger Shown(key)} :: Shown(key) ==> p.view == ViewOf(Run(p.run), p.k) && p.store == Run(p.run).store
  }

  type Place = p: RawPlace | IsPlace(p)
    ghost witness Place([], RawKey("default", "basic"), FRESH, map[])

  lemma Extended(p: Place, a: Action) returns (q: Place)
    requires !a.Mutate? ==> a.k == p.k
    ensures q.run == p.run + [a] && q.k == p.k
    ensures (q.view, q.store) == if a.Mutate? then (p.view, a.store) else ViewStep(p.view, p.store, a)
  {
    var run := p.run + [a];
    assert Shown(true) && run[..|p.run|] == p.run;
    if !a.Mutate? {
      Theorems.OwnStep(Run(p.run), a);
    }
    q := Place(run, p.k, ViewOf(Run(run), p.k), Run(run).store);
  }

  lemma DisturbIsStep(v: View, store: Store, a: Action, k: Key)
    requires !Ignored(a)
    ensures var w := Disturb(World(v.cluster, store, v.history), a);
            (v.(cluster := w.cluster, history := w.history), w.store)
            == if a.Mutate? then (v, a.store) else ViewStep(v, store, Rekey(a, k))
  {
  }

  lemma DisturbedOneMore(v: View, store: Store, front: seq<Action>, a: Action)
    ensures var (x, objects) := Disturbed(v, store, front);
            var w := Disturb(World(x.cluster, objects, x.history), a);
            Disturbed(v, store, front + [a]) == (x.(cluster := w.cluster, history := w.history), w.store)
  {
    assert (front + [a])[..|front|] == front;
  }

  /** What the environment does in a turn is part of some run. */
  lemma {:induction false} DisturbanceIsRun(p: Place, actions: seq<Action>) returns (q: Place)
    ensures q.run == p.run + Rekeyed(actions, p.k) && q.k == p.k
    ensures (q.view, q.store) == Disturbed(p.view, p.store, actions)
    decreases |actions|
  {
    if actions == [] {
      return p;
    }
    var front, a := actions[..|actions| - 1], actions[|actions| - 1];
    q := DisturbanceIsRun(p, front);
    assert actions == front + [a];
    DisturbedOneMore(p.view, p.store, front, a);
    if !Ignored(a) {
      DisturbIsStep(q.view, q.store, a, p.k);
      q := Extended(q, Rekey(a, p.k));
    }
  }

  lemma TurnIsStep(v: View, store: Store, t: Turn, k: Key)
    ensures var (w, objects) := Disturbed(v, store, t.before);
            TakeTurn(v, store, t) == ViewStep(w, objects, Step(k, t.answer))
  {
  }

  lemma TurnIsRun(p: Place, t: Turn) returns (q: Place)
    ensures q.run == p.run + (Rekeyed(t.before, p.k) + [Step(p.k, t.answer)]) && q.k == p.k
    ensures (q.view, q.store) == TakeTurn(p.view, p.store, t)
  {
    var d := DisturbanceIsRun(p, t.before);
    TurnIsStep(p.view, p.store, t, p.k);
    q := Extended(d, Step(p.k, t.answer));
  }

  /** The machine's account of a pass is part of some run. */
  lemma {:induction false} DriveIsRun(p: Place, turns: seq<Turn>) returns (q: Place)
    ensures q.run == p.run + ActionsOf(turns, p.k) && q.k == p.k
    ensures (q.view, q.store) == Drive(p.view, p.store, turns)
    decreases |turns|
  {
    if turns == [] {
      return p;
    }
    var front := DriveIsRun(p, turns[..|turns| - 1]);
    q := TurnIsRun(front, turns[|turns| - 1]);
  }

  lemma PassLeads(p: Place, turns: seq<Turn>) returns (q: Place)
    requires p.view.pass == None && p.view.cluster.Some?
    ensures q.run == p.run + [Begin(p.k)] + ActionsOf(turns, p.k) && q.k == p.k
    ensures (q.view, q.store) == Drive(BeginStep(p.view), p.store, turns)
  {
    q := Extended(p, Begin(p.k));
    q := DriveIsRun(q, turns);
  }

  /** Whatever a pass of the program does from a reachable state is what some run of the whole system does. */
  lemma PassIsRun(before: seq<Action>, k: Key, turns: seq<Turn>)
    requires ViewOf(Run(before), k).pass == None && ViewOf(Run(before), k).cluster.Some?
    ensures var r := Run(before + [Begin(k)] + ActionsOf(turns, k));
            (ViewOf(r, k), r.store) == Drive(BeginStep(ViewOf(Run(before), k)), Run(before).store, turns)
  {
    var q := PassLeads(Place(before, k, ViewOf(Run(before), k), Run(before).store), turns);
    assert Shown(true);
  }
}
