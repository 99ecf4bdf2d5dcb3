/**
 What failures and setbacks of a pass lead to. A step that is refused ends its pass there and then, and nothing more is
 recorded until the next one begins. A deployer succeeds only if none of its steps was refused, found an object that
 differs, or found something unready; and the finalizer goes only if no step of the deletion was refused.
 */
module Failures {
  import opened Text
  import opened Resources
  import opened Apply
  import opened Machine
  import Invariants

  // ----- Which answers are failures -----

  /** The deployer that is at work. */
  function Deployer(pc: Pc): Option<Role>
  {
    match pc
    case Generating(r) => Some(r)
    case Hooking(r) => Some(r)
    case Applying(r, _, _) => Some(r)
    case Arming(_, _) => Some(Datanode)
    case Patching(r, _, _, _) => Some(r)
    case Checking(r, _, _) => Some(r)
    case SavingStatus(r, _) => Some(r)
    case Disarming => Some(Datanode)
    case _ => None
  }

  /** An object cannot be read, is not the operator's, or is missing and cannot be created. */
  predicate LookFails(store: Store, d: Desired, a: Answer)
  {
    !a.ok || IsForeign(store, d) || (d.key !in store && a.write != Done)
  }

  /** The old StatefulSet cannot be read, or pods would restart and maintenance cannot be switched on. */
  predicate ArmingFails(armed: bool, store: Store, d: Desired, a: Answer)
  {
    !a.ok || d.key !in store || (!armed && IsOldPodRestart(d.template, store[d.key].live.template) && !a.call)
  }

  predicate PatchFails(store: Store, d: Desired, a: Answer)
  {
    d.key !in store || a.write != Done
  }

  /** A ready metasrv of a cluster under creation is to be put into maintenance. */
  predicate IsCreationCall(p: Pass, a: Answer)
  {
    p.pc.Checking? && p.pc.role == Meta && a.ok && a.ready && p.phase == Starting && !p.maintenance
  }

  predicate CheckFails(p: Pass, a: Answer)
    requires p.pc.Checking?
  {
    if p.pc.role == Datanode then p.pc.i < |Watched(p.spec)| && !a.ok
    else !a.ok || (IsCreationCall(p, a) && !a.call)
  }

  /** The step asks for something and is refused, or asks for a write and does not hear that it was made. */
  predicate Fails(v: View, store: Store, a: Answer)
    requires v.pass.Some? && InBounds(v.pass.value)
  {
    var p := v.pass.value;
    match p.pc
    case Preparing => !a.ok
    case Generating(_) => !a.ok
    case Hooking(r) => r == Meta && !a.ok
    case Applying(r, i, _) => i < |p.spec.Objects(r)| && LookFails(store, p.spec.Objects(r)[i], a)
    case Arming(i, _) => ArmingFails(v.armed, store, p.spec.Objects(Datanode)[i], a)
    case Patching(r, i, _, _) => PatchFails(store, p.spec.Objects(r)[i], a)
    case Checking(_, _, _) => CheckFails(p, a)
    case Disarming => v.armed && p.spec.failover && !a.call
    case Closing => p.maintenance && !a.call
    case Cleaning(r) => r == Datanode && !a.ok
    case _ => false
  }

  /** The points at which a failure ends the pass. */
  predicate IsExposed(pc: Pc)
  {
    pc.Preparing? || Deployer(pc).Some? || pc.Closing? || pc.Cleaning?
  }

  /** The step has logged an event, and the last one is this deployer's success. */
  predicate LogsSuccess(v: View, w: View)
  {
    |w.history| > |v.history| && w.history[|w.history| - 1].Succeeded?
  }

  /** The pass is over and nothing has come of it, except perhaps a write that was not acknowledged. */
  predicate IsCutShort(v: View, w: View)
  {
    && w == v.(pass := None, history := w.history)
    && (w.history == v.history
        || (|w.history| == |v.history| + 1 && v.history <= w.history && w.history[|v.history|].Wrote?))
  }

  /** What a failure does, and that nothing else ends a pass without a success. */
  predicate IsExact(v: View, w: View, fails: bool)
  {
    && (fails ==> IsCutShort(v, w))
    && (fails <==> w.pass == None && !LogsSuccess(v, w))
  }

  // ----- Step by step -----

  lemma StartExact(v: View, store: Store, a: Answer)
    requires v.pass.Some? && (v.pass.value.pc.Preparing? || v.pass.value.pc.Generating? || v.pass.value.pc.Hooking?)
    ensures IsExact(v, PassStep(v, store, a).0, Fails(v, store, a))
  {
  }

  /** A write of the machine that is not heard to be done. */
  lemma WriteExact(v: View, p: Pass, store: Store, role: Role, i: nat, updated: bool, kind: WriteKind, a: Answer)
    requires v.pass == Some(p) && i < |p.spec.Objects(role)|
    ensures IsExact(v, WriteStep(v, p, store, role, i, updated, kind, a).0, a.write != Done)
  {
  }

  lemma ApplyingExact(v: View, store: Store, a: Answer)
    requires v.pass.Some? && v.pass.value.pc.Applying?
    ensures IsExact(v, PassStep(v, store, a).0, Fails(v, store, a))
  {
    var p := v.pass.value;
    if p.pc.i < |p.spec.Objects(p.pc.role)| {
      WriteExact(v, p, store, p.pc.role, p.pc.i, p.pc.updated, Creation, a);
    }
  }

  lemma ArmingExact(v: View, store: Store, a: Answer)
    requires v.pass.Some? && v.pass.value.pc.Arming? && InBounds(v.pass.value)
    ensures IsExact(v, PassStep(v, store, a).0, Fails(v, store, a))
  {
  }

  lemma PatchingExact(v: View, store: Store, a: Answer)
    requires v.pass.Some? && v.pass.value.pc.Patching? && InBounds(v.pass.value)
    ensures IsExact(v, PassStep(v, store, a).0, Fails(v, store, a))
  {
    var p := v.pass.value;
    WriteExact(v, p, store, p.pc.role, p.pc.i, p.pc.updated, Patch(p.spec.failover, p.pc.compared), a);
  }

  lemma DatanodeCheckExact(v: View, store: Store, a: Answer)
    requires v.pass.Some? && v.pass.value.pc.Checking? && v.pass.value.pc.role == Datanode
    ensures IsExact(v, PassStep(v, store, a).0, Fails(v, store, a))
  {
  }

  lemma CheckExact(v: View, store: Store, a: Answer)
    requires v.pass.Some? && v.pass.value.pc.Checking? && v.pass.value.pc.role != Datanode
    ensures IsExact(v, PassStep(v, store, a).0, Fails(v, store, a))
  {
  }

  lemma StatusExact(v: View, store: Store, a: Answer)
    requires v.pass.Some? && v.pass.value.pc.SavingStatus?
    ensures IsExact(v, PassStep(v, store, a).0, Fails(v, store, a))
  {
  }

  lemma DisarmExact(v: View, store: Store, a: Answer)
    requires v.pass.Some? && v.pass.value.pc.Disarming?
    ensures IsExact(v, PassStep(v, store, a).0, Fails(v, store, a))
  {
  }

  lemma CloseExact(v: View, store: Store, a: Answer)
    requires v.pass.Some? && v.pass.value.pc.Closing?
    ensures IsExact(v, PassStep(v, store, a).0, Fails(v, store, a))
  {
  }

  lemma CleanExact(v: View, store: Store, a: Answer)
    requires v.pass.Some? && v.pass.value.pc.Cleaning?
    ensures IsExact(v, PassStep(v, store, a).0, Fails(v, store, a))
  {
  }

  /**
   In the deployers, in the closing of creation and in the clean-ups, a step that fails ends the pass: resource, flag
   and metasrv stay as they were, and no success, clean-up or phase is recorded. Nothing but a failure ends a pass
   there, except the success of the last deployer.
   */
  lemma FailureExactly(v: View, store: Store, a: Answer)
    requires v.pass.Some? && InBounds(v.pass.value) && IsExposed(v.pass.value.pc)
    ensures var w := PassStep(v, store, a).0;
      && (Fails(v, store, a) ==> IsCutShort(v, w))
      && (Fails(v, store, a) <==> w.pass == None && !LogsSuccess(v, w))
  {
    var pc := v.pass.value.pc;
    if pc.Preparing? || pc.Generating? || pc.Hooking? {
      StartExact(v, store, a);
    } else if pc.Applying? {
      ApplyingExact(v, store, a);
    } else if pc.Arming? {
      ArmingExact(v, store, a);
    } else if pc.Patching? {
      PatchingExact(v, store, a);
    } else if pc.Checking? {
      if pc.role == Datanode {
        DatanodeCheckExact(v, store, a);
      } else {
        CheckExact(v, store, a);
      }
    } else if pc.SavingStatus? {
      StatusExact(v, store, a);
    } else if pc.Disarming? {
      DisarmExact(v, store, a);
    } else if pc.Closing? {
      CloseExact(v, store, a);
    } else {
      CleanExact(v, store, a);
    }
  }

  // ----- Setbacks -----

  /** The latest generation is rolled out, with all replicas current and ready. */
  predicate IsRolledOut(l: Live)
  {
    l.observedGeneration == l.generation && l.readyReplicas == l.replicas && l.currentReplicas == l.replicas
  }

  predicate FindsUnready(p: Pass, store: Store, a: Answer)
    requires p.pc.Checking?
  {
    if p.pc.role != Datanode then !a.ready
    else
      var keys := Watched(p.spec);
      p.pc.i < |keys| && !(keys[p.pc.i] in store && IsRolledOut(store[keys[p.pc.i]].live))
  }

  /** The step fails, or it finds an object that must be patched, or one that is not ready. */
  predicate IsSetback(v: View, store: Store, a: Answer)
    requires v.pass.Some? && InBounds(v.pass.value)
  {
    var p := v.pass.value;
    || Fails(v, store, a)
    || (p.pc.Applying? && p.pc.i < |p.spec.Objects(p.pc.role)| && IsDifferent(store, p.spec.Objects(p.pc.role)[p.pc.i]))
    || (p.pc.Checking? && FindsUnready(p, store, a))
  }

  /** The deployer that is at work cannot succeed in this pass any more. */
  predicate IsLost(pc: Pc)
  {
    match pc
    case Applying(_, _, updated) => updated
    case Arming(_, _) => true
    case Patching(_, _, _, _) => true
    case Checking(r, _, allReady) => r == Datanode && !allReady
    case SavingStatus(_, ready) => !ready
    case Waiting => true
    case _ => false
  }

  predicate HasLost(v: View)
  {
    v.pass.Some? ==> IsLost(v.pass.value.pc)
  }

  /** A missing object is created, whatever its deployer has lost or not. */
  lemma CreateIsWrite(v: View, store: Store, a: Answer)
    requires v.pass.Some? && v.pass.value.pc.Applying?
    requires v.pass.value.pc.i < |v.pass.value.spec.Objects(v.pass.value.pc.role)|
    requires a.ok && v.pass.value.spec.Objects(v.pass.value.pc.role)[v.pass.value.pc.i].key !in store
    ensures var p := v.pass.value;
            PassStep(v, store, a).0 == WriteStep(v, p, store, p.pc.role, p.pc.i, p.pc.updated, Creation, a).0
  {
  }

  lemma CreateSetback(v: View, p: Pass, store: Store, role: Role, i: nat, a: Answer)
    requires v.pass == Some(p) && i < |p.spec.Objects(role)|
    ensures var w := WriteStep(v, p, store, role, i, false, Creation, a).0;
            a.write != Done <==> HasLost(w) && !LogsSuccess(v, w)
  {
  }

  lemma LookSetback(v: View, store: Store, a: Answer)
    requires v.pass.Some? && v.pass.value.pc.Applying? && !v.pass.value.pc.updated
    requires v.pass.value.pc.i < |v.pass.value.spec.Objects(v.pass.value.pc.role)| && a.ok ==>
               v.pass.value.spec.Objects(v.pass.value.pc.role)[v.pass.value.pc.i].key in store
    ensures var w := PassStep(v, store, a).0; IsSetback(v, store, a) <==> HasLost(w) && !LogsSuccess(v, w)
  {
  }

  lemma ApplyingSetback(v: View, store: Store, a: Answer)
    requires v.pass.Some? && v.pass.value.pc.Applying? && !v.pass.value.pc.updated
    ensures var w := PassStep(v, store, a).0; IsSetback(v, store, a) <==> HasLost(w) && !LogsSuccess(v, w)
  {
    var p := v.pass.value;
    if p.pc.i < |p.spec.Objects(p.pc.role)| && a.ok && p.spec.Objects(p.pc.role)[p.pc.i].key !in store {
      CreateIsWrite(v, store, a);
      CreateSetback(v, p, store, p.pc.role, p.pc.i, a);
    } else {
      LookSetback(v, store, a);
    }
  }

  lemma DatanodeSetback(v: View, store: Store, a: Answer)
    requires v.pass.Some? && v.pass.value.pc.Checking? && v.pass.value.pc.role == Datanode && v.pass.value.pc.allReady
    ensures var w := PassStep(v, store, a).0; IsSetback(v, store, a) <==> HasLost(w) && !LogsSuccess(v, w)
  {
  }

  lemma CheckSetback(v: View, store: Store, a: Answer)
    requires v.pass.Some? && v.pass.value.pc.Checking? && v.pass.value.pc.role != Datanode
    ensures var w := PassStep(v, store, a).0; IsSetback(v, store, a) <==> HasLost(w) && !LogsSuccess(v, w)
  {
  }

  lemma StartSetback(v: View, store: Store, a: Answer)
    requires v.pass.Some? && (v.pass.value.pc.Generating? || v.pass.value.pc.Hooking?)
    ensures var w := PassStep(v, store, a).0; IsSetback(v, store, a) <==> HasLost(w) && !LogsSuccess(v, w)
  {
    FailureExactly(v, store, a);
  }

  lemma StatusSetback(v: View, store: Store, a: Answer)
    requires v.pass.Some? && v.pass.value.pc.SavingStatus? && v.pass.value.pc.ready
    ensures var w := PassStep(v, store, a).0; IsSetback(v, store, a) <==> HasLost(w) && !LogsSuccess(v, w)
  {
    FailureExactly(v, store, a);
  }

  lemma DisarmSetback(v: View, store: Store, a: Answer)
    requires v.pass.Some? && v.pass.value.pc.Disarming?
    ensures var w := PassStep(v, store, a).0; IsSetback(v, store, a) <==> HasLost(w) && !LogsSuccess(v, w)
  {
    FailureExactly(v, store, a);
  }

  /** A deployer that can still succeed loses that in exactly one way: by a setback. */
  lemma SetbackExactly(v: View, store: Store, a: Answer)
    requires v.pass.Some? && InBounds(v.pass.value)
    requires Deployer(v.pass.value.pc).Some? && !IsLost(v.pass.value.pc)
    ensures var w := PassStep(v, store, a).0; IsSetback(v, store, a) <==> HasLost(w) && !LogsSuccess(v, w)
  {
    var pc := v.pass.value.pc;
    if pc.Applying? {
      ApplyingSetback(v, store, a);
    } else if pc.Checking? {
      if pc.role == Datanode {
        DatanodeSetback(v, store, a);
      } else {
        CheckSetback(v, store, a);
      }
    } else if pc.SavingStatus? {
      StatusSetback(v, store, a);
    } else if pc.Disarming? {
      DisarmSetback(v, store, a);
    } else {
      StartSetback(v, store, a);
    }
  }

  // ----- What is recorded after a setback -----

  /** Neither a success nor what only successes lead to. */
  predicate IsQuiet(e: Event)
  {
    && !e.Succeeded? && !e.Off? && !e.Cleaned? && !e.Released?
    && (e.Moved? ==> e.to == Starting || e.to == Updating)
  }

  /** At most one quiet event is added, and there is still no success in sight. */
  predicate StaysLost(v: View, w: View)
  {
    && HasLost(w)
    && (w.history == v.history
        || (|w.history| == |v.history| + 1 && v.history <= w.history && IsQuiet(w.history[|v.history|])))
  }

  lemma LostWrite(v: View, p: Pass, store: Store, role: Role, i: nat, kind: WriteKind, updated: bool, a: Answer)
    requires v.pass == Some(p) && i < |p.spec.Objects(role)| && (updated || kind.Patch?)
    ensures StaysLost(v, WriteStep(v, p, store, role, i, updated, kind, a).0)
  {
  }

  lemma LostLook(v: View, store: Store, a: Answer)
    requires v.pass.Some? && v.pass.value.pc.Applying? && v.pass.value.pc.updated
    requires v.pass.value.pc.i < |v.pass.value.spec.Objects(v.pass.value.pc.role)| && a.ok ==>
               v.pass.value.spec.Objects(v.pass.value.pc.role)[v.pass.value.pc.i].key in store
    ensures StaysLost(v, PassStep(v, store, a).0)
  {
  }

  lemma LostApplying(v: View, store: Store, a: Answer)
    requires v.pass.Some? && v.pass.value.pc.Applying? && v.pass.value.pc.updated
    ensures StaysLost(v, PassStep(v, store, a).0)
  {
    var p := v.pass.value;
    if p.pc.i < |p.spec.Objects(p.pc.role)| && a.ok && p.spec.Objects(p.pc.role)[p.pc.i].key !in store {
      CreateIsWrite(v, store, a);
      LostWrite(v, p, store, p.pc.role, p.pc.i, Creation, p.pc.updated, a);
    } else {
      LostLook(v, store, a);
    }
  }

  lemma LostPatch(v: View, store: Store, a: Answer)
    requires v.pass.Some? && v.pass.value.pc.Patching? && InBounds(v.pass.value)
    ensures StaysLost(v, PassStep(v, store, a).0)
  {
    var p := v.pass.value;
    LostWrite(v, p, store, p.pc.role, p.pc.i, Patch(p.spec.failover, p.pc.compared), p.pc.updated, a);
  }

  lemma LostArming(v: View, store: Store, a: Answer)
    requires v.pass.Some? && v.pass.value.pc.Arming? && InBounds(v.pass.value)
    ensures StaysLost(v, PassStep(v, store, a).0)
  {
  }

  lemma LostCheck(v: View, store: Store, a: Answer)
    requires v.pass.Some? && v.pass.value.pc.Checking? && IsLost(v.pass.value.pc)
    ensures StaysLost(v, PassStep(v, store, a).0)
  {
  }

  /** The in-memory phase of a deployer at work is the persisted one. */
  lemma PhaseIsPersisted(v: View)
    requires Invariants.Inv(v) && v.pass.Some? && v.cluster.Some?
    requires Deployer(v.pass.value.pc).Some? || v.pass.value.pc.Waiting?
    ensures v.cluster.value.phase == v.pass.value.phase
  {
  }

  lemma LostStatus(v: View, store: Store, a: Answer)
    requires v.pass.Some? && v.pass.value.pc.SavingStatus? && !v.pass.value.pc.ready
    requires v.cluster.Some? ==> v.cluster.value.phase == v.pass.value.phase
    ensures StaysLost(v, PassStep(v, store, a).0)
  {
  }

  lemma LostWait(v: View, store: Store, a: Answer)
    requires v.pass.Some? && v.pass.value.pc.Waiting?
    ensures StaysLost(v, PassStep(v, store, a).0)
  {
  }

  lemma LostStep(v: View, store: Store, a: Answer)
    requires Invariants.Inv(v) && v.pass.Some? && InBounds(v.pass.value) && IsLost(v.pass.value.pc)
    ensures StaysLost(v, PassStep(v, store, a).0)
  {
    var pc := v.pass.value.pc;
    if pc.Applying? {
      LostApplying(v, store, a);
    } else if pc.Patching? {
      LostPatch(v, store, a);
    } else if pc.Arming? {
      LostArming(v, store, a);
    } else if pc.Checking? {
      LostCheck(v, store, a);
    } else if pc.SavingStatus? {
      if v.cluster.Some? {
        PhaseIsPersisted(v);
      }
      LostStatus(v, store, a);
    } else {
      LostWait(v, store, a);
    }
  }

  /** What the environment does in between: a new pass, an edit, or nothing that is recorded. */
  lemma OthersAct(v: View, store: Store, a: Action)
    requires !a.Mutate? && !a.Step? && v.history != []
    ensures var w := ViewStep(v, store, a).0;
      || (w.history == v.history && w.pass == v.pass)
      || (w.history == v.history + [Edited] && w.pass == v.pass)
      || (|w.history| == |v.history| + 1 && v.history <= w.history && w.history[|v.history|].Began? && v.pass == None)
  {
  }

  /** Looking an object up, and creating it if it is missing, leaves everything that is stored as it is. */
  lemma LookLeavesStored(v: View, store: Store, a: Answer, key: ObjectKey)
    requires v.pass.Some? && v.pass.value.pc.Applying? && key in store
    ensures var after := PassStep(v, store, a).1; key in after && after[key] == store[key]
  {
  }
}
