/**
 Which failures lead to phase Error: those of the steps before the deployers, and no others.
 */
module Errors {
  import opened Text
  import opened Resources
  import opened Apply
  import opened Machine

  /** The pass is about to record phase Error. */
  predicate IsFailing(v: View)
  {
    v.pass.Some? && v.pass.value.pc.MarkingError?
  }

  /** An update of the resource is refused, or not acknowledged. */
  predicate UpdateFails(v: View, p: Pass, a: Answer)
  {
    a.write != Done || v.cluster == None || v.cluster.value.spec != p.spec
  }

  /** The step is one of the four before the deployers that can fail, and it does. */
  predicate FailsEarly(v: View, p: Pass, a: Answer)
  {
    match p.pc
    case AddingFinalizer => p.spec.hasMeta && !p.finalizer && (UpdateFails(v, p, a) || v.cluster.value.deleting)
    case Validating => !a.ok
    case SavingSpec => !p.spec.complete && UpdateFails(v, p, a)
    case MarkingStarting => p.phase == Unset && (a.write != Done || v.cluster == None)
    case _ => false
  }

  lemma PrologueFails(v: View, p: Pass, a: Answer)
    requires IsPrologue(p.pc)
    ensures IsFailing(PrologueStep(v, p, a)) <==> FailsEarly(v, p, a)
  {
  }

  lemma EpilogueDoesNot(v: View, p: Pass, a: Answer)
    requires IsEpilogue(p.pc)
    ensures !IsFailing(EpilogueStep(v, p, a))
  {
  }

  lemma DeletionDoesNot(v: View, p: Pass, a: Answer)
    requires IsDeletion(p.pc)
    ensures !IsFailing(DeletionStep(v, p, a))
  {
  }

  lemma SyncStartDoesNot(v: View, p: Pass, a: Answer)
    requires p.pc.Generating? || p.pc.Hooking?
    ensures !IsFailing(SyncStartStep(v, p, a))
  {
  }

  lemma WriteDoesNot(v: View, p: Pass, store: Store, role: Role, i: nat, updated: bool, kind: WriteKind, a: Answer)
    requires i < |p.spec.Objects(role)|
    ensures !IsFailing(WriteStep(v, p, store, role, i, updated, kind, a).0)
  {
  }

  lemma LookDoesNot(v: View, p: Pass, store: Store, a: Answer)
    requires p.pc.Applying?
    requires p.pc.i < |p.spec.Objects(p.pc.role)| && a.ok ==>
               Compare(store, p.spec.Objects(p.pc.role)[p.pc.i]) != Absent
    ensures !IsFailing(ApplyStep(v, p, store, a).0)
  {
  }

  lemma CreateDoesNot(v: View, p: Pass, store: Store, a: Answer)
    requires p.pc.Applying? && p.pc.i < |p.spec.Objects(p.pc.role)| && a.ok
    requires Compare(store, p.spec.Objects(p.pc.role)[p.pc.i]) == Absent
    ensures !IsFailing(ApplyStep(v, p, store, a).0)
  {
    WriteDoesNot(v, p, store, p.pc.role, p.pc.i, p.pc.updated, Creation, a);
  }

  lemma ApplyDoesNot(v: View, p: Pass, store: Store, a: Answer)
    requires p.pc.Applying?
    ensures !IsFailing(ApplyStep(v, p, store, a).0)
  {
    if p.pc.i < |p.spec.Objects(p.pc.role)| && a.ok && Compare(store, p.spec.Objects(p.pc.role)[p.pc.i]) == Absent {
      CreateDoesNot(v, p, store, a);
    } else {
      LookDoesNot(v, p, store, a);
    }
  }

  lemma ArmDoesNot(v: View, p: Pass, store: Store, a: Answer)
    requires p.pc.Arming? && InBounds(p)
    ensures !IsFailing(ArmStep(v, p, store, a))
  {
  }

  lemma CheckDoesNot(v: View, p: Pass, store: Store, a: Answer)
    requires p.pc.Checking?
    ensures !IsFailing(CheckStep(v, p, store, a))
  {
  }

  lemma StatusDoesNot(v: View, p: Pass, a: Answer)
    requires p.pc.SavingStatus?
    ensures !IsFailing(SaveStatusStep(v, p, a))
  {
  }

  lemma DisarmDoesNot(v: View, p: Pass, a: Answer)
    requires v.pass == Some(p) && p.pc.Disarming?
    ensures !IsFailing(DisarmStep(v, p, a))
  {
  }

  /**
   A step leads to phase Error exactly if it is one of the four before the deployers and fails. Whatever goes
   wrong in a deployer, in a status write or in the deletion branch does not.
   */
  lemma ErrorExactly(v: View, store: Store, a: Answer)
    requires v.pass.Some? && InBounds(v.pass.value)
    ensures IsFailing(PassStep(v, store, a).0) <==> FailsEarly(v, v.pass.value, a)
  {
    var p := v.pass.value;
    if IsPrologue(p.pc) {
      PrologueFails(v, p, a);
    } else if IsEpilogue(p.pc) {
      EpilogueDoesNot(v, p, a);
    } else if IsDeletion(p.pc) {
      DeletionDoesNot(v, p, a);
    } else if p.pc.Applying? {
      ApplyDoesNot(v, p, store, a);
    } else if p.pc.Arming? {
      ArmDoesNot(v, p, store, a);
    } else if p.pc.Patching? {
      WriteDoesNot(v, p, store, p.pc.role, p.pc.i, p.pc.updated, Patch(p.spec.failover, p.pc.compared), a);
    } else if p.pc.Checking? {
      CheckDoesNot(v, p, store, a);
    } else if p.pc.SavingStatus? {
      StatusDoesNot(v, p, a);
    } else if p.pc.Disarming? {
      DisarmDoesNot(v, p, a);
    } else {
      SyncStartDoesNot(v, p, a);
    }
  }
}
