/**
 How a patch comes about: which steps lead to one, and what they have established.
 */
module Judgement {
  import opened Text
  import opened Resources
  import opened Machine

  predicate IsPatching(v: View)
  {
    v.pass.Some? && v.pass.value.pc.Patching?
  }

  predicate LogsPatch(v: View, w: View)
  {
    |w.history| > |v.history| && IsPatch(w.history[|w.history| - 1])
  }

  predicate IsPatch(e: Event)
  {
    e.Wrote? && e.kind.Patch?
  }

  /** The step neither leads to a patch nor makes one. */
  predicate LeadsElsewhere(v: View, w: View)
  {
    !IsPatching(w) && !LogsPatch(v, w)
  }

  /** What a step must have established when it leads to a patch. */
  predicate HasCompared(p: Pass, store: Store, w: View)
    requires IsPatching(w)
  {
    var Patching(role, i, _, compared) := w.pass.value.pc;
    && i < |p.spec.Objects(role)|
    && var d := p.spec.Objects(role)[i];
       if p.pc.Arming? then
         && role == Datanode && d.key in store
         && compared == Some(Comparison(d.template, store[d.key].live.template))
         && (Restarts(compared) ==> w.armed)
       else
         p.pc.Applying? && compared == None && !(role == Datanode && d.IsStatefulSet() && p.spec.failover)
  }

  lemma PrologueLeadsElsewhere(v: View, p: Pass, a: Answer)
    requires IsPrologue(p.pc)
    ensures LeadsElsewhere(v, PrologueStep(v, p, a))
  {
  }

  lemma EpilogueLeadsElsewhere(v: View, p: Pass, a: Answer)
    requires IsEpilogue(p.pc)
    ensures LeadsElsewhere(v, EpilogueStep(v, p, a))
  {
  }

  lemma DeletionLeadsElsewhere(v: View, p: Pass, a: Answer)
    requires IsDeletion(p.pc)
    ensures LeadsElsewhere(v, DeletionStep(v, p, a))
  {
  }

  lemma SyncStartLeadsElsewhere(v: View, p: Pass, a: Answer)
    requires p.pc.Generating? || p.pc.Hooking?
    ensures LeadsElsewhere(v, SyncStartStep(v, p, a))
  {
  }

  lemma CreationLeadsElsewhere(v: View, p: Pass, store: Store, role: Role, i: nat, updated: bool, a: Answer)
    requires i < |p.spec.Objects(role)|
    ensures LeadsElsewhere(v, WriteStep(v, p, store, role, i, updated, Creation, a).0)
  {
  }

  /** A patch records the templates that were compared on the way to it. */
  lemma PatchingRecords(v: View, p: Pass, store: Store, a: Answer)
    requires v.pass == Some(p) && p.pc.Patching? && InBounds(p)
    ensures var w, d := PatchStep(v, p, store, a).0, p.spec.Objects(p.pc.role)[p.pc.i];
            && !IsPatching(w)
            && (w.history != v.history ==>
                w.history == v.history + [Wrote(p.pc.role, d, Patch(p.spec.failover, p.pc.compared))])
  {
  }

  lemma DatanodeCheckLeadsElsewhere(v: View, p: Pass, store: Store, a: Answer)
    requires p.pc.Checking? && p.pc.role == Datanode
    ensures LeadsElsewhere(v, CheckStep(v, p, store, a))
  {
  }

  lemma CheckLeadsElsewhere(v: View, p: Pass, store: Store, a: Answer)
    requires p.pc.Checking?
    ensures LeadsElsewhere(v, CheckStep(v, p, store, a))
  {
    if p.pc.role == Datanode {
      DatanodeCheckLeadsElsewhere(v, p, store, a);
    }
  }

  lemma StatusLeadsElsewhere(v: View, p: Pass, a: Answer)
    requires p.pc.SavingStatus?
    ensures LeadsElsewhere(v, SaveStatusStep(v, p, a))
  {
  }

  lemma DisarmLeadsElsewhere(v: View, p: Pass, a: Answer)
    requires v.pass == Some(p) && p.pc.Disarming?
    ensures LeadsElsewhere(v, DisarmStep(v, p, a))
  {
  }

  lemma ArmingCompares(v: View, p: Pass, store: Store, a: Answer)
    requires p.pc.Arming? && InBounds(p)
    ensures var w := ArmStep(v, p, store, a); (IsPatching(w) ==> HasCompared(p, store, w)) && !LogsPatch(v, w)
  {
  }

  lemma DifferenceCompares(v: View, p: Pass, store: Store, a: Answer)
    requires p.pc.Applying? && p.pc.i < |p.spec.Objects(p.pc.role)| && a.ok
    requires Compare(store, p.spec.Objects(p.pc.role)[p.pc.i]) == Differs
    ensures var w := ApplyStep(v, p, store, a).0; (IsPatching(w) ==> HasCompared(p, store, w)) && !LogsPatch(v, w)
  {
  }

  lemma OthersLeadElsewhere(v: View, p: Pass, store: Store, a: Answer)
    requires p.pc.Applying?
    requires p.pc.i < |p.spec.Objects(p.pc.role)| && a.ok ==>
               Compare(store, p.spec.Objects(p.pc.role)[p.pc.i]) != Differs
    ensures LeadsElsewhere(v, ApplyStep(v, p, store, a).0)
  {
    if p.pc.i < |p.spec.Objects(p.pc.role)| {
      CreationLeadsElsewhere(v, p, store, p.pc.role, p.pc.i, p.pc.updated, a);
    }
  }

  lemma ApplyingCompares(v: View, p: Pass, store: Store, a: Answer)
    requires p.pc.Applying?
    ensures var w := ApplyStep(v, p, store, a).0; (IsPatching(w) ==> HasCompared(p, store, w)) && !LogsPatch(v, w)
  {
    if p.pc.i < |p.spec.Objects(p.pc.role)| && a.ok && Compare(store, p.spec.Objects(p.pc.role)[p.pc.i]) == Differs {
      DifferenceCompares(v, p, store, a);
    } else {
      OthersLeadElsewhere(v, p, store, a);
    }
  }

  /** What a step does about patches: a logged one records what was compared; one that is entered has been compared. */
  predicate RecordsComparison(p: Pass, store: Store, v: View, w: View)
  {
    && (IsPatching(w) ==> HasCompared(p, store, w))
    && (LogsPatch(v, w) ==>
          && p.pc.Patching? && p.pc.i < |p.spec.Objects(p.pc.role)|
          && w.history[|w.history| - 1]
             == Wrote(p.pc.role, p.spec.Objects(p.pc.role)[p.pc.i], Patch(p.spec.failover, p.pc.compared)))
  }

  /**
   On the way to a patch of a datanode StatefulSet, with region failover on, the generated template is compared
   with the stored one, and the patch that is logged records these two templates.
   */
  lemma PatchesAreCompared(v: View, store: Store, a: Answer)
    requires v.pass.Some? && InBounds(v.pass.value)
    ensures RecordsComparison(v.pass.value, store, v, PassStep(v, store, a).0)
  {
    var p := v.pass.value;
    if IsPrologue(p.pc) {
      PrologueLeadsElsewhere(v, p, a);
    } else if IsEpilogue(p.pc) {
      EpilogueLeadsElsewhere(v, p, a);
    } else if IsDeletion(p.pc) {
      DeletionLeadsElsewhere(v, p, a);
    } else if p.pc.Applying? {
      ApplyingCompares(v, p, store, a);
    } else if p.pc.Arming? {
      ArmingCompares(v, p, store, a);
    } else if p.pc.Patching? {
      PatchingRecords(v, p, store, a);
    } else if p.pc.Checking? {
      CheckLeadsElsewhere(v, p, store, a);
    } else if p.pc.SavingStatus? {
      StatusLeadsElsewhere(v, p, a);
    } else if p.pc.Disarming? {
      DisarmLeadsElsewhere(v, p, a);
    } else {
      SyncStartLeadsElsewhere(v, p, a);
    }
  }
}
