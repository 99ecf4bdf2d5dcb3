/**
 Most steps of a pass are calm: they neither end maintenance under an armed flag,
 nor take the finalizer away, nor report an observation. The three that are not
 are the closing OFF, the release of the finalizer and the datanode check.
 */
module Calm {
  import opened Resources
  import opened Machine

  predicate IsCalm(v: View, w: View)
  {
    && ((v.armed ==> v.on) ==> (w.armed ==> w.on))
    && (v.cluster.Some? ==> w.cluster.Some? && (v.cluster.value.finalizer ==> w.cluster.value.finalizer))
    && (|w.history| <= |v.history| || !w.history[|w.history| - 1].Observed?)
  }

  predicate IsEventful(pc: Pc)
  {
    pc.Closing? || pc.Releasing? || (pc.Checking? && pc.role == Datanode)
  }

  lemma PrologueCalm(v: View, p: Pass, a: Answer)
    requires IsPrologue(p.pc)
    ensures IsCalm(v, PrologueStep(v, p, a))
  {
  }

  lemma SyncStartCalm(v: View, p: Pass, a: Answer)
    requires p.pc.Generating? || p.pc.Hooking?
    ensures IsCalm(v, SyncStartStep(v, p, a))
  {
  }

  lemma WriteCalm(v: View, p: Pass, store: Store, role: Role, i: nat, updated: bool, kind: WriteKind, a: Answer)
    requires i < |p.spec.Objects(role)|
    ensures IsCalm(v, WriteStep(v, p, store, role, i, updated, kind, a).0)
  {
  }

  lemma ApplyCalm(v: View, p: Pass, store: Store, a: Answer)
    requires p.pc.Applying?
    ensures IsCalm(v, ApplyStep(v, p, store, a).0)
  {
    if p.pc.i < |p.spec.Objects(p.pc.role)| {
      WriteCalm(v, p, store, p.pc.role, p.pc.i, p.pc.updated, Creation, a);
    }
  }

  lemma ArmCalm(v: View, p: Pass, store: Store, a: Answer)
    requires p.pc.Arming? && p.pc.i < |p.spec.Objects(Datanode)|
    ensures IsCalm(v, ArmStep(v, p, store, a))
  {
  }

  lemma CheckCalm(v: View, p: Pass, store: Store, a: Answer)
    requires p.pc.Checking? && p.pc.role != Datanode
    ensures IsCalm(v, CheckStep(v, p, store, a))
  {
  }

  lemma SaveStatusCalm(v: View, p: Pass, a: Answer)
    requires p.pc.SavingStatus?
    ensures IsCalm(v, SaveStatusStep(v, p, a))
  {
  }

  lemma DisarmCalm(v: View, p: Pass, a: Answer)
    requires p.pc.Disarming?
    ensures IsCalm(v, DisarmStep(v, p, a))
  {
  }

  lemma EpilogueCalm(v: View, p: Pass, a: Answer)
    requires IsEpilogue(p.pc) && !p.pc.Closing?
    ensures IsCalm(v, EpilogueStep(v, p, a))
  {
  }

  lemma CalmStep(v: View, store: Store, a: Answer)
    requires v.pass.Some? && InBounds(v.pass.value) && !IsEventful(v.pass.value.pc)
    ensures IsCalm(v, PassStep(v, store, a).0)
  {
    var p := v.pass.value;
    if IsPrologue(p.pc) {
      PrologueCalm(v, p, a);
    } else if IsEpilogue(p.pc) {
      EpilogueCalm(v, p, a);
    } else if p.pc.Applying? {
      ApplyCalm(v, p, store, a);
    } else if p.pc.Arming? {
      ArmCalm(v, p, store, a);
    } else if p.pc.Patching? {
      WriteCalm(v, p, store, p.pc.role, p.pc.i, p.pc.updated, Patch(p.spec.failover, p.pc.compared), a);
    } else if p.pc.Checking? {
      CheckCalm(v, p, store, a);
    } else if p.pc.SavingStatus? {
      SaveStatusCalm(v, p, a);
    } else if p.pc.Disarming? {
      DisarmCalm(v, p, a);
    } else if !IsDeletion(p.pc) {
      SyncStartCalm(v, p, a);
    }
  }
}
