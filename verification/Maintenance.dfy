/**
 The half of the maintenance protocol that needs the environment's cooperation:
 while a cluster's flag is armed its stored spec must keep region failover and
 datanodes, because otherwise the hook that clears the flag does not run.
 */
module Maintenance {
  import opened Text
  import opened Resources
  import opened Machine
  import opened Histories
  import Invariants

  /** What the user must not break while the flag is armed. */
  predicate HookKept(v: View)
  {
    v.armed && v.cluster.Some? ==> HookRuns(v.cluster.value.spec)
  }

  /** An armed flag means maintenance, the pass in progress will run the hook, and past the hook the flag is clear. */
  predicate Guarded(v: View)
  {
    && (v.armed ==> v.on)
    && (v.armed && v.pass.Some? && !IsDeletion(v.pass.value.pc) ==>
          HookRuns(v.pass.value.spec) && Invariants.Progress(v.pass.value.pc) <= 2)
  }

  /** Armed implied maintained at every moment of the past. */
  ghost predicate AlwaysGuarded(h: seq<Event>)
  {
    forall i :: 0 <= i <= |h| && Recall(h[..i]).armed ==> Recall(h[..i]).maintained
  }

  lemma AdvanceGuarded(v: View, p: Pass, role: Role)
    requires v.armed ==> v.on && HookRuns(p.spec) && Rank(role) < 2
    ensures Guarded(Advance(v, p, role))
  {
  }

  lemma SyncStartGuarded(v: View, p: Pass, a: Answer)
    requires v.pass == Some(p) && Guarded(v) && (p.pc.Generating? || p.pc.Hooking?)
    ensures Guarded(SyncStartStep(v, p, a))
  {
    if p.pc.Generating? && a.ok && p.spec.Objects(p.pc.role) == [] {
      AdvanceGuarded(v, p, p.pc.role);
    }
  }

  lemma ApplyGuarded(v: View, p: Pass, store: Store, a: Answer)
    requires v.pass == Some(p) && Guarded(v) && InBounds(p) && p.pc.Applying?
    ensures Guarded(ApplyStep(v, p, store, a).0)
  {
  }

  lemma PatchGuarded(v: View, p: Pass, store: Store, a: Answer)
    requires v.pass == Some(p) && Guarded(v) && InBounds(p) && p.pc.Patching?
    ensures Guarded(PatchStep(v, p, store, a).0)
  {
  }

  /** The flag is armed only after the metasrv accepted the call, and only by a pass that will run the hook. */
  lemma ArmGuarded(v: View, p: Pass, store: Store, a: Answer)
    requires v.pass == Some(p) && Guarded(v) && InBounds(p) && p.pc.Arming? && p.spec.failover
    ensures Guarded(ArmStep(v, p, store, a))
  {
  }

  lemma CheckGuarded(v: View, p: Pass, store: Store, a: Answer)
    requires v.pass == Some(p) && Guarded(v) && p.pc.Checking?
    ensures Guarded(CheckStep(v, p, store, a))
  {
  }

  lemma SaveStatusGuarded(v: View, p: Pass, a: Answer)
    requires v.pass == Some(p) && Guarded(v) && p.pc.SavingStatus?
    ensures Guarded(SaveStatusStep(v, p, a))
  {
    if p.pc.ready && p.pc.role != Datanode {
      AdvanceGuarded(Save(v, p, a.write), p, p.pc.role);
    }
  }

  lemma DisarmGuarded(v: View, p: Pass, a: Answer)
    requires v.pass == Some(p) && Guarded(v) && p.pc.Disarming?
    ensures Guarded(DisarmStep(v, p, a))
  {
    if !(v.armed && p.spec.failover) {
      AdvanceGuarded(v, p, Datanode);
    }
  }

  lemma PrologueGuarded(v: View, p: Pass, a: Answer)
    requires v.pass == Some(p) && Guarded(v) && IsPrologue(p.pc)
    ensures Guarded(PrologueStep(v, p, a))
  {
  }

  /** In particular the closing OFF of a pass finds the flag clear. */
  lemma EpilogueGuarded(v: View, p: Pass, a: Answer)
    requires v.pass == Some(p) && Guarded(v) && IsEpilogue(p.pc)
    ensures Guarded(EpilogueStep(v, p, a))
  {
  }

  lemma PassGuarded(v: View, store: Store, a: Answer)
    requires v.pass.Some? && InBounds(v.pass.value) && Guarded(v)
    requires v.pass.value.pc.Arming? ==> v.pass.value.spec.failover
    ensures Guarded(PassStep(v, store, a).0)
  {
    var p := v.pass.value;
    if IsPrologue(p.pc) {
      PrologueGuarded(v, p, a);
    } else if IsEpilogue(p.pc) {
      EpilogueGuarded(v, p, a);
    } else if p.pc.Applying? {
      ApplyGuarded(v, p, store, a);
    } else if p.pc.Patching? {
      PatchGuarded(v, p, store, a);
    } else if p.pc.Arming? {
      ArmGuarded(v, p, store, a);
    } else if p.pc.Checking? {
      CheckGuarded(v, p, store, a);
    } else if p.pc.SavingStatus? {
      SaveStatusGuarded(v, p, a);
    } else if p.pc.Disarming? {
      DisarmGuarded(v, p, a);
    } else if !IsDeletion(p.pc) {
      SyncStartGuarded(v, p, a);
    }
  }

  lemma ViewGuarded(v: View, store: Store, a: Action, s: Past)
    requires Invariants.Fits(v, s) && !a.Mutate? && Guarded(v) && HookKept(v)
    ensures Guarded(ViewStep(v, store, a).0)
  {
    if a.Step? && v.pass.Some? && InBounds(v.pass.value) {
      PassGuarded(v, store, a.answer);
    }
  }

  /** Every action keeps an armed cluster in maintenance, as long as its spec keeps the hook. */
  lemma GuardKept(v: View, store: Store, a: Action)
    requires Invariants.Inv(v) && !a.Mutate? && Guarded(v) && HookKept(v) && AlwaysGuarded(v.history)
    ensures Guarded(ViewStep(v, store, a).0) && AlwaysGuarded(ViewStep(v, store, a).0.history)
  {
    var w := ViewStep(v, store, a).0;
    ViewGuarded(v, store, a, Recall(v.history));
    Invariants.InvKept(v, store, a);
    HistoryStep(v, store, a);
    ExtendGuard(v.history, w.history);
  }

  /** An action adds at most one event. */
  lemma HistoryStep(v: View, store: Store, a: Action)
    requires Invariants.Inv(v) && !a.Mutate?
    ensures |ViewStep(v, store, a).0.history| <= |v.history| + 1
  {
    if !a.Step? {
      Invariants.EnvironmentKeeps(v, store, a, Recall(v.history));
    } else if v.pass.Some? {
      Invariants.PassKeeps(v, store, a.answer, Recall(v.history));
    }
  }

  lemma ExtendGuard(h: seq<Event>, g: seq<Event>)
    requires h <= g && |g| <= |h| + 1 && AlwaysGuarded(h)
    requires Recall(g).armed ==> Recall(g).maintained
    ensures AlwaysGuarded(g)
  {
    forall i | 0 <= i <= |g| && Recall(g[..i]).armed
      ensures Recall(g[..i]).maintained
    {
      if i <= |h| {
        assert g[..i] == h[..i];
      } else {
        assert g[..i] == g;
      }
    }
  }
}
