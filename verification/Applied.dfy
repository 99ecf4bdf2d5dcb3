/**
 A deployer's success is backed by its objects: in every run, each of them was looked up in that pass and was then
 stored as desired, and the readiness check was answered with ready.
 */
module Applied {
  import opened Text
  import opened Names
  import opened Resources
  import opened Machine
  import opened Failures
  import Records
  import opened Successes
  import Histories
  import Invariants
  import Theorems

  // ----- One step -----

  /** How many objects of its deployer a pass has looked up, counting the one being patched. */
  function Looked(p: Pass): nat
  {
    match p.pc
    case Applying(_, i, _) => i
    case Arming(i, _) => i + 1
    case Patching(_, i, _, _) => i + 1
    case Checking(r, _, _) => |p.spec.Objects(r)|
    case SavingStatus(r, _) => |p.spec.Objects(r)|
    case Disarming => |p.spec.Objects(Datanode)|
    case _ => 0
  }

  /** The deployer that is at work after a step has looked up no more than before it, or one more. */
  predicate LooksOn(v: View, w: View)
    requires v.pass.Some?
  {
    w.pass.Some? && Deployer(w.pass.value.pc).Some? ==>
      var p, q := v.pass.value, w.pass.value;
      && q.spec == p.spec
      && (Looked(q) == 0
          || (Deployer(q.pc) == Deployer(p.pc)
              && (Looked(q) <= Looked(p) || (p.pc.Applying? && Looked(q) == Looked(p) + 1))))
  }

  /** The status of a deployer other than the datanodes' is saved only after its check. */
  predicate ChecksFirst(v: View, w: View)
    requires v.pass.Some?
  {
    && (w.pass.Some? && w.pass.value.pc.SavingStatus? && w.pass.value.pc.role != Datanode ==>
          v.pass.value.pc.Checking? && v.pass.value.pc.role == w.pass.value.pc.role)
  }

  lemma EarlyLooks(v: View, store: Store, a: Answer)
    requires v.pass.Some? && IsPrologue(v.pass.value.pc)
    ensures var w := PassStep(v, store, a).0; LooksOn(v, w) && ChecksFirst(v, w)
  {
  }

  lemma StartLooks(v: View, store: Store, a: Answer)
    requires v.pass.Some? && (v.pass.value.pc.Generating? || v.pass.value.pc.Hooking?)
    ensures var w := PassStep(v, store, a).0; LooksOn(v, w) && ChecksFirst(v, w)
  {
  }

  lemma CreateLooks(v: View, store: Store, a: Answer)
    requires v.pass.Some? && v.pass.value.pc.Applying?
    requires v.pass.value.pc.i < |v.pass.value.spec.Objects(v.pass.value.pc.role)|
    requires a.ok && v.pass.value.spec.Objects(v.pass.value.pc.role)[v.pass.value.pc.i].key !in store
    ensures var w := PassStep(v, store, a).0; LooksOn(v, w) && ChecksFirst(v, w)
  {
    CreateIsWrite(v, store, a);
  }

  lemma EndLooks(v: View, store: Store, a: Answer)
    requires v.pass.Some? && v.pass.value.pc.Applying?
    requires v.pass.value.pc.i >= |v.pass.value.spec.Objects(v.pass.value.pc.role)|
    ensures var w := PassStep(v, store, a).0; LooksOn(v, w) && ChecksFirst(v, w)
  {
  }

  lemma ApplyingLooks(v: View, store: Store, a: Answer)
    requires v.pass.Some? && v.pass.value.pc.Applying?
    requires v.pass.value.pc.i < |v.pass.value.spec.Objects(v.pass.value.pc.role)|
    requires a.ok ==> v.pass.value.spec.Objects(v.pass.value.pc.role)[v.pass.value.pc.i].key in store
    ensures var w := PassStep(v, store, a).0; LooksOn(v, w) && ChecksFirst(v, w)
  {
  }

  lemma PatchLooks(v: View, store: Store, a: Answer)
    requires v.pass.Some? && InBounds(v.pass.value) && (v.pass.value.pc.Arming? || v.pass.value.pc.Patching?)
    ensures var w := PassStep(v, store, a).0; LooksOn(v, w) && ChecksFirst(v, w)
  {
  }

  lemma DatanodeCheckLooks(v: View, store: Store, a: Answer)
    requires v.pass.Some? && v.pass.value.pc.Checking? && v.pass.value.pc.role == Datanode
    ensures var w := PassStep(v, store, a).0; LooksOn(v, w) && ChecksFirst(v, w)
  {
  }

  lemma CheckLooks(v: View, store: Store, a: Answer)
    requires v.pass.Some? && v.pass.value.pc.Checking? && v.pass.value.pc.role != Datanode
    ensures var w := PassStep(v, store, a).0; LooksOn(v, w) && ChecksFirst(v, w)
  {
  }

  lemma LateLooks(v: View, store: Store, a: Answer)
    requires v.pass.Some? && (v.pass.value.pc.SavingStatus? || v.pass.value.pc.Disarming?)
    ensures var w := PassStep(v, store, a).0; LooksOn(v, w) && ChecksFirst(v, w)
  {
  }

  lemma EndsLook(v: View, p: Pass, a: Answer)
    requires v.pass == Some(p) && IsEpilogue(p.pc)
    ensures LooksOn(v, EpilogueStep(v, p, a)) && ChecksFirst(v, EpilogueStep(v, p, a))
  {
  }

  lemma DeletionLooks(v: View, p: Pass, a: Answer)
    requires v.pass == Some(p) && IsDeletion(p.pc)
    ensures LooksOn(v, DeletionStep(v, p, a)) && ChecksFirst(v, DeletionStep(v, p, a))
  {
  }

  lemma LoopLooks(v: View, store: Store, a: Answer)
    requires v.pass.Some? && v.pass.value.pc.Applying?
    ensures var w := PassStep(v, store, a).0; LooksOn(v, w) && ChecksFirst(v, w)
  {
    var p := v.pass.value;
    if p.pc.i >= |p.spec.Objects(p.pc.role)| {
      EndLooks(v, store, a);
    } else if a.ok && p.spec.Objects(p.pc.role)[p.pc.i].key !in store {
      CreateLooks(v, store, a);
    } else {
      ApplyingLooks(v, store, a);
    }
  }

  lemma StepLooks(v: View, store: Store, a: Answer)
    requires v.pass.Some? && InBounds(v.pass.value)
    ensures var w := PassStep(v, store, a).0; LooksOn(v, w) && ChecksFirst(v, w)
  {
    var p := v.pass.value;
    if IsPrologue(p.pc) {
      EarlyLooks(v, store, a);
    } else if p.pc.Generating? || p.pc.Hooking? {
      StartLooks(v, store, a);
    } else if p.pc.Applying? {
      LoopLooks(v, store, a);
    } else if p.pc.Arming? || p.pc.Patching? {
      PatchLooks(v, store, a);
    } else if p.pc.Checking? {
      if p.pc.role == Datanode {
        DatanodeCheckLooks(v, store, a);
      } else {
        CheckLooks(v, store, a);
      }
    } else if p.pc.SavingStatus? || p.pc.Disarming? {
      LateLooks(v, store, a);
    } else if IsEpilogue(p.pc) {
      EndsLook(v, p, a);
    } else {
      DeletionLooks(v, p, a);
    }
  }

  // ----- Whole runs -----

  /** The `m`-th action looks up object `x` of deployer `r`, when at least `start` events have been recorded. */
  ghost predicate IsLook(actions: seq<Action>, k: Key, m: nat, start: nat, spec: Spec, r: Role, x: nat)
  {
    && m < |actions| && actions[m].Step? && actions[m].k == k
    && var v := ViewAt(actions, k, m);
      && start <= |v.history| && v.pass.Some? && v.pass.value.spec == spec
      && v.pass.value.pc.Applying? && v.pass.value.pc.role == r && v.pass.value.pc.i == x
  }

  ghost predicate IsCheck(actions: seq<Action>, k: Key, m: nat, start: nat, r: Role)
  {
    && m < |actions| && actions[m].Step? && actions[m].k == k
    && var v := ViewAt(actions, k, m);
       start <= |v.history| && v.pass.Some? && v.pass.value.pc.Checking? && v.pass.value.pc.role == r
  }

  ghost predicate HasLooked(actions: seq<Action>, k: Key, n: nat, start: nat, spec: Spec, r: Role, x: nat)
  {
    exists m: nat :: m < n && IsLook(actions, k, m, start, spec, r, x)
  }

  ghost predicate HasChecked(actions: seq<Action>, k: Key, n: nat, start: nat, r: Role)
  {
    exists m: nat :: m < n && IsCheck(actions, k, m, start, r)
  }

  ghost predicate AllLooked(actions: seq<Action>, k: Key, n: nat, start: nat, spec: Spec, r: Role, count: nat)
  {
    forall x: nat :: x < count ==> HasLooked(actions, k, n, start, spec, r, x)
  }

  /** What the pass of a view has behind it by the `n`-th action. */
  ghost predicate IsBacked(actions: seq<Action>, k: Key, n: nat, v: View, start: nat)
  {
    v.pass.Some? && Deployer(v.pass.value.pc).Some? ==>
      var p := v.pass.value;
      && AllLooked(actions, k, n, start, p.spec, Deployer(p.pc).value, Looked(p))
      && (p.pc.SavingStatus? && p.pc.role != Datanode ==> HasChecked(actions, k, n, start, p.pc.role))
  }

  lemma LookedLater(actions: seq<Action>, k: Key, n: nat, start: nat, spec: Spec, r: Role, count: nat)
    requires AllLooked(actions, k, n, start, spec, r, count)
    ensures AllLooked(actions, k, n + 1, start, spec, r, count)
  {
    forall x: nat {:trigger HasLooked(actions, k, n + 1, start, spec, r, x)} | x < count
      ensures HasLooked(actions, k, n + 1, start, spec, r, x)
    {
      assert HasLooked(actions, k, n, start, spec, r, x);
    }
  }

  lemma OneMoreLooked(actions: seq<Action>, k: Key, n: nat, start: nat, spec: Spec, r: Role, count: nat)
    requires AllLooked(actions, k, n, start, spec, r, count) && IsLook(actions, k, n, start, spec, r, count)
    ensures AllLooked(actions, k, n + 1, start, spec, r, count + 1)
  {
    LookedLater(actions, k, n, start, spec, r, count);
    assert HasLooked(actions, k, n + 1, start, spec, r, count);
  }

  lemma BackedLater(actions: seq<Action>, k: Key, n: nat, v: View, start: nat)
    requires IsBacked(actions, k, n, v, start)
    ensures IsBacked(actions, k, n + 1, v, start)
  {
    if v.pass.Some? && Deployer(v.pass.value.pc).Some? {
      var p := v.pass.value;
      LookedLater(actions, k, n, start, p.spec, Deployer(p.pc).value, Looked(p));
    }
  }

  lemma BackedByStep(actions: seq<Action>, k: Key, n: nat, v: View, w: View, a: Answer, start: nat)
    requires IsStep(actions, k, n, a) && v == ViewAt(actions, k, n) && start <= |v.history|
    requires IsBacked(actions, k, n, v, start) && LooksOn(v, w) && ChecksFirst(v, w)
    ensures IsBacked(actions, k, n + 1, w, start)
  {
    if w.pass.Some? && Deployer(w.pass.value.pc).Some? {
      var p, q := v.pass.value, w.pass.value;
      var r := Deployer(q.pc).value;
      if Looked(q) != 0 {
        if Looked(q) <= Looked(p) {
          LookedLater(actions, k, n, start, p.spec, r, Looked(p));
        } else {
          OneMoreLooked(actions, k, n, start, p.spec, r, Looked(p));
        }
      }
      if q.pc.SavingStatus? && q.pc.role != Datanode {
        assert IsCheck(actions, k, n, start, q.pc.role);
      }
    }
  }

  lemma StartStays(h: seq<Event>, e: Event)
    requires !e.Began?
    ensures Theorems.PassStart(h + [e]) == Theorems.PassStart(h)
  {
    assert (h + [e])[..|h|] == h;
  }

  /** A step of a pass does not begin another one. */
  lemma StepKeepsStart(v: View, store: Store, a: Answer)
    requires Invariants.Inv(v) && v.pass.Some? && InBounds(v.pass.value)
    ensures Theorems.PassStart(PassStep(v, store, a).0.history) == Theorems.PassStart(v.history)
  {
    var w := PassStep(v, store, a).0;
    Records.EventsArise(v, store, a);
    if w.history != v.history {
      assert w.history == v.history + [w.history[|v.history|]];
      StartStays(v.history, w.history[|v.history|]);
    }
  }

  /** Other actions on the cluster leave a pass alone, or begin one. */
  lemma OthersBack(v: View, store: Store, a: Action)
    requires !a.Mutate? && (a.Step? ==> v.pass == None || !InBounds(v.pass.value))
    requires v.history == [] ==> v.pass == None
    ensures var w := ViewStep(v, store, a).0;
      || (w.pass.Some? ==> Deployer(w.pass.value.pc) == None)
      || (w.pass == v.pass && (w.history == v.history || w.history == v.history + [Edited]))
  {
  }

  lemma BackedByOthers(actions: seq<Action>, k: Key, n: nat, v: View, w: View, store: Store, a: Action)
    requires !a.Mutate? && (a.Step? ==> v.pass == None || !InBounds(v.pass.value))
    requires v.history == [] ==> v.pass == None
    requires IsBacked(actions, k, n, v, Theorems.PassStart(v.history)) && w == ViewStep(v, store, a).0
    ensures IsBacked(actions, k, n + 1, w, Theorems.PassStart(w.history))
  {
    OthersBack(v, store, a);
    StartStays(v.history, Edited);
    if w.pass.Some? && Deployer(w.pass.value.pc).Some? {
      BackedLater(actions, k, n, v, Theorems.PassStart(v.history));
    }
  }

  lemma BackedOneMore(actions: seq<Action>, k: Key, n: nat)
    requires n < |actions|
    requires IsBacked(actions, k, n, ViewAt(actions, k, n), Theorems.PassStart(ViewAt(actions, k, n).history))
    ensures IsBacked(actions, k, n + 1, ViewAt(actions, k, n + 1),
                     Theorems.PassStart(ViewAt(actions, k, n + 1).history))
  {
    var v, w, store := ViewAt(actions, k, n), ViewAt(actions, k, n + 1), StateAt(actions, n).store;
    var start := Theorems.PassStart(v.history);
    if actions[n].Mutate? || actions[n].k != k {
      OthersView(actions, k, n);
      BackedLater(actions, k, n, v, start);
    } else {
      OwnView(actions, k, n);
      InvAt(actions, k, n);
      if actions[n].Step? && v.pass.Some? && InBounds(v.pass.value) {
        var a := actions[n].answer;
        StepLooks(v, store, a);
        StepKeepsStart(v, store, a);
        BackedByStep(actions, k, n, v, w, a, start);
      } else {
        BackedByOthers(actions, k, n, v, w, store, actions[n]);
      }
    }
  }

  lemma {:induction false} AlwaysBacked(actions: seq<Action>, k: Key, n: nat)
    requires n <= |actions|
    ensures IsBacked(actions, k, n, ViewAt(actions, k, n), Theorems.PassStart(ViewAt(actions, k, n).history))
    decreases n
  {
    if n == 0 {
      assert actions[..0] == [];
    } else {
      AlwaysBacked(actions, k, n - 1);
      BackedOneMore(actions, k, n - 1);
    }
  }

  // ----- What a success stands for -----

  /** After the `m`-th action the object is stored as desired. */
  ghost predicate IsStoredAfter(actions: seq<Action>, m: nat, d: Desired)
  {
    && m < |actions| && d.key in StateAt(actions, m + 1).store
    && StateAt(actions, m + 1).store[d.key].applied == Parsed(d.applied)
    && StateAt(actions, m + 1).store[d.key].labels == d.labels
  }

  /** A look-up without a setback leaves the object stored as desired. */
  lemma LookSettles(v: View, store: Store, a: Answer)
    requires v.pass.Some? && v.pass.value.pc.Applying?
    requires v.pass.value.pc.i < |v.pass.value.spec.Objects(v.pass.value.pc.role)| && !IsSetback(v, store, a)
    ensures var d, after := v.pass.value.spec.Objects(v.pass.value.pc.role)[v.pass.value.pc.i], PassStep(v, store, a).1;
            d.key in after && after[d.key].applied == Parsed(d.applied) && after[d.key].labels == d.labels
  {
  }

  /** The store that a step of a pass leaves. */
  lemma StoreAfter(actions: seq<Action>, k: Key, n: nat, a: Answer)
    requires IsStep(actions, k, n, a)
    ensures StateAt(actions, n + 1).store == PassStep(ViewAt(actions, k, n), StateAt(actions, n).store, a).1
  {
    NextState(actions, n);
  }

  /** The look-up happened in the pass of the event at `i`, and left the object stored as desired. */
  ghost predicate WasApplied(actions: seq<Action>, k: Key, i: nat, m: nat, d: Desired)
    requires i < |HistoryOf(actions, k)|
  {
    && IsStoredAfter(actions, m, d)
    && Theorems.PassStart(HistoryOf(actions, k)[..i]) <= Moment(actions, k, m) <= i
  }

  lemma ObjectWasApplied(actions: seq<Action>, k: Key, i: nat, n: nat, spec: Spec, r: Role, x: nat) returns (m: nat)
    requires i < |HistoryOf(actions, k)| && HistoryOf(actions, k)[i] == Succeeded(r) && n <= |actions|
    requires Moment(actions, k, n) == i && x < |spec.Objects(r)|
    requires HasLooked(actions, k, n, Theorems.PassStart(HistoryOf(actions, k)[..i]), spec, r, x)
    ensures m < n && WasApplied(actions, k, i, m, spec.Objects(r)[x])
  {
    m :| m < n && IsLook(actions, k, m, Theorems.PassStart(HistoryOf(actions, k)[..i]), spec, r, x);
    var a := actions[m].answer;
    Grows(actions, k, m, n);
    SuccessIsEarned(actions, k, i, m, a);
    LookSettles(ViewAt(actions, k, m), StateAt(actions, m).store, a);
    StoreAfter(actions, k, m, a);
  }

  lemma SuccessLooked(actions: seq<Action>, k: Key, n: nat, v: View, store: Store, a: Answer, start: nat, r: Role)
    requires v.pass.Some? && InBounds(v.pass.value) && Records.Arises(v, store, a, Succeeded(r))
    requires IsBacked(actions, k, n, v, start)
    ensures AllLooked(actions, k, n, start, v.pass.value.spec, r, |v.pass.value.spec.Objects(r)|)
    ensures v.pass.value.spec.Objects(r) != [] && r != Datanode ==> HasChecked(actions, k, n, start, r)
  {
  }

  lemma AllWereApplied(actions: seq<Action>, k: Key, i: nat, n: nat, spec: Spec, r: Role)
    requires i < |HistoryOf(actions, k)| && HistoryOf(actions, k)[i] == Succeeded(r) && n <= |actions|
    requires Moment(actions, k, n) == i
    requires AllLooked(actions, k, n, Theorems.PassStart(HistoryOf(actions, k)[..i]), spec, r, |spec.Objects(r)|)
    ensures forall d :: d in spec.Objects(r) ==> exists m: nat :: m < n && WasApplied(actions, k, i, m, d)
  {
    forall d | d in spec.Objects(r)
      ensures exists m: nat :: m < n && WasApplied(actions, k, i, m, d)
    {
      var x: nat :| x < |spec.Objects(r)| && spec.Objects(r)[x] == d;
      var m := ObjectWasApplied(actions, k, i, n, spec, r, x);
    }
  }

  /**
   A deployer's success stands for its objects: when it is recorded, each object that it generates for the spec of its
   pass has been looked up earlier in that pass and was then stored with the desired annotation and labels.
   */
  lemma SuccessMeansApplied(actions: seq<Action>, k: Key, i: nat, r: Role) returns (j: nat, a: Answer)
    requires i < |HistoryOf(actions, k)| && HistoryOf(actions, k)[i] == Succeeded(r)
    ensures IsStep(actions, k, j, a) && Moment(actions, k, j) == i
    ensures forall d :: d in ViewAt(actions, k, j).pass.value.spec.Objects(r) ==>
              exists m: nat :: m < j && WasApplied(actions, k, i, m, d)
  {
    j, a := EveryEventArises(actions, k, i);
    AlwaysBacked(actions, k, j);
    var v, start := ViewAt(actions, k, j), Theorems.PassStart(HistoryOf(actions, k)[..i]);
    SuccessLooked(actions, k, j, v, StateAt(actions, j).store, a, start, r);
    AllWereApplied(actions, k, i, j, v.pass.value.spec, r);
  }

  /** The readiness check of the deployer was answered with ready, in the pass of the event at `i`. */
  ghost predicate WasFoundReady(actions: seq<Action>, k: Key, i: nat, m: nat, r: Role)
    requires i < |HistoryOf(actions, k)|
  {
    && IsCheck(actions, k, m, Theorems.PassStart(HistoryOf(actions, k)[..i]), r) && Moment(actions, k, m) <= i
    && actions[m].answer.ready
  }

  lemma CheckIsReady(v: View, store: Store, a: Answer)
    requires v.pass.Some? && v.pass.value.pc.Checking? && v.pass.value.pc.role != Datanode && !IsSetback(v, store, a)
    ensures a.ready
  {
  }

  lemma CheckWasReady(actions: seq<Action>, k: Key, i: nat, n: nat, r: Role) returns (m: nat)
    requires i < |HistoryOf(actions, k)| && HistoryOf(actions, k)[i] == Succeeded(r) && r != Datanode
    requires n <= |actions| && Moment(actions, k, n) == i
    requires HasChecked(actions, k, n, Theorems.PassStart(HistoryOf(actions, k)[..i]), r)
    ensures m < n && WasFoundReady(actions, k, i, m, r)
  {
    m :| m < n && IsCheck(actions, k, m, Theorems.PassStart(HistoryOf(actions, k)[..i]), r);
    Grows(actions, k, m, n);
    SuccessIsEarned(actions, k, i, m, actions[m].answer);
    CheckIsReady(ViewAt(actions, k, m), StateAt(actions, m).store, actions[m].answer);
  }

  /** And it stands for a readiness check, or for the observations of all StatefulSets, if there are any objects. */
  lemma SuccessMeansReady(actions: seq<Action>, k: Key, i: nat, r: Role) returns (j: nat, a: Answer)
    requires i < |HistoryOf(actions, k)| && HistoryOf(actions, k)[i] == Succeeded(r)
    ensures IsStep(actions, k, j, a) && Moment(actions, k, j) == i
    ensures var spec, h := ViewAt(actions, k, j).pass.value.spec, HistoryOf(actions, k);
            if r == Datanode then
              forall key :: key in Watched(spec) ==> Theorems.SeenReadySince(h[..i], Theorems.PassStart(h[..i]), key)
            else spec.Objects(r) != [] ==> exists m: nat :: m < j && WasFoundReady(actions, k, i, m, r)
  {
    j, a := EveryEventArises(actions, k, i);
    var v, store := ViewAt(actions, k, j), StateAt(actions, j).store;
    var start := Theorems.PassStart(HistoryOf(actions, k)[..i]);
    if r == Datanode {
      InvAt(actions, k, j);
      AllAreSeen(v, store, a);
      Theorems.SummaryIsExact(v.history);
    } else if v.pass.value.spec.Objects(r) != [] {
      AlwaysBacked(actions, k, j);
      SuccessLooked(actions, k, j, v, store, a, start, r);
      var m := CheckWasReady(actions, k, i, j, r);
    }
  }

  /** The datanode deployer succeeds only when all watched StatefulSets have been seen ready. */
  lemma AllAreSeen(v: View, store: Store, a: Answer)
    requires Invariants.Inv(v) && v.pass.Some? && InBounds(v.pass.value)
    requires Records.Arises(v, store, a, Succeeded(Datanode))
    ensures forall key :: key in Watched(v.pass.value.spec) ==> key in Histories.Recall(v.history).seen
  {
  }
}
