/**
 What a pass in which nothing fails does to the store: every desired object stays as it was when the pass began,
 or becomes as desired; until something is patched, objects are only created.
 */
module Improvement {
  import opened Resources
  import opened Apply
  import opened Machine

  // ----- What is assumed of the spec and the store -----

  ghost predicate Wanted(spec: Spec, d: Desired)
  {
    exists role: Role :: d in spec.Objects(role)
  }

  /** No two desired objects of a cluster share a key and ask for different things. */
  ghost predicate CoherentSpec(spec: Spec)
  {
    forall d, e :: Wanted(spec, d) && Wanted(spec, e) && d.key == e.key ==>
      d.applied == e.applied && d.labels == e.labels
  }

  /** No desired object is stored without a readable annotation. */
  ghost predicate NothingForeign(store: Store, spec: Spec)
  {
    forall d :: Wanted(spec, d) ==> !IsForeign(store, d)
  }

  /** The watched StatefulSets that exist are ready. */
  ghost predicate WatchedOk(store: Store, spec: Spec)
  {
    forall key :: key in Watched(spec) && key in store ==> IsStatefulSetReady(store[key])
  }

  /** Some desired object is stored, but not as desired. */
  ghost predicate NeedsPatch(store: Store, spec: Spec)
  {
    exists d :: Wanted(spec, d) && IsDifferent(store, d)
  }

  ghost predicate AllSettled(store: Store, spec: Spec)
  {
    forall r: Role :: Settled(store, spec.Objects(r))
  }

  /** The objects of a deployer that were not as desired, and now are. */
  ghost predicate SomeSettled(before: Store, after: Store, spec: Spec)
  {
    exists r: Role :: !Settled(before, spec.Objects(r)) && Settled(after, spec.Objects(r))
  }

  // ----- What others may do -----

  /** Only the live parts of the desired objects change: others may make them ready or unready. */
  ghost predicate OnlyLive(before: Store, after: Store, spec: Spec)
  {
    forall d :: Wanted(spec, d) ==> IsSameButLive(before, after, d)
  }

  predicate IsSameButLive(before: Store, after: Store, d: Desired)
  {
    && (d.key in before <==> d.key in after)
    && (d.key in before ==>
          after[d.key].applied == before[d.key].applied && after[d.key].labels == before[d.key].labels)
  }

  /** A StatefulSet that is ready stays ready. */
  ghost predicate ReadyLasts(before: Store, after: Store, spec: Spec)
  {
    forall d :: Wanted(spec, d) && d.IsStatefulSet() && d.key in before && d.key in after ==>
      (IsStatefulSetReady(before[d.key]) ==> IsStatefulSetReady(after[d.key]))
  }

  // ----- What a pass makes of the store -----

  /** Every desired object is as it was when the pass began, but for its live part, or as desired. */
  ghost predicate Improved(before: Store, store: Store, spec: Spec)
  {
    forall e :: Wanted(spec, e) ==> IsImproved(before, store, e)
  }

  predicate IsImproved(before: Store, store: Store, e: Desired)
  {
    || IsStored(store, e)
    || (e.key !in before && e.key !in store)
    || (e.key in before && e.key in store && IsKept(before[e.key], store[e.key], e))
  }

  predicate IsKept(was: Object, is': Object, e: Desired)
  {
    && is'.applied == was.applied && is'.labels == was.labels
    && (e.IsStatefulSet() && IsStatefulSetReady(was) ==> IsStatefulSetReady(is'))
  }

  /** So far the pass has only created what was missing. */
  ghost predicate Grown(before: Store, store: Store, spec: Spec)
  {
    && Improved(before, store, spec)
    && forall e :: Wanted(spec, e) && e.key in before ==>
         e.key in store && IsKept(before[e.key], store[e.key], e)
  }

  lemma LiveKeepsSettled(before: Store, after: Store, spec: Spec, role: Role, n: nat)
    requires OnlyLive(before, after, spec) && n <= |spec.Objects(role)|
    ensures Settled(before, spec.Objects(role)[..n]) <==> Settled(after, spec.Objects(role)[..n])
  {
    forall d | d in spec.Objects(role)[..n]
      ensures IsSameButLive(before, after, d)
    {
      assert d in spec.Objects(role) && Wanted(spec, d);
    }
  }

  lemma LiveKeepsRole(before: Store, after: Store, spec: Spec, role: Role)
    requires OnlyLive(before, after, spec)
    ensures Settled(before, spec.Objects(role)) <==> Settled(after, spec.Objects(role))
  {
    assert spec.Objects(role)[..|spec.Objects(role)|] == spec.Objects(role);
    LiveKeepsSettled(before, after, spec, role, |spec.Objects(role)|);
  }

  lemma LiveKeepsFindings(before: Store, after: Store, spec: Spec, d: Desired)
    requires OnlyLive(before, after, spec) && Wanted(spec, d)
    ensures Compare(before, d) == Compare(after, d)
  {
    assert IsSameButLive(before, after, d);
  }

  lemma LiveKeepsImproved(start: Store, before: Store, after: Store, spec: Spec)
    requires Improved(start, before, spec) && OnlyLive(before, after, spec) && ReadyLasts(before, after, spec)
    ensures Improved(start, after, spec)
  {
    forall e | Wanted(spec, e)
      ensures IsImproved(start, after, e)
    {
      assert IsImproved(start, before, e) && IsSameButLive(before, after, e);
    }
  }

  lemma LiveKeepsGrown(start: Store, before: Store, after: Store, spec: Spec)
    requires Grown(start, before, spec) && OnlyLive(before, after, spec) && ReadyLasts(before, after, spec)
    ensures Grown(start, after, spec)
  {
    LiveKeepsImproved(start, before, after, spec);
    forall e | Wanted(spec, e) && e.key in start
      ensures e.key in after && IsKept(start[e.key], after[e.key], e)
    {
      assert IsSameButLive(before, after, e);
    }
  }

  lemma ImprovedIsReadable(before: Store, store: Store, spec: Spec)
    requires Improved(before, store, spec) && NothingForeign(before, spec)
    ensures NothingForeign(store, spec)
  {
    forall d | Wanted(spec, d)
      ensures !IsForeign(store, d)
    {
      assert IsImproved(before, store, d);
    }
  }

  lemma ImprovedStaysSettled(before: Store, store: Store, spec: Spec, role: Role)
    requires Improved(before, store, spec) && Settled(before, spec.Objects(role))
    ensures Settled(store, spec.Objects(role))
  {
    forall d | d in spec.Objects(role)
      ensures IsStored(store, d)
    {
      assert Wanted(spec, d) && IsImproved(before, store, d);
    }
  }

  lemma WriteImproves(before: Store, store: Store, spec: Spec, d: Desired, live: Live)
    requires CoherentSpec(spec) && Improved(before, store, spec) && Wanted(spec, d)
    ensures Improved(before, Written(store, d, live), spec)
  {
    forall e | Wanted(spec, e)
      ensures IsImproved(before, Written(store, d, live), e)
    {
      assert IsImproved(before, store, e);
    }
  }

  lemma CreateGrows(before: Store, store: Store, spec: Spec, d: Desired, live: Live)
    requires CoherentSpec(spec) && Grown(before, store, spec) && Wanted(spec, d) && d.key !in store
    ensures Grown(before, Written(store, d, live), spec) && d.key !in before
  {
    WriteImproves(before, store, spec, d, live);
  }

  /** Writes leave what is settled settled. */
  lemma WriteKeepsSettled(store: Store, spec: Spec, d: Desired, live: Live, ds: seq<Desired>)
    requires CoherentSpec(spec) && Wanted(spec, d) && Settled(store, ds) && forall e :: e in ds ==> Wanted(spec, e)
    ensures Settled(Written(store, d, live), ds)
  {
  }

  ghost predicate SettledBelow(store: Store, spec: Spec, role: Role)
  {
    forall r: Role :: Rank(r) < Rank(role) ==> Settled(store, spec.Objects(r))
  }

  lemma WriteKeepsBelow(store: Store, spec: Spec, d: Desired, live: Live, role: Role)
    requires CoherentSpec(spec) && Wanted(spec, d) && SettledBelow(store, spec, role)
    ensures SettledBelow(Written(store, d, live), spec, role)
  {
    forall r: Role | Rank(r) < Rank(role)
      ensures Settled(Written(store, d, live), spec.Objects(r))
    {
      assert forall e :: e in spec.Objects(r) ==> Wanted(spec, e);
      WriteKeepsSettled(store, spec, d, live, spec.Objects(r));
    }
  }

  lemma OneMoreSettled(store: Store, ds: seq<Desired>, i: nat)
    requires i < |ds| && Settled(store, ds[..i]) && IsStored(store, ds[i])
    ensures Settled(store, ds[..i + 1])
  {
    assert ds[..i + 1] == ds[..i] + [ds[i]];
  }

  lemma WriteSettlesOneMore(store: Store, spec: Spec, role: Role, i: nat, live: Live)
    requires CoherentSpec(spec) && i < |spec.Objects(role)| && Settled(store, spec.Objects(role)[..i])
    ensures Wanted(spec, spec.Objects(role)[i])
    ensures Settled(Written(store, spec.Objects(role)[i], live), spec.Objects(role)[..i + 1])
  {
    var ds := spec.Objects(role);
    assert forall e :: e in ds ==> Wanted(spec, e);
    assert forall e :: e in ds[..i] ==> e in ds;
    WriteKeepsSettled(store, spec, ds[i], live, ds[..i]);
    OneMoreSettled(Written(store, ds[i], live), ds, i);
  }

  /** What was to be patched when the pass began has been settled since, or is still to be patched. */
  lemma GrownDiffers(before: Store, store: Store, spec: Spec, d: Desired)
    requires Grown(before, store, spec) && Wanted(spec, d)
    ensures IsDifferent(store, d) <==> IsDifferent(before, d)
  {
    assert IsImproved(before, store, d);
  }

  lemma GrownAndSettled(before: Store, store: Store, spec: Spec)
    requires Grown(before, store, spec) && AllSettled(store, spec)
    ensures !NeedsPatch(before, spec)
  {
    forall d | Wanted(spec, d)
      ensures !IsDifferent(before, d)
    {
      var r: Role :| d in spec.Objects(r);
      assert Settled(store, spec.Objects(r));
      GrownDiffers(before, store, spec, d);
    }
  }

  lemma {:induction false} WatchedAreDesired(ds: seq<Desired>)
    ensures forall key :: key in StatefulSetKeys(ds) ==> exists d :: d in ds && d.key == key && d.IsStatefulSet()
    decreases |ds|
  {
    if ds != [] {
      WatchedAreDesired(ds[1..]);
      assert forall d :: d in ds[1..] ==> d in ds;
      assert ds[0] in ds;
    }
  }

  /** A watched StatefulSet that is unready was not there when the pass began. */
  lemma UnreadyIsNew(before: Store, store: Store, spec: Spec, key: ObjectKey)
    requires Grown(before, store, spec) && WatchedOk(before, spec) && Settled(store, spec.Objects(Datanode))
    requires key in Watched(spec) && !(key in store && IsStatefulSetReady(store[key]))
    ensures !Settled(before, spec.Objects(Datanode))
  {
    WatchedAreDesired(spec.Objects(Datanode));
    var d :| d in spec.Objects(Datanode) && d.key == key && d.IsStatefulSet();
    assert Wanted(spec, d);
  }
}
