/**
 Schedules in which a cluster's own passes do not fail and others leave its objects alone but for their live parts,
 seen one action at a time.
 */
module Schedules {
  import opened Text
  import opened Names
  import opened Resources
  import opened Machine
  import Theorems
  import opened Reconciler
  import opened Progress
  import opened Improvement
  import opened HealthyPasses
  import Invariants

  // ----- Schedules -----

  /**
   The steps of the cluster's own passes succeed, and its StatefulSets are ready when a pass begins. The user leaves
   the resource alone. Others, and the passes of other clusters, do what they like, but change only the live parts
   of its objects, and no StatefulSet becomes unready within a pass.
   */
  ghost predicate IsBenign(v: View, before: Store, after: Store, a: Action, k: Key)
  {
    if a.Mutate? || a.k != k then
      v.cluster.Some? ==>
        && OnlyLive(before, after, v.cluster.value.spec)
        && (v.pass.Some? ==> ReadyLasts(before, after, v.cluster.value.spec))
    else
      || (a.Begin? && (v.pass == None && v.cluster.Some? ==> WatchedOk(before, v.cluster.value.spec)))
      || (a.Step? && IsBenignStep(v, a.answer))
  }

  ghost predicate IsBenignAt(run: seq<Action>, i: nat, k: Key)
    requires i < |run|
  {
    IsBenign(ViewOf(Run(run[..i]), k), Run(run[..i]).store, Run(run[..i + 1]).store, run[i], k)
  }

  ghost predicate AllBenign(run: seq<Action>, from: nat, k: Key)
  {
    forall i :: from <= i < |run| ==> IsBenignAt(run, i, k)
  }

  /** `q` is reached from `p` by any such schedule. */
  ghost predicate Benign(p: Place, q: Place)
  {
    p.run <= q.run && q.k == p.k && AllBenign(q.run, |p.run|, p.k)
  }

  /** A step of the pass after `passes - 1` others looks at an object that is not ready. */
  predicate LooksAtUnready(v: View, store: Store, a: Action, k: Key, passes: nat)
  {
    a.Step? && a.k == k && Passes(v.history) == passes && IsUnready(v, store, a.answer)
  }

  ghost predicate SawUnready(run: seq<Action>, i: nat, k: Key, passes: nat)
    requires i < |run|
  {
    LooksAtUnready(ViewOf(Run(run[..i]), k), Run(run[..i]).store, run[i], k, passes)
  }

  ghost predicate SomeUnready(run: seq<Action>, from: nat, k: Key, passes: nat)
  {
    exists i :: from <= i < |run| && SawUnready(run, i, k, passes)
  }

  /** The first pass after `p` looked at an object that was not ready. */
  ghost predicate FirstSawUnready(p: Place, q: Place)
  {
    SomeUnready(q.run, |p.run|, p.k, Passes(p.view.history) + 1)
  }

  /** How many passes have begun between `p` and `q`. */
  function PassesBetween(p: Place, q: Place): int
  {
    Passes(q.view.history) - Passes(p.view.history)
  }

  // ----- One action at a time -----

  lemma PlaceOf(p: Place)
    ensures p.view == ViewOf(Run(p.run), p.k) && p.store == Run(p.run).store
  {
    assert Shown(true);
  }

  lemma SamePlace(p: Place, q: Place)
    requires p.run == q.run && p.k == q.k
    ensures p == q
  {
    PlaceOf(p);
    PlaceOf(q);
  }

  /** Where the run was before its last action. */
  lemma Earlier(q: Place) returns (m: Place)
    requires q.run != []
    ensures m.run == q.run[..|q.run| - 1] && m.k == q.k
  {
    var run := q.run[..|q.run| - 1];
    m := Place(run, q.k, ViewOf(Run(run), q.k), Run(run).store);
  }

  /** `q` is one action after `m`. */
  predicate IsNext(m: Place, q: Place, a: Action)
  {
    q.run == m.run + [a] && q.k == m.k
  }

  lemma OthersNext(m: Place, q: Place, a: Action)
    requires IsNext(m, q, a) && (a.Mutate? || a.k != m.k)
    ensures q.view == m.view
  {
    PlaceOf(m);
    PlaceOf(q);
    assert q.run[..|q.run| - 1] == m.run;
    Theorems.Isolation(Run(m.run), a, m.k);
  }

  lemma OwnNext(m: Place, q: Place, a: Action)
    requires IsNext(m, q, a) && !a.Mutate? && a.k == m.k
    ensures (q.view, q.store) == ViewStep(m.view, m.store, a)
  {
    var r := Extended(m, a);
    SamePlace(q, r);
  }

  lemma BeginNext(m: Place, q: Place)
    requires IsNext(m, q, Begin(m.k))
    ensures q.store == m.store
    ensures q.view == if m.view.pass == None && m.view.cluster.Some? then BeginStep(m.view) else m.view
  {
    OwnNext(m, q, Begin(m.k));
  }

  lemma StepNext(m: Place, q: Place, a: Answer)
    requires IsNext(m, q, Step(m.k, a))
    ensures (q.view, q.store) ==
      if m.view.pass.Some? && InBounds(m.view.pass.value) then PassStep(m.view, m.store, a) else (m.view, m.store)
  {
    OwnNext(m, q, Step(m.k, a));
  }

  lemma BenignEarlier(run: seq<Action>, a: Action, i: nat, k: Key)
    requires i < |run|
    ensures IsBenignAt(run + [a], i, k) <==> IsBenignAt(run, i, k)
  {
    assert (run + [a])[..i] == run[..i] && (run + [a])[..i + 1] == run[..i + 1];
  }

  lemma OneMoreBenign(run: seq<Action>, a: Action, from: nat, k: Key)
    requires from <= |run|
    ensures AllBenign(run + [a], from, k) <==> AllBenign(run, from, k) && IsBenignAt(run + [a], |run|, k)
  {
    forall i | from <= i < |run|
      ensures IsBenignAt(run + [a], i, k) <==> IsBenignAt(run, i, k)
    {
      BenignEarlier(run, a, i, k);
    }
    if AllBenign(run + [a], from, k) {
      forall i | from <= i < |run|
        ensures IsBenignAt(run, i, k)
      {
        assert IsBenignAt(run + [a], i, k);
      }
    }
  }

  lemma BenignNext(p: Place, m: Place, q: Place, a: Action)
    requires IsNext(m, q, a) && p.run <= m.run && m.k == p.k
    ensures Benign(p, q) <==> Benign(p, m) && IsBenign(m.view, m.store, q.store, a, p.k)
  {
    PlaceOf(m);
    PlaceOf(q);
    assert q.run[..|m.run|] == m.run && q.run[..|m.run| + 1] == q.run;
    OneMoreBenign(m.run, a, |p.run|, p.k);
  }

  lemma UnreadyEarlier(run: seq<Action>, a: Action, i: nat, k: Key, passes: nat)
    requires i < |run|
    ensures SawUnready(run + [a], i, k, passes) <==> SawUnready(run, i, k, passes)
  {
    assert (run + [a])[..i] == run[..i];
  }

  lemma OneMoreUnready(run: seq<Action>, a: Action, from: nat, k: Key, passes: nat)
    requires from <= |run|
    ensures SomeUnready(run + [a], from, k, passes) <==>
      SomeUnready(run, from, k, passes) || SawUnready(run + [a], |run|, k, passes)
  {
    forall i | from <= i < |run|
      ensures SawUnready(run + [a], i, k, passes) <==> SawUnready(run, i, k, passes)
    {
      UnreadyEarlier(run, a, i, k, passes);
    }
    if SomeUnready(run, from, k, passes) {
      var i :| from <= i < |run| && SawUnready(run, i, k, passes);
      assert SawUnready(run + [a], i, k, passes);
    }
  }

  lemma UnreadyNow(m: Place, q: Place, a: Action, passes: nat)
    requires IsNext(m, q, a)
    ensures SawUnready(q.run, |m.run|, m.k, passes) == LooksAtUnready(m.view, m.store, a, m.k, passes)
  {
    PlaceOf(m);
    assert q.run[..|m.run|] == m.run;
  }

  lemma UnreadySoFar(m: Place, q: Place, a: Action, from: nat, passes: nat)
    requires IsNext(m, q, a) && from <= |m.run|
    ensures SomeUnready(q.run, from, m.k, passes) <==>
      SomeUnready(m.run, from, m.k, passes) || LooksAtUnready(m.view, m.store, a, m.k, passes)
  {
    UnreadyNow(m, q, a, passes);
    OneMoreUnready(m.run, a, from, m.k, passes);
  }

  lemma UnreadyNext(p: Place, m: Place, q: Place, a: Action)
    requires IsNext(m, q, a) && p.run <= m.run && m.k == p.k
    ensures FirstSawUnready(p, q) <==>
      FirstSawUnready(p, m) || LooksAtUnready(m.view, m.store, a, p.k, Passes(p.view.history) + 1)
  {
    UnreadySoFar(m, q, a, |p.run|, Passes(p.view.history) + 1);
  }

  lemma UnreadyStays(p: Place, m: Place, q: Place, a: Action)
    requires IsNext(m, q, a) && p.run <= m.run && m.k == p.k && (a.Step? ==> a.k != p.k)
    ensures FirstSawUnready(p, q) <==> FirstSawUnready(p, m)
  {
    UnreadyNext(p, m, q, a);
  }

  lemma UnreadyByStep(p: Place, m: Place, q: Place, a: Answer)
    requires IsNext(m, q, Step(m.k, a)) && p.run <= m.run && m.k == p.k
    ensures FirstSawUnready(p, q)
         == (FirstSawUnready(p, m) || (PassesBetween(p, m) == 1 && IsUnready(m.view, m.store, a)))
  {
    UnreadyNext(p, m, q, Step(m.k, a));
  }

  lemma PlaceInv(p: Place)
    ensures Invariants.Inv(p.view)
  {
    PlaceOf(p);
    Theorems.Always(p.run, p.k);
  }

  lemma HistoryGrows(v: View, store: Store, a: Action)
    requires Invariants.Inv(v) && !a.Mutate?
    ensures v.history <= ViewStep(v, store, a).0.history
  {
    Invariants.InvKept(v, store, a);
  }

  lemma OwnGrows(m: Place, q: Place, a: Action)
    requires IsNext(m, q, a) && !a.Mutate? && a.k == m.k
    ensures m.view.history <= q.view.history
  {
    OwnNext(m, q, a);
    PlaceInv(m);
    HistoryGrows(m.view, m.store, a);
  }
}
