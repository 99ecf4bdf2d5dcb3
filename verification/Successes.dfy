/**
 What a recorded success stands for, in every run: no step of its pass before it failed, found a difference or found
 something unready, and each object of the deployer was looked up in that pass and is stored as desired since. What a
 recorded clean-up and a released finalizer stand for: no step of the deletion failed.
 */
module Successes {
  import opened Text
  import opened Names
  import opened Resources
  import opened Machine
  import opened Failures
  import opened Records
  import Invariants
  import Theorems

  // ----- A run, moment by moment -----

  ghost function StateAt(actions: seq<Action>, n: nat): State
    requires n <= |actions|
  {
    Run(actions[..n])
  }

  ghost function ViewAt(actions: seq<Action>, k: Key, n: nat): View
    requires n <= |actions|
  {
    ViewOf(StateAt(actions, n), k)
  }

  /** The `n`-th action is a step of a pass of `k`, with answer `a`. */
  ghost predicate IsStep(actions: seq<Action>, k: Key, n: nat, a: Answer)
  {
    && n < |actions| && actions[n] == Step(k, a)
    && ViewAt(actions, k, n).pass.Some? && InBounds(ViewAt(actions, k, n).pass.value)
  }

  lemma NextState(actions: seq<Action>, n: nat)
    requires n < |actions|
    ensures StateAt(actions, n + 1) == Next(StateAt(actions, n), actions[n])
  {
    assert actions[..n + 1][..n] == actions[..n];
  }

  lemma OwnView(actions: seq<Action>, k: Key, n: nat)
    requires n < |actions| && !actions[n].Mutate? && actions[n].k == k
    ensures ViewAt(actions, k, n + 1) == ViewStep(ViewAt(actions, k, n), StateAt(actions, n).store, actions[n]).0
  {
    NextState(actions, n);
    Theorems.OwnStep(StateAt(actions, n), actions[n]);
  }

  lemma OthersView(actions: seq<Action>, k: Key, n: nat)
    requires n < |actions| && (actions[n].Mutate? || actions[n].k != k)
    ensures ViewAt(actions, k, n + 1) == ViewAt(actions, k, n)
  {
    NextState(actions, n);
    Theorems.Isolation(StateAt(actions, n), actions[n], k);
  }

  lemma StepView(actions: seq<Action>, k: Key, n: nat, a: Answer)
    requires IsStep(actions, k, n, a)
    ensures ViewAt(actions, k, n + 1) == PassStep(ViewAt(actions, k, n), StateAt(actions, n).store, a).0
  {
    OwnView(actions, k, n);
  }

  lemma InvAt(actions: seq<Action>, k: Key, n: nat)
    requires n <= |actions|
    ensures Invariants.Inv(ViewAt(actions, k, n))
  {
    Theorems.Always(actions[..n], k);
  }

  lemma ViewGrows(v: View, store: Store, a: Action)
    requires Invariants.Inv(v) && !a.Mutate?
    ensures v.history <= ViewStep(v, store, a).0.history
  {
    Invariants.InvKept(v, store, a);
  }

  lemma OneGrows(actions: seq<Action>, k: Key, n: nat)
    requires n < |actions|
    ensures ViewAt(actions, k, n).history <= ViewAt(actions, k, n + 1).history
  {
    if actions[n].Mutate? || actions[n].k != k {
      OthersView(actions, k, n);
    } else {
      InvAt(actions, k, n);
      OwnView(actions, k, n);
      ViewGrows(ViewAt(actions, k, n), StateAt(actions, n).store, actions[n]);
    }
  }

  lemma {:induction false} Grows(actions: seq<Action>, k: Key, m: nat, n: nat)
    requires m <= n <= |actions|
    ensures ViewAt(actions, k, m).history <= ViewAt(actions, k, n).history
    decreases n - m
  {
    if m < n {
      OneGrows(actions, k, m);
      Grows(actions, k, m + 1, n);
    }
  }

  // ----- After a setback -----

  ghost predicate NoneBegan(h: seq<Event>, from: nat, to: nat)
  {
    forall i :: from <= i < to && i < |h| ==> !h[i].Began?
  }

  /** Until the next pass begins only quiet events are recorded, and no success is in sight. */
  ghost predicate IsLostSince(v: View, from: nat)
  {
    && from <= |v.history|
    && (forall i :: from <= i < |v.history| && NoneBegan(v.history, from, i + 1) ==> IsQuiet(v.history[i]))
    && (NoneBegan(v.history, from, |v.history|) ==> HasLost(v))
  }

  /** Until the next pass begins only edits are recorded, and no pass is in progress. */
  ghost predicate IsOverSince(v: View, from: nat)
  {
    && from <= |v.history|
    && (forall i :: from <= i < |v.history| && NoneBegan(v.history, from, i + 1) ==> v.history[i] == Edited)
    && (NoneBegan(v.history, from, |v.history|) ==> v.pass == None)
  }

  lemma BeganEarlier(g: seq<Event>, h: seq<Event>, from: nat, to: nat)
    requires g <= h && from <= |g|
    ensures NoneBegan(g, from, to) <== NoneBegan(h, from, to)
    ensures to <= |g| ==> (NoneBegan(g, from, to) <==> NoneBegan(h, from, to))
    ensures NoneBegan(h, from, to) && to > |g| ==> NoneBegan(g, from, |g|)
  {
    assert forall i :: from <= i < |g| ==> g[i] == h[i];
  }

  /** One quiet event more, or a new pass, or nothing recorded. */
  lemma LostContinues(v: View, w: View, from: nat)
    requires IsLostSince(v, from) && v.history <= w.history
    requires NoneBegan(v.history, from, |v.history|) ==>
      || StaysLost(v, w)
      || (|w.history| == |v.history| + 1 && w.history[|v.history|].Began?)
    ensures IsLostSince(w, from)
  {
    var g, h := v.history, w.history;
    forall i | from <= i < |h| && NoneBegan(h, from, i + 1)
      ensures IsQuiet(h[i])
    {
      BeganEarlier(g, h, from, i + 1);
      assert i < |g| ==> h[i] == g[i];
    }
    if NoneBegan(h, from, |h|) {
      BeganEarlier(g, h, from, |g|);
      assert |h| > |g| ==> !h[|g|].Began?;
    }
  }

  lemma OverContinues(v: View, w: View, from: nat)
    requires IsOverSince(v, from) && v.history <= w.history
    requires NoneBegan(v.history, from, |v.history|) ==>
      || (w.history == v.history && w.pass == None)
      || (w.history == v.history + [Edited] && w.pass == None)
      || (|w.history| == |v.history| + 1 && w.history[|v.history|].Began?)
    ensures IsOverSince(w, from)
  {
    var g, h := v.history, w.history;
    forall i | from <= i < |h| && NoneBegan(h, from, i + 1)
      ensures h[i] == Edited
    {
      BeganEarlier(g, h, from, i + 1);
      assert i < |g| ==> h[i] == g[i];
    }
    if NoneBegan(h, from, |h|) {
      BeganEarlier(g, h, from, |g|);
      assert |h| > |g| ==> !h[|g|].Began?;
    }
  }

  lemma LostAction(v: View, store: Store, a: Action)
    requires Invariants.Inv(v) && HasLost(v) && v.history != [] && !a.Mutate?
    ensures var w := ViewStep(v, store, a).0;
            StaysLost(v, w) || (|w.history| == |v.history| + 1 && w.history[|v.history|].Began?)
  {
    if a.Step? {
      if v.pass.Some? && InBounds(v.pass.value) {
        LostStep(v, store, a.answer);
      }
    } else {
      Failures.OthersAct(v, store, a);
    }
  }

  lemma OverAction(v: View, store: Store, a: Action)
    requires v.pass == None && v.history != [] && !a.Mutate?
    ensures var w := ViewStep(v, store, a).0;
      || (w.history == v.history && w.pass == None)
      || (w.history == v.history + [Edited] && w.pass == None)
      || (|w.history| == |v.history| + 1 && w.history[|v.history|].Began?)
  {
    if !a.Step? {
      Failures.OthersAct(v, store, a);
    }
  }

  lemma LostThrough(v: View, w: View, store: Store, a: Action, from: nat)
    requires Invariants.Inv(v) && v.history != [] && !a.Mutate? && IsLostSince(v, from)
    requires w == ViewStep(v, store, a).0 && v.history <= w.history
    ensures IsLostSince(w, from)
  {
    if HasLost(v) {
      LostAction(v, store, a);
    }
    LostContinues(v, w, from);
  }

  lemma OverThrough(v: View, w: View, store: Store, a: Action, from: nat)
    requires v.history != [] && !a.Mutate? && IsOverSince(v, from)
    requires w == ViewStep(v, store, a).0 && v.history <= w.history
    ensures IsOverSince(w, from)
  {
    if v.pass == None {
      OverAction(v, store, a);
    }
    OverContinues(v, w, from);
  }

  lemma LostOneMore(actions: seq<Action>, k: Key, from: nat, n: nat)
    requires n < |actions| && ViewAt(actions, k, n).history != [] && IsLostSince(ViewAt(actions, k, n), from)
    ensures IsLostSince(ViewAt(actions, k, n + 1), from) && ViewAt(actions, k, n + 1).history != []
  {
    OneGrows(actions, k, n);
    if actions[n].Mutate? || actions[n].k != k {
      OthersView(actions, k, n);
    } else {
      OwnView(actions, k, n);
      InvAt(actions, k, n);
      LostThrough(ViewAt(actions, k, n), ViewAt(actions, k, n + 1), StateAt(actions, n).store, actions[n], from);
    }
  }

  lemma OverOneMore(actions: seq<Action>, k: Key, from: nat, n: nat)
    requires n < |actions| && ViewAt(actions, k, n).history != [] && IsOverSince(ViewAt(actions, k, n), from)
    ensures IsOverSince(ViewAt(actions, k, n + 1), from) && ViewAt(actions, k, n + 1).history != []
  {
    OneGrows(actions, k, n);
    if actions[n].Mutate? || actions[n].k != k {
      OthersView(actions, k, n);
    } else {
      OwnView(actions, k, n);
      OverThrough(ViewAt(actions, k, n), ViewAt(actions, k, n + 1), StateAt(actions, n).store, actions[n], from);
    }
  }

  lemma {:induction false} LostLasts(actions: seq<Action>, k: Key, from: nat, m: nat)
    requires m <= |actions| && ViewAt(actions, k, m).history != [] && IsLostSince(ViewAt(actions, k, m), from)
    ensures IsLostSince(ViewAt(actions, k, |actions|), from)
    decreases |actions| - m
  {
    if m < |actions| {
      LostOneMore(actions, k, from, m);
      LostLasts(actions, k, from, m + 1);
    }
  }

  lemma {:induction false} OverLasts(actions: seq<Action>, k: Key, from: nat, m: nat)
    requires m <= |actions| && ViewAt(actions, k, m).history != [] && IsOverSince(ViewAt(actions, k, m), from)
    ensures IsOverSince(ViewAt(actions, k, |actions|), from)
    decreases |actions| - m
  {
    if m < |actions| {
      OverOneMore(actions, k, from, m);
      OverLasts(actions, k, from, m + 1);
    }
  }

  lemma HasHistory(actions: seq<Action>, k: Key, n: nat)
    requires n <= |actions| && ViewAt(actions, k, n).pass.Some?
    ensures ViewAt(actions, k, n).history != []
  {
    InvAt(actions, k, n);
  }

  lemma Whole(actions: seq<Action>, k: Key)
    ensures ViewAt(actions, k, |actions|).history == HistoryOf(actions, k)
  {
    assert actions[..|actions|] == actions;
  }

  /** How many events had been recorded before the `n`-th action. */
  ghost function Moment(actions: seq<Action>, k: Key, n: nat): nat
    requires n <= |actions|
  {
    |ViewAt(actions, k, n).history|
  }

  /**
   A failure in the deployers, in the closing of creation or in a clean-up ends the pass: until the next one begins
   nothing is recorded but edits.
   */
  lemma FailureEndsPass(actions: seq<Action>, k: Key, j: nat, a: Answer)
    requires IsStep(actions, k, j, a) && IsExposed(ViewAt(actions, k, j).pass.value.pc)
    requires Fails(ViewAt(actions, k, j), StateAt(actions, j).store, a)
    ensures IsCutShort(ViewAt(actions, k, j), ViewAt(actions, k, j + 1))
    ensures var h, from := HistoryOf(actions, k), Moment(actions, k, j + 1);
            forall i :: from <= i < |h| && NoneBegan(h, from, i + 1) ==> h[i] == Edited
  {
    var v := ViewAt(actions, k, j);
    StepView(actions, k, j, a);
    FailureExactly(v, StateAt(actions, j).store, a);
    HasHistory(actions, k, j);
    OverLasts(actions, k, Moment(actions, k, j + 1), j + 1);
    Whole(actions, k);
  }

  lemma OnlyEditsFollow(v: View, w: View, h: seq<Event>, i: nat)
    requires IsCutShort(v, w) && w.history <= h && |v.history| <= i < |h| && NoneBegan(h, |v.history|, i + 1)
    requires forall x :: |w.history| <= x < |h| && NoneBegan(h, |w.history|, x + 1) ==> h[x] == Edited
    ensures h[i].Edited? || h[i].Wrote?
  {
    if i >= |w.history| {
      assert NoneBegan(h, |w.history|, i + 1);
    } else {
      assert h[i] == w.history[i];
    }
  }

  lemma AfterFailure(actions: seq<Action>, k: Key, i: nat, j: nat, a: Answer)
    requires IsStep(actions, k, j, a) && IsExposed(ViewAt(actions, k, j).pass.value.pc)
    requires Fails(ViewAt(actions, k, j), StateAt(actions, j).store, a)
    requires Moment(actions, k, j) <= i < |HistoryOf(actions, k)|
    requires NoneBegan(HistoryOf(actions, k), Moment(actions, k, j), i + 1)
    ensures HistoryOf(actions, k)[i].Edited? || HistoryOf(actions, k)[i].Wrote?
  {
    FailureEndsPass(actions, k, j, a);
    Grows(actions, k, j + 1, |actions|);
    Whole(actions, k);
    OnlyEditsFollow(ViewAt(actions, k, j), ViewAt(actions, k, j + 1), HistoryOf(actions, k), i);
  }

  /** Nothing recorded in a pass, but edits and a write that was not acknowledged, follows a failure in it. */
  lemma FailureIsLast(actions: seq<Action>, k: Key, i: nat, j: nat, a: Answer)
    requires IsStep(actions, k, j, a) && IsExposed(ViewAt(actions, k, j).pass.value.pc)
    requires i < |HistoryOf(actions, k)|
    requires var e := HistoryOf(actions, k)[i]; !e.Edited? && !e.Wrote? && !e.Began?
    requires Theorems.PassStart(HistoryOf(actions, k)[..i]) <= Moment(actions, k, j) <= i
    ensures !Fails(ViewAt(actions, k, j), StateAt(actions, j).store, a)
  {
    if Fails(ViewAt(actions, k, j), StateAt(actions, j).store, a) {
      InPass(HistoryOf(actions, k), i, Moment(actions, k, j));
      AfterFailure(actions, k, i, j, a);
    }
  }

  /** From the beginning of a pass to an event in it nothing else began. */
  lemma InPass(h: seq<Event>, i: nat, from: nat)
    requires i < |h| && Theorems.PassStart(h[..i]) <= from <= i && !h[i].Began?
    ensures NoneBegan(h, from, i + 1)
  {
    assert forall x :: from <= x < i ==> h[x] == h[..i][x];
  }

  lemma FailureIsLoss(v: View, store: Store, a: Answer)
    requires v.pass.Some? && InBounds(v.pass.value) && Deployer(v.pass.value.pc).Some? && Fails(v, store, a)
    ensures StaysLost(v, PassStep(v, store, a).0)
  {
    FailureExactly(v, store, a);
  }

  lemma DifferenceIsLoss(v: View, store: Store, a: Answer)
    requires v.pass.Some? && v.pass.value.pc.Applying? && !v.pass.value.pc.updated && !Fails(v, store, a)
    requires IsSetback(v, store, a)
    ensures StaysLost(v, PassStep(v, store, a).0)
  {
  }

  lemma UnreadyDatanodeIsLoss(v: View, store: Store, a: Answer)
    requires v.pass.Some? && v.pass.value.pc.Checking? && v.pass.value.pc.role == Datanode
    requires !Fails(v, store, a) && IsSetback(v, store, a)
    ensures StaysLost(v, PassStep(v, store, a).0)
  {
  }

  lemma UnreadyIsLoss(v: View, store: Store, a: Answer)
    requires v.pass.Some? && v.pass.value.pc.Checking? && v.pass.value.pc.role != Datanode
    requires !Fails(v, store, a) && IsSetback(v, store, a)
    ensures StaysLost(v, PassStep(v, store, a).0)
  {
  }

  lemma SetbackIsLoss(v: View, store: Store, a: Answer)
    requires Invariants.Inv(v) && v.pass.Some? && InBounds(v.pass.value) && Deployer(v.pass.value.pc).Some?
    requires IsSetback(v, store, a)
    ensures StaysLost(v, PassStep(v, store, a).0)
  {
    if IsLost(v.pass.value.pc) {
      LostStep(v, store, a);
    } else if Fails(v, store, a) {
      FailureIsLoss(v, store, a);
    } else if v.pass.value.pc.Applying? {
      DifferenceIsLoss(v, store, a);
    } else if v.pass.value.pc.role == Datanode {
      UnreadyDatanodeIsLoss(v, store, a);
    } else {
      UnreadyIsLoss(v, store, a);
    }
  }

  lemma StartsLost(v: View, w: View)
    requires StaysLost(v, w)
    ensures IsLostSince(w, |v.history|)
  {
  }

  /** From a setback of a deployer until the next pass begins there is no success, no OFF and no phase Running. */
  lemma SetbackLasts(actions: seq<Action>, k: Key, j: nat, a: Answer)
    requires IsStep(actions, k, j, a) && Deployer(ViewAt(actions, k, j).pass.value.pc).Some?
    requires IsSetback(ViewAt(actions, k, j), StateAt(actions, j).store, a)
    ensures var h, from := HistoryOf(actions, k), Moment(actions, k, j);
            forall i :: from <= i < |h| && NoneBegan(h, from, i + 1) ==> IsQuiet(h[i])
  {
    StepView(actions, k, j, a);
    InvAt(actions, k, j);
    SetbackIsLoss(ViewAt(actions, k, j), StateAt(actions, j).store, a);
    StartsLost(ViewAt(actions, k, j), ViewAt(actions, k, j + 1));
    HasHistory(actions, k, j);
    LostLasts(actions, k, Moment(actions, k, j), j + 1);
    Whole(actions, k);
  }

  /**
   Successes are earned: before a deployer's success, an OFF or phase Running is recorded, no step of any deployer in
   that pass was refused, found an object that differs from what is desired, or found something unready.
   */
  lemma SuccessIsEarned(actions: seq<Action>, k: Key, i: nat, j: nat, a: Answer)
    requires i < |HistoryOf(actions, k)|
    requires var e := HistoryOf(actions, k)[i]; e.Succeeded? || e.Off? || (e.Moved? && e.to == Running)
    requires IsStep(actions, k, j, a) && Deployer(ViewAt(actions, k, j).pass.value.pc).Some?
    requires Theorems.PassStart(HistoryOf(actions, k)[..i]) <= Moment(actions, k, j) <= i
    ensures !IsSetback(ViewAt(actions, k, j), StateAt(actions, j).store, a)
  {
    if IsSetback(ViewAt(actions, k, j), StateAt(actions, j).store, a) {
      SetbackLasts(actions, k, j, a);
      InPass(HistoryOf(actions, k), i, Moment(actions, k, j));
    }
  }

  // ----- Where an event was recorded -----

  /** The action that recorded an event. */
  lemma {:induction false} Origin(actions: seq<Action>, k: Key, i: nat, n: nat) returns (j: nat)
    requires n <= |actions| && i < Moment(actions, k, n)
    ensures j < n && Moment(actions, k, j) <= i < Moment(actions, k, j + 1)
    decreases n
  {
    j := n - 1;
    if i < Moment(actions, k, j) {
      j := Origin(actions, k, i, j);
    }
  }

  /** Events that only passes record. */
  predicate IsOfPass(e: Event)
  {
    !e.Admitted? && !e.Edited? && !e.Began?
  }

  lemma OthersRecord(v: View, store: Store, a: Action)
    requires !a.Mutate? && !a.Step?
    ensures var w := ViewStep(v, store, a).0;
      || w.history == v.history
      || (|w.history| == |v.history| + 1 && v.history <= w.history && !IsOfPass(w.history[|v.history|]))
  {
  }

  /** What a recorded event says about the action that recorded it. */
  lemma ActionRecords(v: View, store: Store, a: Action, i: nat)
    requires Invariants.Inv(v) && !a.Mutate?
    requires var w := ViewStep(v, store, a).0; |v.history| <= i < |w.history| && IsOfPass(w.history[i])
    ensures a.Step? && v.pass.Some? && InBounds(v.pass.value)
    ensures var w := ViewStep(v, store, a).0; i == |v.history| && Arises(v, store, a.answer, w.history[i])
  {
    if a.Step? {
      if v.pass.Some? && InBounds(v.pass.value) {
        EventsArise(v, store, a.answer);
      }
    } else {
      OthersRecord(v, store, a);
    }
  }

  lemma OwnAction(actions: seq<Action>, k: Key, j: nat)
    requires j < |actions| && Moment(actions, k, j) < Moment(actions, k, j + 1)
    ensures !actions[j].Mutate? && actions[j].k == k
  {
    if actions[j].Mutate? || actions[j].k != k {
      OthersView(actions, k, j);
    }
  }

  lemma StepRecords(actions: seq<Action>, k: Key, j: nat, i: nat) returns (a: Answer)
    requires j < |actions| && Moment(actions, k, j) <= i < Moment(actions, k, j + 1)
    requires IsOfPass(ViewAt(actions, k, j + 1).history[i])
    ensures IsStep(actions, k, j, a) && Moment(actions, k, j) == i
    ensures Arises(ViewAt(actions, k, j), StateAt(actions, j).store, a, ViewAt(actions, k, j + 1).history[i])
  {
    OwnAction(actions, k, j);
    OwnView(actions, k, j);
    InvAt(actions, k, j);
    ActionRecords(ViewAt(actions, k, j), StateAt(actions, j).store, actions[j], i);
    a := actions[j].answer;
  }

  lemma Prefixes(g: seq<Event>, w: seq<Event>, h: seq<Event>, i: nat)
    requires g <= h && w <= h && |g| <= i < |w|
    ensures h[i] == w[i] && (|g| == i ==> g == h[..i])
  {
  }

  /** Every event of a pass was recorded by one of its steps, for the reason that such an event has. */
  lemma EveryEventArises(actions: seq<Action>, k: Key, i: nat) returns (j: nat, a: Answer)
    requires i < |HistoryOf(actions, k)| && IsOfPass(HistoryOf(actions, k)[i])
    ensures IsStep(actions, k, j, a) && Moment(actions, k, j) == i
    ensures ViewAt(actions, k, j).history == HistoryOf(actions, k)[..i]
    ensures Arises(ViewAt(actions, k, j), StateAt(actions, j).store, a, HistoryOf(actions, k)[i])
  {
    Whole(actions, k);
    j := Origin(actions, k, i, |actions|);
    Grows(actions, k, j + 1, |actions|);
    Grows(actions, k, j, |actions|);
    Prefixes(ViewAt(actions, k, j).history, ViewAt(actions, k, j + 1).history, HistoryOf(actions, k), i);
    a := StepRecords(actions, k, j, i);
  }

  /**
   The finalizer goes only if the clean-up of the datanodes was answered with success in that pass, and no step of it
   failed.
   */
  lemma ReleaseIsEarned(actions: seq<Action>, k: Key, i: nat) returns (j: nat, a: Answer)
    requires i < |HistoryOf(actions, k)| && HistoryOf(actions, k)[i] == Released
    ensures IsStep(actions, k, j, a) && ViewAt(actions, k, j).pass.value.pc == Cleaning(Datanode) && a.ok
    ensures Theorems.PassStart(HistoryOf(actions, k)[..i]) <= Moment(actions, k, j) < i
    ensures forall m, b ::
      (&& IsStep(actions, k, m, b) && IsExposed(ViewAt(actions, k, m).pass.value.pc)
       && Theorems.PassStart(HistoryOf(actions, k)[..i]) <= Moment(actions, k, m) <= i) ==>
      !Fails(ViewAt(actions, k, m), StateAt(actions, m).store, b)
  {
    var h := HistoryOf(actions, k);
    Theorems.DeletionSafety(actions, k, i);
    assert Theorems.Happened(h[..i], Theorems.PassStart(h[..i]), Cleaned(Datanode));
    var c :| Theorems.PassStart(h[..i]) <= c < |h[..i]| && h[..i][c] == Cleaned(Datanode);
    j, a := EveryEventArises(actions, k, c);
    forall m, b | IsStep(actions, k, m, b) && IsExposed(ViewAt(actions, k, m).pass.value.pc)
        && Theorems.PassStart(h[..i]) <= Moment(actions, k, m) <= i
      ensures !Fails(ViewAt(actions, k, m), StateAt(actions, m).store, b)
    {
      FailureIsLast(actions, k, i, m, b);
    }
  }
}
