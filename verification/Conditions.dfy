/**
 The list of status conditions. The list is characterised by the calls that led
 to it: each type has at most one entry, and the entry is determined by when its
 status and its reason last changed.
 */
module Conditions {
  import opened Text

  /** True, False or Unknown. */
  datatype ConditionStatus = Yes | No | Unknown

  datatype Condition = Condition(
    kind: string, status: ConditionStatus, updateTime: int, transitionTime: int, reason: string, message: string)

  // ----- Specification -----

  /** The first entry of a type. */
  function Find(cs: seq<Condition>, kind: string): (r: Option<Condition>)
    ensures r.Some? ==> r.value in cs && r.value.kind == kind
    ensures r.None? ==> forall c :: c in cs ==> c.kind != kind
  {
    if cs == [] then None else if cs[0].kind == kind then Some(cs[0]) else Find(cs[1..], kind)
  }

  /** The entries of all other types, in order. */
  function Without(cs: seq<Condition>, kind: string): seq<Condition>
  {
    if cs == [] then []
    else
      var before := Without(cs[..|cs| - 1], kind);
      var last := cs[|cs| - 1];
      if last.kind == kind then before else before + [last]
  }

  predicate SameVerdict(a: Condition, b: Condition)
  {
    a.status == b.status && a.reason == b.reason
  }

  /** What the entry of a type becomes when a condition of that type is set over it. */
  function Merged(current: Option<Condition>, c: Condition): Condition
  {
    if current.None? then c
    else if SameVerdict(current.value, c) then current.value
    else if current.value.status == c.status then c.(transitionTime := current.value.transitionTime)
    else c
  }

  function Put(cs: seq<Condition>, c: Condition): seq<Condition>
  {
    var current := Find(cs, c.kind);
    if current.Some? && SameVerdict(current.value, c) then cs
    else Without(cs, c.kind) + [Merged(current, c)]
  }

  /** The list after a sequence of calls, from the empty list. */
  function Replay(calls: seq<Condition>): seq<Condition>
  {
    if calls == [] then [] else Put(Replay(calls[..|calls| - 1]), calls[|calls| - 1])
  }

  // ----- The operations -----

  method GetCondition(conditions: seq<Condition>, kind: string) returns (r: Option<Condition>)
    ensures r == Find(conditions, kind)
  {
    for i := 0 to |conditions|
      invariant Find(conditions, kind) == Find(conditions[i..], kind)
    {
      assert conditions[i..][1..] == conditions[i + 1..];
      if conditions[i].kind == kind {
        return Some(conditions[i]);
      }
    }
    return None;
  }

  method FilterOutCondition(conditions: seq<Condition>, kind: string) returns (kept: seq<Condition>)
    ensures kept == Without(conditions, kind)
  {
    kept := [];
    for i := 0 to |conditions|
      invariant kept == Without(conditions[..i], kind)
    {
      assert conditions[..i + 1][..i] == conditions[..i];
      if conditions[i].kind == kind {
        continue;
      }
      kept := kept + [conditions[i]];
    }
    assert conditions[..|conditions|] == conditions;
  }

  /** The current entry is a copy: when only the update time differs, the copy is edited and the list stays as it is. */
  method SetCondition(conditions: seq<Condition>, condition: Condition) returns (r: seq<Condition>)
    ensures r == Put(conditions, condition)
  {
    var new' := condition;
    var current := GetCondition(conditions, condition.kind);
    if current.Some? && current.value.status == condition.status && current.value.reason == condition.reason {
      current := Some(current.value.(updateTime := condition.updateTime));
      return conditions;
    }
    if current.Some? && current.value.status == condition.status {
      new' := new'.(transitionTime := current.value.transitionTime);
    }
    var others := FilterOutCondition(conditions, condition.kind);
    r := others + [new'];
  }

  /** The conditions as a field of a resource's status. */
  class Status {
    var conditions: seq<Condition>

    constructor ()
      ensures conditions == Replay([])
    {
      conditions := [];
    }

    method Update(c: Condition)
      modifies this
      ensures conditions == Put(old(conditions), c)
      ensures forall calls :: old(conditions) == Replay(calls) ==> conditions == Replay(calls + [c])
    {
      assert forall calls: seq<Condition> :: (calls + [c])[..|calls|] == calls;
      conditions := SetCondition(conditions, c);
    }
  }

  // ----- One call -----

  predicate Unique(cs: seq<Condition>)
  {
    forall i, j :: 0 <= i < j < |cs| ==> cs[i].kind != cs[j].kind
  }

  lemma {:induction false} WithoutMembers(cs: seq<Condition>, kind: string)
    ensures forall c :: c in Without(cs, kind) <==> c in cs && c.kind != kind
    ensures Unique(cs) ==> Unique(Without(cs, kind))
    decreases |cs|
  {
    if cs != [] {
      var front, last := cs[..|cs| - 1], cs[|cs| - 1];
      WithoutMembers(front, kind);
      assert cs == front + [last];
      if Unique(cs) && last.kind != kind {
        var w := Without(front, kind);
        forall i | 0 <= i < |w|
          ensures w[i].kind != last.kind
        {
          assert w[i] in front;
        }
      }
    }
  }

  lemma {:induction false} FindAppend(a: seq<Condition>, b: seq<Condition>, kind: string)
    ensures Find(a + b, kind) == if Find(a, kind).Some? then Find(a, kind) else Find(b, kind)
    decreases |a|
  {
    if a == [] {
      assert a + b == b;
    } else {
      assert (a + b)[1..] == a[1..] + b;
      FindAppend(a[1..], b, kind);
    }
  }

  lemma {:induction false} FindWithout(cs: seq<Condition>, kind: string, other: string)
    ensures Find(Without(cs, kind), other) == if other == kind then None else Find(cs, other)
    decreases |cs|
  {
    if cs != [] {
      var front, last := cs[..|cs| - 1], cs[|cs| - 1];
      assert cs == front + [last] && [last][1..] == [];
      FindWithout(front, kind, other);
      FindAppend(front, [last], other);
      FindAppend(Without(front, kind), [last], other);
    }
  }

  lemma {:induction false} WithoutIdempotent(cs: seq<Condition>, kind: string)
    ensures Without(Without(cs, kind), kind) == Without(cs, kind)
    decreases |cs|
  {
    if cs != [] {
      var front, last := cs[..|cs| - 1], cs[|cs| - 1];
      WithoutIdempotent(front, kind);
      var w := Without(front, kind);
      assert (w + [last])[..|w|] == w;
    }
  }

  lemma WithoutAppend(cs: seq<Condition>, m: Condition)
    requires Without(cs, m.kind) == cs
    ensures Without(cs + [m], m.kind) == cs
    ensures Find(cs + [m], m.kind) == Some(m)
  {
    assert (cs + [m])[..|cs|] == cs && [m][1..] == [];
    FindWithout(cs, m.kind, m.kind);
    FindAppend(cs, [m], m.kind);
  }

  lemma UniqueAppend(cs: seq<Condition>, m: Condition)
    requires Unique(cs) && forall c :: c in cs ==> c.kind != m.kind
    ensures Unique(cs + [m])
  {
  }

  /** A call decides its own type. */
  lemma PutOwnType(cs: seq<Condition>, c: Condition)
    ensures Find(Put(cs, c), c.kind) == Some(Merged(Find(cs, c.kind), c))
  {
    WithoutIdempotent(cs, c.kind);
    WithoutAppend(Without(cs, c.kind), Merged(Find(cs, c.kind), c));
  }

  lemma PutKeepsUnique(cs: seq<Condition>, c: Condition)
    requires Unique(cs)
    ensures Unique(Put(cs, c))
  {
    WithoutMembers(cs, c.kind);
    UniqueAppend(Without(cs, c.kind), Merged(Find(cs, c.kind), c));
  }

  /** It leaves every other type's entry and their relative order alone. */
  lemma PutOtherTypes(cs: seq<Condition>, c: Condition, kind: string)
    ensures kind != c.kind ==> Find(Put(cs, c), kind) == Find(cs, kind)
    ensures Without(Put(cs, c), c.kind) == Without(cs, c.kind)
  {
    var w, m := Without(cs, c.kind), Merged(Find(cs, c.kind), c);
    assert m.kind == c.kind;
    WithoutIdempotent(cs, c.kind);
    WithoutAppend(w, m);
    if kind != c.kind {
      FindWithout(cs, c.kind, kind);
      FindAppend(w, [m], kind);
    }
  }

  // ----- Any sequence of calls -----

  /** The calls for one type, in order. */
  function OfKind(calls: seq<Condition>, kind: string): (r: seq<Condition>)
    ensures forall c :: c in r <==> c in calls && c.kind == kind
  {
    if calls == [] then []
    else
      var before := OfKind(calls[..|calls| - 1], kind);
      var last := calls[|calls| - 1];
      assert calls == calls[..|calls| - 1] + [last];
      if last.kind == kind then before + [last] else before
  }

  /** Since when the status has been what it is. */
  function StatusSince(cs: seq<Condition>): (k: nat)
    requires cs != []
    ensures k < |cs| && forall i :: k <= i < |cs| ==> cs[i].status == cs[|cs| - 1].status
    ensures k > 0 ==> cs[k - 1].status != cs[|cs| - 1].status
  {
    var n := |cs| - 1;
    if n == 0 || cs[n - 1].status != cs[n].status then n else StatusSince(cs[..n])
  }

  /** Since when status and reason have been what they are. */
  function VerdictSince(cs: seq<Condition>): (k: nat)
    requires cs != []
    ensures k < |cs| && forall i :: k <= i < |cs| ==> SameVerdict(cs[i], cs[|cs| - 1])
    ensures k > 0 ==> !SameVerdict(cs[k - 1], cs[|cs| - 1])
  {
    var n := |cs| - 1;
    if n == 0 || !SameVerdict(cs[n - 1], cs[n]) then n else VerdictSince(cs[..n])
  }

  /** The entry that a sequence of calls for one type leaves. */
  function Entry(cs: seq<Condition>): Condition
    requires cs != []
  {
    cs[VerdictSince(cs)].(transitionTime := cs[StatusSince(cs)].transitionTime)
  }

  lemma EntryStep(before: seq<Condition>, c: Condition)
    ensures Entry(before + [c]) == Merged(if before == [] then None else Some(Entry(before)), c)
  {
    var cs := before + [c];
    assert cs[..|before|] == before;
  }

  /**
   The list is what the calls say, for every sequence of calls and every type: at most one entry,
   with the time at which the present run of its status began as transition time and everything
   else from the call that first gave the present status and reason.
   */
  lemma {:induction false} ReplayIsExact(calls: seq<Condition>, kind: string)
    ensures Unique(Replay(calls))
    ensures Find(Replay(calls), kind) == if OfKind(calls, kind) == [] then None else Some(Entry(OfKind(calls, kind)))
    decreases |calls|
  {
    if calls != [] {
      var before, c := calls[..|calls| - 1], calls[|calls| - 1];
      ReplayIsExact(before, kind);
      PutOwnType(Replay(before), c);
      PutOtherTypes(Replay(before), c, kind);
      PutKeepsUnique(Replay(before), c);
      if c.kind == kind {
        EntryStep(OfKind(before, kind), c);
      }
    }
  }

  /** In particular the last status and reason that were set are the ones that are found. */
  lemma LastSetIsFound(calls: seq<Condition>, kind: string)
    requires OfKind(calls, kind) != []
    ensures var found, set' := Find(Replay(calls), kind), OfKind(calls, kind);
            && found.Some? && found.value.kind == kind
            && found.value.status == set'[|set'| - 1].status && found.value.reason == set'[|set'| - 1].reason
  {
    ReplayIsExact(calls, kind);
    var cs := OfKind(calls, kind);
    assert cs[VerdictSince(cs)] in cs;
  }

  /** One more call changes the transition time of its type only if it changes the status. */
  lemma TransitionOnlyOnStatusChange(calls: seq<Condition>, c: Condition)
    requires OfKind(calls, c.kind) != []
    ensures var old', new' := Find(Replay(calls), c.kind), Find(Replay(calls + [c]), c.kind);
            && old'.Some? && new'.Some? && new'.value.status == c.status
            && new'.value.transitionTime
               == (if c.status == old'.value.status then old'.value.transitionTime else c.transitionTime)
  {
    ReplayIsExact(calls, c.kind);
    assert (calls + [c])[..|calls|] == calls;
    PutOwnType(Replay(calls), c);
  }

  /** The update time and the message are not refreshed by a call that repeats status and reason. */
  lemma RepeatedVerdictIsIgnored(calls: seq<Condition>, c: Condition)
    ensures Replay(calls + [c]) == Replay(calls)
       <==> OfKind(calls, c.kind) != []
            && var last := OfKind(calls, c.kind)[|OfKind(calls, c.kind)| - 1];
               last.status == c.status && last.reason == c.reason
  {
    var cs := Replay(calls);
    ReplayIsExact(calls, c.kind);
    assert (calls + [c])[..|calls|] == calls;
    PutOwnType(cs, c);
  }
}
