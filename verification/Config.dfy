/**
 `mergeConfig`: a tagged, nested configuration struct is merged into a TOML tree
 in place, under one of two priority strategies. The result is shown to be a
 function of the set of written tags alone, path by path.
 */
module Config {
  import opened Text
  import opened Toml

  datatype Strategy = OperatorFirst | InjectedDataFirst

  /** What reflection finds in a tagged field. */
  datatype Value =
    | Empty              // nil pointer, empty slice, nil or empty map
    | Present(node: Node)
    | Unsupported        // a kind that ends the merge with an error

  datatype Field =
    | Untagged
    | Tagged(path: Path, value: Value)
    | Inline(fields: seq<Field>)

  datatype Write = Write(path: Path, node: Node)

  /** The tag of an embedded struct is looked up like any other key. */
  const INLINE: Path := [",inline"]

  // ----- The merge -----

  function MergeField(t: Tree, f: Field, strategy: Strategy): (Tree, bool)
    decreases f, 1
  {
    match f
    case Untagged => (t, true)
    case Tagged(p, v) =>
      if strategy == InjectedDataFirst && Has(t, p) then (t, true)
      else (match v case Empty => (t, true) case Present(n) => (Set(t, p, n), true) case Unsupported => (t, false))
    case Inline(fs) =>
      if strategy == InjectedDataFirst && Has(t, INLINE) then (t, true) else Merge(t, fs, strategy)
  }

  function Merge(t: Tree, fields: seq<Field>, strategy: Strategy): (Tree, bool)
    decreases fields, 0
  {
    if fields == [] then (t, true)
    else
      var (u, ok) := MergeField(t, fields[0], strategy);
      if ok then Merge(u, fields[1..], strategy) else (u, false)
  }

  /** The document that is changed in place. */
  class Document {
    var root: Tree

    constructor (root: Tree)
      ensures this.root == root
    {
      this.root := root;
    }

    /** The loop over the fields, with the recursion on embedded structs. */
    method MergeConfig(fields: seq<Field>, strategy: Strategy) returns (ok: bool)
      modifies this
      ensures (root, ok) == Merge(old(root), fields, strategy)
      decreases fields
    {
      for i := 0 to |fields|
        invariant Merge(old(root), fields, strategy) == Merge(root, fields[i..], strategy)
      {
        assert fields[i..][1..] == fields[i + 1..];
        var field := fields[i];
        if field.Untagged? {
          continue;
        }
        var tag := if field.Inline? then INLINE else field.path;
        if Has(root, tag) && strategy == InjectedDataFirst {
          continue;
        }
        if field.Inline? {
          ok := MergeConfig(field.fields, strategy);
          if !ok {
            return;
          }
          continue;
        }
        match field.value
        case Empty =>
        case Present(node) => root := Set(root, field.path, node);
        case Unsupported => return false;
      }
      ok := true;
    }
  }

  // ----- The specification: a flat list of writes -----

  /** The tags that a struct writes, whatever their nesting. */
  function Writes(fields: seq<Field>): seq<Write>
    decreases fields, 0
  {
    if fields == [] then [] else FieldWrites(fields[0]) + Writes(fields[1..])
  }

  function FieldWrites(f: Field): seq<Write>
    decreases f, 1
  {
    match f
    case Untagged => []
    case Tagged(p, v) => if v.Present? then [Write(p, v.node)] else []
    case Inline(fs) => Writes(fs)
  }

  predicate Supported(fields: seq<Field>)
    decreases fields, 0
  {
    fields == [] || (FieldSupported(fields[0]) && Supported(fields[1..]))
  }

  predicate FieldSupported(f: Field)
    decreases f, 1
  {
    match f
    case Untagged => true
    case Tagged(_, v) => !v.Unsupported?
    case Inline(fs) => Supported(fs)
  }

  /** The writes that take effect, judged on the original document. */
  function Effective(t: Tree, ws: seq<Write>, strategy: Strategy): seq<Write>
  {
    if ws == [] then []
    else (if strategy == InjectedDataFirst && Has(t, ws[0].path) then [] else [ws[0]]) + Effective(t, ws[1..], strategy)
  }

  function SetAll(t: Tree, ws: seq<Write>): Tree
    decreases |ws|
  {
    if ws == [] then t else SetAll(Set(t, ws[0].path, ws[0].node), ws[1..])
  }

  /** Which of the writes, if any, covers a path. */
  function Covering(ws: seq<Write>, q: Path): (r: Option<Write>)
    ensures r.Some? ==> r.value in ws && r.value.path <= q
    ensures r.None? ==> forall w :: w in ws ==> !(w.path <= q)
  {
    if ws == [] then None else if ws[0].path <= q then Some(ws[0]) else Covering(ws[1..], q)
  }

  ghost predicate PrefixFree(ws: seq<Write>)
  {
    forall i, j :: 0 <= i < j < |ws| ==> Apart(ws[i].path, ws[j].path)
  }

  ghost predicate AllOpen(t: Tree, ws: seq<Write>)
  {
    forall w :: w in ws ==> Open(t, w.path)
  }

  /** No tag writes a key that looks like the tag of an embedded struct. */
  ghost predicate AvoidsInline(ws: seq<Write>)
  {
    forall w :: w in ws ==> w.path[0] != INLINE[0]
  }

  /** The fields of a struct without its embedded structs. */
  function Outer(fields: seq<Field>): seq<Field>
  {
    if fields == [] then [] else (if fields[0].Inline? then [] else [fields[0]]) + Outer(fields[1..])
  }

  /** What only the embedded structs write. */
  function Embedded(fields: seq<Field>): seq<Write>
  {
    if fields == [] then []
    else (if fields[0].Inline? then FieldWrites(fields[0]) else []) + Embedded(fields[1..])
  }

  /** An input key that looks like the tag of an embedded struct hides all of them under InjectedDataFirst. */
  predicate Hidden(t: Tree, strategy: Strategy)
  {
    strategy == InjectedDataFirst && Has(t, INLINE)
  }

  /** The fields that a merge looks at. */
  function Reached(t: Tree, fields: seq<Field>, strategy: Strategy): seq<Field>
  {
    if Hidden(t, strategy) then Outer(fields) else fields
  }

  /** No user key hides the embedded structs, and no tag writes such a key. */
  ghost predicate InlineVisible(t: Tree, ws: seq<Write>, strategy: Strategy)
  {
    strategy == InjectedDataFirst ==> !Has(t, INLINE) && forall w :: w in ws ==> w.path[0] != INLINE[0]
  }

  // ----- Properties: the merge is the fold of its writes -----

  /** The writes in order, with the strategy's question asked of the evolving tree. */
  function WriteAll(t: Tree, ws: seq<Write>, strategy: Strategy): Tree
    decreases |ws|
  {
    if ws == [] then t
    else if strategy == InjectedDataFirst && Has(t, ws[0].path) then WriteAll(t, ws[1..], strategy)
    else WriteAll(Set(t, ws[0].path, ws[0].node), ws[1..], strategy)
  }

  lemma {:induction false} WriteAllAppend(t: Tree, a: seq<Write>, b: seq<Write>, strategy: Strategy)
    ensures WriteAll(t, a + b, strategy) == WriteAll(WriteAll(t, a, strategy), b, strategy)
    decreases |a|
  {
    if a == [] {
      assert a + b == b;
    } else {
      assert (a + b)[1..] == a[1..] + b && (a + b)[0] == a[0];
      WriteAllAppend(t, a[1..], b, strategy);
      WriteAllAppend(Set(t, a[0].path, a[0].node), a[1..], b, strategy);
    }
  }

  lemma {:induction false} WriteAllKeepsInlineVisible(t: Tree, ws: seq<Write>, strategy: Strategy)
    requires InlineVisible(t, ws, strategy)
    ensures strategy == InjectedDataFirst ==> !Has(WriteAll(t, ws, strategy), INLINE)
    decreases |ws|
  {
    if ws != [] && strategy == InjectedDataFirst {
      assert ws[0] in ws;
      SetOther(t, ws[0].path, ws[0].node, INLINE);
      WriteAllKeepsInlineVisible(t, ws[1..], strategy);
      WriteAllKeepsInlineVisible(Set(t, ws[0].path, ws[0].node), ws[1..], strategy);
    }
  }

  /** Without a hiding key nesting does not matter. */
  lemma {:induction false} VisibleMergeIsFold(t: Tree, fields: seq<Field>, strategy: Strategy)
    requires Supported(fields) && InlineVisible(t, Writes(fields), strategy)
    ensures Merge(t, fields, strategy) == (WriteAll(t, Writes(fields), strategy), true)
    decreases fields, 0
  {
    if fields != [] {
      var a, b := FieldWrites(fields[0]), Writes(fields[1..]);
      assert forall w :: w in a + b <==> w in a || w in b;
      FieldMergeIsFold(t, fields[0], strategy);
      var u := WriteAll(t, a, strategy);
      WriteAllKeepsInlineVisible(t, a, strategy);
      VisibleMergeIsFold(u, fields[1..], strategy);
      WriteAllAppend(t, a, b, strategy);
    }
  }

  lemma {:induction false} FieldMergeIsFold(t: Tree, f: Field, strategy: Strategy)
    requires FieldSupported(f) && InlineVisible(t, FieldWrites(f), strategy)
    ensures MergeField(t, f, strategy) == (WriteAll(t, FieldWrites(f), strategy), true)
    decreases f, 1
  {
    match f
    case Untagged =>
    case Tagged(_, v) =>
      if v.Present? {
        assert FieldWrites(f)[1..] == [];
      }
    case Inline(fs) => VisibleMergeIsFold(t, fs, strategy);
  }

  /** With one, the embedded structs might as well not be there; errors are the same, too. */
  lemma {:induction false} HidingKeyDropsEmbedded(t: Tree, fields: seq<Field>)
    requires Has(t, INLINE) && AvoidsInline(Writes(Outer(fields)))
    ensures Merge(t, fields, InjectedDataFirst) == Merge(t, Outer(fields), InjectedDataFirst)
    decreases |fields|
  {
    if fields != [] {
      var f, rest := fields[0], fields[1..];
      if f.Inline? {
        assert Outer(fields) == Outer(rest);
        HidingKeyDropsEmbedded(t, rest);
      } else {
        var u := MergeField(t, f, InjectedDataFirst).0;
        assert Outer(fields)[0] == f && Outer(fields)[1..] == Outer(rest);
        assert forall w :: w in Writes(Outer(rest)) ==> w in Writes(Outer(fields));
        if f.Tagged? && f.value.Present? {
          assert Write(f.path, f.value.node) in FieldWrites(f);
          assert Write(f.path, f.value.node) in Writes(Outer(fields));
          SetOther(t, f.path, f.value.node, INLINE);
        }
        assert Has(u, INLINE);
        HidingKeyDropsEmbedded(u, rest);
      }
    }
  }

  /** A struct without embedded ones is merged tag by tag, whatever the document. */
  lemma {:induction false} FlatMergeIsFold(t: Tree, fields: seq<Field>, strategy: Strategy)
    requires Supported(fields) && forall f :: f in fields ==> !f.Inline?
    ensures Merge(t, fields, strategy) == (WriteAll(t, Writes(fields), strategy), true)
    decreases |fields|
  {
    if fields != [] {
      var f, rest := fields[0], fields[1..];
      assert f in fields;
      FlatMergeIsFold(MergeField(t, f, strategy).0, rest, strategy);
      WriteAllAppend(t, FieldWrites(f), Writes(rest), strategy);
      if f.Tagged? && f.value.Present? {
        assert FieldWrites(f)[1..] == [];
      }
    }
  }

  lemma {:induction false} OuterIsFlat(fields: seq<Field>)
    ensures forall f :: f in Outer(fields) ==> !f.Inline?
    ensures Supported(fields) ==> Supported(Outer(fields))
    decreases |fields|
  {
    if fields != [] {
      OuterIsFlat(fields[1..]);
      if fields[0].Inline? {
        assert Outer(fields) == Outer(fields[1..]);
      } else {
        assert Outer(fields)[0] == fields[0] && Outer(fields)[1..] == Outer(fields[1..]);
      }
    }
  }

  lemma {:induction false} OuterMembers(fields: seq<Field>)
    ensures forall w :: w in Writes(fields) <==> w in Writes(Outer(fields)) || w in Embedded(fields)
    decreases |fields|
  {
    if fields != [] {
      OuterMembers(fields[1..]);
      if fields[0].Inline? {
        assert Outer(fields) == Outer(fields[1..]);
      } else {
        assert Outer(fields)[0] == fields[0] && Outer(fields)[1..] == Outer(fields[1..]);
      }
    }
  }

  /** The recursive merge is the fold over the flattened tags of the fields that it looks at. */
  lemma MergeIsFold(t: Tree, fields: seq<Field>, strategy: Strategy)
    requires Supported(fields) && AvoidsInline(Writes(fields))
    ensures Merge(t, fields, strategy) == (WriteAll(t, Writes(Reached(t, fields, strategy)), strategy), true)
  {
    if Hidden(t, strategy) {
      OuterIsFlat(fields);
      OuterMembers(fields);
      HidingKeyDropsEmbedded(t, fields);
      FlatMergeIsFold(t, Outer(fields), strategy);
    } else {
      VisibleMergeIsFold(t, fields, strategy);
    }
  }

  ghost predicate MutuallyApart(a: seq<Write>, b: seq<Write>)
  {
    forall x, y :: x in a && y in b ==> Apart(x.path, y.path)
  }

  lemma PrefixFreeSplit(a: seq<Write>, b: seq<Write>)
    requires PrefixFree(a + b)
    ensures PrefixFree(a) && PrefixFree(b) && MutuallyApart(a, b) && MutuallyApart(b, a)
  {
    var c := a + b;
    assert forall i :: 0 <= i < |a| ==> c[i] == a[i];
    assert forall i :: 0 <= i < |b| ==> c[|a| + i] == b[i];
    forall x, y | x in a && y in b
      ensures Apart(x.path, y.path) && Apart(y.path, x.path)
    {
      var i :| 0 <= i < |a| && a[i] == x;
      var j :| 0 <= j < |b| && b[j] == y;
      assert Apart(c[i].path, c[|a| + j].path);
      ApartSymmetric(x.path, y.path);
    }
  }

  lemma PrefixFreeJoin(a: seq<Write>, b: seq<Write>)
    requires PrefixFree(a) && PrefixFree(b) && MutuallyApart(a, b)
    ensures PrefixFree(a + b)
  {
    var c := a + b;
    forall i, j | 0 <= i < j < |c|
      ensures Apart(c[i].path, c[j].path)
    {
      if j < |a| {
        assert c[i] == a[i] && c[j] == a[j];
      } else if i < |a| {
        assert c[i] in a && c[j] in b;
      } else {
        assert c[i] == b[i - |a|] && c[j] == b[j - |a|];
      }
    }
  }

  /** What the outer fields and the embedded structs write stays separate. */
  lemma {:induction false} OuterPrefixFree(fields: seq<Field>)
    requires PrefixFree(Writes(fields))
    ensures PrefixFree(Writes(Outer(fields))) && MutuallyApart(Writes(Outer(fields)), Embedded(fields))
    decreases |fields|
  {
    if fields != [] {
      var a, rest := FieldWrites(fields[0]), fields[1..];
      PrefixFreeSplit(a, Writes(rest));
      OuterPrefixFree(rest);
      OuterMembers(rest);
      if fields[0].Inline? {
        assert Outer(fields) == Outer(rest);
      } else {
        assert Outer(fields)[0] == fields[0] && Outer(fields)[1..] == Outer(rest);
        PrefixFreeJoin(a, Writes(Outer(rest)));
      }
    }
  }

  /** What is said about all writes holds for those that are reached. */
  lemma ReachedWrites(t: Tree, fields: seq<Field>, strategy: Strategy)
    requires PrefixFree(Writes(fields))
    ensures PrefixFree(Writes(Reached(t, fields, strategy)))
    ensures forall w :: w in Writes(Reached(t, fields, strategy)) ==> w in Writes(fields)
  {
    OuterPrefixFree(fields);
    OuterMembers(fields);
  }

  // ----- Properties: the evolving question is the original one -----

  lemma {:induction false} SetKeepsEffective(t: Tree, w: Write, ws: seq<Write>, strategy: Strategy)
    requires forall x :: x in ws ==> Apart(w.path, x.path)
    ensures Effective(Set(t, w.path, w.node), ws, strategy) == Effective(t, ws, strategy)
    decreases |ws|
  {
    if ws != [] {
      assert ws[0] in ws;
      SetOther(t, w.path, w.node, ws[0].path);
      SetKeepsEffective(t, w, ws[1..], strategy);
    }
  }

  /** Although each tag is looked up in the tree as changed so far, the answer is that of the original input. */
  lemma {:induction false} EvolvingHasIsOriginal(t: Tree, ws: seq<Write>, strategy: Strategy)
    requires PrefixFree(ws)
    ensures WriteAll(t, ws, strategy) == SetAll(t, Effective(t, ws, strategy))
    decreases |ws|
  {
    if ws != [] {
      EvolvingHasIsOriginal(t, ws[1..], strategy);
      if !(strategy == InjectedDataFirst && Has(t, ws[0].path)) {
        var u := Set(t, ws[0].path, ws[0].node);
        EvolvingHasIsOriginal(u, ws[1..], strategy);
        SetKeepsEffective(t, ws[0], ws[1..], strategy);
        assert Effective(t, ws, strategy)[1..] == Effective(t, ws[1..], strategy);
      } else {
        assert Effective(t, ws, strategy) == Effective(t, ws[1..], strategy);
      }
    }
  }

  lemma {:induction false} EffectiveIsSublist(t: Tree, ws: seq<Write>, strategy: Strategy)
    requires PrefixFree(ws)
    ensures PrefixFree(Effective(t, ws, strategy))
    ensures forall w :: w in Effective(t, ws, strategy) <==> w in ws && (strategy == OperatorFirst || !Has(t, w.path))
    decreases |ws|
  {
    if ws != [] {
      EffectiveIsSublist(t, ws[1..], strategy);
      var e, rest := Effective(t, ws, strategy), Effective(t, ws[1..], strategy);
      assert forall w :: w in ws <==> w == ws[0] || w in ws[1..];
      if e != rest {
        assert e == [ws[0]] + rest;
        forall i, j | 0 <= i < j < |e|
          ensures Apart(e[i].path, e[j].path)
        {
          if i == 0 {
            assert e[j] in ws[1..];
          } else {
            assert e[i] == rest[i - 1] && e[j] == rest[j - 1];
          }
        }
      }
    }
  }

  // ----- Properties: the result, path by path -----

  lemma {:induction false} SetAllValue(t: Tree, ws: seq<Write>, q: Path)
    requires PrefixFree(ws) && AllOpen(t, ws)
    ensures ValueAt(SetAll(t, ws), q)
         == match Covering(ws, q) case Some(w) => ValueIn(w.node, q[|w.path|..]) case None => ValueAt(t, q)
    decreases |ws|
  {
    if ws != [] {
      var w, rest := ws[0], ws[1..];
      var u := Set(t, w.path, w.node);
      assert w in ws;
      SetValue(t, w.path, w.node, q);
      forall x | x in rest
        ensures Open(u, x.path) && (w.path <= q ==> !(x.path <= q))
      {
        assert x in ws && Apart(w.path, x.path);
        SetKeepsOpen(t, w.path, w.node, x.path);
        if w.path <= q {
          ExtensionStaysApart(w.path, q, x.path);
          if x.path <= q {
            PrefixIsNotApart(x.path, q);
          }
        }
      }
      SetAllValue(u, rest, q);
    }
  }

  /** The path-wise specification: a covering write that takes effect decides, and otherwise the input does. */
  function AtPath(t: Tree, ws: seq<Write>, strategy: Strategy, q: Path): Option<Atom>
  {
    match Covering(Effective(t, ws, strategy), q)
    case Some(w) => ValueIn(w.node, q[|w.path|..])
    case None => ValueAt(t, q)
  }

  /**
   The merge, path by path. Under OperatorFirst every written tag decides its paths; under
   InjectedDataFirst exactly those written tags do that the original input did not have;
   every other path keeps its input value.
   */
  lemma MergePathwise(t: Tree, fields: seq<Field>, strategy: Strategy, q: Path)
    requires Supported(fields) && PrefixFree(Writes(fields)) && AllOpen(t, Writes(fields))
        && AvoidsInline(Writes(fields))
    ensures Merge(t, fields, strategy).1
    ensures ValueAt(Merge(t, fields, strategy).0, q) == AtPath(t, Writes(Reached(t, fields, strategy)), strategy, q)
  {
    var ws := Writes(Reached(t, fields, strategy));
    ReachedWrites(t, fields, strategy);
    MergeIsFold(t, fields, strategy);
    EvolvingHasIsOriginal(t, ws, strategy);
    EffectiveIsSublist(t, ws, strategy);
    SetAllValue(t, Effective(t, ws, strategy), q);
  }

  /** The node is a value, or a table with a value somewhere in it. */
  ghost predicate HoldsValue(n: Node)
  {
    exists rest :: ValueIn(n, rest).Some?
  }

  /** Nothing is lost by hiding the embedded structs: what they would write is in the input already. */
  ghost predicate NothingHidden(t: Tree, fields: seq<Field>)
  {
    forall w :: w in Embedded(fields) ==> Has(t, w.path) || !HoldsValue(w.node)
  }

  /**
   The whole struct decides the result path by path, embedded structs included, exactly if no key of the input
   hides them or hiding them loses nothing.
   */
  lemma MergeIsWholeExactly(t: Tree, fields: seq<Field>, strategy: Strategy)
    requires Supported(fields) && PrefixFree(Writes(fields)) && AllOpen(t, Writes(fields))
        && AvoidsInline(Writes(fields))
    ensures (forall q: Path :: ValueAt(Merge(t, fields, strategy).0, q) == AtPath(t, Writes(fields), strategy, q))
       <==> (Hidden(t, strategy) ==> NothingHidden(t, fields))
  {
    forall q: Path
      ensures ValueAt(Merge(t, fields, strategy).0, q) == AtPath(t, Writes(Reached(t, fields, strategy)), strategy, q)
    {
      MergePathwise(t, fields, strategy, q);
    }
    if Hidden(t, strategy) {
      if NothingHidden(t, fields) {
        forall q: Path
          ensures AtPath(t, Writes(Outer(fields)), strategy, q) == AtPath(t, Writes(fields), strategy, q)
        {
          HidingLosesNothing(t, fields, q);
        }
      } else {
        var w :| w in Embedded(fields) && !Has(t, w.path) && HoldsValue(w.node);
        var q := HidingLoses(t, fields, w);
        assert ValueAt(Merge(t, fields, strategy).0, q) != AtPath(t, Writes(fields), strategy, q);
      }
    }
  }

  lemma CoversOnce(ws: seq<Write>, w: Write, q: Path)
    requires PrefixFree(ws) && w in ws && w.path <= q
    ensures Covering(ws, q) == Some(w)
  {
    var c := Covering(ws, q).value;
    var i :| 0 <= i < |ws| && ws[i] == w;
    var j :| 0 <= j < |ws| && ws[j] == c;
    if i < j {
      BothPrefixes(w.path, c.path, q);
    } else if j < i {
      BothPrefixes(c.path, w.path, q);
    }
  }

  /** Two prefixes of one path are not apart. */
  lemma {:induction false} BothPrefixes(p: seq<string>, r: seq<string>, q: seq<string>)
    requires p <= q && r <= q
    ensures !Apart(p, r)
    decreases |p|
  {
    if p != [] && r != [] {
      BothPrefixes(p[1..], r[1..], q[1..]);
    }
  }

  lemma HidingLosesNothing(t: Tree, fields: seq<Field>, q: Path)
    requires PrefixFree(Writes(fields)) && NothingHidden(t, fields)
    ensures AtPath(t, Writes(Outer(fields)), InjectedDataFirst, q) == AtPath(t, Writes(fields), InjectedDataFirst, q)
  {
    var outer, all := Writes(Outer(fields)), Writes(fields);
    var es := Effective(t, all, InjectedDataFirst);
    var os := Effective(t, outer, InjectedDataFirst);
    OuterPrefixFree(fields);
    OuterMembers(fields);
    EffectiveIsSublist(t, all, InjectedDataFirst);
    EffectiveIsSublist(t, outer, InjectedDataFirst);
    var c := Covering(es, q);
    if c.Some? {
      var w := c.value;
      if w in outer {
        CoversOnce(os, w, q);
      } else {
        NotCoveredOuter(t, fields, w, q);
        if Has(t, q) {
          PrefixHas(t, w.path, q);
        }
        assert ValueIn(w.node, q[|w.path|..]) == None;
      }
    } else {
      assert forall w :: w in os ==> w in es;
      assert Covering(os, q) == None;
    }
  }

  lemma NotCoveredOuter(t: Tree, fields: seq<Field>, w: Write, q: Path)
    requires PrefixFree(Writes(fields)) && w in Embedded(fields) && w.path <= q
    ensures Covering(Effective(t, Writes(Outer(fields)), InjectedDataFirst), q) == None
  {
    var os := Effective(t, Writes(Outer(fields)), InjectedDataFirst);
    OuterPrefixFree(fields);
    EffectiveIsSublist(t, Writes(Outer(fields)), InjectedDataFirst);
    var c := Covering(os, q);
    if c.Some? {
      BothPrefixes(c.value.path, w.path, q);
    }
  }

  /** A hidden write that would have had an effect is missed at some path. */
  lemma HidingLoses(t: Tree, fields: seq<Field>, w: Write) returns (q: Path)
    requires PrefixFree(Writes(fields)) && w in Embedded(fields) && !Has(t, w.path) && HoldsValue(w.node)
    ensures AtPath(t, Writes(Outer(fields)), InjectedDataFirst, q) != AtPath(t, Writes(fields), InjectedDataFirst, q)
  {
    var rest :| ValueIn(w.node, rest).Some?;
    q := w.path + rest;
    assert q[|w.path|..] == rest;
    var es := Effective(t, Writes(fields), InjectedDataFirst);
    OuterMembers(fields);
    EffectiveIsSublist(t, Writes(fields), InjectedDataFirst);
    CoversOnce(es, w, q);
    NotCoveredOuter(t, fields, w, q);
    if Has(t, q) {
      PrefixHas(t, w.path, q);
    }
  }

  /** Under InjectedDataFirst no value of the input is lost. */
  lemma InjectedValuesSurvive(t: Tree, fields: seq<Field>, q: Path)
    requires Supported(fields) && PrefixFree(Writes(fields)) && AllOpen(t, Writes(fields))
        && AvoidsInline(Writes(fields))
    requires ValueAt(t, q).Some?
    ensures ValueAt(Merge(t, fields, InjectedDataFirst).0, q) == ValueAt(t, q)
  {
    var ws := Writes(Reached(t, fields, InjectedDataFirst));
    MergePathwise(t, fields, InjectedDataFirst, q);
    ReachedWrites(t, fields, InjectedDataFirst);
    EffectiveIsSublist(t, ws, InjectedDataFirst);
    var c := Covering(Effective(t, ws, InjectedDataFirst), q);
    if c.Some? {
      PrefixHas(t, c.value.path, q);
    }
  }

  lemma {:induction false} PrefixHas(t: Tree, p: Path, q: Path)
    requires p <= q && Has(t, q)
    ensures Has(t, p)
    decreases |p|
  {
    if |p| > 1 {
      PrefixHas(t[p[0]].entries, p[1..], q[1..]);
    }
  }

  // ----- Properties: order and repetition -----

  /** A write can be done before the separate ones that precede it. */
  lemma {:induction false} MoveToFront(t: Tree, a: seq<Write>, w: Write, b: seq<Write>)
    requires forall x :: x in a ==> Apart(x.path, w.path)
    ensures SetAll(t, a + ([w] + b)) == SetAll(Set(t, w.path, w.node), a + b)
    decreases |a|
  {
    if a == [] {
      assert a + ([w] + b) == [w] + b && ([w] + b)[1..] == b && a + b == b;
    } else {
      var x := a[0];
      assert (a + ([w] + b))[1..] == a[1..] + ([w] + b) && (a + b)[1..] == a[1..] + b;
      MoveToFront(Set(t, x.path, x.node), a[1..], w, b);
      SetCommutes(t, x.path, x.node, w.path, w.node);
    }
  }

  lemma SplitOut(ws: seq<Write>, w: Write) returns (before: seq<Write>, after: seq<Write>)
    requires w in ws && PrefixFree(ws)
    ensures ws == before + ([w] + after)
    ensures forall x :: x in before ==> Apart(x.path, w.path)
    ensures PrefixFree(before + after)
    ensures multiset(ws) == multiset(before + after) + multiset{w}
  {
    var i :| 0 <= i < |ws| && ws[i] == w;
    before, after := ws[..i], ws[i + 1..];
    assert ws == before + ([w] + after);
    RemovalKeepsPrefixFree(ws, i);
  }

  /** The order in which separate tags are written does not matter. */
  lemma {:induction false} OrderIrrelevant(t: Tree, a: seq<Write>, b: seq<Write>)
    requires PrefixFree(a) && PrefixFree(b) && multiset(a) == multiset(b)
    ensures SetAll(t, a) == SetAll(t, b)
    decreases |a|
  {
    if a == [] {
      assert |b| == |multiset(b)| == 0;
    } else {
      var w := a[0];
      assert w in multiset(b);
      var before, after := SplitOut(b, w);
      MoveToFront(t, before, w, after);
      assert a == [w] + a[1..];
      assert multiset(a[1..]) == multiset(a) - multiset{w} == multiset(before + after);
      OrderIrrelevant(Set(t, w.path, w.node), a[1..], before + after);
    }
  }

  lemma RemovalKeepsPrefixFree(ws: seq<Write>, i: nat)
    requires i < |ws| && PrefixFree(ws)
    ensures PrefixFree(ws[..i] + ws[i + 1..])
  {
    var rest := ws[..i] + ws[i + 1..];
    assert forall j :: 0 <= j < |rest| ==> rest[j] == ws[if j < i then j else j + 1];
  }

  lemma {:induction false} EffectivePermutes(t: Tree, a: seq<Write>, strategy: Strategy, w: Write)
    ensures multiset(Effective(t, a, strategy))[w]
         == if strategy == InjectedDataFirst && Has(t, w.path) then 0 else multiset(a)[w]
    decreases |a|
  {
    if a != [] {
      EffectivePermutes(t, a[1..], strategy, w);
      assert a == [a[0]] + a[1..];
    }
  }

  lemma WriteAllIgnoresOrder(t: Tree, a: seq<Write>, b: seq<Write>, strategy: Strategy)
    requires PrefixFree(a) && PrefixFree(b) && multiset(a) == multiset(b)
    ensures WriteAll(t, a, strategy) == WriteAll(t, b, strategy)
  {
    EvolvingHasIsOriginal(t, a, strategy);
    EvolvingHasIsOriginal(t, b, strategy);
    EffectiveIsSublist(t, a, strategy);
    EffectiveIsSublist(t, b, strategy);
    forall w
      ensures multiset(Effective(t, a, strategy))[w] == multiset(Effective(t, b, strategy))[w]
    {
      EffectivePermutes(t, a, strategy, w);
      EffectivePermutes(t, b, strategy, w);
    }
    OrderIrrelevant(t, Effective(t, a, strategy), Effective(t, b, strategy));
  }

  /**
   Structs in which the same tags are reached give the same document, however their fields are ordered and
   nested. Unless a key of the input hides the embedded structs, all tags are reached.
   */
  lemma MergeIgnoresLayout(t: Tree, f: seq<Field>, g: seq<Field>, strategy: Strategy)
    requires Supported(f) && Supported(g) && PrefixFree(Writes(f)) && PrefixFree(Writes(g))
    requires AvoidsInline(Writes(f)) && AvoidsInline(Writes(g))
    requires multiset(Writes(Reached(t, f, strategy))) == multiset(Writes(Reached(t, g, strategy)))
    ensures Merge(t, f, strategy) == Merge(t, g, strategy)
  {
    MergeIsFold(t, f, strategy);
    MergeIsFold(t, g, strategy);
    ReachedWrites(t, f, strategy);
    ReachedWrites(t, g, strategy);
    WriteAllIgnoresOrder(t, Writes(Reached(t, f, strategy)), Writes(Reached(t, g, strategy)), strategy);
  }

  lemma {:induction false} SetAllKeeps(t: Tree, ws: seq<Write>, p: Path)
    requires forall w :: w in ws ==> Apart(w.path, p)
    ensures Lookup(SetAll(t, ws), p) == Lookup(t, p)
    decreases |ws|
  {
    if ws != [] {
      assert ws[0] in ws;
      SetOther(t, ws[0].path, ws[0].node, p);
      SetAllKeeps(Set(t, ws[0].path, ws[0].node), ws[1..], p);
    }
  }

  lemma {:induction false} SetAllInstalls(t: Tree, ws: seq<Write>, i: nat)
    requires PrefixFree(ws) && i < |ws|
    ensures Lookup(SetAll(t, ws), ws[i].path) == Some(ws[i].node)
    decreases |ws|
  {
    var u := Set(t, ws[0].path, ws[0].node);
    if i == 0 {
      SetGet(t, ws[0].path, ws[0].node);
      forall w | w in ws[1..]
        ensures Apart(w.path, ws[0].path)
      {
        ApartSymmetric(ws[0].path, w.path);
      }
      SetAllKeeps(u, ws[1..], ws[0].path);
    } else {
      SetAllInstalls(u, ws[1..], i - 1);
    }
  }

  lemma {:induction false} InstalledIsFixed(t: Tree, ws: seq<Write>, strategy: Strategy)
    requires forall w :: w in ws ==>
        Has(t, w.path) && (strategy == InjectedDataFirst || Lookup(t, w.path) == Some(w.node))
    ensures WriteAll(t, ws, strategy) == t
    decreases |ws|
  {
    if ws != [] {
      assert ws[0] in ws;
      if strategy == OperatorFirst {
        SetSame(t, ws[0].path, ws[0].node);
      }
      InstalledIsFixed(t, ws[1..], strategy);
    }
  }

  lemma {:induction false} WriteAllKeepsInline(t: Tree, ws: seq<Write>, strategy: Strategy)
    requires AvoidsInline(ws)
    ensures Has(WriteAll(t, ws, strategy), INLINE) <==> Has(t, INLINE)
    decreases |ws|
  {
    if ws != [] {
      assert ws[0] in ws;
      SetOther(t, ws[0].path, ws[0].node, INLINE);
      WriteAllKeepsInline(t, ws[1..], strategy);
      WriteAllKeepsInline(Set(t, ws[0].path, ws[0].node), ws[1..], strategy);
    }
  }

  lemma WriteAllIdempotent(t: Tree, ws: seq<Write>, strategy: Strategy)
    requires PrefixFree(ws)
    ensures var once := WriteAll(t, ws, strategy); WriteAll(once, ws, strategy) == once
  {
    var es := Effective(t, ws, strategy);
    var once := WriteAll(t, ws, strategy);
    EvolvingHasIsOriginal(t, ws, strategy);
    EffectiveIsSublist(t, ws, strategy);
    forall w | w in ws
      ensures Has(once, w.path) && (strategy == InjectedDataFirst || Lookup(once, w.path) == Some(w.node))
    {
      if w in es {
        var i :| 0 <= i < |es| && es[i] == w;
        SetAllInstalls(t, es, i);
      } else {
        EffectiveApart(t, ws, strategy, w);
        SetAllKeeps(t, es, w.path);
      }
    }
    InstalledIsFixed(once, ws, strategy);
  }

  /** Merging the same struct again changes nothing. */
  lemma MergeIdempotent(t: Tree, fields: seq<Field>, strategy: Strategy)
    requires Supported(fields) && PrefixFree(Writes(fields)) && AvoidsInline(Writes(fields))
    ensures var once := Merge(t, fields, strategy).0; Merge(once, fields, strategy) == (once, true)
  {
    var ws := Writes(Reached(t, fields, strategy));
    ReachedWrites(t, fields, strategy);
    MergeIsFold(t, fields, strategy);
    MergeIsFold(Merge(t, fields, strategy).0, fields, strategy);
    WriteAllKeepsInline(t, ws, strategy);
    WriteAllIdempotent(t, ws, strategy);
  }

  lemma EffectiveApart(t: Tree, ws: seq<Write>, strategy: Strategy, w: Write)
    requires PrefixFree(ws) && w in ws && w !in Effective(t, ws, strategy)
    ensures forall e :: e in Effective(t, ws, strategy) ==> Apart(e.path, w.path)
    ensures Has(t, w.path)
  {
    EffectiveIsSublist(t, ws, strategy);
    forall e | e in Effective(t, ws, strategy)
      ensures Apart(e.path, w.path)
    {
      var i :| 0 <= i < |ws| && ws[i] == e;
      var j :| 0 <= j < |ws| && ws[j] == w;
      if j < i {
        ApartSymmetric(w.path, e.path);
      }
    }
  }
}
