/**
 When the merge of a configuration struct fails: exactly if it comes to a tag whose value it does not support.
 */
module MergeErrors {
  import opened Toml
  import opened Config

  /** The tags with values of a kind that the merge does not support, whatever their nesting. */
  function Refused(fields: seq<Field>): seq<Path>
    decreases fields, 0
  {
    if fields == [] then [] else FieldRefused(fields[0]) + Refused(fields[1..])
  }

  function FieldRefused(f: Field): seq<Path>
    decreases f, 1
  {
    match f
    case Untagged => []
    case Tagged(p, v) => if v.Unsupported? then [p] else []
    case Inline(fs) => Refused(fs)
  }

  /** Under OperatorFirst every tag is come to. */
  lemma {:induction false} OperatorFirstFailsExactly(t: Tree, fields: seq<Field>)
    ensures Merge(t, fields, OperatorFirst).1 <==> Refused(fields) == []
    decreases fields, 0
  {
    if fields != [] {
      OperatorFieldFailsExactly(t, fields[0]);
      OperatorFirstFailsExactly(MergeField(t, fields[0], OperatorFirst).0, fields[1..]);
    }
  }

  lemma {:induction false} OperatorFieldFailsExactly(t: Tree, f: Field)
    ensures MergeField(t, f, OperatorFirst).1 <==> FieldRefused(f) == []
    decreases f, 1
  {
    if f.Inline? {
      OperatorFirstFailsExactly(t, f.fields);
    }
  }

  ghost predicate ApartFrom(ws: seq<Write>, p: Path)
  {
    forall w :: w in ws ==> Apart(w.path, p)
  }

  /** A merge, even one that fails, leaves alone what is apart from its writes. */
  lemma {:induction false} MergeKeeps(t: Tree, fields: seq<Field>, strategy: Strategy, p: Path)
    requires ApartFrom(Writes(fields), p)
    ensures Lookup(Merge(t, fields, strategy).0, p) == Lookup(t, p)
    decreases fields, 0
  {
    if fields != [] {
      var a, b := FieldWrites(fields[0]), Writes(fields[1..]);
      assert forall w :: w in a + b <==> w in a || w in b;
      var (u, ok) := MergeField(t, fields[0], strategy);
      FieldKeeps(t, fields[0], strategy, p);
      MergeKeeps(u, fields[1..], strategy, p);
    }
  }

  lemma {:induction false} FieldKeeps(t: Tree, f: Field, strategy: Strategy, p: Path)
    requires ApartFrom(FieldWrites(f), p)
    ensures Lookup(MergeField(t, f, strategy).0, p) == Lookup(t, p)
    decreases f, 1
  {
    match f
    case Untagged =>
    case Tagged(q, v) =>
      if v.Present? {
        assert Write(q, v.node) in FieldWrites(f);
        SetOther(t, q, v.node, p);
      }
    case Inline(fs) => MergeKeeps(t, fs, strategy, p);
  }

  /** The embedded structs are looked at, or there are none. */
  ghost predicate IsVisible(t: Tree, fields: seq<Field>)
  {
    !Has(t, INLINE) || forall f :: f in fields ==> !f.Inline?
  }

  ghost predicate AllApartFrom(ws: seq<Write>, paths: seq<Path>)
  {
    forall p :: p in paths ==> ApartFrom(ws, p)
  }

  ghost predicate AllThere(t: Tree, paths: seq<Path>)
  {
    forall p :: p in paths ==> Has(t, p)
  }

  lemma AvoidsIsApart(ws: seq<Write>)
    requires AvoidsInline(ws)
    ensures ApartFrom(ws, INLINE)
  {
  }

  lemma {:induction false} VisibleFailsExactly(t: Tree, fields: seq<Field>)
    requires IsVisible(t, fields) && AvoidsInline(Writes(fields)) && AllApartFrom(Writes(fields), Refused(fields))
    ensures Merge(t, fields, InjectedDataFirst).1 <==> AllThere(t, Refused(fields))
    decreases fields, 0
  {
    if fields != [] {
      var f, rest := fields[0], fields[1..];
      var (u, ok) := MergeField(t, f, InjectedDataFirst);
      assert forall w :: w in Writes(fields) <==> w in FieldWrites(f) || w in Writes(rest);
      assert forall p :: p in Refused(fields) <==> p in FieldRefused(f) || p in Refused(rest);
      FieldFailsExactly(t, f);
      AvoidsIsApart(FieldWrites(f));
      FieldKeeps(t, f, InjectedDataFirst, INLINE);
      forall p | p in Refused(rest)
        ensures Has(u, p) <==> Has(t, p)
      {
        FieldKeeps(t, f, InjectedDataFirst, p);
      }
      VisibleFailsExactly(u, rest);
    }
  }

  lemma {:induction false} FieldFailsExactly(t: Tree, f: Field)
    requires (f.Inline? ==> !Has(t, INLINE)) && AvoidsInline(FieldWrites(f))
    requires AllApartFrom(FieldWrites(f), FieldRefused(f))
    ensures MergeField(t, f, InjectedDataFirst).1 <==> AllThere(t, FieldRefused(f))
    decreases f, 1
  {
    if f.Inline? {
      VisibleFailsExactly(t, f.fields);
    }
  }

  /** What the fields outside embedded structs refuse and write is part of the whole. */
  lemma {:induction false} OuterIsPart(fields: seq<Field>)
    ensures forall p :: p in Refused(Outer(fields)) ==> p in Refused(fields)
    ensures forall w :: w in Writes(Outer(fields)) ==> w in Writes(fields)
    decreases |fields|
  {
    if fields != [] {
      var f, rest, outer := fields[0], fields[1..], Outer(fields);
      OuterIsPart(rest);
      assert Refused(fields) == FieldRefused(f) + Refused(rest) && Writes(fields) == FieldWrites(f) + Writes(rest);
      if f.Inline? {
        assert outer == Outer(rest);
      } else {
        assert outer[0] == f && outer[1..] == Outer(rest);
      }
    }
  }

  /**
   Under InjectedDataFirst the merge fails exactly if some tag that it comes to, and that the input does not hold, has a
   value that it does not support. A key that hides the embedded structs hides their tags from this, too.
   */
  lemma InjectedDataFirstFailsExactly(t: Tree, fields: seq<Field>)
    requires AvoidsInline(Writes(fields)) && AllApartFrom(Writes(fields), Refused(fields))
    ensures Merge(t, fields, InjectedDataFirst).1 <==>
      forall p :: p in Refused(Reached(t, fields, InjectedDataFirst)) ==> Has(t, p)
  {
    OuterIsPart(fields);
    OuterIsFlat(fields);
    if Has(t, INLINE) {
      HidingKeyDropsEmbedded(t, fields);
      VisibleFailsExactly(t, Outer(fields));
    } else {
      VisibleFailsExactly(t, fields);
    }
  }
}
