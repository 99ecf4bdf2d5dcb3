/**
 TOML documents as trees with lookup and update by path, as the operator uses
 them. Parsing and printing are left to the library.
 */
module Toml {
  import opened Text

  datatype Atom =
    | Number(n: int)
    | Ratio(r: real)
    | Words(s: string)
    | Flag(b: bool)
    | Array(items: seq<Atom>)
    | TableArray(rows: seq<map<string, Atom>>)

  datatype Node = Leaf(atom: Atom) | Table(entries: Tree)

  type Tree = map<string, Node>

  /** The keys of a dotted tag. */
  type Path = p: seq<string> | p != [] witness ["a"]

  function Lookup(t: Tree, p: Path): Option<Node>
    decreases |p|
  {
    if p[0] !in t then None
    else if |p| == 1 then Some(t[p[0]])
    else if t[p[0]].Leaf? then None
    else Lookup(t[p[0]].entries, p[1..])
  }

  predicate Has(t: Tree, p: Path)
  {
    Lookup(t, p).Some?
  }

  /** No proper prefix of the path holds a value, so that the path can be written. */
  predicate Open(t: Tree, p: Path)
    decreases |p|
  {
    |p| == 1 || p[0] !in t || (t[p[0]].Table? && Open(t[p[0]].entries, p[1..]))
  }

  function Below(t: Tree, key: string): Tree
  {
    if key in t && t[key].Table? then t[key].entries else map[]
  }

  /** Intermediate tables are created on the way. */
  function Set(t: Tree, p: Path, n: Node): Tree
    decreases |p|
  {
    t[p[0] := if |p| == 1 then n else Table(Set(Below(t, p[0]), p[1..], n))]
  }

  /** Neither path is a prefix of the other. */
  predicate Apart(p: seq<string>, q: seq<string>)
    decreases |p|
  {
    p != [] && q != [] && (p[0] != q[0] || Apart(p[1..], q[1..]))
  }

  /** The value at a path, if the path ends in a value. */
  function ValueAt(t: Tree, p: Path): Option<Atom>
  {
    var n := Lookup(t, p);
    if n.Some? && n.value.Leaf? then Some(n.value.atom) else None
  }

  function ValueIn(n: Node, rest: seq<string>): Option<Atom>
  {
    if rest == [] then if n.Leaf? then Some(n.atom) else None
    else if n.Table? then ValueAt(n.entries, rest)
    else None
  }

  // ----- Properties -----

  lemma {:induction false} SetGet(t: Tree, p: Path, n: Node)
    ensures Lookup(Set(t, p, n), p) == Some(n)
    decreases |p|
  {
    if |p| > 1 {
      SetGet(Below(t, p[0]), p[1..], n);
    }
  }

  lemma {:induction false} SetOther(t: Tree, p: Path, n: Node, q: Path)
    requires Apart(p, q)
    ensures Lookup(Set(t, p, n), q) == Lookup(t, q)
    decreases |p|
  {
    if p[0] == q[0] {
      SetOther(Below(t, p[0]), p[1..], n, q[1..]);
    }
  }

  lemma {:induction false} SetSame(t: Tree, p: Path, n: Node)
    requires Lookup(t, p) == Some(n)
    ensures Set(t, p, n) == t
    decreases |p|
  {
    if |p| > 1 {
      SetSame(t[p[0]].entries, p[1..], n);
      assert Set(t, p, n) == t[p[0] := t[p[0]]];
    }
  }

  /** What a write puts under the first key depends only on what was below that key. */
  lemma SetLocal(t: Tree, u: Tree, p: Path, n: Node)
    requires Below(t, p[0]) == Below(u, p[0])
    ensures Set(t, p, n)[p[0]] == Set(u, p, n)[p[0]]
    ensures Set(t, p, n) == t[p[0] := Set(t, p, n)[p[0]]]
    ensures |p| > 1 ==> Below(Set(t, p, n), p[0]) == Set(Below(t, p[0]), p[1..], n)
  {
  }

  /** Writes to separate paths commute. */
  lemma {:induction false} SetCommutes(t: Tree, p: Path, n: Node, q: Path, m: Node)
    requires Apart(p, q)
    ensures Set(Set(t, p, n), q, m) == Set(Set(t, q, m), p, n)
    decreases |p|
  {
    var tp, tq := Set(t, p, n), Set(t, q, m);
    SetLocal(t, t, p, n);
    SetLocal(t, t, q, m);
    SetLocal(tp, tp, q, m);
    SetLocal(tq, tq, p, n);
    if p[0] == q[0] {
      SetCommutes(Below(t, p[0]), p[1..], n, q[1..], m);
    } else {
      SetLocal(tp, t, q, m);
      SetLocal(tq, t, p, n);
      var x, y := tp[p[0]], tq[q[0]];
      assert t[p[0] := x][q[0] := y] == t[q[0] := y][p[0] := x];
    }
  }

  /** What one write does to every path of the document. */
  lemma {:induction false} SetValue(t: Tree, p: Path, n: Node, q: Path)
    requires Open(t, p)
    ensures ValueAt(Set(t, p, n), q) == if p <= q then ValueIn(n, q[|p|..]) else ValueAt(t, q)
    decreases |p|
  {
    if p[0] == q[0] && |p| > 1 && |q| > 1 {
      var sub := Below(t, p[0]);
      SetValue(sub, p[1..], n, q[1..]);
      assert p <= q <==> p[1..] <= q[1..];
      assert p <= q ==> q[|p|..] == q[1..][|p[1..]|..];
    } else if p[0] == q[0] && |p| == 1 {
      assert p <= q && q[|p|..] == q[1..];
    }
  }

  /** A path stays writable when separate paths are written. */
  lemma {:induction false} SetKeepsOpen(t: Tree, p: Path, n: Node, q: Path)
    requires Apart(p, q) && Open(t, q)
    ensures Open(Set(t, p, n), q)
    decreases |p|
  {
    if p[0] == q[0] {
      SetKeepsOpen(Below(t, p[0]), p[1..], n, q[1..]);
    }
  }

  lemma {:induction false} ApartSymmetric(p: seq<string>, q: seq<string>)
    requires Apart(p, q)
    ensures Apart(q, p)
    decreases |p|
  {
    if p[0] == q[0] {
      ApartSymmetric(p[1..], q[1..]);
    }
  }

  lemma {:induction false} PrefixIsNotApart(p: seq<string>, q: seq<string>)
    requires p <= q
    ensures !Apart(p, q)
    decreases |p|
  {
    if p != [] {
      PrefixIsNotApart(p[1..], q[1..]);
    }
  }

  lemma {:induction false} ExtensionStaysApart(p: seq<string>, r: seq<string>, q: seq<string>)
    requires Apart(p, q) && p <= r
    ensures Apart(q, r)
    decreases |p|
  {
    if p[0] == q[0] {
      ExtensionStaysApart(p[1..], r[1..], q[1..]);
    }
  }
}
