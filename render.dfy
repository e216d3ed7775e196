/** prettyPrint (golfscript.js:363-382): the final stack as text. Each value is
    followed by a comma and the last character is cut off at the end; the lemma
    below shows this is the comma-separated list of the renderings. */
module Rendering {
  import opened Values
  import opened Text

  /** One value: numbers in decimal, blocks in braces, strings in single quotes,
      arrays in brackets around their own rendering. */
  function Render(v: Value): (r: string)
    requires Tree(v)
    ensures r != []
    ensures r[0] == '[' <==> v.data.Arr?
    ensures r[0] == '{' <==> v.data.Blk?
    ensures r[0] == '\'' <==> v.data.Str?
    ensures IsDigit(r[0]) || r[0] == '-' <==> v.data.Num?
    reads v.Repr
    decreases v.Repr, 0, 0
  {
    match v.data
    case Num(n) => DecimalText(n)
    case Blk(t) => "{" + t + "}"
    case Str(s) => "'" + s + "'"
    case Arr(es) =>
      ElementsInside(v);
      "[" + PrettyPrint(es) + "]"
  }

  lemma ElementsInside(v: Value)
    requires Tree(v) && v.data.Arr?
    ensures Trees(v.data.elems) && Footprint(v.data.elems) < v.Repr
  {
    forall e | e in v.data.elems
      ensures Tree(e) && e.Repr < v.Repr
    {
      ElementTree(v, e);
    }
    assert v !in Footprint(v.data.elems);
  }

  /** The loop of prettyPrint: every rendering followed by a comma. */
  function Terminated(vs: seq<Value>): (r: string)
    requires Trees(vs)
    ensures |r| >= 2 * |vs|
    reads Footprint(vs)
    decreases Footprint(vs), 1, |vs|
  {
    if vs == [] then ""
    else Terminated(vs[..|vs| - 1]) + Render(vs[|vs| - 1]) + ","
  }

  function PrettyPrint(vs: seq<Value>): (r: string)
    requires Trees(vs)
    ensures r == [] <==> vs == []
    reads Footprint(vs)
    decreases Footprint(vs), 2, 0
  {
    var t := Terminated(vs);
    if t == [] then "" else t[..|t| - 1]
  }

  /** Strings joined with commas between them, none at the end. */
  function Join(parts: seq<string>): string {
    if parts == [] then ""
    else if |parts| == 1 then parts[0]
    else Join(parts[..|parts| - 1]) + "," + parts[|parts| - 1]
  }

  function Renders(vs: seq<Value>): (r: seq<string>)
    requires Trees(vs)
    reads Footprint(vs)
    ensures |r| == |vs|
    ensures forall k :: 0 <= k < |vs| ==> r[k] == Render(vs[k])
  {
    if vs == [] then [] else Renders(vs[..|vs| - 1]) + [Render(vs[|vs| - 1])]
  }

  lemma {:induction false} TerminatedJoins(vs: seq<Value>)
    requires Trees(vs) && vs != []
    ensures Terminated(vs) == Join(Renders(vs)) + ","
  {
    var n := |vs|;
    if n > 1 {
      TerminatedJoins(vs[..n - 1]);
      assert Renders(vs)[..n - 1] == Renders(vs[..n - 1]);
    } else {
      assert vs[..0] == [];
    }
  }

  /** The rendered stack is the comma-separated list of the rendered values. */
  lemma PrettyPrintJoins(vs: seq<Value>)
    requires Trees(vs)
    ensures PrettyPrint(vs) == Join(Renders(vs))
  {
    if vs != [] {
      TerminatedJoins(vs);
      var t := Terminated(vs);
      assert t[..|t| - 1] == Join(Renders(vs));
    }
  }

  /** A deep copy prints exactly like the value it was copied from. */
  lemma {:induction false} CopyRendersAlike(a: Value, b: Value)
    requires Tree(a) && Tree(b) && Alike(a, b)
    ensures Render(a) == Render(b)
    decreases b.Repr
  {
    if b.data.Arr? {
      var xs, ys := a.data.elems, b.data.elems;
      ElementsInside(a);
      ElementsInside(b);
      forall k | 0 <= k < |ys|
        ensures Render(xs[k]) == Render(ys[k])
      {
        ElementTree(a, xs[k]);
        ElementTree(b, ys[k]);
        CopyRendersAlike(xs[k], ys[k]);
      }
      PrettyPrintJoins(xs);
      PrettyPrintJoins(ys);
      assert Renders(xs) == Renders(ys);
    }
  }
}
