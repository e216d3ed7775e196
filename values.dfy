/** The value model of golfscript.js: every value is a heap object built by Node
    (golfscript.js:1-6) whose payload the interpreter overwrites in place. Bindings,
    the stack and enclosing arrays hold references, so an update made through one of
    them is seen through all the others. */
module Values {

  /** The `type` and `data` of a node together: the kind is the constructor. */
  datatype Payload =
    | Num(n: int)
    | Str(s: string)
    | Blk(text: string)
    | Arr(elems: seq<Value>)

  class Value {
    var data: Payload
    /** This value and every value reachable through array elements. Elements of an
        array only ever change order, so the set is fixed when the value is made. */
    ghost const Repr: set<Value>

    constructor (d: Payload)
      ensures data == d
      ensures Repr == {this} + Children(d)
    {
      data := d;
      Repr := {this} + Children(d);
    }
  }

  /** The union of the footprints of some values. */
  ghost function Footprint(vs: seq<Value>): set<Value> {
    set v, u | v in vs && u in v.Repr :: u
  }

  ghost function Children(d: Payload): set<Value> {
    if d.Arr? then Footprint(d.elems) else {}
  }

  /** The footprint of every element lies inside the array's own and leaves the
      array itself out: values form a finite acyclic graph of references, in which
      one value may be an element of several arrays, or several times of one. */
  ghost predicate Wf(v: Value)
    reads v
  {
    v in v.Repr &&
    (v.data.Arr? ==> forall e :: e in v.data.elems ==> e in v.Repr && e.Repr <= v.Repr && v !in e.Repr)
  }

  ghost predicate Tree(v: Value)
    reads v.Repr
  {
    v in v.Repr && forall u :: u in v.Repr ==> Wf(u)
  }

  /** No two positions of any array inside v share a node, as in a value made by
      `JSON.parse`, which builds every element afresh. */
  ghost predicate Unshared(v: Value)
    reads v.Repr
  {
    forall u :: u in v.Repr && u.data.Arr? ==>
      forall j, k :: 0 <= j < k < |u.data.elems| ==> u.data.elems[j].Repr !! u.data.elems[k].Repr
  }

  /** An array whose footprint is itself and its elements' is unshared when its
      elements are, and no two of them share a node. */
  lemma ArrayUnshared(c: Value)
    requires c.data.Arr? && c.Repr == {c} + Children(c.data)
    requires forall m :: 0 <= m < |c.data.elems| ==> Unshared(c.data.elems[m])
    requires forall m, m' :: 0 <= m < m' < |c.data.elems| ==> c.data.elems[m].Repr !! c.data.elems[m'].Repr
    ensures Unshared(c)
  {
  }

  ghost predicate Trees(vs: seq<Value>)
    reads Footprint(vs)
  {
    forall k :: 0 <= k < |vs| ==> Tree(vs[k])
  }

  lemma ElementTree(v: Value, e: Value)
    requires Tree(v) && v.data.Arr? && e in v.data.elems
    ensures Tree(e) && e.Repr < v.Repr
  {
    assert Wf(v);
  }

  /** The outcome of `JSON.parse(JSON.stringify(b))`: a has the same shape and
      contents as b, element by element. */
  ghost predicate Alike(a: Value, b: Value)
    requires Tree(a) && Tree(b)
    reads a.Repr, b.Repr
    decreases b.Repr
  {
    assert Wf(a) && Wf(b);
    match b.data
    case Arr(es) =>
      a.data.Arr? && |a.data.elems| == |es| &&
      forall k :: 0 <= k < |es| ==>
        (ElementTree(a, a.data.elems[k]);
         ElementTree(b, es[k]);
         Alike(a.data.elems[k], es[k]))
    case _ => a.data == b.data
  }

  /** Two arrays are alike when their elements are, position by position. */
  lemma ArrayAlike(a: Value, b: Value)
    requires Tree(a) && Tree(b) && a.data.Arr? && b.data.Arr?
    requires |a.data.elems| == |b.data.elems|
    requires forall k :: 0 <= k < |b.data.elems| ==>
               Tree(a.data.elems[k]) && Tree(b.data.elems[k]) && Alike(a.data.elems[k], b.data.elems[k])
    ensures Alike(a, b)
  {
  }

  /** The test of `!`: the number 0, or a string, block or array of length 0. Under
      JavaScript's strict equality a number has no length and no other kind equals 0. */
  predicate Falsy(d: Payload) {
    match d
    case Num(n) => n == 0
    case Str(s) => |s| == 0
    case Blk(t) => |t| == 0
    case Arr(es) => |es| == 0
  }

  /** The payloads `!` turns into 1 are exactly 0 and the four empty ones. */
  lemma FalsyExactly(d: Payload)
    ensures Falsy(d) <==> d == Num(0) || d == Str([]) || d == Blk([]) || d == Arr([])
  {
  }
}
